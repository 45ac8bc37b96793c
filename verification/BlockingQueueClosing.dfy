/**
 `close` sets the flag without taking the mutex, so a waiter that has evaluated its predicate
 and not yet blocked misses both the flag and the notification.  This module says exactly
 when `close` wakes everybody.
 */
module BlockingQueueClosing {
  import opened BlockingQueue
  import opened BlockingQueueTheorems

  predicate Asleep(th: Thread) {
    th.pc.PopAsleep? || th.pc.PushAsleep?
  }

  /** Between the evaluation of the predicate and the block. */
  predicate Dozing(th: Thread) {
    th.pc.PopDoze? || th.pc.PushDoze?
  }

  ghost predicate NobodyDozes(s: State) {
    forall i :: 0 <= i < |s.threads| ==> !Dozing(s.threads[i])
  }

  ghost predicate NobodySleeps(s: State) {
    forall i :: 0 <= i < |s.threads| ==> !Asleep(s.threads[i])
  }

  /** The state after a schedule; actions that are not enabled are skipped. */
  ghost function After(s: State, acts: seq<Action>): State
    decreases |acts|
  {
    if acts == [] then s else After(if Enabled(s, acts[0]) then Do(s, acts[0]) else s, acts[1..])
  }

  predicate InClose(pc: Pc) {
    pc.CloseNotEmpty? || pc.CloseNotFull?
  }

  /** Whatever happens next, once thread `c` has left `close` thread `d` does not sleep. */
  ghost predicate CloseWakes(s: State, c: Tid, d: Tid) {
    forall acts ::
      var s' := After(s, acts);
      c < |s'.threads| && d < |s'.threads| && !InClose(s'.threads[c].pc) ==> !Asleep(s'.threads[d])
  }

  /** Whatever happens next, once thread `c` has left `close` nobody sleeps. */
  ghost predicate CloseWakesAll(s: State, c: Tid) {
    forall acts :: c < |After(s, acts).threads| && !InClose(After(s, acts).threads[c].pc) ==>
        NobodySleeps(After(s, acts))
  }

  /** Thread `d` is awake, or a notification of thread `c` is still to reach it. */
  ghost predicate Waking(s: State, c: Tid, d: Tid) {
    && c < |s.threads| && d < |s.threads| && s.c.closed && !Dozing(s.threads[d])
    && (s.threads[c].pc.CloseNotEmpty? ||
        (!ConsumerSleeps(s.threads[d]) && (s.threads[c].pc.CloseNotFull? || !ProducerSleeps(s.threads[d]))))
  }

  lemma ClosedNobodyDozesOff(c: Core, i: Tid, th: Thread)
    requires c.closed && !Dozing(th)
    ensures var (c', th') := Local(c, i, th); c'.closed && !Dozing(th') && (Asleep(th') ==> th' == th)
  {
  }

  lemma ClosedStays(c: Core, i: Tid, th: Thread)
    ensures c.closed ==> Local(c, i, th).0.closed
  {
  }

  lemma WakingStep(s: State, a: Action, c: Tid, d: Tid)
    requires Waking(s, c, d) && Enabled(s, a)
    ensures Waking(Do(s, a), c, d)
  {
    if a.Run? { WakingThread(s, a.i, a.j, c, d); }
  }

  lemma WakingThread(s: State, i: Tid, j: Tid, c: Tid, d: Tid)
    requires Waking(s, c, d) && Enabled(s, Run(i, j))
    ensures Waking(Step(s, i, j), c, d)
  {
    hide Local;
    if d == i { ClosedNobodyDozesOff(s.c, i, s.threads[i]); } else { WakesOnly(s.threads[i].pc, s.threads, j, d); }
    ClosedStays(s.c, i, s.threads[i]);
    if c != i { WakesOnly(s.threads[i].pc, s.threads, j, c); }
    CloserMoves(s, i, j, c, d);
  }

  lemma CloserMoves(s: State, i: Tid, j: Tid, c: Tid, d: Tid)
    requires c < |s.threads| && d < |s.threads| && Enabled(s, Run(i, j))
    ensures var s' := Step(s, i, j);
            && (s.threads[c].pc.CloseNotEmpty? && !s'.threads[c].pc.CloseNotEmpty? ==>
                  s'.threads[c].pc.CloseNotFull? && !ConsumerSleeps(s'.threads[d]))
            && (s.threads[c].pc.CloseNotFull? && !s'.threads[c].pc.CloseNotFull? ==> !ProducerSleeps(s'.threads[d]))
            && (InClose(s'.threads[c].pc) || !InClose(s.threads[c].pc) || c == i)
  {
  }

  lemma {:induction false} WakingAfter(s: State, acts: seq<Action>, c: Tid, d: Tid)
    requires Waking(s, c, d)
    ensures Waking(After(s, acts), c, d)
    decreases |acts|
  {
    hide Waking, Do, Enabled;
    if acts != [] && Enabled(s, acts[0]) {
      InRange(s, acts[0]);
      WakingStep(s, acts[0], c, d);
      WakingAfter(Do(s, acts[0]), acts[1..], c, d);
    } else if acts != [] {
      WakingAfter(s, acts[1..], c, d);
    }
  }

  /** A thread that is about to block can do so after both notifications. */
  lemma DozesOff(s: State, c: Tid, d: Tid)
    requires c < |s.threads| && s.threads[c].pc.CloseNotEmpty?
    requires d < |s.threads| && Dozing(s.threads[d])
    ensures var s' := After(s, [Run(c, c), Run(c, c), Run(d, d)]);
            |s'.threads| == |s.threads| && s'.threads[c].pc.Idle? && Asleep(s'.threads[d]) && s'.c.closed == s.c.closed
  {
    var s1 := Do(s, Run(c, c));
    assert s1.threads[c].pc.CloseNotFull? && s1.threads[d] == s.threads[d];
    var s2 := Do(s1, Run(c, c));
    assert s2.threads[c].pc.Idle? && s2.threads[d] == s.threads[d];
    var s3 := Do(s2, Run(d, d));
    assert s3.threads[c] == s2.threads[c];
    assert [Run(c, c), Run(c, c), Run(d, d)][1..] == [Run(c, c), Run(d, d)];
    assert [Run(c, c), Run(d, d)][1..] == [Run(d, d)];
    assert After(s2, [Run(d, d)]) == After(s3, []) == s3;
    assert After(s1, [Run(c, c), Run(d, d)]) == s3;
  }

  /** `close` wakes a waiter exactly when, as it sets the flag, that waiter is not about to block. */
  lemma CloseWakesIff(s: State, c: Tid, d: Tid)
    requires c < |s.threads| && s.threads[c].pc.CloseNotEmpty? && s.c.closed && d < |s.threads|
    ensures CloseWakes(s, c, d) <==> !Dozing(s.threads[d])
  {
    if Dozing(s.threads[d]) {
      DozesOff(s, c, d);
      assert Asleep(After(s, [Run(c, c), Run(c, c), Run(d, d)]).threads[d]);
    } else {
      forall acts ensures Waking(After(s, acts), c, d) { WakingAfter(s, acts, c, d); }
    }
  }

  /** `close` wakes every waiter exactly when, as it sets the flag, nobody is about to block. */
  lemma CloseWakesAllIff(s: State, c: Tid)
    requires c < |s.threads| && s.threads[c].pc.CloseNotEmpty? && s.c.closed
    ensures CloseWakesAll(s, c) <==> NobodyDozes(s)
  {
    if NobodyDozes(s) {
      forall acts | c < |After(s, acts).threads| && !InClose(After(s, acts).threads[c].pc)
        ensures NobodySleeps(After(s, acts))
      {
        SameCount(s, acts);
        forall d | 0 <= d < |s.threads| ensures !Asleep(After(s, acts).threads[d]) { WakingAfter(s, acts, c, d); }
      }
    } else {
      var d :| 0 <= d < |s.threads| && Dozing(s.threads[d]);
      DozesOff(s, c, d);
      assert !NobodySleeps(After(s, [Run(c, c), Run(c, c), Run(d, d)]));
    }
  }

  lemma {:induction false} SameCount(s: State, acts: seq<Action>)
    ensures |After(s, acts).threads| == |s.threads|
    decreases |acts|
  {
    if acts != [] {
      SameCount(if Enabled(s, acts[0]) then Do(s, acts[0]) else s, acts[1..]);
    }
  }

  lemma Then(ss: seq<State>, acts: seq<Action>, a: Action) returns (ss': seq<State>, acts': seq<Action>)
    requires IsRun(ss, acts) && Enabled(ss[|acts|], a)
    ensures IsRun(ss', acts') && |ss'| == |acts'| + 1 && a.i < |ss[|acts|].threads|
    ensures (a.Run? ==> a.j < |ss[|acts|].threads|) && ss'[|acts'|] == Do(ss[|acts|], a)
  {
    InRange(ss[|acts|], a);
    hide Do, Enabled, Init;
    ss', acts' := ss + [Do(ss[|acts|], a)], acts + [a];
  }

  /** Thread 0 pops, thread 1 closes. */
  function Scene(cap: nat, closed: bool, lock: Lock, pop: Pc, close: Pc): State {
    State(Core([], cap, closed, lock, [], []), [Thread(pop, false), Thread(close, false)])
  }

  lemma AboutToBlock(cap: nat) returns (ss: seq<State>, acts: seq<Action>)
    ensures IsRun(ss, acts) && |ss| == |acts| + 1
    ensures ss[|acts|] == Scene(cap, false, LockedBy(0), PopDoze, Idle(NoCall))
  {
    hide IsRun;
    ss, acts := [Scene(cap, false, Unlocked, Idle(NoCall), Idle(NoCall))], [];
    assert IsRun(ss, acts) by { Initially(cap); }
    ss, acts := Then(ss, acts, CallPop(0, false));
    ss, acts := Then(ss, acts, Run(0, 0));
    ss, acts := Then(ss, acts, Run(0, 0));
  }

  lemma Initially(cap: nat)
    ensures IsRun([Scene(cap, false, Unlocked, Idle(NoCall), Idle(NoCall))], [])
  {
  }

  /**
   A run, for every capacity, in which `close` has returned and a consumer has gone to sleep after both its
   notifications.
   */
  lemma MissesTheWakeUp(cap: nat) returns (ss: seq<State>, acts: seq<Action>)
    ensures IsRun(ss, acts) && |ss| == |acts| + 1 && ss[0].c.cap == cap
    ensures ss[|acts|] == Scene(cap, true, Unlocked, PopAsleep, Idle(NoCall))
  {
    ss, acts := AboutToBlock(cap);
    hide IsRun, Init;
    ss, acts := Then(ss, acts, CallClose(1));
    ss, acts := Then(ss, acts, Run(1, 1));
    assert ss[|acts|] == Scene(cap, true, LockedBy(0), PopDoze, CloseNotEmpty);
    ss, acts := Then(ss, acts, Run(1, 1));
    ss, acts := Then(ss, acts, Run(1, 1));
    assert ss[|acts|] == Scene(cap, true, LockedBy(0), PopDoze, Idle(NoCall));
    ss, acts := Then(ss, acts, Run(0, 0));
    CapKept(ss, acts);
  }

  lemma {:induction false} CapKept(ss: seq<State>, acts: seq<Action>)
    requires IsRun(ss, acts)
    ensures ss[|acts|].c.cap == ss[0].c.cap
    decreases |acts|
  {
    if acts != [] {
      var n := |acts| - 1;
      assert ss[n + 1] == Do(ss[n], acts[n]);
      assert IsRun(ss[..n + 1], acts[..n]);
      CapKept(ss[..n + 1], acts[..n]);
    }
  }

  /** After the queue is finished, in every later state of the run, nothing is accepted. */
  lemma {:induction false} FinishedInRun(ss: seq<State>, acts: seq<Action>, k: nat, m: nat)
    requires IsRun(ss, acts) && k <= m < |ss| && Finished(ss[k])
    ensures Finished(ss[m]) && ss[m].c.accepted == ss[k].c.accepted && ss[m].c.delivered == ss[k].c.delivered
    decreases m - k
  {
    hide Finished, Do, Enabled, Inv, Init, Safe;
    if k < m {
      FinishedInRun(ss, acts, k, m - 1);
      InRange(ss[m - 1], acts[m - 1]);
      assert ss[(m - 1) + 1] == Do(ss[m - 1], acts[m - 1]);
      RunKeepsInv(ss, acts, m - 1);
      InvIsSafe(ss[m - 1]);
      FinishedForever(ss[m - 1], acts[m - 1]);
    }
  }

  lemma InvIsSafe(s: State)
    requires Inv(s)
    ensures Safe(s)
  {
  }

  // ---- Pushes after the end ----

  /** Inside a push that has not stored its value, or back from one that was refused. */
  predicate Refused(pc: Pc) {
    pc.PushEnter? || pc.PushTest? || pc.PushCheck? || pc == Idle(Pushed(false))
  }

  lemma RefusedStays(s: State, a: Action, i: Tid)
    requires Safe(s) && Finished(s) && Enabled(s, a) && i < |s.threads| && Refused(s.threads[i].pc)
    requires (a.i == i ==> a.Run?)
    ensures Refused(Do(s, a).threads[i].pc)
  {
    if a.Run? && a.i != i { WakesOnly(s.threads[a.i].pc, s.threads, a.j, i); }
    if a.Run? { hide Wakes; }
  }

  /** A push that is called after the queue is finished returns false. */
  lemma {:induction false} LaterPushIsRefused(ss: seq<State>, acts: seq<Action>, k: nat, a: nat, m: nat, i: Tid,
      v: Value)
    requires IsRun(ss, acts) && k <= a < m < |ss| && Finished(ss[k]) && acts[a] == CallPush(i, v)
    requires forall x :: a < x < m && acts[x].i == i ==> acts[x].Run?
    ensures i < |ss[m].threads| && Refused(ss[m].threads[i].pc)
    ensures ss[m].threads[i].pc.Idle? ==> ss[m].threads[i].pc.result == Pushed(false)
    decreases m
  {
    hide Finished, Inv, Init, Safe;
    InRange(ss[m - 1], acts[m - 1]);
    assert ss[(m - 1) + 1] == Do(ss[m - 1], acts[m - 1]);
    if a + 1 < m {
      LaterPushIsRefused(ss, acts, k, a, m - 1, i, v);
      FinishedInRun(ss, acts, k, m - 1);
      RunKeepsInv(ss, acts, m - 1);
      InvIsSafe(ss[m - 1]);
      RefusedStays(ss[m - 1], acts[m - 1], i);
    }
  }
}
