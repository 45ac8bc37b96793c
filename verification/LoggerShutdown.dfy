/**
 `shutdown` closes the queue and joins the writer.  The flag is set without the mutex, so a writer that is about to
 block misses it, and the join waits for a writer that sleeps.
 */
module LoggerShutdown {
  import opened BlockingQueue
  import Q = BlockingQueueTheorems
  import C = BlockingQueueClosing
  import opened Logger
  import opened LoggerTheorems

  // ---- When the writer is sure to be woken ----

  /** Whatever happens next, once client `c` has left `close` the writer does not sleep. */
  ghost predicate WriterIsWoken(l: Log, c: Tid) {
    forall ls: seq<Log>, ms: seq<Move> :: IsPath(ls, ms) && ls[0] == l ==>
      var q := ls[|ms|].q;
      c < |q.threads| && 0 < |q.threads| && !C.InClose(q.threads[c].pc) ==> !q.threads[0].pc.PopAsleep?
  }

  /** In the queue, a move of the logger is an action of the queue, or nothing at all. */
  lemma MoveIsAction(l: Log, m: Move)
    requires May(l, m)
    ensures Next(l, m).q == l.q ||
            exists a :: Enabled(l.q, a) && a.i < |l.q.threads| && (a.Run? ==> a.j < |l.q.threads|) &&
                        Next(l, m).q == Do(l.q, a)
  {
    match m {
      case Queue(a) => Q.InRange(l.q, a);
      case Write => if l.writer.Calling? { assert Enabled(l.q, CallPop(0, false)); }
      case Enter(i, v) => assert Enabled(l.q, CallPush(i, v));
      case Shutdown(i) => assert Enabled(l.q, CallClose(i));
      case _ =>
    }
  }

  lemma WakingMove(l: Log, m: Move, c: Tid)
    requires May(l, m) && C.Waking(l.q, c, 0)
    ensures C.Waking(Next(l, m).q, c, 0)
  {
    MoveIsAction(l, m);
    hide Next, C.Waking, Enabled, Do;
    if Next(l, m).q != l.q {
      var a :| Enabled(l.q, a) && a.i < |l.q.threads| && (a.Run? ==> a.j < |l.q.threads|) && Next(l, m).q == Do(l.q, a);
      C.WakingStep(l.q, a, c, 0);
    }
  }

  lemma {:induction false} WakingPath(ls: seq<Log>, ms: seq<Move>, c: Tid, k: nat)
    requires IsPath(ls, ms) && C.Waking(ls[0].q, c, 0) && k < |ls|
    ensures C.Waking(ls[k].q, c, 0)
  {
    hide Next, May, C.Waking;
    if k > 0 {
      WakingPath(ls, ms, c, k - 1);
      assert Leads(ls[k - 1], ms[k - 1], ls[(k - 1) + 1]);
      WakingMove(ls[k - 1], ms[k - 1], c);
    }
  }

  /** A writer that is about to block can do so after both notifications. */
  lemma WriterDozesOff(l: Log, c: Tid) returns (ls: seq<Log>, ms: seq<Move>)
    requires 0 < c < |l.q.threads| && l.q.threads[c].pc.CloseNotEmpty? && l.q.threads[0].pc.PopDoze?
    ensures IsPath(ls, ms) && ls[0] == l
    ensures var q := ls[|ms|].q; |q.threads| == |l.q.threads| && q.threads[c].pc.Idle? && q.threads[0].pc.PopAsleep?
  {
    var l1 := Next(l, Queue(Run(c, c)));
    assert l1.q.threads[c].pc.CloseNotFull? && l1.q.threads[0] == l.q.threads[0];
    var l2 := Next(l1, Queue(Run(c, c)));
    assert l2.q.threads[c].pc.Idle? && l2.q.threads[0] == l.q.threads[0];
    var l3 := Next(l2, Queue(Run(0, 0)));
    ls, ms := [l, l1, l2, l3], [Queue(Run(c, c)), Queue(Run(c, c)), Queue(Run(0, 0))];
    assert Leads(l, Queue(Run(c, c)), l1) && Leads(l1, Queue(Run(c, c)), l2) && Leads(l2, Queue(Run(0, 0)), l3);
  }

  /** `shutdown` is sure to wake the writer exactly when, as the flag is set, the writer is not about to block. */
  lemma ShutdownWakesIff(l: Log, c: Tid)
    requires Inv(l) && 0 < c < |l.q.threads| && l.q.threads[c].pc.CloseNotEmpty?
    ensures WriterIsWoken(l, c) <==> !l.q.threads[0].pc.PopDoze?
  {
    if l.q.threads[0].pc.PopDoze? {
      var ls, ms := WriterDozesOff(l, c);
      assert !C.InClose(ls[|ms|].q.threads[c].pc);
    } else {
      WakingAtFirst(l, c);
      forall ls: seq<Log>, ms: seq<Move> | IsPath(ls, ms) && ls[0] == l ensures C.Waking(ls[|ms|].q, c, 0) {
        WakingPath(ls, ms, c, |ms|);
      }
    }
  }

  lemma WakingAtFirst(l: Log, c: Tid)
    requires Inv(l) && 0 < c < |l.q.threads| && l.q.threads[c].pc.CloseNotEmpty? && !l.q.threads[0].pc.PopDoze?
    ensures C.Waking(l.q, c, 0)
  {
    hide CountsOk;
    assert Q.Knows(l.q.c, c, l.q.threads[c].pc);
  }

  // ---- A shutdown that does not return ----

  /** Client `c` joins the writer, which sleeps, and no thread is on its way to wake it. */
  ghost predicate Stuck(l: Log, c: Tid) {
    && 0 < c < |l.clients| == |l.q.threads| && l.clients[c].Joining? && l.writer.InPop? && l.q.c.closed
    && l.q.threads[0] == Thread(PopAsleep, false)
    && forall k :: 0 <= k < |l.q.threads| ==>
         var pc := l.q.threads[k].pc; !pc.PushStore? && !pc.PushSignal? && !pc.CloseStore? && !pc.CloseNotEmpty?
  }

  predicate Rouses(m: Move) {
    m == Queue(Spurious(0)) || m.Shutdown?
  }

  lemma StuckStays(l: Log, m: Move, c: Tid)
    requires Stuck(l, c) && May(l, m) && !Rouses(m)
    ensures Stuck(Next(l, m), c)
  {
    if m.Queue? && m.a.Run? { StuckStep(l, m.a.i, m.a.j, c); }
  }

  lemma StuckStep(l: Log, i: Tid, j: Tid, c: Tid)
    requires Stuck(l, c) && Enabled(l.q, Run(i, j))
    ensures Stuck(Next(l, Queue(Run(i, j))), c)
  {
    forall k | 0 <= k < |l.q.threads| && k != i
      ensures var th := Wakes(l.q.threads[i].pc, l.q.threads, j)[k];
              th == l.q.threads[k] || th == Wake(l.q.threads[k])
    {
      Q.WakesOnly(l.q.threads[i].pc, l.q.threads, j, k);
    }
    ConsumersSleepOn(l.q.threads[i].pc, l.q.threads, j);
    hide Wakes;
  }

  lemma ConsumersSleepOn(pc: Pc, ths: seq<Thread>, j: Tid)
    requires j < |ths| && 0 < |ths| && ths[0].pc.PopAsleep? && !pc.PushSignal? && !pc.CloseNotEmpty?
    ensures Wakes(pc, ths, j)[0] == ths[0]
  {
  }

  /** Without a spurious wake-up and without another shutdown, a stuck shutdown stays stuck. */
  lemma {:induction false} StuckForever(ls: seq<Log>, ms: seq<Move>, c: Tid, k: nat)
    requires IsPath(ls, ms) && Stuck(ls[0], c) && k < |ls| && forall x :: 0 <= x < |ms| ==> !Rouses(ms[x])
    ensures Stuck(ls[k], c)
  {
    hide Next, May, Stuck, Rouses;
    if k > 0 {
      StuckForever(ls, ms, c, k - 1);
      assert Leads(ls[k - 1], ms[k - 1], ls[(k - 1) + 1]);
      StuckStays(ls[k - 1], ms[k - 1], c);
    }
  }

  /** The writer's thread and the one that shuts down. */
  function Scene(closed: bool, lock: Lock, pop: Pc, close: Pc, c: Client): Log {
    Log(State(Core([], 1000, closed, lock, [], []), [Thread(pop, false), Thread(close, false)]), InPop, [Out, c], [],
        0, 0)
  }

  lemma AboutToBlock() returns (ls: seq<Log>, ms: seq<Move>)
    ensures IsRun(ls, ms) && |ls| == |ms| + 1 && ls[|ms|] == Scene(false, LockedBy(0), PopDoze, Idle(NoCall), Out)
  {
    hide IsRun;
    var idle := Thread(Idle(NoCall), false);
    ls, ms := [Log(State(Core([], 1000, false, Unlocked, [], []), [idle, idle]), Calling, [Out, Out], [], 0, 0)], [];
    Initially(ls[0]);
    ls, ms := Then(ls, ms, Write);
    assert ls[|ms|] == Scene(false, Unlocked, PopEnter, Idle(NoCall), Out);
    ls, ms := Then(ls, ms, Queue(Run(0, 0)));
    ls, ms := Then(ls, ms, Queue(Run(0, 0)));
  }

  /** A run whose `shutdown` waits for a writer that sleeps, and will go on waiting. */
  lemma ShutdownHangs() returns (ls: seq<Log>, ms: seq<Move>)
    ensures IsRun(ls, ms) && |ls| == |ms| + 1 && Stuck(ls[|ms|], 1)
  {
    ls, ms := AboutToBlock();
    hide IsRun;
    ls, ms := Then(ls, ms, Shutdown(1));
    ls, ms := Then(ls, ms, Queue(Run(1, 1)));
    assert ls[|ms|] == Scene(true, LockedBy(0), PopDoze, CloseNotEmpty, InClose);
    ls, ms := Then(ls, ms, Queue(Run(1, 1)));
    ls, ms := Then(ls, ms, Queue(Run(1, 1)));
    assert ls[|ms|] == Scene(true, LockedBy(0), PopDoze, Idle(NoCall), InClose);
    ls, ms := Then(ls, ms, Go(1));
    ls, ms := Then(ls, ms, Queue(Run(0, 0)));
    assert ls[|ms|] == Scene(true, Unlocked, PopAsleep, Idle(NoCall), Joining);
  }
}
