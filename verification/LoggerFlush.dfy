/**
 What `flush` guarantees.  It waits until as many messages are written as had been counted when it was called; messages
 are counted after they are pushed.  So it waits for all that were accepted exactly when all of them had been counted,
 or all of them had been written already.
 */
module LoggerFlush {
  import Counting
  import opened BlockingQueue
  import Q = BlockingQueueTheorems
  import opened Logger
  import opened LoggerTheorems

  /** The `flush` of client `i` that begins at `a` returns at `b`. */
  ghost predicate FlushSpans(ls: seq<Log>, ms: seq<Move>, i: Tid, a: nat, b: nat)
    requires |ls| == |ms| + 1
  {
    && a < b < |ms| && ms[a] == Flush(i) && ms[b] == Go(i)
    && (forall k :: a < k < b ==> ms[k] == Go(i) ==> i < |ls[k + 1].clients| && ls[k + 1].clients[i].Flushing?)
    && i < |ls[b + 1].clients| && ls[b + 1].clients[i].Out?
  }

  lemma {:induction false} TargetIsKept(ls: seq<Log>, ms: seq<Move>, i: Tid, a: nat, b: nat, k: nat)
    requires IsPath(ls, ms) && FlushSpans(ls, ms, i, a, b) && a < k <= b
    ensures i < |ls[k].clients| && ls[k].clients[i] == Flushing(ls[a].enqueued)
  {
    hide Do, Enabled;
    if a + 1 < k { TargetIsKept(ls, ms, i, a, b, k - 1); }
    assert Leads(ls[k - 1], ms[k - 1], ls[(k - 1) + 1]);
    if ms[k - 1].Write? { assert ls[k].clients == ls[k - 1].clients; }
  }

  /**
   When `flush` returns, at least as many messages are written as had been counted when it was called, in the order of
   acceptance.
   */
  lemma FlushWaits(ls: seq<Log>, ms: seq<Move>, i: Tid, a: nat, b: nat)
    requires IsPath(ls, ms) && Inv(ls[0]) && FlushSpans(ls, ms, i, a, b)
    ensures ls[a].enqueued <= |ls[b].written| && ls[b].written <= ls[b].q.c.accepted
    ensures ls[a].q.c.accepted <= ls[b].q.c.accepted
  {
    hide Do, Enabled, Inv, Q.Finished;
    TargetIsKept(ls, ms, i, a, b, b);
    assert Leads(ls[b], ms[b], ls[b + 1]);
    PathKeepsInv(ls, ms, b);
    PrefixAt(ls[b]);
    PathGrows(ls, ms, a, b);
  }

  /** Every `flush` that client `i` calls now returns only when all messages accepted so far are written. */
  ghost predicate FlushIsComplete(l: Log, i: Tid) {
    forall ls: seq<Log>, ms: seq<Move> ::
      IsPath(ls, ms) && ls[0] == l && 0 < |ms| && FlushSpans(ls, ms, i, 0, |ms| - 1) ==>
        l.q.c.accepted <= ls[|ms| - 1].written
  }

  /** All messages are counted exactly when no caller is between its push and its count. */
  lemma AllCountedIff(l: Log)
    requires Inv(l)
    ensures |l.clients| == |l.q.threads|
    ensures l.enqueued == |l.q.c.accepted| <==> forall k :: 0 <= k < |l.clients| ==> !Uncounted(Members(l)[k])
  {
    hide Q.Inv, Uncounted, Q.Finished;
    if forall k :: 0 <= k < |l.clients| ==> !Uncounted(Members(l)[k]) {
      Counting.CountNone(Members(l), Uncounted);
    } else if Counting.Count(Members(l), Uncounted) == 0 {
      var k :| 0 <= k < |l.clients| && Uncounted(Members(l)[k]);
      Counting.CountUpdate(Members(l), k, Members(l)[k], Uncounted);
    }
  }

  // ---- Driving the writer ----

  /** How far the writer is from counting one more message. */
  function WriterRank(w: Writer, pc: Pc): nat {
    match w
    case Tallying => 1
    case Writing(_) => 2
    case Calling => 11
    case Done => 0
    case InPop =>
      if pc.Idle? then 3
      else if pc.PopLeave? then 4
      else if pc.PopSignal? then 5
      else if pc.PopTake? then 6
      else if pc.PopCheck? then 7
      else if pc.PopTest? then 8
      else if WantsLock(pc) then 9
      else 10
  }

  /** How far the holder of the mutex is from releasing it. */
  function HolderRank(q: State): nat {
    if q.c.lock == Unlocked || |q.threads| <= q.c.lock.i then 0
    else if q.threads[q.c.lock.i].pc.PushTest? then 3
    else if q.threads[q.c.lock.i].pc.PushCheck? then 2
    else 1
  }

  function ToCount(l: Log): nat
    requires 0 < |l.q.threads|
  {
    4 * WriterRank(l.writer, l.q.threads[0].pc)
    + if l.writer.InPop? && WantsLock(l.q.threads[0].pc) then HolderRank(l.q) else 0
  }

  /** As long as a message is not counted as processed, the writer has something to do and will not end. */
  lemma WriterHasWork(l: Log)
    requires Inv(l) && l.processed < |l.q.c.accepted|
    ensures 0 < |l.q.threads| && !l.writer.Done?
    ensures l.writer.InPop? ==>
              var pc := l.q.threads[0].pc;
              && WriterOk(InPop, l.q.threads[0]) && !pc.PopDoze? && (pc.Idle? ==> pc.result.Popped?)
              && (pc.PopTest? || pc.PopCheck? || pc.PopTake? ==> l.q.c.deque != [])
  {
    hide Counting.Count, Members;
    assert Q.Knows(l.q.c, 0, l.q.threads[0].pc);
    assert |l.q.c.accepted| == |l.q.c.delivered| + |l.q.c.deque|;
  }

  /** Whoever else holds the mutex is inside a push and releases it soon. */
  lemma HolderPushes(l: Log)
    requires Inv(l) && l.writer.InPop? && WantsLock(l.q.threads[0].pc) && l.q.c.lock != Unlocked
    ensures var k := l.q.c.lock.i;
            && 0 < k < |l.q.threads|
            && var pc := l.q.threads[k].pc; pc.PushTest? || pc.PushDoze? || pc.PushCheck? || pc.PushStore?
  {
    hide CountsOk;
    var k := l.q.c.lock.i;
    assert Q.Knows(l.q.c, 0, l.q.threads[0].pc);
    assert Q.Knows(l.q.c, k, l.q.threads[k].pc);
    assert ClientOk(l.clients[k], l.q.threads[k]);
  }

  /** A writer that sleeps next to a message will be woken: a producer is about to notify it. */
  lemma SomebodyNotifies(l: Log)
    requires Inv(l) && l.processed < |l.q.c.accepted| && l.writer.InPop? && l.q.threads[0].pc.PopAsleep?
    ensures exists k: Tid :: k < |l.q.threads| && l.q.threads[k].pc.PushSignal?
  {
    var ths := l.q.threads;
    assert |l.q.c.deque| > 0 by { hide Counting.Count, Members; }
    assert ConsumerSleeps(ths[0]);
    assert Q.SomeSleeps(ths, ConsumerSleeps);
    forall k | 0 <= k < |ths| ensures !Q.ConsumerAwake(ths[k]) {
      if k > 0 { assert ClientOk(l.clients[k], ths[k]); }
    }
    Counting.CountNone(ths, Q.ConsumerAwake);
    var k := Counting.CountSome(ths, Q.ItemSignal);
    assert ths[k].pc.PushSignal?;
  }

  /** Some sleeper, if there is one: whom `notify_one` may pick. */
  ghost function Sleeper(ths: seq<Thread>): (j: Tid)
    requires ths != []
    ensures MayPick(ths, ProducerSleeps, j)
  {
    if exists j: Tid :: j < |ths| && ProducerSleeps(ths[j])
    then var j: Tid :| j < |ths| && ProducerSleeps(ths[j]); j
    else 0
  }

  /** The move that brings the writer nearer to its next count. */
  ghost function DriveMove(l: Log): Move
    requires 0 < |l.q.threads|
  {
    var pc := l.q.threads[0].pc;
    if !l.writer.InPop? || pc.Idle? then Write
    else if pc.PopAsleep? then
      if exists k: Tid :: k < |l.q.threads| && l.q.threads[k].pc.PushSignal?
      then var k: Tid :| k < |l.q.threads| && l.q.threads[k].pc.PushSignal?; Queue(Run(k, 0))
      else Write
    else if WantsLock(pc) && l.q.c.lock != Unlocked then Queue(Run(l.q.c.lock.i, l.q.c.lock.i))
    else if pc.PopSignal? then Queue(Run(0, Sleeper(l.q.threads)))
    else Queue(Run(0, 0))
  }

  lemma WriterMayMove(l: Log)
    requires Inv(l) && l.processed < |l.q.c.accepted|
    ensures 0 < |l.q.threads| && May(l, DriveMove(l))
  {
    WriterHasWork(l);
    if l.writer.InPop? && l.q.threads[0].pc.PopAsleep? { SomebodyNotifies(l); }
    if l.writer.InPop? && WantsLock(l.q.threads[0].pc) && l.q.c.lock != Unlocked { HolderPushes(l); }
    hide Q.Inv, CountsOk;
  }

  /** Outside the queue, and in the queue once it has the mutex. */
  lemma WriterDescends(l: Log)
    requires Inv(l) && l.processed < |l.q.c.accepted| && May(l, DriveMove(l)) && 0 < |l.q.threads|
    requires !(l.writer.InPop? && WantsLock(l.q.threads[0].pc) && l.q.c.lock != Unlocked)
    ensures var l' := Next(l, DriveMove(l));
            && |l'.q.threads| == |l.q.threads| && l'.clients == l.clients
            && (if l.writer.Tallying? then l'.processed == l.processed + 1 && l'.writer == Calling
                else l'.processed == l.processed && ToCount(l') < ToCount(l))
  {
    WriterHasWork(l);
    if l.writer.InPop? && l.q.threads[0].pc.PopAsleep? { SomebodyNotifies(l); }
    hide Q.Inv, CountsOk, RolesOk, Sleeper;
  }

  lemma HolderDescends(l: Log)
    requires Inv(l) && May(l, DriveMove(l)) && 0 < |l.q.threads|
    requires l.writer.InPop? && WantsLock(l.q.threads[0].pc) && l.q.c.lock != Unlocked
    ensures var l' := Next(l, DriveMove(l));
            && |l'.q.threads| == |l.q.threads| && l'.clients == l.clients && l'.processed == l.processed
                 && l'.writer == l.writer
            && ToCount(l') < ToCount(l)
  {
    HolderPushes(l);
    hide Q.Inv, CountsOk, RolesOk, Sleeper;
  }

  /** A step of the writer, or of a thread inside the queue. */
  predicate IsStep(m: Move) {
    m.Write? || (m.Queue? && m.a.Run?)
  }

  /** A stretch of a run in which no client does anything outside the queue and nobody wakes spuriously. */
  ghost predicate Drive(ls: seq<Log>, ms: seq<Move>) {
    IsPath(ls, ms) && forall k :: 0 <= k < |ms| ==> IsStep(ms[k])
  }

  lemma Prepend(l: Log, m: Move, ls: seq<Log>, ms: seq<Move>)
    requires May(l, m) && IsStep(m) && Drive(ls, ms) && ls[0] == Next(l, m)
    ensures Drive([l] + ls, [m] + ms) && ([l] + ls)[|[m] + ms|] == ls[|ms|]
  {
    hide May, Next;
    var ls', ms' := [l] + ls, [m] + ms;
    forall k | 0 <= k < |ms'| ensures Leads(ls'[k], ms'[k], ls'[k + 1]) {
      if k > 0 { assert Leads(ls[k - 1], ms[k - 1], ls[(k - 1) + 1]); }
    }
  }

  /** The writer can always be brought to count one more message. */
  lemma {:induction false} CountsOneMore(l: Log) returns (ls: seq<Log>, ms: seq<Move>)
    requires Inv(l) && l.processed < |l.q.c.accepted| && 0 < |l.q.threads|
    ensures Drive(ls, ms) && ls[0] == l
    ensures var l' := ls[|ms|]; l'.clients == l.clients && l'.processed == l.processed + 1 && l'.writer == Calling
    decreases ToCount(l)
  {
    hide Inv, May, Next, ToCount;
    WriterMayMove(l);
    var m := DriveMove(l);
    var l' := Next(l, m);
    MoveKeepsInv(l, m);
    if l.writer.InPop? && WantsLock(l.q.threads[0].pc) && l.q.c.lock != Unlocked {
      HolderDescends(l);
    } else {
      WriterDescends(l);
    }
    var rest, more := [l'], [];
    if !l.writer.Tallying? {
      AcceptedGrows(l, m);
      rest, more := CountsOneMore(l');
    }
    Prepend(l, m, rest, more);
    ls, ms := [l] + rest, [m] + more;
  }

  lemma AcceptedGrows(l: Log, m: Move)
    requires Inv(l) && May(l, m)
    ensures |l.q.c.accepted| <= |Next(l, m).q.c.accepted|
  {
    hide Inv, May, Next;
    MoveGrows(l, m);
    hide Q.Finished;
  }

  lemma Joined(ls: seq<Log>, ms: seq<Move>, ls': seq<Log>, ms': seq<Move>)
    requires IsPath(ls, ms) && IsPath(ls', ms') && ls[|ms|] == ls'[0]
    ensures IsPath(ls + ls'[1..], ms + ms') && (ls + ls'[1..])[|ms + ms'|] == ls'[|ms'|] && (ls + ls'[1..])[0] == ls[0]
  {
    hide Leads;
    var all, moves := ls + ls'[1..], ms + ms';
    forall k | 0 <= k < |moves| ensures Leads(all[k], moves[k], all[k + 1]) {
      if k < |ms| {
        assert Leads(ls[k], ms[k], ls[k + 1]);
      } else {
        assert Leads(ls'[k - |ms|], ms'[k - |ms|], ls'[k - |ms| + 1]);
      }
    }
  }

  lemma Concat(ls: seq<Log>, ms: seq<Move>, ls': seq<Log>, ms': seq<Move>)
    requires Drive(ls, ms) && Drive(ls', ms') && ls[|ms|] == ls'[0]
    ensures Drive(ls + ls'[1..], ms + ms') && (ls + ls'[1..])[|ms + ms'|] == ls'[|ms'|]
  {
    hide IsPath;
    Joined(ls, ms, ls', ms');
  }

  /** The writer can be brought to have counted exactly `target` messages, and written no more. */
  lemma {:induction false} CountsUpTo(l: Log, target: nat) returns (ls: seq<Log>, ms: seq<Move>)
    requires Inv(l) && l.processed < target <= |l.q.c.accepted|
    ensures Drive(ls, ms) && ls[0] == l
    ensures var l' := ls[|ms|]; l'.clients == l.clients && l'.processed == target == |l'.written|
    decreases target - l.processed
  {
    hide Inv, Leads;
    HasThreads(l);
    ls, ms := CountsOneMore(l);
    var u := ls[|ms|];
    EndOf(ls, ms);
    if u.processed == target {
      WrittenAtCall(u);
    } else {
      var rest, more := CountsUpTo(u, target);
      Concat(ls, ms, rest, more);
      ls, ms := ls + rest[1..], ms + more;
    }
  }

  lemma HasThreads(l: Log)
    requires Inv(l)
    ensures 0 < |l.q.threads|
  {
  }

  lemma EndOf(ls: seq<Log>, ms: seq<Move>)
    requires Drive(ls, ms) && Inv(ls[0])
    ensures |ls| == |ms| + 1 && Inv(ls[|ms|]) && |ls[0].q.c.accepted| <= |ls[|ms|].q.c.accepted|
  {
    hide Inv, Leads, Q.Finished;
    PathKeepsInv(ls, ms, |ms|);
    PathGrows(ls, ms, 0, |ms|);
  }

  lemma WrittenAtCall(l: Log)
    requires Inv(l) && l.writer == Calling
    ensures |l.written| == l.processed
  {
  }

  // ---- The exact condition ----

  /** The client calls `flush`, the writer works in the meantime, and the flush returns. */
  lemma FlushReturns(l: Log, i: Tid, ls: seq<Log>, ms: seq<Move>) returns (all: seq<Log>, moves: seq<Move>)
    requires May(l, Flush(i)) && Drive(ls, ms) && ls[0] == Next(l, Flush(i))
    requires ls[|ms|].clients == ls[0].clients && l.enqueued <= ls[|ms|].processed
    ensures IsPath(all, moves) && all[0] == l && 0 < |moves| && FlushSpans(all, moves, i, 0, |moves| - 1)
    ensures all[|moves| - 1] == ls[|ms|]
  {
    hide Do, Enabled;
    var end := ls[|ms|];
    var last := Next(end, Go(i));
    all, moves := [l] + ls + [last], [Flush(i)] + ms + [Go(i)];
    forall k | 0 <= k < |moves| ensures Leads(all[k], moves[k], all[k + 1]) {
      if 0 < k <= |ms| { assert Leads(ls[k - 1], ms[k - 1], ls[(k - 1) + 1]); }
    }
  }

  lemma FlushKeeps(l: Log, i: Tid)
    requires Inv(l) && May(l, Flush(i))
    ensures var l' := Next(l, Flush(i));
            Inv(l') && l'.enqueued == l.enqueued && l'.processed == l.processed && l'.written == l.written
                && l'.q == l.q
  {
    hide Inv;
    MoveKeepsInv(l, Flush(i));
  }

  /** Without the condition, the writer can stop short of a message that was accepted before the call. */
  lemma FlushStopsShort(l: Log, i: Tid) returns (ls: seq<Log>, ms: seq<Move>)
    requires Inv(l) && May(l, Flush(i)) && l.enqueued < |l.q.c.accepted| && |l.written| < |l.q.c.accepted|
    ensures IsPath(ls, ms) && ls[0] == l && 0 < |ms| && FlushSpans(ls, ms, i, 0, |ms| - 1)
    ensures |ls[|ms| - 1].written| < |l.q.c.accepted|
  {
    hide Inv, Drive, IsPath, FlushSpans, May;
    FlushKeeps(l, i);
    var l' := Next(l, Flush(i));
    var rest, more := [l'], [];
    if l.processed < l.enqueued {
      rest, more := CountsUpTo(l', l.enqueued);
    } else {
      Standstill(l');
    }
    Lengths(rest, more);
    ls, ms := FlushReturns(l, i, rest, more);
  }

  lemma Standstill(l: Log)
    ensures Drive([l], [])
  {
  }

  lemma Lengths(ls: seq<Log>, ms: seq<Move>)
    requires Drive(ls, ms)
    ensures |ls| == |ms| + 1
  {
  }

  /**
   The messages accepted before a call of `flush` are written when it returns, whatever happens in between, if and
   only if at the call all of them had been counted or all of them had been written.
   */
  lemma FlushIsCompleteIff(l: Log, i: Tid)
    requires Inv(l) && May(l, Flush(i))
    ensures FlushIsComplete(l, i) <==> l.enqueued == |l.q.c.accepted| || l.written == l.q.c.accepted
  {
    hide Inv, Leads, FlushSpans, May;
    PrefixAt(l);
    if l.enqueued == |l.q.c.accepted| || l.written == l.q.c.accepted {
      forall ls: seq<Log>, ms: seq<Move> | IsPath(ls, ms) && ls[0] == l && 0 < |ms|
          && FlushSpans(ls, ms, i, 0, |ms| - 1)
        ensures l.q.c.accepted <= ls[|ms| - 1].written
      {
        FlushSuffices(ls, ms, i);
      }
    } else {
      var ls, ms := FlushStopsShort(l, i);
    }
  }

  lemma FlushSuffices(ls: seq<Log>, ms: seq<Move>, i: Tid)
    requires IsPath(ls, ms) && Inv(ls[0]) && 0 < |ms| && FlushSpans(ls, ms, i, 0, |ms| - 1)
    requires ls[0].enqueued == |ls[0].q.c.accepted| || ls[0].written == ls[0].q.c.accepted
    ensures ls[0].q.c.accepted <= ls[|ms| - 1].written
  {
    hide Inv, Leads, Q.Finished;
    FlushWaits(ls, ms, i, 0, |ms| - 1);
    PathGrows(ls, ms, 0, |ms| - 1);
  }

  // ---- A message that `flush` does not wait for ----

  /** The queue when thread 1 is at `pc` and the two others have not called anything. */
  function Scene(pc: Pc, lock: Lock, items: seq<Value>): State {
    State(Core(items, 1000, false, lock, items, []),
          [Thread(Idle(NoCall), false), Thread(pc, false), Thread(Idle(NoCall), false)])
  }

  function Fresh(q: State, c1: Client, c2: Client): Log {
    Log(q, Calling, [Out, c1, c2], [], 0, 0)
  }

  lemma Stored(v: Value) returns (ls: seq<Log>, ms: seq<Move>)
    ensures IsRun(ls, ms) && |ls| == |ms| + 1
    ensures ls[|ms|] == Fresh(Scene(PushSignal, Unlocked, [v]), InPush, Out)
  {
    hide IsRun, Wakes;
    ls, ms := [Fresh(Scene(Idle(NoCall), Unlocked, []), Out, Out)], [];
    assert IsRun(ls, ms) by { Initially(ls[0]); }
    ls, ms := Then(ls, ms, Enter(1, v));
    assert ls[|ms|] == Fresh(Scene(PushEnter(v), Unlocked, []), InPush, Out);
    ls, ms := StepOne(ls, ms, PushEnter(v), PushTest(v), Unlocked, LockedBy(1), [], []);
    ls, ms := StepOne(ls, ms, PushTest(v), PushCheck(v), LockedBy(1), LockedBy(1), [], []);
    ls, ms := StepOne(ls, ms, PushCheck(v), PushStore(v), LockedBy(1), LockedBy(1), [], []);
    assert [] + [v] == [v];
    ls, ms := StepOne(ls, ms, PushStore(v), PushSignal, LockedBy(1), Unlocked, [], [v]);
  }

  lemma StepOne(ls: seq<Log>, ms: seq<Move>, pc: Pc, pc': Pc, k: Lock, k': Lock, items: seq<Value>, items': seq<Value>)
    returns (ls': seq<Log>, ms': seq<Move>)
    requires IsRun(ls, ms) && ls[|ms|] == Fresh(Scene(pc, k, items), InPush, Out)
    requires pc.PushEnter? || pc.PushTest? || pc.PushCheck? || pc.PushStore?
    requires WantsLock(pc) ==> k == Unlocked
    requires Local(Scene(pc, k, items).c, 1, Thread(pc, false)) == (Scene(pc', k', items').c, Thread(pc', false))
    ensures IsRun(ls', ms') && |ls'| == |ms'| + 1 && ls'[|ms'|] == Fresh(Scene(pc', k', items'), InPush, Out)
  {
    hide Local;
    ls', ms' := Then(ls, ms, Queue(Run(1, 0)));
  }

  /**
   A message accepted before `flush` is called need not be written when it returns: the caller that
   logged it has not counted it yet.
   */
  lemma FlushMissesAMessage(v: Value) returns (ls: seq<Log>, ms: seq<Move>, a: nat, b: nat)
    ensures IsRun(ls, ms) && FlushSpans(ls, ms, 2, a, b)
    ensures ls[a].q.c.accepted == [v] && ls[b + 1].written == []
  {
    ls, ms := Stored(v);
    hide Do, Start;
    a := |ms|;
    b := a + 1;
    ghost var before := ls;
    ls, ms := Then(ls, ms, Flush(2));
    assert ls[a] == before[a];
    ghost var mid := ls;
    ls, ms := Then(ls, ms, Go(2));
    assert ls[a] == mid[a];
  }
}
