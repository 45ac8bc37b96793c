/** What the calls of the logger come to: where a logged message is, and that `shutdown` can always return. */
module LoggerCalls {
  import Counting
  import opened BlockingQueue
  import Q = BlockingQueueTheorems
  import H = BlockingQueueHistory
  import opened Logger
  import opened LoggerTheorems
  import opened LoggerFlush

  // ---- Where a logged message is ----

  /** What a move does inside the queue, if anything. */
  function QueueAction(l: Log, m: Move): seq<Action> {
    match m
    case Queue(a) => [a]
    case Write => if l.writer.Calling? then [CallPop(0, false)] else []
    case Enter(i, v) => [CallPush(i, v)]
    case Shutdown(i) => [CallClose(i)]
    case Flush(_) => []
    case Go(_) => []
  }

  lemma MovesQueue(l: Log, m: Move)
    requires May(l, m)
    ensures var acts := QueueAction(l, m);
            && |acts| <= 1 && (acts == [] ==> Next(l, m).q == l.q)
            && (acts != [] ==>
                  && Enabled(l.q, acts[0]) && acts[0].i < |l.q.threads|
                  && (acts[0].Run? ==> acts[0].j < |l.q.threads|) && Next(l, m).q == Do(l.q, acts[0]))
  {
    if m.Queue? { Q.InRange(l.q, m.a); }
    hide Do;
  }

  /** The message that a move begins to log, and the message that it finds refused. */
  function Logs(m: Move): multiset<Value> {
    if m.Enter? then multiset{m.v} else multiset{}
  }

  function Refuses(l: Log, m: Move, l': Log): multiset<Value> {
    var acts := QueueAction(l, m);
    if acts != [] && acts[0].i < |l.q.threads| && acts[0].i < |l'.q.threads|
    then H.GivesBack(l.q.threads[acts[0].i], l'.q.threads[acts[0].i]) else multiset{}
  }

  function Logged(ms: seq<Move>, k: nat): multiset<Value>
    requires k <= |ms|
  {
    if k == 0 then multiset{} else Logged(ms, k - 1) + Logs(ms[k - 1])
  }

  function Refused(ls: seq<Log>, ms: seq<Move>, k: nat): multiset<Value>
    requires |ls| == |ms| + 1 && k <= |ms|
  {
    if k == 0 then multiset{} else Refused(ls, ms, k - 1) + Refuses(ls[k - 1], ms[k - 1], ls[k])
  }

  /** The messages of callers that have not got through the queue's mutex yet. */
  function AtTheDoor(l: Log): multiset<Value> {
    H.Together(l.q.threads, H.ToStore)
  }

  lemma OneMove(l: Log, m: Move)
    requires May(l, m)
    ensures var l' := Next(l, m);
            multiset(l.q.c.accepted) + AtTheDoor(l) + Logs(m) ==
            multiset(l'.q.c.accepted) + AtTheDoor(l') + Refuses(l, m, l')
  {
    MovesQueue(l, m);
    var acts := QueueAction(l, m);
    NoOtherPush(l, m);
    hide May, Next, Enabled, Do, QueueAction, H.GivesBack, H.Together, H.ToStore, Logs;
    if acts != [] {
      H.ActionBalances(l.q, acts[0]);
    }
  }

  lemma NoOtherPush(l: Log, m: Move)
    requires May(l, m)
    ensures var acts := QueueAction(l, m);
            (acts == [] ==> Logs(m) == multiset{}) && (acts != [] ==> Logs(m) == H.Asks(acts[0]))
  {
  }

  /**
   Every message ever passed to the logger waits for the queue's mutex with its caller, was refused because the logger
   was shut down, or was accepted; so by `WrittenIsAPrefix` and `NothingIsLost` all but the refused ones are written in
   the end.
   */
  lemma {:induction false} LoggedAreKept(ls: seq<Log>, ms: seq<Move>, k: nat)
    requires IsRun(ls, ms) && k < |ls|
    ensures Logged(ms, k) == AtTheDoor(ls[k]) + Refused(ls, ms, k) + multiset(ls[k].q.c.accepted)
  {
    hide May, Next, AtTheDoor, Logs, Refuses;
    if k == 0 {
      NobodyAtTheDoor(ls[0]);
    } else {
      hide Start;
      LoggedAreKept(ls, ms, k - 1);
      var l, m := ls[k - 1], ms[k - 1];
      assert Leads(l, m, ls[(k - 1) + 1]);
      OneMove(l, m);
      H.AddIn(Logged(ms, k - 1), multiset(l.q.c.accepted), AtTheDoor(l), Logs(m), multiset(ls[k].q.c.accepted),
              AtTheDoor(ls[k]), Refuses(l, m, ls[k]), Refused(ls, ms, k - 1));
    }
  }

  lemma NobodyAtTheDoor(l: Log)
    requires Start(l)
    ensures AtTheDoor(l) == multiset{} && l.q.c.accepted == []
  {
    H.NobodyCarries(l.q);
  }

  /** A caller whose push has returned counts its message if and only if it was accepted, and leaves. */
  lemma LeavesAlone(l: Log, i: Tid)
    requires Inv(l) && 0 < i < |l.clients| && l.clients[i].InPush? && l.q.threads[i].pc.Idle?
    ensures May(l, Go(i))
    ensures var l1, out := Next(l, Go(i)), l.(clients := l.clients[i := Out]);
            if l.q.threads[i].pc.result == Pushed(true)
            then May(l1, Go(i)) && Next(l1, Go(i)) == out.(enqueued := l.enqueued + 1)
            else l1 == out
  {
    assert l.clients[i := Counting][i := Out] == l.clients[i := Out];
  }

  // ---- Shutdown can return ----

  predicate AtStore(th: Thread) {
    th.pc.PushStore?
  }

  /** After `close`, the messages that may still come, and those not yet processed. */
  function Pending(l: Log): int {
    |l.q.c.accepted| + Counting.Count(l.q.threads, AtStore) - l.processed
  }

  /** The queue is closed, and the writer is neither asleep nor about to be. */
  predicate Ending(l: Log) {
    && 0 < |l.q.threads| && l.q.c.closed && !l.writer.Done?
    && !l.q.threads[0].pc.PopDoze? && !l.q.threads[0].pc.PopAsleep?
  }

  lemma WriterInPop(l: Log)
    requires Inv(l) && Ending(l)
    ensures l.writer.InPop? ==>
              var pc := l.q.threads[0].pc;
              && WriterOk(InPop, l.q.threads[0]) && (pc.PopTake? ==> l.q.c.deque != [])
    ensures !l.writer.InPop? ==> l.q.threads[0].pc.Idle?
    ensures 0 <= Pending(l)
  {
    PrefixAt(l);
    assert Q.Knows(l.q.c, 0, l.q.threads[0].pc);
    hide Counting.Count, Members;
  }

  lemma EndingMayMove(l: Log)
    requires Inv(l) && Ending(l)
    ensures May(l, DriveMove(l))
  {
    WriterInPop(l);
    if l.writer.InPop? && WantsLock(l.q.threads[0].pc) && l.q.c.lock != Unlocked { HolderPushes(l); }
    hide Q.Inv, CountsOk;
  }

  /** The writer goes on: it processes, or comes nearer to that or to its end. */
  lemma WriterGoesOn(l: Log)
    requires Inv(l) && Ending(l) && May(l, DriveMove(l))
    requires !(l.writer.InPop? && WantsLock(l.q.threads[0].pc) && l.q.c.lock != Unlocked)
    ensures var l' := Next(l, DriveMove(l));
            && l'.clients == l.clients && l'.q.c.accepted == l.q.c.accepted && (l'.writer.Done? || Ending(l'))
            && |l'.q.threads| == |l.q.threads|
            && (if l.writer.Tallying? then l'.processed == l.processed + 1
                else l'.processed == l.processed && ToCount(l') < ToCount(l))
  {
    WriterInPop(l);
    hide Q.Inv, CountsOk, RolesOk, Sleeper, Pending;
  }

  /** The writer is no producer, and whom it wakes stores nothing yet. */
  lemma WriterStoresNothing(l: Log)
    requires Inv(l) && Ending(l) && May(l, DriveMove(l))
    requires !(l.writer.InPop? && WantsLock(l.q.threads[0].pc) && l.q.c.lock != Unlocked)
    ensures Counting.Count(Next(l, DriveMove(l)).q.threads, AtStore) == Counting.Count(l.q.threads, AtStore)
  {
    WriterInPop(l);
    WriterThread(l);
    hide Q.Inv, CountsOk, RolesOk, Sleeper, May, Next, Ending, DriveMove;
    Counting.CountSame(l.q.threads, Next(l, DriveMove(l)).q.threads, AtStore);
  }

  lemma WriterThread(l: Log)
    requires Inv(l) && Ending(l) && May(l, DriveMove(l))
    requires !(l.writer.InPop? && WantsLock(l.q.threads[0].pc) && l.q.c.lock != Unlocked)
    ensures var q' := Next(l, DriveMove(l)).q;
            |q'.threads| == |l.q.threads|
            && forall k :: 0 <= k < |q'.threads| ==> AtStore(q'.threads[k]) == AtStore(l.q.threads[k])
  {
    WriterInPop(l);
    hide Q.Inv, CountsOk, RolesOk, Sleeper, Pending;
  }

  /** Whoever keeps the mutex from the writer goes on, and stores at most what it was to store. */
  lemma HolderGoesOn(l: Log)
    requires Inv(l) && Ending(l) && May(l, DriveMove(l))
    requires l.writer.InPop? && WantsLock(l.q.threads[0].pc) && l.q.c.lock != Unlocked
    ensures var l' := Next(l, DriveMove(l)); Pending(l') == Pending(l) && Ending(l')
  {
    HolderPushes(l);
    hide Q.Inv, CountsOk, RolesOk, Sleeper;
    var k, l' := l.q.c.lock.i, Next(l, DriveMove(l));
    assert l'.q.threads == l.q.threads[k := l'.q.threads[k]];
    Counting.CountUpdate(l.q.threads, k, l'.q.threads[k], AtStore);
    hide Counting.Count;
  }

  lemma EndedIsWritten(l: Log)
    requires Inv(l) && l.writer.Done?
    ensures l.written == l.q.c.accepted && l.q.c.closed
  {
    hide Counting.Count, Members;
  }

  /**
   Once the queue is closed, a writer that is not asleep or about to be can be brought to its end without the help of
   any client outside the queue, and has then written everything that was accepted.
   */
  lemma {:induction false} WriterEnds(l: Log) returns (ls: seq<Log>, ms: seq<Move>)
    requires Inv(l) && Ending(l)
    ensures Drive(ls, ms) && ls[0] == l
    ensures var l' := ls[|ms|]; Inv(l') && l'.writer.Done? && l'.clients == l.clients && l'.written == l'.q.c.accepted
    decreases Pending(l), ToCount(l)
  {
    WriterInPop(l);
    EndingMayMove(l);
    var m := DriveMove(l);
    var l' := Next(l, m);
    MoveKeepsInv(l, m);
    if l.writer.InPop? && WantsLock(l.q.threads[0].pc) && l.q.c.lock != Unlocked {
      HolderDescends(l);
      HolderGoesOn(l);
    } else {
      WriterGoesOn(l);
      WriterStoresNothing(l);
    }
    hide Inv, May, Next, ToCount, Ending, DriveMove;
    var rest, more := [l'], [];
    if l'.writer.Done? {
      EndedIsWritten(l');
    } else {
      rest, more := WriterEnds(l');
    }
    Prepend(l, m, rest, more);
    ls, ms := [l] + rest, [m] + more;
  }

  /** One step of the closing thread; the writer is woken by the first notification. */
  lemma CloseStep(l: Log, c: Tid)
    requires Inv(l) && 0 < c < |l.clients| && l.clients[c].InClose? && InClosePc(l.q.threads[c].pc)
    requires !l.q.threads[0].pc.PopDoze?
    requires l.q.threads[c].pc.CloseNotFull? ==> !l.q.threads[0].pc.PopAsleep? && l.q.c.closed
    ensures var m := Queue(Run(c, c));
            && May(l, m) && IsStep(m)
            && var l', pc := Next(l, m), l.q.threads[c].pc;
               && l'.clients == l.clients && l'.writer == l.writer && |l'.q.threads| == |l.q.threads| && l'.q.c.closed
               && l'.q.threads[c].pc == (if pc.CloseStore? then CloseNotEmpty
                                         else if pc.CloseNotEmpty? then CloseNotFull else Idle(NoCall))
               && !l'.q.threads[0].pc.PopDoze?
               && (pc.CloseNotEmpty? || pc.CloseNotFull? ==> !l'.q.threads[0].pc.PopAsleep?)
  {
    assert Q.Knows(l.q.c, c, l.q.threads[c].pc);
    hide CountsOk, RolesOk, Q.ItemsCovered, Q.SpaceCovered;
  }

  lemma ClosesAlone(l: Log, c: Tid) returns (ls: seq<Log>, ms: seq<Move>)
    requires Inv(l) && 0 < c < |l.clients| && l.clients[c].InClose? && l.q.threads[c].pc.CloseStore?
    requires !l.q.threads[0].pc.PopDoze?
    ensures Drive(ls, ms) && ls[0] == l
    ensures var l' := ls[|ms|];
            && Inv(l') && l'.clients == l.clients && l'.writer == l.writer && Returned(l'.q, c)
            && (l'.writer.Done? || Ending(l'))
  {
    var m := Queue(Run(c, c));
    CloseStep(l, c);
    MoveKeepsInv(l, m);
    hide Inv, May, Next, Drive;
    var l1 := Next(l, m);
    CloseStep(l1, c);
    MoveKeepsInv(l1, m);
    var l2 := Next(l1, m);
    CloseStep(l2, c);
    MoveKeepsInv(l2, m);
    var l3 := Next(l2, m);
    Standstill(l3);
    Prepend(l2, m, [l3], []);
    Prepend(l1, m, [l2] + [l3], [m] + []);
    Prepend(l, m, [l1] + ([l2] + [l3]), [m] + ([m] + []));
    ls, ms := [l] + ([l1] + ([l2] + [l3])), [m] + ([m] + ([m] + []));
  }

  lemma BlocksFirst(l: Log, c: Tid)
    requires Inv(l) && 0 < c < |l.clients| && l.clients[c].InClose? && l.q.threads[c].pc.CloseStore?
    requires l.q.threads[0].pc.PopDoze?
    ensures var m := Queue(Run(0, 0));
            && May(l, m) && IsStep(m)
            && var l' := Next(l, m);
               l'.clients == l.clients && l'.q.threads == l.q.threads[0 := l'.q.threads[0]]
               && l'.q.threads[0].pc.PopAsleep?
  {
    hide CountsOk, Q.Inv;
  }

  /** The thread of `shutdown` goes through `close` and begins to join. */
  lemma BeginsToJoin(l: Log, c: Tid) returns (ls: seq<Log>, ms: seq<Move>)
    requires Inv(l) && 0 < c < |l.clients| && l.clients[c].InClose? && l.q.threads[c].pc.CloseStore?
    ensures Drive(ls, ms) && ls[0] == l
    ensures var l' := ls[|ms|];
            Inv(l') && l'.clients == l.clients && Returned(l'.q, c) && (l'.writer.Done? || Ending(l'))
  {
    if l.q.threads[0].pc.PopDoze? {
      var m := Queue(Run(0, 0));
      BlocksFirst(l, c);
      MoveKeepsInv(l, m);
      hide Inv, May, Next, Drive;
      var rest, more := ClosesAlone(Next(l, m), c);
      Prepend(l, m, rest, more);
      ls, ms := [l] + rest, [m] + more;
    } else {
      ls, ms := ClosesAlone(l, c);
    }
  }

  /** The client takes one more step after a drive. */
  lemma ThenGo(ls: seq<Log>, ms: seq<Move>, i: Tid) returns (ls': seq<Log>, ms': seq<Move>)
    requires IsPath(ls, ms) && Inv(ls[0]) && May(ls[|ms|], Go(i))
    ensures IsPath(ls', ms') && ls'[0] == ls[0] && ls'[|ms'|] == Next(ls[|ms|], Go(i)) && Inv(ls'[|ms'|])
  {
    PathKeepsInv(ls, ms, |ms|);
    MoveKeepsInv(ls[|ms|], Go(i));
    hide Inv, May, Next;
    ls', ms' := ls + [Next(ls[|ms|], Go(i))], ms + [Go(i)];
    forall k | 0 <= k < |ms'| ensures Leads(ls'[k], ms'[k], ls'[k + 1]) {
      if k < |ms| { assert Leads(ls[k], ms[k], ls[k + 1]); }
    }
  }

  /**
   Every call of `shutdown` can be brought to return, wherever the writer is when it begins; the writer has then ended
   and everything that was accepted is written.
   */
  lemma ShutdownCanReturn(l: Log, c: Tid) returns (ls: seq<Log>, ms: seq<Move>)
    requires Inv(l) && 0 < c < |l.clients| && l.clients[c].InClose? && l.q.threads[c].pc.CloseStore?
    ensures IsPath(ls, ms) && ls[0] == l
    ensures var l' := ls[|ms|];
            l'.clients == l.clients[c := Out] && l'.writer.Done? && l'.written == l'.q.c.accepted && l'.q.c.closed
  {
    ls, ms := BeginsToJoin(l, c);
    hide Inv, Leads, Ending;
    assert May(ls[|ms|], Go(c));
    hide May;
    ls, ms := ThenGo(ls, ms, c);
    var joining := ls[|ms|];
    assert joining.clients == l.clients[c := Joining];
    if !joining.writer.Done? {
      var rest, more := WriterEnds(joining);
      Joined(ls, ms, rest, more);
      ls, ms := ls + rest[1..], ms + more;
    }
    JoinsTheWriter(ls[|ms|], c);
    ls, ms := ThenGo(ls, ms, c);
    EndedIsWritten(ls[|ms|]);
  }

  lemma JoinsTheWriter(l: Log, c: Tid)
    requires 0 < c < |l.clients| && l.clients[c].Joining? && l.writer.Done?
    ensures May(l, Go(c)) && Next(l, Go(c)) == l.(clients := l.clients[c := Out])
  {
  }
}
