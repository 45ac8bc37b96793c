/**
 What the logger promises: a FIFO prefix is written, `flush` waits for as many messages as were counted, nothing is
 lost at the end.
 */
module LoggerTheorems {
  import opened Counting
  import opened BlockingQueue
  import Q = BlockingQueueTheorems
  import opened Logger

  // ---- The invariant ----

  predicate InPopPc(pc: Pc) {
    pc.PopEnter? || pc.PopTest? || pc.PopDoze? || pc.PopAsleep? || pc.PopWoken? ||
    pc.PopCheck? || pc.PopTake? || pc.PopSignal? || pc.PopLeave?
  }

  predicate InPushPc(pc: Pc) {
    pc.PushEnter? || pc.PushTest? || pc.PushDoze? || pc.PushAsleep? || pc.PushWoken? ||
    pc.PushCheck? || pc.PushStore? || pc.PushSignal?
  }

  predicate InClosePc(pc: Pc) {
    pc.CloseStore? || pc.CloseNotEmpty? || pc.CloseNotFull?
  }

  /** The writer pops without a time-out; outside `pop` it is not in the queue. */
  predicate WriterOk(w: Writer, th: Thread) {
    && !th.timed
    && (th.pc.PopTest? || th.pc.PopWoken? ==> !th.pc.expired)
    && (if w.InPop? then InPopPc(th.pc) || (th.pc.Idle?
         && (th.pc.result.Popped? || th.pc.result.Closed?)) else th.pc.Idle?)
  }

  predicate ClientOk(c: Client, th: Thread) {
    match c
    case InPush => InPushPc(th.pc) || (th.pc.Idle? && th.pc.result.Pushed?)
    case InClose => InClosePc(th.pc) || th.pc.Idle?
    case _ => th.pc.Idle?
  }

  /** What the writer has taken out of the queue and not yet written. */
  function Hand(w: Writer, pc: Pc): seq<Value> {
    match w
    case InPop =>
      if pc.PopSignal? || pc.PopLeave? then [pc.v]
      else if pc.Idle? && pc.result.Popped? then [pc.result.v]
      else []
    case Writing(v) => [v]
    case _ => []
  }

  datatype Member = Member(c: Client, th: Thread)

  /** Between the acceptance of a message and its being counted. */
  predicate Uncounted(m: Member) {
    m.c.Counting? || (m.c.InPush? && (m.th.pc.PushSignal? || m.th.pc == Idle(Pushed(true))))
  }

  function Members(l: Log): seq<Member>
    requires |l.clients| == |l.q.threads|
  {
    seq(|l.clients|, i requires 0 <= i < |l.clients| => Member(l.clients[i], l.q.threads[i]))
  }

  ghost predicate RolesOk(l: Log) {
    && 0 < |l.clients| == |l.q.threads|
    && WriterOk(l.writer, l.q.threads[0]) && l.clients[0].Out?
    && forall i :: 0 < i < |l.clients| ==> ClientOk(l.clients[i], l.q.threads[i])
  }

  ghost predicate CountsOk(l: Log)
    requires RolesOk(l)
  {
    && l.q.c.delivered == l.written + Hand(l.writer, l.q.threads[0].pc)
    && l.processed + (if l.writer.Tallying? then 1 else 0) == |l.written|
    && l.enqueued + Count(Members(l), Uncounted) == |l.q.c.accepted|
    && (l.writer.Done? || (l.writer.InPop? && l.q.threads[0].pc == Idle(Closed)) ==> Q.Finished(l.q))
  }

  ghost predicate Inv(l: Log) {
    Q.Inv(l.q) && RolesOk(l) && CountsOk(l)
  }

  // ---- Steps inside the queue ----

  lemma LocalWriter(c: Core, th: Thread)
    requires Q.Knows(c, 0, th.pc) && WriterOk(InPop, th) && !th.pc.Idle?
    ensures var (c', th') := Local(c, 0, th);
            && WriterOk(InPop, th')
            && c'.delivered + Hand(InPop, th.pc) == c.delivered + Hand(InPop, th'.pc)
            && c'.accepted == c.accepted
  {
  }

  lemma LocalClient(c: Core, i: Tid, th: Thread, cl: Client)
    requires Q.Knows(c, i, th.pc) && ClientOk(cl, th) && !th.pc.Idle?
    ensures var (c', th') := Local(c, i, th);
            && ClientOk(cl, th') && c'.delivered == c.delivered
            && |c'.accepted| + One(Uncounted(Member(cl, th))) == |c.accepted| + One(Uncounted(Member(cl, th')))
  {
  }

  /** Being woken changes nobody's role. */
  lemma WokenRoles(w: Writer, cl: Client, th: Thread)
    ensures WriterOk(w, th) ==> WriterOk(w, Wake(th)) && Hand(w, Wake(th).pc) == Hand(w, th.pc)
    ensures ClientOk(cl, th) ==> ClientOk(cl, Wake(th))
    ensures Uncounted(Member(cl, Wake(th))) == Uncounted(Member(cl, th))
    ensures Wake(th).pc.Idle? <==> th.pc.Idle?
    ensures th.pc.Idle? ==> Wake(th) == th
  {
  }

  /** The sum of the uncounted when thread `i` steps and others are woken. */
  lemma CountStep(l: Log, ths: seq<Thread>, i: Tid)
    requires 0 < |l.clients| == |l.q.threads| == |ths| && i < |ths|
    requires forall k :: 0 <= k < |ths| && k != i ==> ths[k] == l.q.threads[k] || ths[k] == Wake(l.q.threads[k])
    ensures Count(Members(l.(q := l.q.(threads := ths))), Uncounted)
            + One(Uncounted(Member(l.clients[i], l.q.threads[i])))
         == Count(Members(l), Uncounted) + One(Uncounted(Member(l.clients[i], ths[i])))
  {
    hide Count, Uncounted, Wake;
    var before, after := Members(l), Members(l.(q := l.q.(threads := ths)));
    var mid := before[i := after[i]];
    CountUpdate(before, i, after[i], Uncounted);
    forall k | 0 <= k < |ths| ensures Uncounted(mid[k]) == Uncounted(after[k]) {
      if k != i { WokenRoles(Calling, l.clients[k], l.q.threads[k]); }
    }
    CountSame(mid, after, Uncounted);
  }

  /** The sum when only member `i` changes. */
  lemma CountMember(l: Log, l': Log, i: Tid)
    requires |l.clients| == |l.q.threads| == |l'.clients| == |l'.q.threads| && i < |l.clients|
    requires l'.clients == l.clients[i := l'.clients[i]] && l'.q.threads == l.q.threads[i := l'.q.threads[i]]
    ensures Count(Members(l'), Uncounted) + One(Uncounted(Member(l.clients[i], l.q.threads[i])))
         == Count(Members(l), Uncounted) + One(Uncounted(Member(l'.clients[i], l'.q.threads[i])))
  {
    hide Count, Uncounted;
    assert Members(l') == Members(l)[i := Members(l')[i]];
    CountUpdate(Members(l), i, Members(l')[i], Uncounted);
  }

  /** The threads of the queue after a step of `i` inside it. */
  lemma InsideShape(l: Log, a: Action, k: Tid)
    requires Inside(a) && Enabled(l.q, a) && k < |l.q.threads|
    ensures a.i < |l.q.threads| && (a.Run? ==> a.j < |l.q.threads|) && |Do(l.q, a).threads| == |l.q.threads|
    ensures k != a.i ==> Do(l.q, a).threads[k] == l.q.threads[k] || Do(l.q, a).threads[k] == Wake(l.q.threads[k])
    ensures !l.q.threads[a.i].pc.Idle?
    ensures a.Run? ==> (Do(l.q, a).c, Do(l.q, a).threads[a.i]) == Local(l.q.c, a.i, l.q.threads[a.i])
    ensures a.Spurious? ==> Do(l.q, a).c == l.q.c && Do(l.q, a).threads[a.i] == Wake(l.q.threads[a.i])
    ensures a.Expire? ==> l.q.threads[a.i].timed && l.q.threads[a.i].pc.PopAsleep?
  {
    hide Local, Wake;
    if a.Run? { Q.WakesOnly(l.q.threads[a.i].pc, l.q.threads, a.j, k); }
    hide Wakes;
  }

  /** Nobody in the logger pops with a time-out. */
  lemma NoExpiry(l: Log, a: Action)
    requires RolesOk(l) && Inside(a) && Enabled(l.q, a)
    ensures !a.Expire?
  {
    InsideShape(l, a, 0);
    if a.i > 0 { assert ClientOk(l.clients[a.i], l.q.threads[a.i]); }
  }

  lemma InsideRoles(l: Log, a: Action)
    requires Q.Safe(l.q) && RolesOk(l) && Inside(a) && Enabled(l.q, a)
    ensures RolesOk(l.(q := Do(l.q, a)))
  {
    hide Local, Wake, Enabled, Do, WriterOk, ClientOk, Q.Knows;
    InsideShape(l, a, 0);
    var q' := Do(l.q, a);
    NoExpiry(l, a);
    forall k: Tid | k < |l.clients|
      ensures if k == 0 then WriterOk(l.writer, q'.threads[0]) else ClientOk(l.clients[k], q'.threads[k])
    {
      InsideShape(l, a, k);
      WokenRoles(l.writer, l.clients[k], l.q.threads[k]);
      if k == a.i && a.Run? {
        if k == 0 { InPopThen(l); LocalWriter(l.q.c, l.q.threads[0]); }
        else { LocalClient(l.q.c, k, l.q.threads[k], l.clients[k]); }
      }
    }
  }

  lemma InPopThen(l: Log)
    requires RolesOk(l) && !l.q.threads[0].pc.Idle?
    ensures l.writer.InPop?
  {
  }

  lemma InsideCounts(l: Log, a: Action)
    requires Q.Safe(l.q) && RolesOk(l) && CountsOk(l) && Inside(a) && Enabled(l.q, a)
    ensures var l' := l.(q := Do(l.q, a));
            && RolesOk(l')
            && l'.q.c.delivered == l.written + Hand(l.writer, l'.q.threads[0].pc)
            && l.enqueued + Count(Members(l'), Uncounted) == |l'.q.c.accepted|
  {
    InsideRoles(l, a);
    hide Local, Wake, Enabled, Do, WriterOk, ClientOk, Q.Knows, Count, Hand, Uncounted, Q.Finished;
    var l', i := l.(q := Do(l.q, a)), a.i;
    NoExpiry(l, a);
    forall k: Tid | k < |l.clients|
      ensures k != i ==> l'.q.threads[k] == l.q.threads[k] || l'.q.threads[k] == Wake(l.q.threads[k])
    {
      InsideShape(l, a, k);
    }
    InsideShape(l, a, 0);
    WokenRoles(l.writer, l.clients[0], l.q.threads[0]);
    CountStep(l, l'.q.threads, i);
    assert l.(q := l.q.(threads := l'.q.threads)).clients == l'.clients;
    assert Members(l.(q := l.q.(threads := l'.q.threads))) == Members(l');
    if a.Spurious? {
      WokenRoles(l.writer, l.clients[i], l.q.threads[i]);
    } else if i == 0 {
      InPopThen(l);
      LocalWriter(l.q.c, l.q.threads[0]);
      OutIsCounted(l.q.threads[0]);
      OutIsCounted(l'.q.threads[0]);
      Shift(l.q.c.delivered, l'.q.c.delivered, l.written, Hand(InPop, l.q.threads[0].pc),
          Hand(InPop, l'.q.threads[0].pc));
    } else {
      LocalClient(l.q.c, i, l.q.threads[i], l.clients[i]);
    }
  }

  lemma OutIsCounted(th: Thread)
    ensures !Uncounted(Member(Out, th))
  {
  }

  /** Nothing has been taken, or one value into the hand. */
  lemma Shift(d: seq<Value>, d': seq<Value>, w: seq<Value>, h: seq<Value>, h': seq<Value>)
    requires d == w + h && d' + h == d + h' && |h| <= 1 && |h'| <= 1 && (h != [] ==> h' == h)
    ensures d' == w + h'
  {
    if h != [] {
      assert |d'| == |d|;
      assert forall k :: 0 <= k < |d| ==> d'[k] == (d' + h)[k] == (d + h')[k] == d[k];
    } else {
      assert d' + h == d';
    }
  }

  lemma InsideFinishes(l: Log, a: Action)
    requires Inv(l) && Inside(a) && Enabled(l.q, a)
    ensures var q' := Do(l.q, a);
            |q'.threads| == |l.q.threads|
                && (l.writer.Done? || (l.writer.InPop? && q'.threads[0].pc == Idle(Closed)) ==> Q.Finished(q'))
  {
    InsideShape(l, a, 0);
    var q' := Do(l.q, a);
    if Q.Finished(l.q) {
      Q.FinishedForever(l.q, a);
    } else if l.writer.InPop? && q'.threads[0].pc == Idle(Closed) {
      NoExpiry(l, a);
      WokenRoles(l.writer, l.clients[0], l.q.threads[0]);
      assert a.Run? && a.i == 0;
      hide Enabled;
      ReturnsFrom(l.q.c, l.q.threads[0]);
      Q.NothingMeansFinished(l.q, 0, a.j);
    }
  }

  lemma ReturnsFrom(c: Core, th: Thread)
    requires WriterOk(InPop, th) && !th.pc.Idle? && Local(c, 0, th).1.pc == Idle(Closed)
    ensures (th.pc.PopTest? || th.pc.PopCheck?) && (th.pc.PopTest? ==> !th.pc.expired)
  {
  }

  lemma InsideKeepsInv(l: Log, a: Action)
    requires Inv(l) && Inside(a) && Enabled(l.q, a)
    ensures Inv(l.(q := Do(l.q, a)))
  {
    Q.ActionKeepsInv(l.q, a);
    InsideCounts(l, a);
    InsideFinishes(l, a);
    hide Do, Enabled, Q.Inv, RolesOk, Count, Hand, Uncounted, Q.Finished;
  }

  // ---- Steps outside the queue ----

  /** A call into the queue leaves its contents alone. */
  lemma CallKeeps(l: Log, a: Action)
    requires Inv(l) && Enabled(l.q, a) && (a.CallPop? || a.CallPush? || a.CallClose?)
    ensures Q.Inv(Do(l.q, a)) && Do(l.q, a).c == l.q.c
    ensures Q.Finished(l.q) ==> Q.Finished(Do(l.q, a))
  {
    Q.ActionKeepsInv(l.q, a);
    if Q.Finished(l.q) { Q.FinishedForever(l.q, a); }
  }

  lemma WriteKeepsInv(l: Log)
    requires Inv(l) && May(l, Write)
    ensures Inv(Next(l, Write))
  {
    hide Count, Q.Inv, Q.Finished;
    var l' := Next(l, Write);
    if l.writer.Calling? { CallKeeps(l, CallPop(0, false)); }
    CountMember(l, l', 0);
  }

  lemma EnterKeepsInv(l: Log, m: Move)
    requires Inv(l) && May(l, m) && (m.Enter? || m.Shutdown? || m.Flush?)
    ensures Inv(Next(l, m))
  {
    hide Count, Q.Inv, Q.Finished;
    var l' := Next(l, m);
    if m.Enter? { CallKeeps(l, CallPush(m.i, m.v)); }
    if m.Shutdown? { CallKeeps(l, CallClose(m.i)); }
    CountMember(l, l', m.i);
  }

  lemma GoKeepsInv(l: Log, i: Tid)
    requires Inv(l) && May(l, Go(i))
    ensures Inv(Next(l, Go(i)))
  {
    hide Count, Q.Inv, Q.Finished;
    CountMember(l, Next(l, Go(i)), i);
  }

  lemma MoveKeepsInv(l: Log, m: Move)
    requires Inv(l) && May(l, m)
    ensures Inv(Next(l, m))
  {
    hide Inv;
    match m {
      case Queue(a) => InsideKeepsInv(l, a);
      case Write => WriteKeepsInv(l);
      case Go(i) => GoKeepsInv(l, i);
      case _ => EnterKeepsInv(l, m);
    }
  }

  // ---- Runs ----

  ghost predicate Leads(l: Log, m: Move, l': Log) {
    May(l, m) && l' == Next(l, m)
  }

  /** A run from any state. */
  ghost predicate IsPath(ls: seq<Log>, ms: seq<Move>) {
    |ls| == |ms| + 1 && forall k :: 0 <= k < |ms| ==> Leads(ls[k], ms[k], ls[k + 1])
  }

  ghost predicate IsRun(ls: seq<Log>, ms: seq<Move>) {
    IsPath(ls, ms) && Start(ls[0])
  }

  lemma {:induction false} PathKeepsInv(ls: seq<Log>, ms: seq<Move>, k: nat)
    requires IsPath(ls, ms) && Inv(ls[0]) && k < |ls|
    ensures Inv(ls[k])
  {
    hide Inv, Next, May;
    if k > 0 {
      PathKeepsInv(ls, ms, k - 1);
      assert Leads(ls[k - 1], ms[k - 1], ls[(k - 1) + 1]);
      MoveKeepsInv(ls[k - 1], ms[k - 1]);
    }
  }

  lemma RunKeepsInv(ls: seq<Log>, ms: seq<Move>, k: nat)
    requires IsRun(ls, ms) && k < |ls|
    ensures Inv(ls[k])
  {
    hide Inv, Next, May, Start;
    StartHasInv(ls[0]);
    PathKeepsInv(ls, ms, k);
  }

  lemma StartHasInv(l: Log)
    requires Start(l)
    ensures Inv(l)
  {
    CountNone(Members(l), Uncounted);
    assert !Q.SomeSleeps(l.q.threads, ConsumerSleeps) && !Q.SomeSleeps(l.q.threads, ProducerSleeps);
  }

  /**
   Between two moments nothing that was accepted or written changes, counters only grow, and a finished queue accepts
   nothing.
   */
  ghost predicate Grows(l: Log, l': Log) {
    && l.q.c.accepted <= l'.q.c.accepted && l.written <= l'.written
    && l.processed <= l'.processed && l.enqueued <= l'.enqueued
    && (Q.Finished(l.q) ==> Q.Finished(l'.q) && l'.q.c.accepted == l.q.c.accepted)
  }

  lemma QueueGrows(q: State, a: Action)
    requires Q.Inv(q) && Enabled(q, a)
    ensures q.c.accepted <= Do(q, a).c.accepted
    ensures Q.Finished(q) ==> Q.Finished(Do(q, a)) && Do(q, a).c.accepted == q.c.accepted
  {
    if Q.Finished(q) { Q.FinishedForever(q, a); }
    if a.Run? { Q.StepSafe(q, a.i, a.j); }
  }

  lemma MoveGrows(l: Log, m: Move)
    requires Inv(l) && May(l, m)
    ensures Grows(l, Next(l, m))
  {
    hide Q.Inv, RolesOk, CountsOk, Q.Finished;
    match m {
      case Queue(a) => QueueGrows(l.q, a);
      case Write => if l.writer.Calling? { QueueGrows(l.q, CallPop(0, false)); }
      case Enter(i, v) => QueueGrows(l.q, CallPush(i, v));
      case Shutdown(i) => QueueGrows(l.q, CallClose(i));
      case _ =>
    }
  }

  lemma {:induction false} PathGrows(ls: seq<Log>, ms: seq<Move>, a: nat, b: nat)
    requires IsPath(ls, ms) && Inv(ls[0]) && a <= b < |ls|
    ensures Grows(ls[a], ls[b])
  {
    hide Inv, Next, May, Q.Finished;
    if a < b {
      PathGrows(ls, ms, a, b - 1);
      PathKeepsInv(ls, ms, b - 1);
      assert Leads(ls[b - 1], ms[b - 1], ls[(b - 1) + 1]);
      MoveGrows(ls[b - 1], ms[b - 1]);
    }
  }

  lemma PrefixAt(l: Log)
    requires Inv(l)
    ensures l.written <= l.q.c.accepted && l.processed <= |l.written| && l.enqueued <= |l.q.c.accepted|
  {
    hide Count, Members;
  }

  /** What is written is always a prefix of what was accepted, in the order of acceptance. */
  lemma WrittenIsAPrefix(ls: seq<Log>, ms: seq<Move>, k: nat)
    requires IsRun(ls, ms) && k < |ls|
    ensures ls[k].written <= ls[k].q.c.accepted
    ensures ls[k].processed <= |ls[k].written| && ls[k].enqueued <= |ls[k].q.c.accepted|
  {
    RunKeepsInv(ls, ms, k);
    hide Inv;
    PrefixAt(ls[k]);
  }

  /** When the writer has ended, every accepted message is written, and none is accepted or written later. */
  lemma NothingIsLost(ls: seq<Log>, ms: seq<Move>, a: nat, b: nat)
    requires IsRun(ls, ms) && a <= b < |ls| && ls[a].writer.Done?
    ensures ls[a].written == ls[a].q.c.accepted && ls[b].q.c.accepted == ls[a].q.c.accepted
    ensures ls[b].written == ls[a].written
    ensures ls[b].q.c.closed
  {
    RunKeepsInv(ls, ms, a);
    StartHasInv(ls[0]);
    PathGrows(ls, ms, a, b);
    WrittenIsAPrefix(ls, ms, b);
    hide Count, Members;
  }

  // ---- Building runs ----

  lemma Then(ls: seq<Log>, ms: seq<Move>, m: Move) returns (ls': seq<Log>, ms': seq<Move>)
    requires IsRun(ls, ms) && May(ls[|ms|], m)
    ensures IsRun(ls', ms') && ms' == ms + [m] && |ls'| == |ms'| + 1 && ls <= ls' && ls'[|ms'|] == Next(ls[|ms|], m)
  {
    hide Next, May, Start;
    ls', ms' := ls + [Next(ls[|ms|], m)], ms + [m];
    forall k | 0 <= k < |ms'| ensures Leads(ls'[k], ms'[k], ls'[k + 1]) {
      if k < |ms| { assert Leads(ls[k], ms[k], ls[k + 1]); }
    }
  }

  lemma Initially(l: Log)
    requires Start(l)
    ensures IsRun([l], [])
  {
  }
}
