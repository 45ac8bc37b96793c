/**
 An atomic FIFO queue used by several threads.  Each operation is called, takes effect in
 one event, and returns what that event gave it.
 */
module AtomicQueue {
  import opened MichaelScott

  /** How far a thread's current operation has come. */
  datatype Op =
    | Done(result: Result)
    | Pushing(v: Value)
    | Enqueued
    | Popping(timed: bool)
    | Taken(v: Value)
    | SawEmpty(timed: bool)

  datatype Atomic = Atomic(contents: seq<Value>, closed: bool, ops: seq<Op>)

  datatype Event =
    | Silent | CallsPush(v: Value) | CallsPop(timed: bool) | Closes
    | Enqueues | Refuses | ReturnsPush
    | Dequeues | FindsEmpty | TriesAgain | ReturnsNothing | TimesOut | ReturnsValue

  /** What event `e` does to the contents and to the operation of the thread it belongs to. */
  predicate Effect(e: Event, closed: bool, q: seq<Value>, op: Op, q': seq<Value>, op': Op) {
    match e
    case Enqueues => op.Pushing? && op' == Enqueued && q' == q + [op.v]
    case Dequeues => op.Popping? && q != [] && op' == Taken(q[0]) && q' == q[1..]
    case FindsEmpty => op.Popping? && q == [] == q' && op' == SawEmpty(op.timed)
    case Refuses => closed && op.Pushing? && op' == Done(Pushed(false)) && q' == q
    case ReturnsPush => op.Enqueued? && op' == Done(Pushed(true)) && q' == q
    case TriesAgain => !closed && op.SawEmpty? && op' == Popping(op.timed) && q' == q
    case ReturnsNothing => closed && op.SawEmpty? && op' == Done(Nothing) && q' == q
    case TimesOut => op == Popping(true) && op' == Done(Nothing) && q' == q
    case ReturnsValue => op.Taken? && op' == Done(Popped(op.v)) && q' == q
    case CallsPush(v) => op.Done? && op' == Pushing(v) && q' == q
    case CallsPop(timed) => op.Done? && op' == Popping(timed) && q' == q
    case Silent => op' == op && q' == q
    case Closes => op' == op && q' == q
  }

  predicate Happens(e: Event, i: Tid, a: Atomic, b: Atomic) {
    && i < |a.ops| == |b.ops|
    && b.closed == (a.closed || e == Closes)
    && b.ops == a.ops[i := b.ops[i]]
    && Effect(e, a.closed, a.contents, a.ops[i], b.contents, b.ops[i])
  }

  /** The value an event adds at the back, or takes from the front. */
  function Gains(e: Event, i: Tid, a: Atomic): seq<Value> {
    if e == Enqueues && i < |a.ops| && a.ops[i].Pushing? then [a.ops[i].v] else []
  }

  function Yields(e: Event, i: Tid, b: Atomic): seq<Value> {
    if e == Dequeues && i < |b.ops| && b.ops[i].Taken? then [b.ops[i].v] else []
  }

  ghost predicate IsHistory(hist: seq<Atomic>, es: seq<Event>, who: seq<Tid>) {
    && |hist| == |es| + 1 && |who| == |es| && hist[0].contents == []
    && forall k :: 0 <= k < |es| ==> Happens(es[k], who[k], hist[k], hist[k + 1])
  }

  ghost function Sent(hist: seq<Atomic>, es: seq<Event>, who: seq<Tid>, k: nat): seq<Value>
    requires |hist| == |es| + 1 && |who| == |es| && k <= |es|
  {
    if k == 0 then [] else Sent(hist, es, who, k - 1) + Gains(es[k - 1], who[k - 1], hist[k - 1])
  }

  ghost function Received(hist: seq<Atomic>, es: seq<Event>, who: seq<Tid>, k: nat): seq<Value>
    requires |hist| == |es| + 1 && |who| == |es| && k <= |es|
  {
    if k == 0 then [] else Received(hist, es, who, k - 1) + Yields(es[k - 1], who[k - 1], hist[k])
  }

  lemma OneEvent(e: Event, i: Tid, a: Atomic, b: Atomic)
    requires Happens(e, i, a, b)
    ensures a.contents + Gains(e, i, a) == Yields(e, i, b) + b.contents
  {
  }

  /** First in, first out, nothing lost and nothing twice: what was sent is what was received, then the contents. */
  lemma {:induction false} FifoExactlyOnce(hist: seq<Atomic>, es: seq<Event>, who: seq<Tid>, k: nat)
    requires IsHistory(hist, es, who) && k <= |es|
    ensures Sent(hist, es, who, k) == Received(hist, es, who, k) + hist[k].contents
  {
    if k > 0 {
      FifoExactlyOnce(hist, es, who, k - 1);
      var e, i, a, b := es[k - 1], who[k - 1], hist[k - 1], hist[(k - 1) + 1];
      assert Happens(e, i, a, b);
      assert a.contents + Gains(e, i, a) == Yields(e, i, b) + b.contents by {
        hide *;
        OneEvent(e, i, a, b);
      }
      var got := Received(hist, es, who, k - 1);
      assert got + a.contents + Gains(e, i, a) == got + (Yields(e, i, b) + b.contents);
    }
  }
}

/** What the invariant means for whole runs of the lock-free queue. */
module MichaelScottTheorems {
  import opened MichaelScott
  import opened MichaelScottInvariant
  import opened AtomicQueue
  import opened Counting

  // ---- Every action keeps the invariant ----

  lemma InitHasInv(s: Queue)
    requires Init(s)
    ensures Inv(s)
  {
  }

  lemma ActionKeepsInv(s: Queue, a: Action)
    requires Inv(s) && Enabled(s, a)
    ensures Inv(Do(Ideal, s, a))
  {
    match a {
      case Run(i) => StepKeepsInv(s, i);
      case Close(_) => CloseKeepsInv(s);
      case _ =>
    }
  }

  lemma CloseKeepsInv(s: Queue)
    requires Inv(s)
    ensures Inv(s.(g := s.g.(closed := true)))
  {
    var g' := s.g.(closed := true);
    assert Evolves(s.g, g', |s.threads|);
    forall j | 0 <= j < |s.threads| ensures ThreadOk(g', j, s.threads[j]) {
      KnowsIsStable(s.g, g', |s.threads|, j, s.threads[j].pc);
      PacedIsStable(s.g, g', |s.threads|, j, s.threads[j]);
    }
  }

  ghost predicate IsRun(ss: seq<Queue>, acts: seq<Action>) {
    && |ss| == |acts| + 1 && Init(ss[0])
    && forall k :: 0 <= k < |acts| ==> Enabled(ss[k], acts[k]) && ss[k + 1] == Do(Ideal, ss[k], acts[k])
  }

  lemma {:induction false} RunKeepsInv(ss: seq<Queue>, acts: seq<Action>, k: nat)
    requires IsRun(ss, acts) && k < |ss|
    ensures Inv(ss[k])
  {
    hide Inv, Init, Do;
    if k == 0 {
      InitHasInv(ss[0]);
    } else {
      RunKeepsInv(ss, acts, k - 1);
      assert ss[(k - 1) + 1] == Do(Ideal, ss[k - 1], acts[k - 1]);
      ActionKeepsInv(ss[k - 1], acts[k - 1]);
    }
  }

  // ---- Refinement ----

  function OpOf(g: Store, th: Thread): Op {
    match th.pc
    case Idle(r) => Done(r)
    case PushCheck(v) => Pushing(v)
    case PushAlloc(v) => Pushing(v)
    case PushLoadTail(_, v) => Pushing(v)
    case PushProtect(_, v, _) => Pushing(v)
    case PushRecheck(_, v, _) => Pushing(v)
    case PushLoadNext(_, v, _) => Pushing(v)
    case PushHelp(_, v, _, _) => Pushing(v)
    case PushLink(_, v, _) => Pushing(v)
    case PushDrop(_, v) => Pushing(v)
    case PushRelease(_, _) => Enqueued
    case PushSwing(_, _) => Enqueued
    case PushCount => Enqueued
    case PopDropEmpty => SawEmpty(th.timed)
    case PopCheckClosed => SawEmpty(th.timed)
    case PopTake(_, x) =>
      if x in g.rank && 0 < g.rank[x] <= |g.log| then Taken(g.log[g.rank[x] - 1]) else Popping(th.timed)
    case PopCount(_, v) => Taken(v)
    case PopRelease(_, v) => Taken(v)
    case PopReleaseNext(_, v) => Taken(v)
    case PopRetire(_, v) => Taken(v)
    case PopScan(v) => Taken(v)
    case _ => Popping(th.timed)
  }

  function Ops(g: Store, ths: seq<Thread>): (ops: seq<Op>)
    ensures |ops| == |ths| && forall i :: 0 <= i < |ths| ==> ops[i] == OpOf(g, ths[i])
  {
    seq(|ths|, i requires 0 <= i < |ths| => OpOf(g, ths[i]))
  }

  function Contents(g: Store): seq<Value> {
    if g.popped <= |g.log| then g.log[g.popped..] else []
  }

  ghost function Abs(s: Queue): Atomic {
    Atomic(Contents(s.g), s.g.closed, Ops(s.g, s.threads))
  }

  /**
   Where an operation takes effect: a push at the successful CAS of line 144, a pop at the
   successful CAS of line 213, an observation of emptiness at the load of line 188.
   */
  function ThreadEvent(m: Memory, g: Store, th: Thread): Event {
    match th.pc
    case PushCheck(_) => if g.closed then Refuses else Silent
    case PushLink(_, _, t) => if NextAt(m, g, t) == Null then Enqueues else Silent
    case PushCount => ReturnsPush
    case PopLoadNext(h) => if NextAt(m, g, h) == Null then FindsEmpty else Silent
    case PopCheckClosed => if g.closed then ReturnsNothing else TriesAgain
    case PopDetach(h, _) => if Same(m, g.head, h) then Dequeues else Silent
    case PopScan(_) => ReturnsValue
    case _ => Silent
  }

  function EventOf(m: Memory, s: Queue, a: Action): Event {
    match a
    case Run(i) => if i < |s.threads| then ThreadEvent(m, s.g, s.threads[i]) else Silent
    case CallPush(_, v) => CallsPush(v)
    case CallPop(_, timed) => CallsPop(timed)
    case Expire(_) => TimesOut
    case Close(_) => Closes
  }

  /** Only the thread that runs changes how far its operation has come. */
  lemma OthersKeepOps(s: Queue, s': Queue, i: Tid)
    requires Inv(s) && i < |s.threads| && Evolves(s.g, s'.g, i)
    requires |s'.threads| == |s.threads|
    requires forall j :: 0 <= j < |s.threads| && j != i ==> s'.threads[j] == s.threads[j]
    ensures Ops(s'.g, s'.threads) == Ops(s.g, s.threads)[i := OpOf(s'.g, s'.threads[i])]
  {
    hide Chain;
    forall j | 0 <= j < |s.threads| && j != i ensures OpOf(s'.g, s.threads[j]) == OpOf(s.g, s.threads[j]) {
      assert ThreadOk(s.g, j, s.threads[j]);
    }
  }

  ghost predicate Acts(g: Store, th: Thread, g': Store, th': Thread) {
    && g'.closed == g.closed
    && Effect(ThreadEvent(Ideal, g, th), g.closed, Contents(g), OpOf(g, th), Contents(g'), OpOf(g', th'))
  }

  lemma PushEffect(g: Store, i: Tid, th: Thread)
    requires Chain(g) && ThreadOk(g, i, th) && InPush(th.pc)
    ensures var (g', th') := PushStep(Ideal, g, i, th); Acts(g, th, g', th')
  {
    hide Chain;
    if th.pc.PushLink? { LinkEffect(g, i, th); } else { QuietPushEffect(g, i, th); }
    hide ThreadOk, PushStep, Acts;
  }

  lemma LinkEffect(g: Store, i: Tid, th: Thread)
    requires Chain(g) && ThreadOk(g, i, th) && th.pc.PushLink?
    ensures var (g', th') := PushStep(Ideal, g, i, th); Acts(g, th, g', th')
  {
    hide Chain;
    Ends(g);
  }

  lemma QuietPushEffect(g: Store, i: Tid, th: Thread)
    requires Chain(g) && ThreadOk(g, i, th) && InPush(th.pc) && !th.pc.PushLink?
    ensures var (g', th') := PushStep(Ideal, g, i, th); Acts(g, th, g', th')
  {
    hide Chain;
    Ends(g);
  }

  lemma PopEffect(g: Store, i: Tid, th: Thread)
    requires Chain(g) && !InPush(th.pc) && !InFinish(th.pc)
    requires th.pc.PopLoadNext? ==> WasHead(g, th.pc.h)
    requires !(th.pc.PopDetach? && g.head == th.pc.h)
    ensures var (g', th') := PopStep(Ideal, g, i, th); Acts(g, th, g', th')
  {
    hide Chain;
    Ends(g);
    if th.pc.PopLoadNext? { NextOf(g, th.pc.h); }
  }

  lemma PopDetachEffect(g: Store, i: Tid, th: Thread)
    requires Chain(g) && ThreadOk(g, i, th) && th.pc.PopDetach? && g.head == th.pc.h
    ensures var (g', th') := PopStep(Ideal, g, i, th); Acts(g, th, g', th')
  {
    hide Chain;
    Ends(g);
    assert g.log[g.popped..][1..] == g.log[g.popped + 1..];
  }

  lemma FinishEffect(g: Store, i: Tid, th: Thread)
    requires Chain(g) && ThreadOk(g, i, th) && InFinish(th.pc)
    ensures var (g', th') := FinishStep(Ideal, g, i, th); Acts(g, th, g', th')
  {
    hide Chain;
    Ends(g);
  }

  lemma StepEffect(g: Store, i: Tid, th: Thread)
    requires Chain(g) && ThreadOk(g, i, th)
    ensures var (g', th') := ThreadStep(Ideal, g, i, th); Acts(g, th, g', th')
  {
    hide Chain, Paced, PushStep, PopStep, FinishStep, Acts;
    if InPush(th.pc) { PushEffect(g, i, th); }
    else if InFinish(th.pc) { FinishEffect(g, i, th); }
    else if th.pc.PopDetach? && g.head == th.pc.h { PopDetachEffect(g, i, th); }
    else { PopEffect(g, i, th); }
  }

  ghost predicate Refines(s: Queue, a: Action)
    requires Enabled(s, a)
  {
    var s' := Do(Ideal, s, a);
    Happens(EventOf(Ideal, s, a), a.i, Abs(s), Abs(s'))
  }

  lemma RunRefines(s: Queue, i: Tid)
    requires Inv(s) && Enabled(s, Run(i))
    ensures Refines(s, Run(i))
  {
    hide Chain, ThreadStep, OpOf, ThreadOk, Evolves, ThreadEvent, Effect;
    var s' := Step(Ideal, s, i);
    Ends(s.g);
    StepKeepsInv(s, i);
    StepEffect(s.g, i, s.threads[i]);
    OthersKeepOps(s, s', i);
    assert ThreadEvent(Ideal, s.g, s.threads[i]) != Closes by { NeverCloses(s.g, s.threads[i]); }
  }

  lemma NeverCloses(g: Store, th: Thread)
    ensures ThreadEvent(Ideal, g, th) != Closes
  {
  }

  lemma CallRefines(s: Queue, a: Action)
    requires Inv(s) && Enabled(s, a) && !a.Run?
    ensures Refines(s, a)
  {
    hide Chain, ThreadStep, ThreadOk;
    var s', i := Do(Ideal, s, a), a.i;
    Ends(s.g);
    assert Ops(s'.g, s'.threads) == Ops(s.g, s.threads)[i := OpOf(s'.g, s'.threads[i])];
  }

  /** Each step of the implementation is the event that `EventOf` names, on the atomic queue. */
  lemma StepRefines(s: Queue, a: Action)
    requires Inv(s) && Enabled(s, a)
    ensures Refines(s, a)
  {
    hide Refines, Inv;
    if a.Run? { RunRefines(s, a.i); } else { CallRefines(s, a); }
  }

  ghost function History(ss: seq<Queue>): (hist: seq<Atomic>)
    ensures |hist| == |ss| && forall k :: 0 <= k < |ss| ==> hist[k] == Abs(ss[k])
  {
    seq(|ss|, k requires 0 <= k < |ss| => Abs(ss[k]))
  }

  function Events(ss: seq<Queue>, acts: seq<Action>): (es: seq<Event>)
    requires |ss| == |acts| + 1
    ensures |es| == |acts| && forall k :: 0 <= k < |acts| ==> es[k] == EventOf(Ideal, ss[k], acts[k])
  {
    seq(|acts|, k requires 0 <= k < |acts| => EventOf(Ideal, ss[k], acts[k]))
  }

  function Actors(acts: seq<Action>): (who: seq<Tid>)
    ensures |who| == |acts| && forall k :: 0 <= k < |acts| ==> who[k] == acts[k].i
  {
    seq(|acts|, k requires 0 <= k < |acts| => acts[k].i)
  }

  /** Every run of the lock-free queue is a history of the atomic queue. */
  lemma Linearizable(ss: seq<Queue>, acts: seq<Action>)
    requires IsRun(ss, acts)
    ensures IsHistory(History(ss), Events(ss, acts), Actors(acts))
  {
    hide Inv, Do, Happens, Abs, EventOf;
    assert History(ss)[0].contents == [] by { EmptyAtFirst(ss[0]); }
    forall k | 0 <= k < |acts|
      ensures Happens(EventOf(Ideal, ss[k], acts[k]), acts[k].i, Abs(ss[k]), Abs(ss[k + 1]))
    {
      RunKeepsInv(ss, acts, k);
      StepRefines(ss[k], acts[k]);
    }
  }

  lemma EmptyAtFirst(s: Queue)
    requires Init(s)
    ensures Abs(s).contents == []
  {
  }

  /** Values leave in the order in which they were linked, each exactly once. */
  lemma DeliveredInLinkOrder(ss: seq<Queue>, acts: seq<Action>, k: nat)
    requires IsRun(ss, acts) && k <= |acts|
    ensures var hist, es, who := History(ss), Events(ss, acts), Actors(acts);
            Sent(hist, es, who, k) == Received(hist, es, who, k) + Contents(ss[k].g)
  {
    Linearizable(ss, acts);
    FifoExactlyOnce(History(ss), Events(ss, acts), Actors(acts), k);
  }

  // ---- Shape ----

  /** The nodes met when following `next` from `n`, at most `fuel` of them. */
  function Walk(g: Store, n: Node, fuel: nat): seq<Node>
    decreases fuel
  {
    if fuel == 0 || |g.next| <= n then []
    else match g.next[n]
      case Null => [n]
      case To(x) => [n] + Walk(g, x, fuel - 1)
  }

  /** From the node of rank `k`, any long enough walk meets exactly the rest of the list, and ends. */
  lemma {:induction false} WalkIsOrder(g: Store, k: nat, fuel: nat)
    requires Chain(g) && k < |g.order| && |g.order| - k <= fuel
    ensures Walk(g, g.order[k], fuel) == g.order[k..]
    decreases |g.order| - k
  {
    NodeAt(g, k);
    NextOf(g, g.order[k]);
    Slice(g.order, k);
    hide Chain;
    if k < |g.log| {
      WalkIsOrder(g, k + 1, fuel - 1);
    }
  }

  lemma Slice(s: seq<Node>, k: nat)
    requires k < |s|
    ensures s[k..] == [s[k]] + s[k + 1..]
  {
  }

  lemma NodeAt(g: Store, k: nat)
    requires Chain(g) && k < |g.order|
    ensures g.order[k] in g.rank && g.rank[g.order[k]] == k && |g.order| == |g.log| + 1 && g.order[k] < |g.next|
    ensures k < |g.log| ==> g.next[g.order[k]] == To(g.order[k + 1])
  {
  }

  /**
   One acyclic list from head on; tail is its last or second-to-last node and head has not
   passed it; the walk ends however far one is willing to follow it.
   */
  lemma OneAcyclicChain(s: Queue, fuel: nat)
    requires Inv(s) && |s.g.order| <= fuel
    ensures var w := Walk(s.g, s.g.head, fuel);
            && (forall a, b :: 0 <= a < b < |w| ==> w[a] != w[b])
            && w != [] && w[0] == s.g.head
            && (w[|w| - 1] == s.g.tail || (2 <= |w| && w[|w| - 2] == s.g.tail))
            && |w| == |Contents(s.g)| + 1
  {
    hide Chain, ThreadOk, Walk;
    var g := s.g;
    OrderFacts(g);
    WalkIsOrder(g, g.popped, fuel);
    var w := Walk(g, g.head, fuel);
    forall a, b | 0 <= a < b < |w| ensures w[a] != w[b] {
      assert w[a] == g.order[g.popped + a] && w[b] == g.order[g.popped + b];
    }
    assert w[g.swung - g.popped] == g.tail;
  }

  lemma OrderFacts(g: Store)
    requires Chain(g)
    ensures |g.order| == |g.log| + 1 && g.popped <= g.swung <= |g.log| <= g.swung + 1
    ensures g.head == g.order[g.popped] && g.tail == g.order[g.swung]
    ensures forall a, b :: 0 <= a < b < |g.order| ==> g.order[a] != g.order[b]
  {
  }

  /** A `next` field that is set is never set again, and head and tail only move forward. */
  lemma NextIsWrittenOnce(s: Queue, a: Action, n: Node)
    requires Inv(s) && Enabled(s, a)
    ensures var g, g' := s.g, Do(Ideal, s, a).g;
            && (n < |g.next| && g.next[n] != Null ==> n < |g'.next| && g'.next[n] == g.next[n])
            && g.popped <= g'.popped && g.swung <= g'.swung && g.order <= g'.order
  {
    ActionKeepsInv(s, a);
    if a.Run? {
      hide Do;
      StepKeepsInv(s, a.i);
      assert Do(Ideal, s, a) == Step(Ideal, s, a.i) by { RunIsStep(s, a.i); }
      var g, g' := s.g, Do(Ideal, s, a).g;
      if n < |g.next| && g.next[n] != Null && n in g.rank {
        NextOf(g, n);
        NextOf(g', n);
        assert g'.order[g.rank[n] + 1] == g.order[g.rank[n] + 1];
      }
    }
  }

  lemma RunIsStep(s: Queue, i: Tid)
    requires Enabled(s, Run(i))
    ensures Do(Ideal, s, Run(i)) == Step(Ideal, s, i)
  {
  }

  // ---- Progress ----

  /** An attempt fails only if, after it began, some CAS on head, tail or a next field succeeded. */
  lemma FailureHasACause(s: Queue, i: Tid)
    requires Inv(s) && Enabled(s, Run(i))
    requires Step(Ideal, s, i).threads[i].fails > s.threads[i].fails
    ensures s.threads[i].start < Work(Step(Ideal, s, i).g)
  {
    hide Chain, Evolves, Knows, ThreadStep;
    var s' := Step(Ideal, s, i);
    StepKeepsInv(s, i);
    assert ThreadOk(s'.g, i, s'.threads[i]);
    FailureLeadsToDrop(s.g, i, s.threads[i]);
  }

  lemma FailureLeadsToDrop(g: Store, i: Tid, th: Thread)
    ensures var (g', th') := ThreadStep(Ideal, g, i, th);
            th'.fails > th.fails ==>
              th'.start == th.start && (th'.pc.PushDrop? || th'.pc.PopDrop? || th'.pc.PopDropHead?)
  {
  }

  /** No thread's failed attempts exceed three times the number of values ever linked. */
  lemma FailuresAreBounded(ss: seq<Queue>, acts: seq<Action>, k: nat, i: Tid)
    requires IsRun(ss, acts) && k < |ss| && i < |ss[k].threads|
    ensures ss[k].threads[i].fails <= 3 * |ss[k].g.log|
  {
    RunKeepsInv(ss, acts, k);
    Ends(ss[k].g);
    assert ThreadOk(ss[k].g, i, ss[k].threads[i]);
  }

  // ---- The size counter ----

  predicate Uncounted(th: Thread) {
    th.pc.PushRelease? || th.pc.PushSwing? || th.pc.PushCount?
  }

  predicate Undiscounted(th: Thread) {
    th.pc.PopTake? || th.pc.PopCount?
  }

  function Balance(s: Queue): int {
    |s.g.log| - s.g.popped - Count(s.threads, Uncounted) + Count(s.threads, Undiscounted)
  }

  /** The counter is the length of the list, less the pushes and more the pops not yet counted, modulo 2^64. */
  ghost predicate SizeOk(s: Queue) {
    s.g.size == Balance(s) % WORD
  }

  lemma WrapAdd(y: int, z: int)
    requires z == y % WORD
    ensures (z + 1) % WORD == (y + 1) % WORD
    ensures (z + WORD - 1) % WORD == (y - 1) % WORD
  {
  }

  /** A step that changes the balance of links and pops by `d` changes the counter by as much, modulo 2^64. */
  ghost predicate Counts(g: Store, th: Thread, g': Store, th': Thread) {
    var d := (|g'.log| - g'.popped - One(Uncounted(th')) + One(Undiscounted(th')))
             - (|g.log| - g.popped - One(Uncounted(th)) + One(Undiscounted(th)));
    || (d == 0 && g'.size == g.size)
    || (d == 1 && g'.size == (g.size + 1) % WORD)
    || (d == -1 && g'.size == (g.size + WORD - 1) % WORD)
    || th'.pc.Broken?
  }

  lemma PushDelta(g: Store, i: Tid, th: Thread)
    requires InPush(th.pc)
    ensures var (g', th') := PushStep(Ideal, g, i, th); Counts(g, th, g', th')
  {
  }

  lemma PopDelta(g: Store, i: Tid, th: Thread)
    requires !InPush(th.pc) && !InFinish(th.pc)
    ensures var (g', th') := PopStep(Ideal, g, i, th); Counts(g, th, g', th')
  {
  }

  lemma FinishDelta(g: Store, i: Tid, th: Thread)
    requires InFinish(th.pc)
    ensures var (g', th') := FinishStep(Ideal, g, i, th); Counts(g, th, g', th')
  {
  }

  lemma SizeDelta(g: Store, i: Tid, th: Thread)
    requires g.popped <= |g.log|
    ensures var (g', th') := ThreadStep(Ideal, g, i, th); Counts(g, th, g', th')
  {
    hide Counts, PushStep, PopStep, FinishStep;
    if InPush(th.pc) { PushDelta(g, i, th); } else if InFinish(th.pc) { FinishDelta(g, i, th); } else { PopDelta(g, i,
        th); }
  }

  lemma StepKeepsSize(s: Queue, i: Tid)
    requires Inv(s) && Enabled(s, Run(i)) && SizeOk(s)
    ensures SizeOk(Step(Ideal, s, i))
  {
    hide Chain, ThreadStep, ThreadOk, Evolves, Uncounted, Undiscounted, Count;
    Ends(s.g);
    var s', th := Step(Ideal, s, i), s.threads[i];
    StepKeepsInv(s, i);
    NotBroken(s', i);
    CountUpdate(s.threads, i, s'.threads[i], Uncounted);
    CountUpdate(s.threads, i, s'.threads[i], Undiscounted);
    SizeDelta(s.g, i, th);
    WrapAdd(Balance(s), s.g.size);
  }

  lemma ActionKeepsSize(s: Queue, a: Action)
    requires Inv(s) && Enabled(s, a) && SizeOk(s)
    ensures SizeOk(Do(Ideal, s, a))
  {
    hide Inv, Step, Count;
    if a.Run? {
      StepKeepsSize(s, a.i);
    } else {
      var s', i := Do(Ideal, s, a), a.i;
      assert s'.threads == s.threads[i := s'.threads[i]];
      CountUpdate(s.threads, i, s'.threads[i], Uncounted);
      CountUpdate(s.threads, i, s'.threads[i], Undiscounted);
    }
  }

  lemma NotBroken(s: Queue, i: Tid)
    requires Inv(s) && i < |s.threads|
    ensures !s.threads[i].pc.Broken?
  {
    assert ThreadOk(s.g, i, s.threads[i]);
  }

  lemma {:induction false} RunKeepsSize(ss: seq<Queue>, acts: seq<Action>, k: nat)
    requires IsRun(ss, acts) && k < |ss|
    ensures SizeOk(ss[k])
  {
    if k == 0 {
      CountNone(ss[0].threads, Uncounted);
      CountNone(ss[0].threads, Undiscounted);
    } else {
      hide Inv, Init, Do, SizeOk;
      RunKeepsInv(ss, acts, k - 1);
      RunKeepsSize(ss, acts, k - 1);
      assert ss[(k - 1) + 1] == Do(Ideal, ss[k - 1], acts[k - 1]);
      ActionKeepsSize(ss[k - 1], acts[k - 1]);
    }
  }

  /** With nobody inside the queue the counter is exact. */
  lemma SizeAtRest(ss: seq<Queue>, acts: seq<Action>, k: nat)
    requires IsRun(ss, acts) && k < |ss|
    requires forall i :: 0 <= i < |ss[k].threads| ==> ss[k].threads[i].pc.Idle?
    ensures ss[k].g.size == |Contents(ss[k].g)| % WORD
  {
    RunKeepsSize(ss, acts, k);
    RunKeepsInv(ss, acts, k);
    Ends(ss[k].g);
    CountNone(ss[k].threads, Uncounted);
    CountNone(ss[k].threads, Undiscounted);
  }
}
