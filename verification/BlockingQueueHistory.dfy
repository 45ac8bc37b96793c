/**
 An atomic bounded queue used by several threads.  Each operation is called, takes effect in one event, and returns
 what that event gave it.
 */
module AtomicBoundedQueue {
  import opened BlockingQueue

  /** How far a thread's current operation has come. */
  datatype Op =
    | Done(result: Result)
    | Pushing(v: Value)
    | Enqueued
    | Popping(timed: bool)
    | Taken(v: Value)
    | Closing
    | HasClosed

  datatype Atomic = Atomic(contents: seq<Value>, closed: bool, ops: seq<Op>)

  datatype Event =
    | Silent | CallsPush(v: Value) | CallsPop(timed: bool) | CallsClose
    | Enqueues | Refuses | ReturnsPush | Dequeues | ReturnsValue | ReturnsClosed | TimesOut | Closes | ReturnsClose

  /** What event `e` does to the contents and to the operation of the thread it belongs to. */
  predicate Effect(e: Event, cap: nat, closed: bool, q: seq<Value>, op: Op, q': seq<Value>, op': Op) {
    match e
    case Enqueues => op.Pushing? && |q| < cap && op' == Enqueued && q' == q + [op.v]
    case Refuses => closed && op.Pushing? && op' == Done(Pushed(false)) && q' == q
    case ReturnsPush => op.Enqueued? && op' == Done(Pushed(true)) && q' == q
    case Dequeues => op.Popping? && q != [] && op' == Taken(q[0]) && q' == q[1..]
    case ReturnsValue => op.Taken? && op' == Done(Popped(op.v)) && q' == q
    case ReturnsClosed => closed && op.Popping? && q == [] == q' && op' == Done(Closed)
    case TimesOut => op == Popping(true) && q == [] == q' && op' == Done(TimedOut)
    case Closes => op == Closing && op' == HasClosed && q' == q
    case ReturnsClose => op == HasClosed && op' == Done(NoCall) && q' == q
    case CallsPush(v) => op.Done? && op' == Pushing(v) && q' == q
    case CallsPop(timed) => op.Done? && op' == Popping(timed) && q' == q
    case CallsClose => op.Done? && op' == Closing && q' == q
    case Silent => op' == op && q' == q
  }

  predicate Happens(e: Event, cap: nat, i: Tid, a: Atomic, b: Atomic) {
    && i < |a.ops| == |b.ops|
    && b.closed == (a.closed || e == Closes)
    && b.ops == a.ops[i := b.ops[i]]
    && Effect(e, cap, a.closed, a.contents, a.ops[i], b.contents, b.ops[i])
  }

  /** Empty, open, and nobody inside. */
  predicate AtFirst(a: Atomic) {
    a.contents == [] && !a.closed && forall i :: 0 <= i < |a.ops| ==> a.ops[i].Done?
  }

  ghost predicate IsHistory(cap: nat, hist: seq<Atomic>, es: seq<Event>, who: seq<Tid>) {
    && |hist| == |es| + 1 && |who| == |es| && AtFirst(hist[0])
    && forall k :: 0 <= k < |es| ==> Happens(es[k], cap, who[k], hist[k], hist[k + 1])
  }
}

/** What calls of the bounded queue return, over whole runs and when a thread runs alone. */
module BlockingQueueHistory {
  import opened BlockingQueue
  import opened BlockingQueueTheorems
  import C = BlockingQueueClosing
  import opened AtomicBoundedQueue

  // ---- Every run is a history of the atomic bounded queue ----

  function OpOf(th: Thread): Op {
    match th.pc
    case Idle(r) => Done(r)
    case PopEnter => Popping(th.timed)
    case PopTest(_) => Popping(th.timed)
    case PopDoze => Popping(th.timed)
    case PopAsleep => Popping(th.timed)
    case PopWoken(_) => Popping(th.timed)
    case PopCheck => Popping(th.timed)
    case PopTake => Popping(th.timed)
    case PopSignal(v) => Taken(v)
    case PopLeave(v) => Taken(v)
    case PushEnter(v) => Pushing(v)
    case PushTest(v) => Pushing(v)
    case PushDoze(v) => Pushing(v)
    case PushAsleep(v) => Pushing(v)
    case PushWoken(v) => Pushing(v)
    case PushCheck(v) => Pushing(v)
    case PushStore(v) => Pushing(v)
    case PushSignal => Enqueued
    case CloseStore => Closing
    case CloseNotEmpty => HasClosed
    case CloseNotFull => HasClosed
  }

  function Ops(ths: seq<Thread>): (ops: seq<Op>)
    ensures |ops| == |ths| && forall i :: 0 <= i < |ths| ==> ops[i] == OpOf(ths[i])
  {
    seq(|ths|, i requires 0 <= i < |ths| => OpOf(ths[i]))
  }

  function Abs(s: State): Atomic {
    Atomic(s.c.deque, s.c.closed, Ops(s.threads))
  }

  /** Where an operation takes effect: lines 103, 57 and 82 for values, the tests before them for refusals. */
  function ThreadEvent(c: Core, th: Thread): Event {
    match th.pc
    case PopTest(expired) => if c.deque == [] && !c.closed && expired then TimesOut else Silent
    case PopCheck =>
      if c.deque == [] && (th.timed || c.closed) then (if c.closed then ReturnsClosed else TimesOut) else Silent
    case PopTake => Dequeues
    case PopLeave(_) => ReturnsValue
    case PushCheck(_) => if c.closed then Refuses else Silent
    case PushStore(_) => Enqueues
    case PushSignal => ReturnsPush
    case CloseStore => Closes
    case CloseNotFull => ReturnsClose
    case _ => Silent
  }

  function EventOf(s: State, a: Action): Event {
    match a
    case Run(i, _) => if i < |s.threads| then ThreadEvent(s.c, s.threads[i]) else Silent
    case CallPush(_, v) => CallsPush(v)
    case CallPop(_, timed) => CallsPop(timed)
    case CallClose(_) => CallsClose
    case Spurious(_) => Silent
    case Expire(_) => Silent
  }

  /** Only a call with a time-out can have expired. */
  predicate TimerOk(th: Thread) {
    th.pc.PopTest? || th.pc.PopWoken? ==> th.pc.expired ==> th.timed
  }

  ghost predicate TimersOk(s: State) {
    forall i :: 0 <= i < |s.threads| ==> TimerOk(s.threads[i])
  }

  lemma LocalTimer(c: Core, i: Tid, th: Thread)
    requires TimerOk(th)
    ensures TimerOk(Local(c, i, th).1) && TimerOk(Wake(th))
  {
  }

  lemma TimersStayOk(s: State, a: Action)
    requires TimersOk(s) && Enabled(s, a)
    ensures a.i < |s.threads| && (a.Run? ==> a.j < |s.threads|) && TimersOk(Do(s, a))
  {
    InRange(s, a);
    var s' := Do(s, a);
    forall k | 0 <= k < |s'.threads| ensures TimerOk(s'.threads[k]) {
      LocalTimer(s.c, k, s.threads[k]);
      if a.Run? { WakesOnly(s.threads[a.i].pc, s.threads, a.j, k); }
      hide Local, Wakes, Wake;
    }
  }

  lemma LocalEffect(c: Core, i: Tid, th: Thread)
    requires CoreOk(c) && Knows(c, i, th.pc) && TimerOk(th)
    ensures var (c', th') := Local(c, i, th);
            && Effect(ThreadEvent(c, th), c.cap, c.closed, c.deque, OpOf(th), c'.deque, OpOf(th'))
            && c'.closed == (c.closed || ThreadEvent(c, th) == Closes) && c'.cap == c.cap
  {
  }

  lemma WokenOp(th: Thread)
    ensures OpOf(Wake(th)) == OpOf(th)
  {
  }

  lemma RunHappens(s: State, i: Tid, j: Tid)
    requires Safe(s) && TimersOk(s) && Enabled(s, Run(i, j))
    ensures i < |s.threads| && j < |s.threads|
    ensures Happens(EventOf(s, Run(i, j)), s.c.cap, i, Abs(s), Abs(Step(s, i, j)))
    ensures Step(s, i, j).c.cap == s.c.cap
  {
    hide OpOf, ThreadEvent, Local, Effect, Wakes, Wake;
    InRange(s, Run(i, j));
    LocalEffect(s.c, i, s.threads[i]);
    var s' := Step(s, i, j);
    forall k | 0 <= k < |s.threads| && k != i ensures Ops(s'.threads)[k] == Ops(s.threads)[k] {
      WakesOnly(s.threads[i].pc, s.threads, j, k);
      WokenOp(s.threads[k]);
    }
    assert Ops(s'.threads) == Ops(s.threads)[i := Ops(s'.threads)[i]];
  }

  lemma OutsideHappens(s: State, a: Action)
    requires Enabled(s, a) && !a.Run?
    ensures a.i < |s.threads| && Happens(EventOf(s, a), s.c.cap, a.i, Abs(s), Abs(Do(s, a)))
    ensures Do(s, a).c.cap == s.c.cap
  {
    WokenOp(s.threads[a.i]);
    var s' := Do(s, a);
    assert Ops(s'.threads) == Ops(s.threads)[a.i := Ops(s'.threads)[a.i]];
  }

  lemma ActionHappens(s: State, a: Action)
    requires Safe(s) && TimersOk(s) && Enabled(s, a)
    ensures a.i < |s.threads| && (a.Run? ==> a.j < |s.threads|)
    ensures Happens(EventOf(s, a), s.c.cap, a.i, Abs(s), Abs(Do(s, a))) && Do(s, a).c.cap == s.c.cap
  {
    hide Safe, TimersOk, Happens, EventOf, Abs, Step;
    InRange(s, a);
    if a.Run? { RunHappens(s, a.i, a.j); } else { OutsideHappens(s, a); }
  }

  lemma {:induction false} RunIsSafe(ss: seq<State>, acts: seq<Action>, k: nat)
    requires IsRun(ss, acts) && k < |ss|
    ensures Safe(ss[k]) && TimersOk(ss[k]) && ss[k].c.cap == ss[0].c.cap
  {
    RunKeepsInv(ss, acts, k);
    hide Inv, Do, Enabled, Happens, EventOf, Abs;
    C.InvIsSafe(ss[k]);
    if k > 0 {
      hide Init, TimersOk, Safe;
      RunIsSafe(ss, acts, k - 1);
      TimersStayOk(ss[k - 1], acts[k - 1]);
      ActionHappens(ss[k - 1], acts[k - 1]);
      assert ss[(k - 1) + 1] == Do(ss[k - 1], acts[k - 1]);
    }
  }

  ghost function History(ss: seq<State>): (hist: seq<Atomic>)
    ensures |hist| == |ss| && forall k :: 0 <= k < |ss| ==> hist[k] == Abs(ss[k])
  {
    seq(|ss|, k requires 0 <= k < |ss| => Abs(ss[k]))
  }

  ghost function Events(ss: seq<State>, acts: seq<Action>): (es: seq<Event>)
    requires |ss| == |acts| + 1
    ensures |es| == |acts| && forall k :: 0 <= k < |acts| ==> es[k] == EventOf(ss[k], acts[k])
  {
    seq(|acts|, k requires 0 <= k < |acts| => EventOf(ss[k], acts[k]))
  }

  function Actors(acts: seq<Action>): (who: seq<Tid>)
    ensures |who| == |acts| && forall k :: 0 <= k < |acts| ==> who[k] == acts[k].i
  {
    seq(|acts|, k requires 0 <= k < |acts| => acts[k].i)
  }

  /** Every run is a history of the atomic bounded queue. */
  lemma Linearizable(ss: seq<State>, acts: seq<Action>)
    requires IsRun(ss, acts)
    ensures IsHistory(ss[0].c.cap, History(ss), Events(ss, acts), Actors(acts))
  {
    hide Safe, TimersOk, Happens, EventOf, Abs, Do, Enabled;
    forall k | 0 <= k < |acts|
      ensures Happens(EventOf(ss[k], acts[k]), ss[0].c.cap, acts[k].i, Abs(ss[k]), Abs(ss[k + 1]))
    {
      RunIsSafe(ss, acts, k);
      ActionHappens(ss[k], acts[k]);
    }
    assert AtFirst(Abs(ss[0])) by { EmptyAtFirst(ss[0]); }
  }

  lemma EmptyAtFirst(s: State)
    requires Init(s)
    ensures AtFirst(Abs(s))
  {
  }

  // ---- Whatever was pushed, and whatever was taken ----

  /** The value of a push that is neither stored nor refused, and a value taken that is not yet returned. */
  function ToStore(th: Thread): multiset<Value> {
    if Storing(th.pc) then multiset{th.pc.v} else multiset{}
  }

  predicate Storing(pc: Pc) {
    pc.PushEnter? || pc.PushTest? || pc.PushDoze? || pc.PushAsleep? || pc.PushWoken? || pc.PushCheck? || pc.PushStore?
  }

  function ToReturn(th: Thread): multiset<Value> {
    if Returning(th.pc) then multiset{th.pc.v} else multiset{}
  }

  predicate Returning(pc: Pc) {
    pc.PopSignal? || pc.PopLeave?
  }

  function Together(ths: seq<Thread>, f: Thread -> multiset<Value>): multiset<Value> {
    if ths == [] then multiset{} else f(ths[0]) + Together(ths[1..], f)
  }

  lemma {:induction false} TogetherUpdate(ths: seq<Thread>, i: Tid, th: Thread, f: Thread -> multiset<Value>)
    requires i < |ths|
    ensures Together(ths[i := th], f) + f(ths[i]) == Together(ths, f) + f(th)
  {
    if i == 0 {
      assert ths[i := th][1..] == ths[1..];
    } else {
      assert ths[i := th][1..] == ths[1..][i - 1 := th];
      TogetherUpdate(ths[1..], i - 1, th, f);
      Regroup(f(ths[0]), Together(ths[1..][i - 1 := th], f), f(ths[i]), Together(ths[1..], f), f(th));
    }
  }

  lemma Regroup(a: multiset<Value>, b: multiset<Value>, c: multiset<Value>, d: multiset<Value>, e: multiset<Value>)
    requires b + c == d + e
    ensures a + b + c == a + d + e
  {
    assert a + b + c == a + (b + c);
    assert a + d + e == a + (d + e);
  }

  lemma {:induction false} TogetherSame(ths: seq<Thread>, ths': seq<Thread>, f: Thread -> multiset<Value>)
    requires |ths| == |ths'| && forall i :: 0 <= i < |ths| ==> f(ths'[i]) == f(ths[i])
    ensures Together(ths', f) == Together(ths, f)
  {
    if ths != [] {
      TogetherSame(ths[1..], ths'[1..], f);
    }
  }

  lemma {:induction false} TogetherNone(ths: seq<Thread>, f: Thread -> multiset<Value>)
    requires forall i :: 0 <= i < |ths| ==> f(ths[i]) == multiset{}
    ensures Together(ths, f) == multiset{}
  {
    if ths != [] {
      TogetherNone(ths[1..], f);
    }
  }

  /** What a call has just returned to its caller: the value it popped, or the value it would not push. */
  function Gives(th: Thread, th': Thread): multiset<Value> {
    if !th.pc.Idle? && th'.pc.Idle? && th'.pc.result.Popped? then multiset{th'.pc.result.v} else multiset{}
  }

  function GivesBack(th: Thread, th': Thread): multiset<Value> {
    if Storing(th.pc) && th'.pc == Idle(Pushed(false)) then multiset{th.pc.v} else multiset{}
  }

  function Asks(a: Action): multiset<Value> {
    if a.CallPush? then multiset{a.v} else multiset{}
  }

  /** All values pushed, returned and refused during the first `k` actions, read off the calls and their results. */
  ghost function Asked(acts: seq<Action>, k: nat): multiset<Value>
    requires k <= |acts|
  {
    if k == 0 then multiset{} else Asked(acts, k - 1) + Asks(acts[k - 1])
  }

  ghost function Given(ss: seq<State>, acts: seq<Action>, k: nat): multiset<Value>
    requires IsRun(ss, acts) && k <= |acts|
  {
    if k == 0 then multiset{}
    else Given(ss, acts, k - 1) + (var i := Actor(ss, acts, k - 1); Gives(ss[k - 1].threads[i], ss[k].threads[i]))
  }

  ghost function GivenBack(ss: seq<State>, acts: seq<Action>, k: nat): multiset<Value>
    requires IsRun(ss, acts) && k <= |acts|
  {
    if k == 0 then multiset{}
    else
      GivenBack(ss, acts, k - 1) + (var i := Actor(ss, acts, k - 1); GivesBack(ss[k - 1].threads[i], ss[k].threads[i]))
  }

  ghost function Actor(ss: seq<State>, acts: seq<Action>, k: nat): (i: Tid)
    requires IsRun(ss, acts) && k < |acts|
    ensures i == acts[k].i && i < |ss[k].threads| && i < |ss[k + 1].threads|
  {
    InRange(ss[k], acts[k]);
    assert ss[k + 1] == Do(ss[k], acts[k]);
    acts[k].i
  }

  /** Nothing moves, or a value is taken, or a value is returned. */
  ghost predicate Moves(gone: seq<Value>, pc: Pc, gone': seq<Value>, pc': Pc) {
    || (gone' == gone && !Returning(pc) && !Returning(pc') && (pc'.Idle? && pc'.result.Popped? ==> pc.Idle?))
    || (gone' == gone && Returning(pc) && Returning(pc') && pc'.v == pc.v)
    || (!Returning(pc) && pc'.PopSignal? && gone' == gone + [pc'.v])
    || (Returning(pc) && gone' == gone && pc' == Idle(Popped(pc.v)))
  }

  lemma LocalMoves(c: Core, i: Tid, th: Thread)
    ensures Moves(c.delivered, th.pc, Local(c, i, th).0.delivered, Local(c, i, th).1.pc)
  {
  }

  lemma MovesBalance(gone: seq<Value>, th: Thread, gone': seq<Value>, th': Thread)
    requires Moves(gone, th.pc, gone', th'.pc)
    ensures multiset(gone') + ToReturn(th) == multiset(gone) + ToReturn(th') + Gives(th, th')
  {
  }

  /** Nothing moves, or a value is stored, or a value is refused. */
  ghost predicate Enters(kept: seq<Value>, pc: Pc, kept': seq<Value>, pc': Pc) {
    || (kept' == kept && !Storing(pc) && !Storing(pc'))
    || (kept' == kept && Storing(pc) && Storing(pc') && pc'.v == pc.v)
    || (Storing(pc) && kept' == kept + [pc.v] && pc' == PushSignal)
    || (Storing(pc) && kept' == kept && pc' == Idle(Pushed(false)))
  }

  lemma LocalEnters(c: Core, i: Tid, th: Thread)
    ensures Enters(c.accepted, th.pc, Local(c, i, th).0.accepted, Local(c, i, th).1.pc)
  {
  }

  lemma EntersBalance(kept: seq<Value>, th: Thread, kept': seq<Value>, th': Thread)
    requires Enters(kept, th.pc, kept', th'.pc)
    ensures multiset(kept) + ToStore(th) == multiset(kept') + ToStore(th') + GivesBack(th, th')
  {
  }

  lemma WokenBalance(th: Thread)
    ensures ToReturn(Wake(th)) == ToReturn(th) && ToStore(Wake(th)) == ToStore(th)
  {
    WokenPc(th);
    hide Wake, Storing, Returning;
  }

  lemma WokenPc(th: Thread)
    ensures var pc' := Wake(th).pc;
            && !Returning(th.pc) == !Returning(pc') && (Returning(pc') ==> pc' == th.pc)
            && Storing(pc') == Storing(th.pc) && (Storing(pc') ==> pc'.v == th.pc.v) && (pc'.Idle? ==> th.pc.Idle?)
  {
  }

  /** What one action does to the values on their way. */
  ghost predicate OutBalanced(s: State, s': State, i: Tid)
    requires i < |s.threads| && i < |s'.threads|
  {
    multiset(s'.c.delivered) + Together(s.threads, ToReturn) ==
    multiset(s.c.delivered) + Together(s'.threads, ToReturn) + Gives(s.threads[i], s'.threads[i])
  }

  ghost predicate InBalanced(s: State, a: Action, s': State, i: Tid)
    requires i < |s.threads| && i < |s'.threads|
  {
    multiset(s.c.accepted) + Together(s.threads, ToStore) + Asks(a) ==
    multiset(s'.c.accepted) + Together(s'.threads, ToStore) + GivesBack(s.threads[i], s'.threads[i])
  }

  lemma Carry(all: multiset<Value>, all': multiset<Value>, own: multiset<Value>, own': multiset<Value>,
      x: multiset<Value>, x': multiset<Value>, out: multiset<Value>)
    requires all' + own == all + own' && x' + own == x + own' + out
    ensures x' + all == x + all' + out
  {
    forall v ensures (x' + all)[v] == (x + all' + out)[v] {
      assert (all' + own)[v] == (all + own')[v] && (x' + own)[v] == (x + own' + out)[v];
    }
  }

  lemma CarryIn(all: multiset<Value>, all': multiset<Value>, own: multiset<Value>, own': multiset<Value>,
      x: multiset<Value>, x': multiset<Value>, out: multiset<Value>)
    requires all' + own == all + own' && x + own == x' + own' + out
    ensures x + all == x' + all' + out
  {
    forall v ensures (x + all)[v] == (x' + all' + out)[v] {
      assert (all' + own)[v] == (all + own')[v] && (x + own)[v] == (x' + own' + out)[v];
    }
  }

  lemma Awoken(s: State, i: Tid, j: Tid, f: Thread -> multiset<Value>)
    requires i < |s.threads| && j < |s.threads| && forall th :: f(Wake(th)) == f(th)
    ensures var s' := Step(s, i, j);
            Together(s'.threads, f) + f(s.threads[i]) == Together(s.threads, f) + f(s'.threads[i])
  {
    hide Local, Wakes, Wake, Together;
    var s', woken := Step(s, i, j), Wakes(s.threads[i].pc, s.threads, j)[i := s.threads[i]];
    forall k | 0 <= k < |woken| ensures f(woken[k]) == f(s.threads[k]) {
      WakesOnly(s.threads[i].pc, s.threads, j, k);
    }
    TogetherSame(s.threads, woken, f);
    assert s'.threads == woken[i := s'.threads[i]];
    TogetherUpdate(woken, i, s'.threads[i], f);
  }

  lemma RunBalances(s: State, i: Tid, j: Tid)
    requires Enabled(s, Run(i, j))
    ensures i < |s.threads| && j < |s.threads|
    ensures OutBalanced(s, Step(s, i, j), i) && InBalanced(s, Run(i, j), Step(s, i, j), i)
  {
    hide Local, Wakes, Wake, ToReturn, ToStore, Gives, GivesBack, Together;
    InRange(s, Run(i, j));
    var s', th := Step(s, i, j), s.threads[i];
    var th' := s'.threads[i];
    forall t ensures ToReturn(Wake(t)) == ToReturn(t) && ToStore(Wake(t)) == ToStore(t) { WokenBalance(t); }
    Awoken(s, i, j, ToReturn);
    Awoken(s, i, j, ToStore);
    LocalMoves(s.c, i, th);
    MovesBalance(s.c.delivered, th, s'.c.delivered, th');
    LocalEnters(s.c, i, th);
    EntersBalance(s.c.accepted, th, s'.c.accepted, th');
    Carry(Together(s.threads, ToReturn), Together(s'.threads, ToReturn), ToReturn(th), ToReturn(th'),
          multiset(s.c.delivered), multiset(s'.c.delivered), Gives(th, th'));
    CarryIn(Together(s.threads, ToStore), Together(s'.threads, ToStore), ToStore(th), ToStore(th'),
            multiset(s.c.accepted), multiset(s'.c.accepted), GivesBack(th, th'));
  }

  lemma OutsidePc(s: State, a: Action)
    requires Enabled(s, a) && !a.Run?
    ensures a.i < |s.threads| && Do(s, a).c == s.c
    ensures var pc, th' := s.threads[a.i].pc, Do(s, a).threads[a.i];
            && Do(s, a).threads == s.threads[a.i := th'] && (th'.pc.Idle? ==> pc.Idle?)
            && !Returning(pc) && !Returning(th'.pc)
            && (if a.CallPush? then pc.Idle? && th'.pc == PushEnter(a.v)
                else Storing(th'.pc) == Storing(pc) && (Storing(pc) ==> th'.pc.v == pc.v))
  {
    if a.Spurious? { WokenPc(s.threads[a.i]); }
  }

  lemma OutsideThread(s: State, a: Action)
    requires Enabled(s, a) && !a.Run?
    ensures a.i < |s.threads| && Do(s, a).c == s.c
    ensures var th, th' := s.threads[a.i], Do(s, a).threads[a.i];
            && Do(s, a).threads == s.threads[a.i := th'] && Gives(th, th') == multiset{} == GivesBack(th, th')
            && ToReturn(th') == ToReturn(th) && ToStore(th') == ToStore(th) + Asks(a)
  {
    hide Do, Enabled;
    OutsidePc(s, a);
  }

  lemma OutsideBalances(s: State, a: Action)
    requires Enabled(s, a) && !a.Run?
    ensures a.i < |s.threads| && OutBalanced(s, Do(s, a), a.i) && InBalanced(s, a, Do(s, a), a.i)
  {
    hide Together, ToReturn, ToStore, Gives, GivesBack, Asks, Do, Enabled;
    OutsideThread(s, a);
    var s' := Do(s, a);
    var th, th', x := s.threads[a.i], s'.threads[a.i], multiset(s.c.accepted);
    TogetherUpdate(s.threads, a.i, th', ToReturn);
    TogetherUpdate(s.threads, a.i, th', ToStore);
    Cancel(Together(s'.threads, ToReturn), Together(s.threads, ToReturn), multiset{}, ToReturn(th));
    Cancel(Together(s'.threads, ToStore), Together(s.threads, ToStore), Asks(a), ToStore(th));
    assert x + Together(s.threads, ToStore) + Asks(a) == x + (Together(s.threads, ToStore) + Asks(a));
  }

  lemma Cancel(all': multiset<Value>, all: multiset<Value>, ask: multiset<Value>, own: multiset<Value>)
    requires all' + own == all + (own + ask)
    ensures all' == all + ask
  {
    forall v ensures all'[v] == (all + ask)[v] {
      assert (all' + own)[v] == (all + (own + ask))[v];
    }
  }

  lemma ActionBalances(s: State, a: Action)
    requires Enabled(s, a)
    ensures a.i < |s.threads| && (a.Run? ==> a.j < |s.threads|)
    ensures OutBalanced(s, Do(s, a), a.i) && InBalanced(s, a, Do(s, a), a.i)
  {
    hide OutBalanced, InBalanced, Step;
    InRange(s, a);
    if a.Run? { RunBalances(s, a.i, a.j); } else { OutsideBalances(s, a); }
  }

  /** In every run, whatever was taken out has been returned to a caller or is about to be. */
  lemma {:induction false} TakenAreGiven(ss: seq<State>, acts: seq<Action>, k: nat)
    requires IsRun(ss, acts) && k < |ss|
    ensures multiset(ss[k].c.delivered) == Together(ss[k].threads, ToReturn) + Given(ss, acts, k)
  {
    hide Do, Enabled, Together, ToReturn, ToStore, Init, Gives, InBalanced;
    if k == 0 {
      NobodyCarries(ss[0]);
    } else {
      TakenAreGiven(ss, acts, k - 1);
      var i := Actor(ss, acts, k - 1);
      var s, s' := ss[k - 1], ss[k];
      ActionBalances(s, acts[k - 1]);
      assert ss[(k - 1) + 1] == Do(s, acts[k - 1]);
      AddUp(multiset(s'.c.delivered), Together(s.threads, ToReturn), multiset(s.c.delivered),
            Together(s'.threads, ToReturn), Gives(s.threads[i], s'.threads[i]), Given(ss, acts, k - 1));
    }
  }

  /** In every run, whatever was pushed waits with its caller, was refused, or was stored. */
  lemma {:induction false} AskedAreStored(ss: seq<State>, acts: seq<Action>, k: nat)
    requires IsRun(ss, acts) && k < |ss|
    ensures Asked(acts, k) ==
            Together(ss[k].threads, ToStore) + GivenBack(ss, acts, k) + multiset(ss[k].c.accepted)
  {
    hide Do, Enabled, Together, ToReturn, ToStore, Init, GivesBack, Asks, OutBalanced;
    if k == 0 {
      NobodyCarries(ss[0]);
    } else {
      AskedAreStored(ss, acts, k - 1);
      var i := Actor(ss, acts, k - 1);
      var s, s', a := ss[k - 1], ss[k], acts[k - 1];
      ActionBalances(s, a);
      assert ss[(k - 1) + 1] == Do(s, a);
      AddIn(Asked(acts, k - 1), multiset(s.c.accepted), Together(s.threads, ToStore), Asks(a),
            multiset(s'.c.accepted), Together(s'.threads, ToStore), GivesBack(s.threads[i], s'.threads[i]),
            GivenBack(ss, acts, k - 1));
    }
  }

  /**
   Read off the calls and their results alone: every value ever pushed is with a caller that still waits to store it,
   was refused, is in the deque, is with a caller about to return it, or has been returned, once.
   */
  lemma ValuesAreConserved(ss: seq<State>, acts: seq<Action>, k: nat)
    requires IsRun(ss, acts) && k < |ss|
    ensures Asked(acts, k) ==
            Together(ss[k].threads, ToStore) + GivenBack(ss, acts, k)
            + (Together(ss[k].threads, ToReturn) + Given(ss, acts, k) + multiset(ss[k].c.deque))
  {
    RunKeepsInv(ss, acts, k);
    C.InvIsSafe(ss[k]);
    assert ss[k].c.accepted == ss[k].c.delivered + ss[k].c.deque;
    hide IsRun, Inv, Safe, Together, Asked, Given, GivenBack;
    TakenAreGiven(ss, acts, k);
    AskedAreStored(ss, acts, k);
    assert multiset(ss[k].c.delivered + ss[k].c.deque) == multiset(ss[k].c.delivered) + multiset(ss[k].c.deque);
  }

  lemma AddUp(x': multiset<Value>, held: multiset<Value>, x: multiset<Value>, held': multiset<Value>,
      out: multiset<Value>, before: multiset<Value>)
    requires x' + held == x + held' + out && x == held + before
    ensures x' == held' + (before + out)
  {
    forall v ensures x'[v] == (held' + (before + out))[v] {
      assert (x' + held)[v] == (x + held' + out)[v] && x[v] == (held + before)[v];
    }
  }

  lemma AddIn(asked: multiset<Value>, x: multiset<Value>, held: multiset<Value>, ask: multiset<Value>,
      x': multiset<Value>, held': multiset<Value>, out: multiset<Value>, before: multiset<Value>)
    requires x + held + ask == x' + held' + out && asked == held + before + x
    ensures asked + ask == held' + (before + out) + x'
  {
    forall v ensures (asked + ask)[v] == (held' + (before + out) + x')[v] {
      assert (x + held + ask)[v] == (x' + held' + out)[v] && asked[v] == (held + before + x)[v];
    }
  }

  lemma NobodyCarries(s: State)
    requires Init(s)
    ensures s.c.delivered == [] == s.c.accepted
    ensures Together(s.threads, ToReturn) == multiset{} == Together(s.threads, ToStore)
  {
    TogetherNone(s.threads, ToReturn);
    TogetherNone(s.threads, ToStore);
  }

  // ---- A call returns what it took ----

  /** With `v` in hand, or back with it. */
  predicate Brings(pc: Pc, v: Value) {
    pc == PopSignal(v) || pc == PopLeave(v) || pc == Idle(Popped(v))
  }

  lemma BringsStays(s: State, a: Action, i: Tid, v: Value)
    requires Enabled(s, a) && i < |s.threads| && Brings(s.threads[i].pc, v) && (a.i == i ==> a.Run?)
    ensures a.i < |s.threads| && (a.Run? ==> a.j < |s.threads|) && |Do(s, a).threads| == |s.threads|
    ensures Brings(Do(s, a).threads[i].pc, v)
  {
    InRange(s, a);
    if a.Run? && a.i != i {
      WakesOnly(s.threads[a.i].pc, s.threads, a.j, i);
      hide Wakes, Local;
    }
  }

  /** A call, timed or not, that took a value out of the deque returns that value. */
  lemma {:induction false} TakenIsReturned(ss: seq<State>, acts: seq<Action>, a: nat, m: nat, i: Tid, j: Tid, v: Value)
    requires IsRun(ss, acts) && a < m < |ss| && acts[a] == Run(i, j)
    requires ss[a + 1].c.delivered == ss[a].c.delivered + [v]
    requires forall x :: a < x < m && acts[x].i == i ==> acts[x].Run?
    ensures i < |ss[m].threads| && Brings(ss[m].threads[i].pc, v)
    ensures ss[m].threads[i].pc.Idle? ==> ss[m].threads[i].pc.result == Popped(v)
    decreases m
  {
    assert ss[(m - 1) + 1] == Do(ss[m - 1], acts[m - 1]) && Enabled(ss[m - 1], acts[m - 1]);
    if a + 1 < m {
      hide Do, Enabled, Init;
      TakenIsReturned(ss, acts, a, m - 1, i, j, v);
      BringsStays(ss[m - 1], acts[m - 1], i, v);
    } else {
      TakesOne(ss[a], i, j, v);
    }
  }

  lemma TakesOne(s: State, i: Tid, j: Tid, v: Value)
    requires Enabled(s, Run(i, j)) && Step(s, i, j).c.delivered == s.c.delivered + [v]
    ensures i < |s.threads| && j < |s.threads| && Brings(Step(s, i, j).threads[i].pc, v)
  {
    assert (s.c.delivered + [v])[|s.c.delivered|] == v;
    hide Wakes;
  }
}
