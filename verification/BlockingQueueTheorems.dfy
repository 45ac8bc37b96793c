/** The invariant of the bounded blocking queue and what follows from it. */
module BlockingQueueTheorems {
  import opened BlockingQueue
  import opened Counting

  /** A consumer that will look at the queue before it sleeps, or before it returns. */
  predicate ConsumerAwake(th: Thread) {
    th.pc.PopTest? || th.pc.PopWoken? || th.pc.PopCheck? || th.pc.PopTake?
  }

  /** A producer that stored a value and has not yet notified. */
  predicate ItemSignal(th: Thread) {
    th.pc.PushSignal?
  }

  predicate ProducerAwake(th: Thread) {
    th.pc.PushTest? || th.pc.PushWoken? || th.pc.PushCheck? || th.pc.PushStore?
  }

  predicate SpaceSignal(th: Thread) {
    th.pc.PopSignal?
  }

  ghost predicate SomeSleeps(ths: seq<Thread>, sleeps: Thread -> bool) {
    exists i :: 0 <= i < |ths| && sleeps(ths[i])
  }

  /** What a thread knows: whether it has the mutex, and what it found out under it. */
  ghost predicate Knows(c: Core, i: Tid, pc: Pc) {
    && (HoldsLock(pc) <==> c.lock == LockedBy(i))
    && match pc
       case PopDoze => c.deque == []
       case PopCheck => c.deque != [] || c.closed
       case PopTake => c.deque != []
       case PushDoze(_) => |c.deque| == c.cap
       case PushCheck(_) => |c.deque| < c.cap || c.closed
       case PushStore(_) => |c.deque| < c.cap
       case CloseNotEmpty => c.closed
       case CloseNotFull => c.closed
       case _ => true
  }

  ghost predicate CoreOk(c: Core) {
    |c.deque| <= c.cap && c.accepted == c.delivered + c.deque
  }

  /** What a step of thread `i` may do: whoever has the mutex only sees the flag being set. */
  ghost predicate Evolves(c: Core, c': Core, i: Tid) {
    && c'.cap == c.cap && (c.closed ==> c'.closed)
    && c.accepted <= c'.accepted && c.delivered <= c'.delivered
    && (forall j: Tid :: j != i && c.lock == LockedBy(j) ==> c'.lock == c.lock && c'.deque == c.deque)
    && (forall j: Tid :: j != i && c'.lock == LockedBy(j) ==> c.lock == c'.lock)
  }

  lemma KnowsIsStable(c: Core, c': Core, i: Tid, j: Tid, pc: Pc)
    requires Evolves(c, c', i) && i != j && Knows(c, j, pc)
    ensures Knows(c', j, pc)
  {
  }

  lemma LocalOk(c: Core, i: Tid, th: Thread)
    requires CoreOk(c) && Knows(c, i, th.pc) && (WantsLock(th.pc) ==> c.lock == Unlocked)
    ensures var (c', th') := Local(c, i, th); CoreOk(c') && Evolves(c, c', i) && Knows(c', i, th'.pc)
  {
    hide Knows, CoreOk, Evolves, Local;
    LocalCore(c, i, th);
    LocalEvolves(c, i, th);
    LocalKnows(c, i, th);
  }

  lemma LocalCore(c: Core, i: Tid, th: Thread)
    requires CoreOk(c) && Knows(c, i, th.pc)
    ensures CoreOk(Local(c, i, th).0)
  {
  }

  lemma LocalEvolves(c: Core, i: Tid, th: Thread)
    requires Knows(c, i, th.pc) && (WantsLock(th.pc) ==> c.lock == Unlocked)
    ensures Evolves(c, Local(c, i, th).0, i)
  {
  }

  lemma LocalKnows(c: Core, i: Tid, th: Thread)
    requires CoreOk(c) && Knows(c, i, th.pc)
    ensures var (c', th') := Local(c, i, th); Knows(c', i, th'.pc)
  {
  }

  /** The mutex goes to nobody but the thread that steps. */
  lemma NewHolder(c: Core, c': Core, i: Tid)
    requires Evolves(c, c', i)
    ensures c'.lock.LockedBy? ==> c'.lock.i == i || c'.lock == c.lock
  {
  }

  lemma WakeKnows(c: Core, i: Tid, th: Thread)
    requires Knows(c, i, th.pc)
    ensures Knows(c, i, Wake(th).pc)
  {
  }

  /** Waking changes nobody else. */
  lemma WakesOnly(pc: Pc, ths: seq<Thread>, j: Tid, k: Tid)
    requires j < |ths| && k < |ths|
    ensures |Wakes(pc, ths, j)| == |ths|
    ensures Wakes(pc, ths, j)[k] == ths[k] || Wakes(pc, ths, j)[k] == Wake(ths[k])
  {
  }

  ghost predicate Safe(s: State) {
    && CoreOk(s.c) && (forall i :: 0 <= i < |s.threads| ==> Knows(s.c, i, s.threads[i].pc))
    && (s.c.lock.LockedBy? ==> s.c.lock.i < |s.threads|)
  }

  /** While a consumer sleeps, every item is matched by a consumer or a notification on its way. */
  ghost predicate ItemsCovered(s: State) {
    SomeSleeps(s.threads, ConsumerSleeps) ==>
      |s.c.deque| <= Count(s.threads, ConsumerAwake) + Count(s.threads, ItemSignal)
  }

  /** While a producer sleeps and the queue is open, likewise for every free slot. */
  ghost predicate SpaceCovered(s: State) {
    !s.c.closed && SomeSleeps(s.threads, ProducerSleeps) ==>
      s.c.cap <= |s.c.deque| + Count(s.threads, ProducerAwake) + Count(s.threads, SpaceSignal)
  }

  ghost predicate Inv(s: State) {
    Safe(s) && ItemsCovered(s) && SpaceCovered(s)
  }

  // ---- Safety ----

  lemma StepSafe(s: State, i: Tid, j: Tid)
    requires Safe(s) && Enabled(s, Run(i, j))
    ensures Safe(Step(s, i, j)) && Evolves(s.c, Step(s, i, j).c, i)
  {
    hide CoreOk, Evolves, Knows, Local, Wakes, Wake;
    var s' := Step(s, i, j);
    LocalOk(s.c, i, s.threads[i]);
    NewHolder(s.c, s'.c, i);
    forall k | 0 <= k < |s'.threads| && k != i ensures Knows(s'.c, k, s'.threads[k].pc) {
      WakesOnly(s.threads[i].pc, s.threads, j, k);
      WakeKnows(s.c, k, s.threads[k]);
      KnowsIsStable(s.c, s'.c, i, k, s'.threads[k].pc);
    }
  }

  lemma ActionSafe(s: State, a: Action)
    requires Safe(s) && Enabled(s, a)
    ensures Safe(Do(s, a))
  {
    if a.Run? {
      StepSafe(s, a.i, a.j);
      hide Safe, Step;
    }
  }

  // ---- Wake-up accounting ----

  /** Counting after one thread changed. */
  lemma Recount(ths: seq<Thread>, i: Tid, th: Thread, p: Thread -> bool)
    requires i < |ths|
    ensures Count(ths[i := th], p) + One(p(ths[i])) == Count(ths, p) + One(p(th))
    ensures One(p(ths[i])) <= Count(ths, p)
  {
    CountUpdate(ths, i, th, p);
  }

  /** A sleeper after the change slept before, unless it is the changed thread. */
  lemma StillSleeps(ths: seq<Thread>, i: Tid, th: Thread, sleeps: Thread -> bool)
    requires i < |ths| && SomeSleeps(ths[i := th], sleeps) && !sleeps(th)
    ensures SomeSleeps(ths, sleeps)
  {
    var k :| 0 <= k < |ths| && sleeps(ths[i := th][k]);
    assert sleeps(ths[k]);
  }

  /** Does thread `i` cover an item less after its own step? */
  lemma ItemDelta(c: Core, i: Tid, th: Thread)
    requires CoreOk(c) && Knows(c, i, th.pc) && !th.pc.PushSignal?
    ensures var (c', th') := Local(c, i, th);
            || c'.deque == []
            || |c'.deque| + One(ConsumerAwake(th)) + One(ItemSignal(th)) <=
               |c.deque| + One(ConsumerAwake(th')) + One(ItemSignal(th'))
    ensures Local(c, i, th).1.pc.PopAsleep? && !th.pc.PopAsleep? ==> Local(c, i, th).0.deque == []
  {
  }

  lemma SpaceDelta(c: Core, i: Tid, th: Thread)
    requires CoreOk(c) && Knows(c, i, th.pc) && !th.pc.PopSignal?
    ensures var (c', th') := Local(c, i, th);
            || c'.closed || |c'.deque| == c'.cap
            || |c.deque| + One(ProducerAwake(th)) + One(SpaceSignal(th)) <=
               |c'.deque| + One(ProducerAwake(th')) + One(SpaceSignal(th'))
    ensures Local(c, i, th).1.pc.PushAsleep? && !th.pc.PushAsleep? ==> |Local(c, i, th).0.deque| == c.cap
    ensures Local(c, i, th).0.cap == c.cap && (c.closed ==> Local(c, i, th).0.closed)
  {
  }

  predicate Notifies(pc: Pc) {
    pc.PopSignal? || pc.PushSignal? || pc.CloseNotEmpty? || pc.CloseNotFull?
  }

  lemma PlainItems(s: State, i: Tid, j: Tid)
    requires Safe(s) && ItemsCovered(s) && Enabled(s, Run(i, j)) && !Notifies(s.threads[i].pc)
    ensures ItemsCovered(Step(s, i, j))
  {
    hide CoreOk, Knows, Local, ConsumerAwake, ItemSignal, Count;
    var s', th := Step(s, i, j), s.threads[i];
    var th' := s'.threads[i];
    ItemDelta(s.c, i, th);
    Recount(s.threads, i, th', ConsumerAwake);
    Recount(s.threads, i, th', ItemSignal);
    if SomeSleeps(s'.threads, ConsumerSleeps) && s'.c.deque != [] {
      StillSleeps(s.threads, i, th', ConsumerSleeps);
    }
  }

  lemma PlainSpace(s: State, i: Tid, j: Tid)
    requires Safe(s) && SpaceCovered(s) && Enabled(s, Run(i, j)) && !Notifies(s.threads[i].pc)
    ensures SpaceCovered(Step(s, i, j))
  {
    hide CoreOk, Knows, Local, ProducerAwake, SpaceSignal, Count;
    var s', th := Step(s, i, j), s.threads[i];
    var th' := s'.threads[i];
    SpaceDelta(s.c, i, th);
    Recount(s.threads, i, th', ProducerAwake);
    Recount(s.threads, i, th', SpaceSignal);
    if SomeSleeps(s'.threads, ProducerSleeps) && !s'.c.closed && |s'.c.deque| != s'.c.cap {
      StillSleeps(s.threads, i, th', ProducerSleeps);
    }
  }

  /** `notify_one` on notEmpty hands the signal over to a consumer, or finds none asleep. */
  lemma PushSignalItems(s: State, i: Tid, j: Tid)
    requires ItemsCovered(s) && Enabled(s, Run(i, j)) && s.threads[i].pc.PushSignal?
    ensures ItemsCovered(Step(s, i, j))
  {
    hide Count;
    var s' := Step(s, i, j);
    if ConsumerSleeps(s.threads[j]) {
      var woken := s.threads[j := Wake(s.threads[j])];
      Recount(s.threads, j, Wake(s.threads[j]), ConsumerAwake);
      Recount(s.threads, j, Wake(s.threads[j]), ItemSignal);
      Recount(woken, i, s'.threads[i], ConsumerAwake);
      Recount(woken, i, s'.threads[i], ItemSignal);
    } else {
      assert forall k :: 0 <= k < |s.threads| ==> !ConsumerSleeps(s.threads[k]);
    }
  }

  lemma PopSignalSpace(s: State, i: Tid, j: Tid)
    requires SpaceCovered(s) && Enabled(s, Run(i, j)) && s.threads[i].pc.PopSignal?
    ensures SpaceCovered(Step(s, i, j))
  {
    hide Count;
    var s' := Step(s, i, j);
    if ProducerSleeps(s.threads[j]) {
      var woken := s.threads[j := Wake(s.threads[j])];
      Recount(s.threads, j, Wake(s.threads[j]), ProducerAwake);
      Recount(s.threads, j, Wake(s.threads[j]), SpaceSignal);
      Recount(woken, i, s'.threads[i], ProducerAwake);
      Recount(woken, i, s'.threads[i], SpaceSignal);
    } else {
      assert forall k :: 0 <= k < |s.threads| ==> !ProducerSleeps(s.threads[k]);
    }
  }

  /** Notifying producers leaves the consumers' account alone, and the other way round. */
  lemma OtherSideItems(s: State, i: Tid, j: Tid)
    requires ItemsCovered(s) && Enabled(s, Run(i, j)) && (s.threads[i].pc.PopSignal? || s.threads[i].pc.CloseNotFull?)
    ensures ItemsCovered(Step(s, i, j))
  {
    hide Count;
    var s' := Step(s, i, j);
    CountSame(s.threads, s'.threads, ConsumerAwake);
    CountSame(s.threads, s'.threads, ItemSignal);
    if SomeSleeps(s'.threads, ConsumerSleeps) {
      var k :| 0 <= k < |s'.threads| && ConsumerSleeps(s'.threads[k]);
      assert ConsumerSleeps(s.threads[k]);
    }
  }

  lemma OtherSideSpace(s: State, i: Tid, j: Tid)
    requires SpaceCovered(s) && Enabled(s, Run(i, j)) && s.threads[i].pc.PushSignal?
    ensures SpaceCovered(Step(s, i, j))
  {
    hide Count;
    var s' := Step(s, i, j);
    CountSame(s.threads, s'.threads, ProducerAwake);
    CountSame(s.threads, s'.threads, SpaceSignal);
    if SomeSleeps(s'.threads, ProducerSleeps) {
      var k :| 0 <= k < |s'.threads| && ProducerSleeps(s'.threads[k]);
      assert ProducerSleeps(s.threads[k]);
    }
  }

  lemma NoConsumerLeftAsleep(s: State, i: Tid, j: Tid)
    requires Enabled(s, Run(i, j)) && s.threads[i].pc.CloseNotEmpty?
    ensures ItemsCovered(Step(s, i, j))
  {
  }

  lemma ClosedHasNoSpaceAccount(s: State, i: Tid, j: Tid)
    requires Safe(s) && Enabled(s, Run(i, j)) && (s.threads[i].pc.CloseNotEmpty? || s.threads[i].pc.CloseNotFull?)
    ensures SpaceCovered(Step(s, i, j))
  {
    assert Knows(s.c, i, s.threads[i].pc);
  }

  lemma StepKeepsInv(s: State, i: Tid, j: Tid)
    requires Inv(s) && Enabled(s, Run(i, j))
    ensures Inv(Step(s, i, j))
  {
    hide Safe, ItemsCovered, SpaceCovered, Step, Enabled;
    StepSafe(s, i, j);
    InRange(s, Run(i, j));
    match s.threads[i].pc {
      case PopSignal(_) => PopSignalSpace(s, i, j); OtherSideItems(s, i, j);
      case PushSignal => PushSignalItems(s, i, j); OtherSideSpace(s, i, j);
      case CloseNotEmpty => NoConsumerLeftAsleep(s, i, j); ClosedHasNoSpaceAccount(s, i, j);
      case CloseNotFull => OtherSideItems(s, i, j); ClosedHasNoSpaceAccount(s, i, j);
      case _ => PlainItems(s, i, j); PlainSpace(s, i, j);
    }
  }

  lemma InRange(s: State, a: Action)
    requires Enabled(s, a)
    ensures a.i < |s.threads| && (a.Run? ==> a.j < |s.threads|)
  {
  }

  /** Calls, spurious wake-ups and time-outs. */
  lemma OutsideKeepsInv(s: State, a: Action)
    requires Inv(s) && Enabled(s, a) && !a.Run?
    ensures Inv(Do(s, a))
  {
    hide Count, Safe;
    ActionSafe(s, a);
    var s', i := Do(s, a), a.i;
    var th' := s'.threads[i];
    Recount(s.threads, i, th', ConsumerAwake);
    Recount(s.threads, i, th', ItemSignal);
    Recount(s.threads, i, th', ProducerAwake);
    Recount(s.threads, i, th', SpaceSignal);
    if SomeSleeps(s'.threads, ConsumerSleeps) { StillSleeps(s.threads, i, th', ConsumerSleeps); }
    if SomeSleeps(s'.threads, ProducerSleeps) { StillSleeps(s.threads, i, th', ProducerSleeps); }
  }

  lemma ActionKeepsInv(s: State, a: Action)
    requires Inv(s) && Enabled(s, a)
    ensures Inv(Do(s, a))
  {
    hide Inv, Step, Enabled;
    if a.Run? { InRange(s, a); StepKeepsInv(s, a.i, a.j); } else { OutsideKeepsInv(s, a); }
  }

  ghost predicate IsRun(ss: seq<State>, acts: seq<Action>) {
    && |ss| == |acts| + 1 && Init(ss[0])
    && forall k :: 0 <= k < |acts| ==> Enabled(ss[k], acts[k]) && ss[k + 1] == Do(ss[k], acts[k])
  }

  lemma {:induction false} RunKeepsInv(ss: seq<State>, acts: seq<Action>, k: nat)
    requires IsRun(ss, acts) && k < |ss|
    ensures Inv(ss[k])
  {
    if k == 0 {
      assert !SomeSleeps(ss[0].threads, ConsumerSleeps) && !SomeSleeps(ss[0].threads, ProducerSleeps);
    } else {
      hide Inv, Init, Do, Enabled;
      RunKeepsInv(ss, acts, k - 1);
      InRange(ss[k - 1], acts[k - 1]);
      assert ss[(k - 1) + 1] == Do(ss[k - 1], acts[k - 1]);
      ActionKeepsInv(ss[k - 1], acts[k - 1]);
    }
  }

  // ---- No lost wake-up ----

  /** A thread that has been woken, or that is about to wake another. */
  predicate OnItsWay(th: Thread) {
    ConsumerAwake(th) || ItemSignal(th) || ProducerAwake(th) || SpaceSignal(th)
  }

  /** A consumer does not sleep next to an item unless some consumer or notification is on its way to it. */
  lemma NoItemIsOverlooked(ss: seq<State>, acts: seq<Action>, k: nat, i: Tid)
    requires IsRun(ss, acts) && k < |ss| && i < |ss[k].threads|
    requires ss[k].threads[i].pc.PopAsleep? && ss[k].c.deque != []
    ensures exists l :: 0 <= l < |ss[k].threads| && (ConsumerAwake(ss[k].threads[l]) || ItemSignal(ss[k].threads[l]))
  {
    var s := ss[k];
    RunKeepsInv(ss, acts, k);
    assert ConsumerSleeps(s.threads[i]);
    if 0 < Count(s.threads, ConsumerAwake) {
      var l := CountSome(s.threads, ConsumerAwake);
    } else {
      var l := CountSome(s.threads, ItemSignal);
    }
  }

  /**
   Before `close`, and with room for at least one value, a consumer and a producer are never
   both asleep with no wake-up on its way.
   */
  lemma NeverBothAsleep(ss: seq<State>, acts: seq<Action>, k: nat, i: Tid, j: Tid)
    requires IsRun(ss, acts) && k < |ss| && i < |ss[k].threads| && j < |ss[k].threads|
    requires !ss[k].c.closed && 0 < ss[k].c.cap
    requires ss[k].threads[i].pc.PopAsleep? && ss[k].threads[j].pc.PushAsleep?
    ensures exists l :: 0 <= l < |ss[k].threads| && OnItsWay(ss[k].threads[l])
  {
    var s := ss[k];
    RunKeepsInv(ss, acts, k);
    assert ConsumerSleeps(s.threads[i]) && ProducerSleeps(s.threads[j]);
    var l: nat;
    if 0 < Count(s.threads, ConsumerAwake) { l := CountSome(s.threads, ConsumerAwake); }
    else if 0 < Count(s.threads, ItemSignal) { l := CountSome(s.threads, ItemSignal); }
    else if 0 < Count(s.threads, ProducerAwake) { l := CountSome(s.threads, ProducerAwake); }
    else { l := CountSome(s.threads, SpaceSignal); }
    assert OnItsWay(s.threads[l]);
  }

  // ---- First in, first out; close and drain ----

  /** Accepted values are the delivered ones followed by the contents, never more than fit. */
  lemma FifoAndBounded(ss: seq<State>, acts: seq<Action>, k: nat)
    requires IsRun(ss, acts) && k < |ss|
    ensures ss[k].c.accepted == ss[k].c.delivered + ss[k].c.deque && |ss[k].c.deque| <= ss[k].c.cap
  {
    RunKeepsInv(ss, acts, k);
  }

  /** A pop returns the oldest value not yet delivered; nobody ever takes from an empty deque. */
  lemma PopTakesTheOldest(s: State, i: Tid, j: Tid)
    requires Inv(s) && Enabled(s, Run(i, j)) && s.threads[i].pc.PopTake?
    ensures var s' := Step(s, i, j);
            && s.c.deque != [] && s'.c.delivered == s.c.delivered + [s.c.deque[0]]
            && s'.threads[i].pc == PopSignal(s.c.accepted[|s.c.delivered|])
  {
    assert Knows(s.c, i, s.threads[i].pc);
  }

  /** Closed, empty, and nobody between the test of the flag and the store. */
  ghost predicate Finished(s: State) {
    && s.c.closed && s.c.deque == []
    && forall i :: 0 <= i < |s.threads| ==> !s.threads[i].pc.PushStore?
  }

  /** When a `pop` returns nothing, the queue is finished. */
  lemma NothingMeansFinished(s: State, i: Tid, j: Tid)
    requires Safe(s) && Enabled(s, Run(i, j)) && !s.threads[i].timed
    requires s.threads[i].pc.PopTest? || s.threads[i].pc.PopCheck?
    requires s.threads[i].pc.PopTest? ==> !s.threads[i].pc.expired
    requires Step(s, i, j).threads[i].pc.Idle?
    ensures Step(s, i, j).threads[i].pc == Idle(Closed) && Finished(Step(s, i, j))
  {
    assert Knows(s.c, i, s.threads[i].pc);
    forall k | 0 <= k < |s.threads| && k != i ensures !s.threads[k].pc.PushStore? {
      assert Knows(s.c, k, s.threads[k].pc);
    }
  }

  /** A finished queue stays finished, accepts nothing and delivers nothing. */
  lemma FinishedForever(s: State, a: Action)
    requires Safe(s) && Enabled(s, a) && Finished(s)
    ensures Finished(Do(s, a)) && Do(s, a).c.accepted == s.c.accepted && Do(s, a).c.delivered == s.c.delivered
  {
    var s', i := Do(s, a), a.i;
    assert Knows(s.c, i, s.threads[i].pc);
    if a.Run? {
      FinishedLocal(s.c, i, s.threads[i]);
      hide Local;
      forall k | 0 <= k < |s.threads| && k != i ensures !s'.threads[k].pc.PushStore? {
        WakesOnly(s.threads[i].pc, s.threads, a.j, k);
      }
    }
  }

  lemma FinishedLocal(c: Core, i: Tid, th: Thread)
    requires Knows(c, i, th.pc) && c.closed && c.deque == [] && !th.pc.PushStore?
    ensures var (c', th') := Local(c, i, th);
            && c'.closed && c'.deque == [] && c'.accepted == c.accepted && c'.delivered == c.delivered
            && !th'.pc.PushStore? && (th'.pc.Idle? && th'.pc.result.Pushed? && InPush(th.pc) ==> !th'.pc.result.ok)
  {
  }

  predicate InPush(pc: Pc) {
    pc.PushTest? || pc.PushCheck?
  }
}
