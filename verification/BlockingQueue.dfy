/**
 The bounded blocking queue of include/miniruntime/task/boundedblockingqueue.h: a monitor
 with one mutex and two condition variables, as a state machine.  A step is one access to
 the flag, one action under the mutex, or one notification.  Condition variables may wake
 spuriously and `notify_one` may pick any waiter.
 */
module BlockingQueue {
  type Value(==, !new)
  type Tid = nat

  datatype Result = NoCall | Pushed(ok: bool) | Popped(v: Value) | Closed | TimedOut

  datatype Pc =
    | Idle(result: Result)
    // pop and timeoutPop
    | PopEnter                     // wants the mutex
    | PopTest(expired: bool)       // has it; about to evaluate the predicate of the wait
    | PopDoze                      // has it; the predicate was false; about to block
    | PopAsleep                    // blocked on notEmpty, mutex released
    | PopWoken(expired: bool)      // no longer blocked; wants the mutex
    | PopCheck                     // :54 or :80
    | PopTake                      // :57-58
    | PopSignal(v: Value)          // :60
    | PopLeave(v: Value)           // releases the mutex and returns
    // emplace
    | PushEnter(v: Value)
    | PushTest(v: Value)           // :101
    | PushDoze(v: Value)
    | PushAsleep(v: Value)
    | PushWoken(v: Value)
    | PushCheck(v: Value)          // :102
    | PushStore(v: Value)          // :103-104
    | PushSignal                   // :105, mutex released
    // close
    | CloseStore                   // :114
    | CloseNotEmpty                // :115
    | CloseNotFull                 // :116

  datatype Thread = Thread(pc: Pc, timed: bool)
  datatype Lock = Unlocked | LockedBy(i: Tid)

  /**
   What the threads share.  `accepted` and `delivered` are history variables: all values
   stored and all values taken out.
   */
  datatype Core = Core(deque: seq<Value>, cap: nat, closed: bool, lock: Lock,
                       accepted: seq<Value>, delivered: seq<Value>)

  datatype State = State(c: Core, threads: seq<Thread>)

  predicate HoldsLock(pc: Pc) {
    pc.PopTest? || pc.PopDoze? || pc.PopCheck? || pc.PopTake? || pc.PopSignal? || pc.PopLeave? ||
    pc.PushTest? || pc.PushDoze? || pc.PushCheck? || pc.PushStore?
  }

  predicate WantsLock(pc: Pc) {
    pc.PopEnter? || pc.PopWoken? || pc.PushEnter? || pc.PushWoken?
  }

  function Wake(th: Thread): Thread {
    match th.pc
    case PopAsleep => th.(pc := PopWoken(false))
    case PushAsleep(v) => th.(pc := PushWoken(v))
    case _ => th
  }

  predicate ConsumerSleeps(th: Thread) {
    th.pc.PopAsleep?
  }

  predicate ProducerSleeps(th: Thread) {
    th.pc.PushAsleep?
  }

  /** `notify_all` on notEmpty, or on notFull. */
  function WakeConsumers(ths: seq<Thread>): (r: seq<Thread>)
    ensures |r| == |ths|
  {
    seq(|ths|, k requires 0 <= k < |ths| => if ConsumerSleeps(ths[k]) then Wake(ths[k]) else ths[k])
  }

  function WakeProducers(ths: seq<Thread>): (r: seq<Thread>)
    ensures |r| == |ths|
  {
    seq(|ths|, k requires 0 <= k < |ths| => if ProducerSleeps(ths[k]) then Wake(ths[k]) else ths[k])
  }

  /** `j` is a waiter that `notify_one` may pick: some sleeper if there is one. */
  ghost predicate MayPick(ths: seq<Thread>, sleeps: Thread -> bool, j: Tid) {
    j < |ths| && (sleeps(ths[j]) || forall k :: 0 <= k < |ths| ==> !sleeps(ths[k]))
  }

  function WakeOne(ths: seq<Thread>, sleeps: Thread -> bool, j: Tid): seq<Thread>
    requires j < |ths|
  {
    if sleeps(ths[j]) then ths[j := Wake(ths[j])] else ths
  }

  /** One step of thread `i`, apart from the waiters it wakes. */
  function Local(c: Core, i: Tid, th: Thread): (Core, Thread) {
    match th.pc
    case Idle(_) => (c, th)
    case PopEnter => (c.(lock := LockedBy(i)), th.(pc := PopTest(false)))
    case PopWoken(expired) => (c.(lock := LockedBy(i)), th.(pc := PopTest(expired)))
    case PopTest(expired) =>
      if c.deque != [] || c.closed then (c, th.(pc := PopCheck))
      else if expired then (c.(lock := Unlocked), th.(pc := Idle(TimedOut)))
      else (c, th.(pc := PopDoze))
    case PopDoze => (c.(lock := Unlocked), th.(pc := PopAsleep))
    case PopAsleep => (c, th)
    case PopCheck =>
      if c.deque == [] && (th.timed || c.closed)
      then (c.(lock := Unlocked), th.(pc := Idle(if c.closed then Closed else TimedOut)))
      else (c, th.(pc := PopTake))
    case PopTake =>
      if c.deque == [] then (c, th)
      else (c.(deque := c.deque[1..], delivered := c.delivered + [c.deque[0]]), th.(pc := PopSignal(c.deque[0])))
    case PopSignal(v) => (c, th.(pc := PopLeave(v)))
    case PopLeave(v) => (c.(lock := Unlocked), th.(pc := Idle(Popped(v))))
    case PushEnter(v) => (c.(lock := LockedBy(i)), th.(pc := PushTest(v)))
    case PushWoken(v) => (c.(lock := LockedBy(i)), th.(pc := PushTest(v)))
    case PushTest(v) => (c, th.(pc := if |c.deque| < c.cap || c.closed then PushCheck(v) else PushDoze(v)))
    case PushDoze(v) => (c.(lock := Unlocked), th.(pc := PushAsleep(v)))
    case PushAsleep(_) => (c, th)
    case PushCheck(v) =>
      if c.closed then (c.(lock := Unlocked), th.(pc := Idle(Pushed(false)))) else (c, th.(pc := PushStore(v)))
    case PushStore(v) =>
      (c.(lock := Unlocked, deque := c.deque + [v], accepted := c.accepted + [v]), th.(pc := PushSignal))
    case PushSignal => (c, th.(pc := Idle(Pushed(true))))
    case CloseStore => (c.(closed := true), th.(pc := CloseNotEmpty))
    case CloseNotEmpty => (c, th.(pc := CloseNotFull))
    case CloseNotFull => (c, th.(pc := Idle(NoCall)))
  }

  /** The waiters that the step at `pc` wakes; `j` is the one that `notify_one` picks. */
  function Wakes(pc: Pc, ths: seq<Thread>, j: Tid): (r: seq<Thread>)
    requires j < |ths|
    ensures |r| == |ths|
  {
    match pc
    case PopSignal(_) => WakeOne(ths, ProducerSleeps, j)
    case PushSignal => WakeOne(ths, ConsumerSleeps, j)
    case CloseNotEmpty => WakeConsumers(ths)
    case CloseNotFull => WakeProducers(ths)
    case _ => ths
  }

  function Step(s: State, i: Tid, j: Tid): State
    requires i < |s.threads| && j < |s.threads|
  {
    var (c, th) := Local(s.c, i, s.threads[i]);
    State(c, Wakes(s.threads[i].pc, s.threads, j)[i := th])
  }

  datatype Action =
    | Run(i: Tid, j: Tid)
    | CallPush(i: Tid, v: Value)
    | CallPop(i: Tid, timed: bool)
    | CallClose(i: Tid)
    | Spurious(i: Tid)
    | Expire(i: Tid)

  ghost predicate Enabled(s: State, a: Action) {
    && a.i < |s.threads|
    && var pc := s.threads[a.i].pc;
       match a
       case Run(i, j) =>
         && j < |s.threads| && !pc.Idle? && !pc.PopAsleep? && !pc.PushAsleep?
         && (WantsLock(pc) ==> s.c.lock == Unlocked)
         && (pc.PopSignal? ==> MayPick(s.threads, ProducerSleeps, j))
         && (pc.PushSignal? ==> MayPick(s.threads, ConsumerSleeps, j))
       case Spurious(_) => pc.PopAsleep? || pc.PushAsleep?
       case Expire(_) => pc.PopAsleep? && s.threads[a.i].timed
       case _ => pc.Idle?
  }

  function Do(s: State, a: Action): State
    requires a.i < |s.threads| && (a.Run? ==> a.j < |s.threads|)
  {
    match a
    case Run(i, j) => Step(s, i, j)
    case CallPush(i, v) => s.(threads := s.threads[i := s.threads[i].(pc := PushEnter(v))])
    case CallPop(i, timed) => s.(threads := s.threads[i := Thread(PopEnter, timed)])
    case CallClose(i) => s.(threads := s.threads[i := s.threads[i].(pc := CloseStore)])
    case Spurious(i) => s.(threads := s.threads[i := Wake(s.threads[i])])
    case Expire(i) => s.(threads := s.threads[i := s.threads[i].(pc := PopWoken(true))])
  }

  ghost predicate Init(s: State) {
    && s.c.deque == [] && !s.c.closed && s.c.lock == Unlocked && s.c.accepted == [] == s.c.delivered
    && forall i :: 0 <= i < |s.threads| ==> s.threads[i] == Thread(Idle(NoCall), false)
  }
}
