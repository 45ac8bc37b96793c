/** What `pop`, `timeoutPop`, `emplace` and `close` do when nobody interferes. */
module BlockingQueueCalls {
  import opened BlockingQueue
  import opened BlockingQueueTheorems
  import C = BlockingQueueClosing

  /** A thread inside a call that is neither asleep nor kept out by the mutex. */
  predicate Runnable(c: Core, pc: Pc) {
    !pc.Idle? && !pc.PopAsleep? && !pc.PushAsleep? && (WantsLock(pc) ==> c.lock == Unlocked)
  }

  /** What thread `i` sees and has become after running alone for `n` steps, or until it cannot go on. */
  function Alone(c: Core, i: Tid, th: Thread, n: nat): (Core, Thread)
    decreases n
  {
    if n == 0 || !Runnable(c, th.pc) then (c, th)
    else var (c', th') := Local(c, i, th); Alone(c', i, th', n - 1)
  }

  /** Only thread `i` runs. */
  predicate Only(acts: seq<Action>, i: Tid) {
    forall k :: 0 <= k < |acts| ==> acts[k].Run? && acts[k].i == i
  }

  ghost function Waiter(ths: seq<Thread>, sleeps: Thread -> bool, i: Tid): (j: Tid)
    requires i < |ths|
    ensures MayPick(ths, sleeps, j)
  {
    if k: nat :| k < |ths| && sleeps(ths[k]) then k else i
  }

  lemma NextStep(s: State, i: Tid) returns (j: Tid)
    requires i < |s.threads| && Runnable(s.c, s.threads[i].pc)
    ensures j < |s.threads| && Enabled(s, Run(i, j)) && |Step(s, i, j).threads| == |s.threads|
    ensures (Step(s, i, j).c, Step(s, i, j).threads[i]) == Local(s.c, i, s.threads[i])
  {
    j := Waiter(s.threads, if s.threads[i].pc.PopSignal? then ProducerSleeps else ConsumerSleeps, i);
    hide Local, Wakes;
  }

  /** `Alone` is a schedule. */
  lemma {:induction false} IsSchedule(s: State, i: Tid, n: nat) returns (acts: seq<Action>)
    requires i < |s.threads|
    ensures Only(acts, i) && i < |C.After(s, acts).threads|
    ensures (C.After(s, acts).c, C.After(s, acts).threads[i]) == Alone(s.c, i, s.threads[i], n)
    decreases n
  {
    acts := [];
    if n > 0 && Runnable(s.c, s.threads[i].pc) {
      var j := NextStep(s, i);
      hide Enabled, Local, Runnable, Step;
      var s' := Do(s, Run(i, j));
      var rest := IsSchedule(s', i, n - 1);
      acts := [Run(i, j)] + rest;
      assert acts[1..] == rest;
    }
  }

  lemma Unroll(c: Core, i: Tid, th: Thread, n: nat)
    requires n > 0 && Runnable(c, th.pc)
    ensures var (c', th') := Local(c, i, th); Alone(c, i, th, n) == Alone(c', i, th', n - 1)
  {
  }

  lemma Halts(c: Core, i: Tid, th: Thread, n: nat)
    requires !Runnable(c, th.pc)
    ensures Alone(c, i, th, n) == (c, th)
  {
  }

  predicate AtPop(pc: Pc) {
    pc.PopEnter? || pc.PopWoken?
  }

  lemma PopTests(c: Core, i: Tid, th: Thread, n: nat)
    requires AtPop(th.pc) && c.lock == Unlocked && n >= 2
    ensures var expired := th.pc.PopWoken? && th.pc.expired;
            var (c', th') := Local(c.(lock := LockedBy(i)), i, th.(pc := PopTest(expired)));
            Alone(c, i, th, n) == Alone(c', i, th', n - 2)
  {
    hide Alone;
    Unroll(c, i, th, n);
    var (c', th') := Local(c, i, th);
    Unroll(c', i, th', n - 1);
  }

  /** A lone pop, timed or not, of a nonempty queue, open or closed, returns the oldest value and takes just it out. */
  lemma PopsAlone(s: State, i: Tid) returns (acts: seq<Action>)
    requires i < |s.threads| && AtPop(s.threads[i].pc) && s.c.lock == Unlocked && s.c.deque != []
    ensures Only(acts, i) && i < |C.After(s, acts).threads|
    ensures var s' := C.After(s, acts);
            && s'.threads[i].pc == Idle(Popped(s.c.deque[0]))
            && s'.c == s.c.(deque := s.c.deque[1..], delivered := s.c.delivered + [s.c.deque[0]])
  {
    acts := IsSchedule(s, i, 6);
    hide Alone, Local, Runnable;
    Takes(s.c, i, s.threads[i]);
  }

  lemma Takes(unlocked: Core, i: Tid, th: Thread)
    requires AtPop(th.pc) && unlocked.lock == Unlocked && unlocked.deque != []
    ensures Alone(unlocked, i, th, 6) ==
            (unlocked.(deque := unlocked.deque[1..], delivered := unlocked.delivered + [unlocked.deque[0]]),
             th.(pc := Idle(Popped(unlocked.deque[0]))))
  {
    var c, v := unlocked.(lock := LockedBy(i)), unlocked.deque[0];
    var c' := c.(deque := c.deque[1..], delivered := c.delivered + [v]);
    hide Alone;
    PopTests(unlocked, i, th, 6);
    Unroll(c, i, th.(pc := PopCheck), 4);
    Unroll(c, i, th.(pc := PopTake), 3);
    Unroll(c', i, th.(pc := PopSignal(v)), 2);
    Unroll(c', i, th.(pc := PopLeave(v)), 1);
    Halts(c'.(lock := Unlocked), i, th.(pc := Idle(Popped(v))), 0);
  }

  /**
   A lone pop of an empty queue leaves the queue alone.  It returns "closed" if the queue is closed, "timed out" if it
   is open and the time is up, and goes to sleep otherwise.
   */
  lemma FindsNothingAlone(s: State, i: Tid) returns (acts: seq<Action>)
    requires i < |s.threads| && AtPop(s.threads[i].pc) && s.c.lock == Unlocked && s.c.deque == []
    ensures Only(acts, i) && i < |C.After(s, acts).threads| && C.After(s, acts).c == s.c
    ensures C.After(s, acts).threads[i].pc ==
            if s.c.closed then Idle(Closed)
            else if s.threads[i].pc.PopWoken? && s.threads[i].pc.expired then Idle(TimedOut)
            else PopAsleep
  {
    var c, th := s.c.(lock := LockedBy(i)), s.threads[i];
    acts := IsSchedule(s, i, 3);
    hide Alone;
    PopTests(s.c, i, th, 3);
    if c.closed {
      Unroll(c, i, th.(pc := PopCheck), 1);
      Halts(s.c, i, th.(pc := Idle(Closed)), 0);
    } else if th.pc.PopWoken? && th.pc.expired {
      Halts(s.c, i, th.(pc := Idle(TimedOut)), 1);
    } else {
      Unroll(c, i, th.(pc := PopDoze), 1);
      Halts(s.c, i, th.(pc := PopAsleep), 0);
    }
  }

  /**
   A lone push stores its value behind the others if the queue is open and has room, is refused if it is closed, and
   goes to sleep otherwise.
   */
  lemma PushesAlone(s: State, i: Tid, v: Value) returns (acts: seq<Action>)
    requires i < |s.threads| && s.c.lock == Unlocked
    requires s.threads[i].pc == PushEnter(v) || s.threads[i].pc == PushWoken(v)
    ensures Only(acts, i) && i < |C.After(s, acts).threads|
    ensures var s' := C.After(s, acts);
            if s.c.closed then s'.c == s.c && s'.threads[i].pc == Idle(Pushed(false))
            else if |s.c.deque| < s.c.cap then
              && s'.c == s.c.(deque := s.c.deque + [v], accepted := s.c.accepted + [v])
              && s'.threads[i].pc == Idle(Pushed(true))
            else s'.c == s.c && s'.threads[i].pc == PushAsleep(v)
  {
    acts := IsSchedule(s, i, 5);
    hide Alone, Local, Runnable;
    if s.c.closed || |s.c.deque| >= s.c.cap {
      StoresNothing(s.c, i, s.threads[i], v);
    } else {
      Stores(s.c, i, s.threads[i], v);
    }
  }

  lemma Stores(c: Core, i: Tid, th: Thread, v: Value)
    requires c.lock == Unlocked && (th.pc == PushEnter(v) || th.pc == PushWoken(v)) && !c.closed && |c.deque| < c.cap
    ensures Alone(c, i, th, 5) ==
            (c.(deque := c.deque + [v], accepted := c.accepted + [v]), th.(pc := Idle(Pushed(true))))
  {
    hide Alone;
    var locked, c' := c.(lock := LockedBy(i)), c.(deque := c.deque + [v], accepted := c.accepted + [v]);
    Unroll(c, i, th, 5);
    Unroll(locked, i, th.(pc := PushTest(v)), 4);
    Unroll(locked, i, th.(pc := PushCheck(v)), 3);
    Unroll(locked, i, th.(pc := PushStore(v)), 2);
    Unroll(c', i, th.(pc := PushSignal), 1);
    Halts(c', i, th.(pc := Idle(Pushed(true))), 0);
  }

  lemma StoresNothing(c: Core, i: Tid, th: Thread, v: Value)
    requires c.lock == Unlocked && (th.pc == PushEnter(v) || th.pc == PushWoken(v)) && (c.closed || |c.deque| >= c.cap)
    ensures Alone(c, i, th, 5) == (c, th.(pc := if c.closed then Idle(Pushed(false)) else PushAsleep(v)))
  {
    hide Alone;
    var locked := c.(lock := LockedBy(i));
    Unroll(c, i, th, 5);
    Unroll(locked, i, th.(pc := PushTest(v)), 4);
    Unroll(locked, i, th.(pc := if c.closed then PushCheck(v) else PushDoze(v)), 3);
    Halts(c, i, th.(pc := if c.closed then Idle(Pushed(false)) else PushAsleep(v)), 2);
  }

  /** A lone `close` closes the queue and changes nothing else of it. */
  lemma ClosesAlone(s: State, i: Tid) returns (acts: seq<Action>)
    requires i < |s.threads| && s.threads[i].pc == CloseStore
    ensures Only(acts, i) && i < |C.After(s, acts).threads|
    ensures C.After(s, acts).c == s.c.(closed := true) && C.After(s, acts).threads[i].pc == Idle(NoCall)
  {
    var c, th := s.c.(closed := true), s.threads[i];
    acts := IsSchedule(s, i, 3);
    hide Alone;
    Unroll(s.c, i, th, 3);
    Unroll(c, i, th.(pc := CloseNotEmpty), 2);
    Unroll(c, i, th.(pc := CloseNotFull), 1);
    Halts(c, i, th.(pc := Idle(NoCall)), 0);
  }
}
