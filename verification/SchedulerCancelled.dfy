/** When a future that `cancel` has closed stays Closed, although its task may still be on its way. */
module SchedulerCancelled {
  import E = EventLoop
  import F = Futures
  import opened Scheduler
  import opened SchedulerTheorems

  /** A worker with a task is about to claim the promise, or has claimed it and delivers. */
  ghost predicate WorkersOk(s: State) {
    forall k :: 0 <= k < |s.workers| && s.workers[k].On? ==> s.workers[k].pc.Claiming? || F.Delivers(s.workers[k].pc)
  }

  lemma WorkersStayOk(s: State, a: Action)
    requires WorkersOk(s) && Enabled(s, a)
    ensures WorkersOk(Do(s, a))
  {
    hide E.Do, E.Enabled;
  }

  lemma {:induction false} RunKeepsWorkersOk(ss: seq<State>, acts: seq<Action>, k: nat)
    requires IsRun(ss, acts) && k < |ss|
    ensures WorkersOk(ss[k])
  {
    if k > 0 {
      hide Do, Enabled;
      RunKeepsWorkersOk(ss, acts, k - 1);
      assert Leads(ss[k - 1], acts[k - 1], ss[(k - 1) + 1]);
      WorkersStayOk(ss[k - 1], acts[k - 1]);
    }
  }

  /** The future of `r` is Closed and remains so whatever happens. */
  ghost predicate ClosedForGood(s: State, r: Reg) {
    forall ss: seq<State>, acts: seq<Action> ::
      IsPath(ss, acts) && ss[0] == s ==> CellAt(ss[|acts|], r).status == F.Closed
  }

  predicate InHandOf(s: State, r: Reg) {
    s.w.l.pc.InHand? && s.w.l.pc.reg == r
  }

  /**
   Nobody will deliver: the promise was claimed and the claimer is done, or nobody has claimed it and the task is not
   in the loop's hand, not queued and not with a worker.
   */
  ghost predicate Over(s: State, r: Reg) {
    if CellAt(s, r).blocked
    then forall k :: 0 <= k < |s.workers| && s.workers[k].On? && s.workers[k].reg == r ==> !F.Delivers(s.workers[k].pc)
    else && !InHandOf(s, r) && r !in s.tasks
         && forall k :: 0 <= k < |s.workers| && s.workers[k].On? ==> s.workers[k].reg != r
  }

  ghost predicate Ended(s: State, r: Reg) {
    && Inv(s) && WorkersOk(s) && r < |s.cells| && E.Released(s.w, r)
    && CellAt(s, r).status == F.Closed && Over(s, r)
  }

  // ---- It stays so ----

  lemma ReleasedForGood(s: State, a: Action, r: Reg)
    requires Inv(s) && Enabled(s, a) && E.Released(s.w, r)
    ensures E.Released(Do(s, a).w, r) && E.Starts(Do(s, a).w.l, r) == E.Starts(s.w.l, r)
  {
    hide E.Inv, SlotsOk, PromisesOk, E.Enabled, E.Do, E.Released, E.Starts;
    match a {
      case Schedule(_, slot, fd) => E.ReleasedStays(s.w, E.Open(slot, fd), r);
      case Go(c) => if UsesLoop(s.clients[c]) { E.ReleasedStays(s.w, LoopAction(s.clients[c]), r); }
      case Poll(fds) => E.ReleasedStays(s.w, E.Poll(fds), r);
      case Loop => E.ReleasedStays(s.w, E.Advance, r);
      case _ =>
    }
  }

  /** The loop does not take up a callback that is no longer registered. */
  lemma NotTakenUp(s: State, a: Action, r: Reg)
    requires Enabled(s, a) && E.Released(s.w, r) && !InHandOf(s, r)
    ensures !InHandOf(Do(s, a), r)
  {
    if a.Loop? {
      if s.w.l.pc.Batch? && s.w.l.pc.todo != [] && s.w.l.pc.todo[0].fd in s.w.l.events {
        assert s.w.l.events[s.w.l.pc.todo[0].fd] in s.w.l.events.Values;
      }
    }
    hide E.Reported;
  }

  /** The loop has nothing to do with workers and promises, apart from the task it hands over. */
  lemma OverInLoop(s: State, a: Action, r: Reg)
    requires Enabled(s, a) && Over(s, r) && r < |s.cells| && !a.Pick? && !a.Work? && CellAt(s, r).status == F.Closed
    requires !InHandOf(Do(s, a), r) || CellAt(s, r).blocked
    ensures Over(Do(s, a), r) && CellAt(Do(s, a), r).status == F.Closed
  {
    hide E.Do, E.Enabled;
  }

  lemma OverAtWork(s: State, a: Action, r: Reg)
    requires Enabled(s, a) && Over(s, r) && WorkersOk(s) && r < |s.cells| && (a.Pick? || a.Work?)
    requires CellAt(s, r).status == F.Closed
    ensures Over(Do(s, a), r) && CellAt(Do(s, a), r).status == F.Closed
  {
  }

  lemma EndedStays(s: State, a: Action, r: Reg)
    requires Ended(s, r) && Enabled(s, a)
    ensures Ended(Do(s, a), r)
  {
    hide Inv, WorkersOk, E.Released, Over, InHandOf;
    ActionKeepsInv(s, a);
    WorkersStayOk(s, a);
    ReleasedForGood(s, a, r);
    if a.Pick? || a.Work? {
      OverAtWork(s, a, r);
    } else {
      if !InHandOf(s, r) { NotTakenUp(s, a, r); } else { InHandMeansClaimed(s, r); }
      OverInLoop(s, a, r);
    }
    CellsGrow(s, a);
  }

  lemma InHandMeansClaimed(s: State, r: Reg)
    requires Over(s, r) && InHandOf(s, r)
    ensures CellAt(s, r).blocked
  {
  }

  lemma CellsGrow(s: State, a: Action)
    requires Enabled(s, a)
    ensures |s.cells| <= |Do(s, a).cells|
  {
    hide E.Do, E.Enabled;
  }

  lemma {:induction false} PathEnded(ss: seq<State>, acts: seq<Action>, r: Reg, k: nat)
    requires IsPath(ss, acts) && Ended(ss[0], r) && k < |ss|
    ensures Ended(ss[k], r)
  {
    hide Ended, Enabled, Do;
    if k > 0 {
      PathEnded(ss, acts, r, k - 1);
      assert Leads(ss[k - 1], acts[k - 1], ss[(k - 1) + 1]);
      EndedStays(ss[k - 1], acts[k - 1], r);
    }
  }

  // ---- Otherwise it can become Ready ----

  /** Some continuation makes the future of `r` Ready. */
  ghost predicate CanBeReady(s: State, r: Reg) {
    exists ss: seq<State>, acts: seq<Action> ::
      IsPath(ss, acts) && ss[0] == s && CellAt(ss[|acts|], r).status == F.Ready
  }

  lemma ReadyNow(s: State, r: Reg)
    requires CellAt(s, r).status == F.Ready
    ensures CanBeReady(s, r)
  {
    assert IsPath([s], []);
  }

  lemma ReadyNext(s: State, a: Action, r: Reg)
    requires Enabled(s, a) && CanBeReady(Do(s, a), r)
    ensures CanBeReady(s, r)
  {
    hide Enabled, Do;
    var ss: seq<State>, acts: seq<Action> :|
      IsPath(ss, acts) && ss[0] == Do(s, a) && CellAt(ss[|acts|], r).status == F.Ready;
    var ss', acts' := [s] + ss, [a] + acts;
    forall k | 0 <= k < |acts'| ensures Leads(ss'[k], acts'[k], ss'[k + 1]) {
      if k > 0 { assert Leads(ss[k - 1], acts[k - 1], ss[(k - 1) + 1]); }
    }
    assert IsPath(ss', acts') && ss'[|acts'|] == ss[|acts|];
  }

  /** A worker that has the promise, or can still claim it, delivers if it is left alone. */
  lemma {:induction false} Delivers(s: State, k: nat, r: Reg)
    requires k < |s.workers| && s.workers[k].On? && s.workers[k].reg == r && r < |s.cells|
    requires var pc := s.workers[k].pc; F.Delivers(pc) || (pc.Claiming? && !s.cells[r].blocked)
    ensures CanBeReady(s, r)
    decreases F.ToPublish(s.workers[k].pc)
  {
    hide CanBeReady;
    var s' := Do(s, Work(k));
    if s.workers[k].pc.Publishing? { ReadyNow(s', r); } else { Delivers(s', k, r); }
    ReadyNext(s, Work(k), r);
  }

  function Busy(w: Worker): nat {
    if w.Off? then 0 else 1 + F.ToPublish(w.pc)
  }

  /** A queued task whose promise nobody has claimed comes to a worker, and delivers. */
  lemma {:induction false} ComesToAWorker(s: State, r: Reg, o: F.Outcome)
    requires 0 < |s.workers| && WorkersOk(s) && r < |s.cells| && !s.cells[r].blocked && r in s.tasks
    requires forall k :: 0 <= k < |s.workers| && s.workers[k].On? ==> s.workers[k].reg != r
    ensures CanBeReady(s, r)
    decreases |s.tasks|, Busy(s.workers[0])
  {
    hide CanBeReady;
    if s.workers[0].On? {
      WorkersStayOk(s, Work(0));
      ComesToAWorker(Do(s, Work(0)), r, o);
      ReadyNext(s, Work(0), r);
    } else {
      var s' := Do(s, Pick(0, o));
      WorkersStayOk(s, Pick(0, o));
      if s.tasks[0] == r { Delivers(s', 0, r); } else { ComesToAWorker(s', r, o); }
      ReadyNext(s, Pick(0, o), r);
    }
  }

  lemma StillOnItsWay(s: State, r: Reg, o: F.Outcome)
    requires Inv(s) && WorkersOk(s) && 0 < |s.workers| && r < |s.cells| && !Over(s, r)
    ensures CanBeReady(s, r)
  {
    hide Inv, CanBeReady;
    if k :| 0 <= k < |s.workers| && s.workers[k].On? && s.workers[k].reg == r &&
            (F.Delivers(s.workers[k].pc) || !s.cells[r].blocked)
    {
      Delivers(s, k, r);
    } else if r in s.tasks {
      ComesToAWorker(s, r, o);
    } else {
      var s' := Do(s, Loop);
      assert s'.tasks[|s.tasks|] == r;
      WorkersStayOk(s, Loop);
      ComesToAWorker(s', r, o);
      ReadyNext(s, Loop, r);
    }
  }

  /**
   The future of a timer that has been released and is Closed stays Closed if and only if its promise was claimed and
   no worker still delivers, or it is unclaimed and its task is neither in the loop's hand nor queued nor with a
   worker (given that the pool has a worker).
   */
  lemma ClosedForGoodIff(s: State, r: Reg, o: F.Outcome)
    requires Inv(s) && WorkersOk(s) && 0 < |s.workers| && r < |s.cells| && E.Released(s.w, r)
    requires s.cells[r].status == F.Closed
    ensures ClosedForGood(s, r) <==> Over(s, r)
  {
    hide Inv, WorkersOk, E.Released, Over;
    if Over(s, r) {
      forall ss: seq<State>, acts: seq<Action> | IsPath(ss, acts) && ss[0] == s
        ensures CellAt(ss[|acts|], r).status == F.Closed
      {
        PathEnded(ss, acts, r, |acts|);
      }
    } else {
      StillOnItsWay(s, r, o);
    }
  }
}
