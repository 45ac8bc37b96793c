/** The life of a one-shot timer when nobody interferes, and how its task gets from the loop to a worker. */
module SchedulerAlone {
  import E = EventLoop
  import O = SchedulerOrigins
  import F = Futures
  import opened Scheduler
  import opened SchedulerTheorems

  // ---- From the loop to a worker ----

  /** The task that a worker takes in a step. */
  function Takes(s: State, a: Action): seq<Reg> {
    if a.Pick? && s.tasks != [] then [s.tasks[0]] else []
  }

  ghost function Taken(ss: seq<State>, acts: seq<Action>, k: nat): seq<Reg>
    requires |ss| == |acts| + 1 && k < |ss|
  {
    if k == 0 then [] else Taken(ss, acts, k - 1) + Takes(ss[k - 1], acts[k - 1])
  }

  lemma HandsOver(s: State, a: Action)
    requires Enabled(s, a)
    ensures var s' := Do(s, a);
            exists n: seq<Reg> :: |n| <= 1 && s'.w.l.starts == s.w.l.starts + n && s.tasks + n == Takes(s, a) + s'.tasks
                              && (forall r :: r in s'.fired <==> r in s.fired || r in n)
  {
    var s' := Do(s, a);
    var n := if a.Loop? && s.w.l.pc.InHand? then [s.w.l.pc.reg] else [];
    hide E.Enabled;
    assert s'.w.l.starts == s.w.l.starts + n;
    hide E.Do;
    assert s.tasks + n == Takes(s, a) + s'.tasks;
  }

  /**
   Every callback that the loop has started put its task into the pool, once and in order, and the workers take them
   in that order; a timer counts as fired exactly when its callback has started.
   */
  lemma {:induction false} StartedTasksArePooled(ss: seq<State>, acts: seq<Action>, k: nat)
    requires IsRun(ss, acts) && k < |ss|
    ensures ss[k].w.l.starts == Taken(ss, acts, k) + ss[k].tasks
    ensures forall r :: r in ss[k].fired <==> r in ss[k].w.l.starts
  {
    hide Enabled, Do, Takes;
    if k > 0 {
      hide Init;
      StartedTasksArePooled(ss, acts, k - 1);
      var s, a := ss[k - 1], acts[k - 1];
      assert Leads(s, a, ss[(k - 1) + 1]);
      HandsOver(s, a);
      var n: seq<Reg> :| |n| <= 1 && ss[k].w.l.starts == s.w.l.starts + n && s.tasks + n == Takes(s, a) + ss[k].tasks
                     && (forall r :: r in ss[k].fired <==> r in s.fired || r in n);
      assert Taken(ss, acts, k - 1) + s.tasks + n == Taken(ss, acts, k - 1) + (s.tasks + n);
      assert Taken(ss, acts, k - 1) + Takes(s, a) + ss[k].tasks == Taken(ss, acts, k - 1) + (Takes(s, a) + ss[k].tasks);
    }
  }

  // ---- Alone ----

  /** After client `c` has gone on alone until it is free. */
  function Rest(s: State, c: nat, n: nat): State
    decreases n
  {
    if n == 0 || !Enabled(s, Go(c)) then s else Rest(Do(s, Go(c)), c, n - 1)
  }

  lemma ScheduleFirst(s: State, c: nat, slot: nat, fd: E.Fd)
    requires Inv(s) && Enabled(s, Schedule(c, slot, fd))
    ensures var r := s.w.l.next;
            var s' := Do(s, Schedule(c, slot, fd));
            Enabled(s', Go(c)) && Do(s', Go(c)) ==
            s'.(w := E.World(s'.w.l.(events := s.w.l.events[fd := r]), s.w.hs[slot := E.Held(fd, r)]),
                clients := s.clients[c := Entering(slot, r)])
  {
    hide E.Inv, SlotsOk, PromisesOk;
  }

  /**
   A `schedule` on its own ends with a new entry under the next number, whose handle holds an open descriptor that is
   registered for the new timer, and with a fresh promise; nothing else changes.
   */
  lemma SchedulesAlone(s: State, c: nat, slot: nat, fd: E.Fd)
    requires Inv(s) && Enabled(s, Schedule(c, slot, fd))
    ensures var r, s' := s.w.l.next, Rest(Do(s, Schedule(c, slot, fd)), c, 2);
            && s' == s.(w := s'.w, timers := s.timers[s.nextId := Entry(slot, r)], nextId := s.nextId + 1,
                        cells := s.cells + [F.Fresh])
            && s'.w == E.World(s.w.l.(events := s.w.l.events[fd := r], open := s.w.l.open[fd := r], next := r + 1),
                               s.w.hs[slot := E.Held(fd, r)])
  {
    ScheduleFirst(s, c, slot, fd);
    hide Inv, E.Do, E.Enabled;
    var s1 := Do(s, Schedule(c, slot, fd));
    var s2 := Do(s1, Go(c));
    assert s2.clients[c] == Entering(slot, s.w.l.next);
    var s3 := Do(s2, Go(c));
    assert s3.clients == s.clients;
    assert Rest(s1, c, 2) == Rest(s2, c, 1) == s3;
  }

  /** After the loop has gone on alone until it polls. */
  function LoopRest(s: State, n: nat): State
    decreases n
  {
    if n == 0 || !Enabled(s, Loop) then s else LoopRest(Do(s, Loop), n - 1)
  }

  /** The handle of a timer is open, and registered for the timer. */
  lemma HandleOf(s: State, id: Id)
    requires Inv(s) && id in s.timers
    ensures s.timers[id].slot < |s.w.hs| && s.w.hs[s.timers[id].slot] ==
            E.Held(s.w.hs[s.timers[id].slot].fd, s.timers[id].reg)
    ensures var fd, r := s.w.hs[s.timers[id].slot].fd, s.timers[id].reg;
            fd in s.w.l.open && s.w.l.open[fd] == r && fd in s.w.l.events && s.w.l.events[fd] == r && r < |s.cells|
  {
    O.EntryIsRegistered(s, id);
    hide E.Inv, SlotsOk;
  }

  lemma PollOne(s: State, fd: E.Fd)
    requires s.w.l.pc.Polling? && fd in s.w.l.events
    ensures Enabled(s, Poll([fd]))
    ensures var r, s' := s.w.l.events[fd], Do(s, Poll([fd]));
            && s' == s.(w := s.w.(l := s.w.l.(pc := E.Batch([E.Event(fd, r)]), ready := s.w.l.ready + {r})))
  {
    assert E.Reported(s.w.l, [fd]) == [E.Event(fd, s.w.l.events[fd])];
    assert (set f | f in [fd] :: s.w.l.events[f]) == {s.w.l.events[fd]} by { assert fd in [fd]; }
  }

  /** The three steps of the loop for a single event. */
  lemma LoopThree(s: State, fd: E.Fd, r: Reg)
    requires s.w.l.pc == E.Batch([E.Event(fd, r)]) && fd in s.w.l.events && s.w.l.events[fd] == r
    ensures Enabled(s, Loop) && Enabled(Do(s, Loop), Loop) && Enabled(Do(Do(s, Loop), Loop), Loop)
    ensures Do(Do(Do(s, Loop), Loop), Loop) ==
            s.(w := s.w.(l := s.w.l.(pc := E.Polling, starts := s.w.l.starts + [r])), tasks := s.tasks + [r],
               fired := s.fired + {r})
  {
    assert [E.Event(fd, r)][1..] == [];
    assert Do(s, Loop) == s.(w := s.w.(l := s.w.l.(pc := E.InHand(r, []))));
  }

  /**
   When the descriptor of a timer is reported and the loop goes on alone, the timer's task is put into the pool, behind
   the others, and the timer counts as fired; nothing else changes.
   */
  lemma FiresAlone(s: State, id: Id)
    requires Inv(s) && id in s.timers && s.w.l.pc.Polling?
    ensures s.timers[id].slot < |s.w.hs| && s.w.hs[s.timers[id].slot].Held?
    ensures var fd, r := s.w.hs[s.timers[id].slot].fd, s.timers[id].reg;
            && Enabled(s, Poll([fd]))
            && LoopRest(Do(s, Poll([fd])), 3) ==
               s.(w := s.w.(l := s.w.l.(ready := s.w.l.ready + {r}, starts := s.w.l.starts + [r])),
                  tasks := s.tasks + [r], fired := s.fired + {r})
  {
    HandleOf(s, id);
    hide Inv, Do, Enabled, E.Do;
    var fd, r := s.w.hs[s.timers[id].slot].fd, s.timers[id].reg;
    PollOne(s, fd);
    var s1 := Do(s, Poll([fd]));
    LoopThree(s1, fd, r);
    var s2 := Do(s1, Loop);
    var s3 := Do(s2, Loop);
    var s4 := Do(s3, Loop);
    assert LoopRest(s1, 3) == LoopRest(s2, 2) == LoopRest(s3, 1) == LoopRest(s4, 0) == s4;
  }

  /** After worker `k` has gone on alone until it is done. */
  function WorkRest(s: State, k: nat, n: nat): State
    decreases n
  {
    if n == 0 || !Enabled(s, Work(k)) then s else WorkRest(Do(s, Work(k)), k, n - 1)
  }

  lemma WorkOnce(s: State, k: nat, c: F.Cell, pc: F.Pc, r: Reg)
    requires k < |s.workers| && r < |s.cells| && !pc.Idle?
    ensures var s' := s.(cells := s.cells[r := c], workers := s.workers[k := On(r, pc)]);
            var pc' := F.PcStep(c, pc);
            Enabled(s', Work(k)) &&
            Do(s', Work(k)) == s.(cells := s.cells[r := F.CellStep(c, pc)],
                                  workers := s.workers[k := if pc'.Idle? then Off else On(r, pc')])
  {
    var s' := s.(cells := s.cells[r := c], workers := s.workers[k := On(r, pc)]);
    var pc' := F.PcStep(c, pc);
    assert s'.cells[r := F.CellStep(c, pc)] == s.cells[r := F.CellStep(c, pc)];
    var wk := if pc'.Idle? then Off else On(r, pc');
    assert s'.workers[k := wk] == s.workers[k := wk];
  }

  /**
   A worker that takes the oldest task and is left alone makes the task's future Ready with the outcome of its body,
   unless the promise had been claimed before; no other future is touched.
   */
  lemma DeliversAlone(s: State, k: nat, o: F.Outcome)
    requires Enabled(s, Pick(k, o)) && s.tasks[0] < |s.cells|
    ensures var r := s.tasks[0];
            WorkRest(Do(s, Pick(k, o)), k, 4) ==
            s.(tasks := s.tasks[1..],
               cells := s.cells[r := if s.cells[r].blocked then s.cells[r] else F.Cell(F.Ready, true, F.Holds(o))])
  {
    var r, t, c := s.tasks[0], s.(tasks := s.tasks[1..]), s.cells[s.tasks[0]];
    var s1 := Do(s, Pick(k, o));
    hide Do, Enabled;
    assert s1 == t.(cells := t.cells[r := c], workers := t.workers[k := On(r, F.Claiming(o))]) by {
      PickOnce(s, k, o);
    }
    assert s.workers[k := Off] == s.workers by { PickOnce(s, k, o); }
    WorkOnce(t, k, c, F.Claiming(o), r);
    var s2 := Do(s1, Work(k));
    if c.blocked {
      assert WorkRest(s1, k, 4) == WorkRest(s2, k, 3) == s2 by { DoneAlready(s2, k, 3); }
    } else {
      var c2 := c.(blocked := true);
      WorkOnce(t, k, c2, F.Emplacing(o), r);
      WorkOnce(t, k, c2.(result := F.Torn), F.Filling(o), r);
      WorkOnce(t, k, c2.(result := F.Holds(o)), F.Publishing(o), r);
      var s3 := Do(s2, Work(k));
      var s4 := Do(s3, Work(k));
      var s5 := Do(s4, Work(k));
      assert WorkRest(s1, k, 4) == WorkRest(s2, k, 3) == WorkRest(s3, k, 2) == WorkRest(s4, k, 1) == WorkRest(s5, k, 0);
    }
  }

  lemma PickOnce(s: State, k: nat, o: F.Outcome)
    requires Enabled(s, Pick(k, o)) && s.tasks[0] < |s.cells|
    ensures k < |s.workers| && s.workers[k].Off? && s.workers[k := Off] == s.workers
    ensures Do(s, Pick(k, o)) == s.(tasks := s.tasks[1..], cells := s.cells[s.tasks[0] := s.cells[s.tasks[0]]],
                                    workers := s.workers[k := On(s.tasks[0], F.Claiming(o))])
  {
  }

  lemma DoneAlready(s: State, k: nat, n: nat)
    requires k < |s.workers| && s.workers[k].Off?
    ensures WorkRest(s, k, n) == s
  {
  }

  // ---- Cancelling and cleaning up ----

  /** The loop without the timer of handle `slot`: unregistered and closed. */
  function Dropped(w: E.World, slot: nat): E.World
    requires slot < |w.hs| && w.hs[slot].Held?
  {
    var fd, r := w.hs[slot].fd, w.hs[slot].reg;
    E.World(w.l.(events := w.l.events - {fd}, open := w.l.open - {fd}, closed := w.l.closed + [r]),
            w.hs[slot := E.Empty])
  }

  lemma Unregisters(s: State, c: nat, slot: nat, reg: Reg, user: bool)
    requires c < |s.clients| && s.clients[c] == Erasing(slot, reg, user) && slot < |s.w.hs| && s.w.hs[slot].Held?
    ensures Enabled(s, Go(c)) && Do(s, Go(c)) ==
            s.(w := E.World(s.w.l.(events := s.w.l.events - {s.w.hs[slot].fd}),
                            s.w.hs[slot := E.Dropping(s.w.hs[slot].fd, s.w.hs[slot].reg)]),
               clients := s.clients[c := Shutting(slot, reg, user)])
  {
  }

  lemma Closes(s: State, c: nat, slot: nat, reg: Reg, user: bool)
    requires c < |s.clients| && s.clients[c] == Shutting(slot, reg, user) && slot < |s.w.hs| && s.w.hs[slot].Dropping?
    requires s.w.hs[slot].fd in s.w.l.open
    ensures Enabled(s, Go(c)) && Do(s, Go(c)) ==
            s.(w := E.World(E.CloseFd(s.w.l, s.w.hs[slot].fd), s.w.hs[slot := E.Empty]),
               clients := s.clients[c := if user then Cancelling(reg) else Free])
  {
  }

  lemma DropsAlone(s: State, c: nat, id: Id, user: bool)
    requires Inv(s) && c < |s.clients| && s.clients[c].Free? && id in s.timers
    ensures var e := s.timers[id];
            && e.slot < |s.w.hs| && s.w.hs[e.slot].Held?
            && var s1 := Erased(s, c, id, user);
               Enabled(s1, Go(c)) && Enabled(Do(s1, Go(c)), Go(c))
               && Do(Do(s1, Go(c)), Go(c)) ==
                  s.(timers := s.timers - {id}, w := Dropped(s.w, e.slot),
                     clients := s.clients[c := if user then Cancelling(e.reg) else Free])
  {
    HandleOf(s, id);
    hide Inv, Do, Enabled;
    var e, s1 := s.timers[id], Erased(s, c, id, user);
    Unregisters(s1, c, e.slot, e.reg, user);
    var s2 := Do(s1, Go(c));
    Closes(s2, c, e.slot, e.reg, user);
    var rest := if user then Cancelling(e.reg) else Free;
    assert s2.clients[c := rest] == s.clients[c := rest];
    assert s2.w.hs[e.slot := E.Empty] == s.w.hs[e.slot := E.Empty];
  }

  /**
   A `cancel` that finds its timer and runs alone removes just that timer, closes its descriptor and its future, and
   leaves the result that may be in there; it touches no other future.
   */
  lemma CancelsAlone(s: State, c: nat, id: Id)
    requires Inv(s) && Enabled(s, Cancel(c, id)) && id in s.timers
    ensures var e := s.timers[id];
            && e.slot < |s.w.hs| && s.w.hs[e.slot].Held? && e.reg < |s.cells|
            && Rest(Do(s, Cancel(c, id)), c, 3) ==
               s.(timers := s.timers - {id}, w := Dropped(s.w, e.slot), cancelled := s.cancelled + {e.reg},
                  cells := s.cells[e.reg := s.cells[e.reg].(status := F.Closed)])
  {
    DropsAlone(s, c, id, true);
    HandleOf(s, id);
    var e, s1 := s.timers[id], Do(s, Cancel(c, id));
    assert s1 == Erased(s, c, id, true) && s.clients[c := Free] == s.clients;
    hide Inv, Do, Enabled, Dropped, Erased;
    var s2 := Do(s1, Go(c));
    var s3 := Do(s2, Go(c));
    RunsAtLast(s3, c, e.reg);
    var s4 := Do(s3, Go(c));
    assert s4.clients == s.clients;
    assert Rest(s1, c, 3) == Rest(s2, c, 2) == Rest(s3, c, 1) == Rest(s4, c, 0) == s4;
  }

  lemma RunsAtLast(s: State, c: nat, r: Reg)
    requires c < |s.clients| && s.clients[c] == Cancelling(r) && r < |s.cells|
    ensures Enabled(s, Go(c)) && Do(s, Go(c)) ==
            s.(cells := s.cells[r := s.cells[r].(status := F.Closed)], cancelled := s.cancelled + {r},
               clients := s.clients[c := Free])
  {
  }

  /** A `cancel` that does not find its timer changes nothing. */
  lemma CancelsNothing(s: State, c: nat, id: Id)
    requires Enabled(s, Cancel(c, id)) && id !in s.timers
    ensures Do(s, Cancel(c, id)) == s
  {
  }

  /** The cleaner removes a fired timer and closes its descriptor, but touches no future. */
  lemma CleansAlone(s: State, c: nat, id: Id)
    requires Inv(s) && Enabled(s, Clean(c, id))
    ensures var e := s.timers[id];
            && e.slot < |s.w.hs| && s.w.hs[e.slot].Held?
            && Rest(Do(s, Clean(c, id)), c, 3) == s.(timers := s.timers - {id}, w := Dropped(s.w, e.slot))
  {
    DropsAlone(s, c, id, false);
    var e, s1 := s.timers[id], Do(s, Clean(c, id));
    assert s1 == Erased(s, c, id, false) && s.clients[c := Free] == s.clients;
    hide Inv, E.Do, E.Enabled, Dropped;
    var s2 := Do(s1, Go(c));
    var s3 := Do(s2, Go(c));
    assert s3.clients == s.clients && !Enabled(s3, Go(c));
    assert Rest(s1, c, 3) == Rest(s2, c, 2) == Rest(s3, c, 1) == s3;
  }
}
