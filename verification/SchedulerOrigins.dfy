/** Only `cancel` closes a future, and a timer stays registered until it fires or is cancelled. */
module SchedulerOrigins {
  import E = EventLoop
  import F = Futures
  import opened Scheduler
  import opened SchedulerTheorems
  import opened SchedulerCancelled

  // ---- Only cancel closes ----

  /** The action is a `cancel` that finds the timer `r`. */
  predicate Cancels(s: State, a: Action, r: Reg) {
    a.Cancel? && a.id in s.timers && s.timers[a.id].reg == r
  }

  /** The `onCancel` of `r` has run, or some client is on its way to run it. */
  ghost predicate OnCancelDue(s: State, r: Reg) {
    r in s.cancelled || exists c: nat :: InCancel(s, c, r)
  }

  lemma OnlyByCancel(s: State, a: Action, r: Reg)
    requires Enabled(s, a) && OnCancelDue(Do(s, a), r)
    ensures OnCancelDue(s, r) || Cancels(s, a, r)
  {
    var s' := Do(s, a);
    if r !in s'.cancelled {
      var c: nat :| InCancel(s', c, r);
      InCancelBefore(s, a, c, r);
    } else if r !in s.cancelled {
      RunsOnCancel(s, a, r);
    }
  }

  lemma InCancelBefore(s: State, a: Action, c: nat, r: Reg)
    requires Enabled(s, a) && InCancel(Do(s, a), c, r)
    ensures InCancel(s, c, r) || Cancels(s, a, r)
  {
    hide E.Do, E.Enabled;
  }

  lemma RunsOnCancel(s: State, a: Action, r: Reg)
    requires Enabled(s, a) && r in Do(s, a).cancelled && r !in s.cancelled
    ensures OnCancelDue(s, r)
  {
    hide E.Do, E.Enabled;
    assert a.Go? && InCancel(s, a.c, r);
  }

  /** Some action before the `k`-th was a `cancel` that found the timer `r`. */
  ghost predicate WasCancelled(ss: seq<State>, acts: seq<Action>, k: nat, r: Reg)
    requires |ss| == |acts| + 1 && k < |ss|
  {
    exists x :: 0 <= x < k && Cancels(ss[x], acts[x], r)
  }

  /** In every run an `onCancel` that has run, or is to run, goes back to a `cancel` of that very timer. */
  lemma {:induction false} OnlyCancelCancels(ss: seq<State>, acts: seq<Action>, k: nat, r: Reg)
    requires IsRun(ss, acts) && k < |ss| && OnCancelDue(ss[k], r)
    ensures WasCancelled(ss, acts, k, r)
  {
    hide Enabled, Do, OnCancelDue, Cancels;
    if k == 0 {
      NothingDue(ss[0], r);
    } else {
      assert Leads(ss[k - 1], acts[k - 1], ss[(k - 1) + 1]);
      OnlyByCancel(ss[k - 1], acts[k - 1], r);
      if OnCancelDue(ss[k - 1], r) {
        OnlyCancelCancels(ss, acts, k - 1, r);
      } else {
        assert Cancels(ss[k - 1], acts[k - 1], r);
      }
    }
  }

  lemma NothingDue(s: State, r: Reg)
    requires Init(s)
    ensures !OnCancelDue(s, r)
  {
  }

  lemma ClosedByOnCancel(s: State, a: Action, r: Reg)
    requires Enabled(s, a) && WorkersOk(s)
    ensures CellAt(Do(s, a), r).status == F.Closed ==> CellAt(s, r).status == F.Closed || r in Do(s, a).cancelled
    ensures CellAt(s, r).status == F.Ready && r !in Do(s, a).cancelled ==> CellAt(Do(s, a), r).status == F.Ready
    ensures s.cancelled <= Do(s, a).cancelled
  {
    hide E.Do, E.Enabled;
  }

  lemma {:induction false} ClosedWasCancelled(ss: seq<State>, acts: seq<Action>, k: nat, r: Reg)
    requires IsRun(ss, acts) && k < |ss| && CellAt(ss[k], r).status == F.Closed
    ensures r in ss[k].cancelled
  {
    hide Enabled, Do, WorkersOk;
    if k > 0 {
      hide Init, CellAt;
      assert Leads(ss[k - 1], acts[k - 1], ss[(k - 1) + 1]);
      RunKeepsWorkersOk(ss, acts, k - 1);
      ClosedByOnCancel(ss[k - 1], acts[k - 1], r);
      if CellAt(ss[k - 1], r).status == F.Closed { ClosedWasCancelled(ss, acts, k - 1, r); }
    }
  }

  /**
   A future whose timer no `cancel` has found is never Closed, and once Ready it stays Ready, whatever the cleaner, the
   loop, the workers and the other clients do.
   */
  lemma {:induction false} UncancelledIsNeverClosed(ss: seq<State>, acts: seq<Action>, j: nat, k: nat, r: Reg)
    requires IsRun(ss, acts) && j <= k < |ss| && !WasCancelled(ss, acts, k, r)
    ensures CellAt(ss[k], r).status != F.Closed
    ensures CellAt(ss[j], r).status == F.Ready ==> CellAt(ss[k], r).status == F.Ready
    decreases k
  {
    hide Enabled, Do, WorkersOk, Init, CellAt, Cancels;
    if OnCancelDue(ss[k], r) { OnlyCancelCancels(ss, acts, k, r); }
    if CellAt(ss[k], r).status == F.Closed { ClosedWasCancelled(ss, acts, k, r); }
    if j < k {
      assert Leads(ss[k - 1], acts[k - 1], ss[(k - 1) + 1]);
      RunKeepsWorkersOk(ss, acts, k - 1);
      ClosedByOnCancel(ss[k - 1], acts[k - 1], r);
      UncancelledIsNeverClosed(ss, acts, j, k - 1, r);
    }
  }

  // ---- A timer stays until it fires ----

  lemma EntryStays(s: State, a: Action, id: Id)
    requires Inv(s) && Enabled(s, a) && id in s.timers && s.timers[id].reg !in s.fired
    requires !(a.Cancel? && a.id == id)
    ensures id in Do(s, a).timers && Do(s, a).timers[id] == s.timers[id]
  {
    hide E.Inv, PromisesOk, E.Do, E.Enabled;
  }

  lemma FiredGrows(s: State, a: Action)
    requires Enabled(s, a)
    ensures s.fired <= Do(s, a).fired
  {
    hide E.Do, E.Enabled;
  }

  /** The timer is in the registry; its descriptor is open and leads to its own callback. */
  predicate Registered(s: State, id: Id, e: Entry) {
    && id in s.timers && s.timers[id] == e
    && e.slot < |s.w.hs| && s.w.hs[e.slot].Held? && s.w.hs[e.slot].reg == e.reg
    && var fd := s.w.hs[e.slot].fd;
       fd in s.w.l.open && s.w.l.open[fd] == e.reg && fd in s.w.l.events && s.w.l.events[fd] == e.reg
  }

  lemma EntryIsRegistered(s: State, id: Id)
    requires Inv(s) && id in s.timers
    ensures Registered(s, id, s.timers[id])
  {
    hide PromisesOk, E.KernelOk, E.BatchOk;
    assert EntryOk(s.w.hs, s.timers[id]);
    assert E.HandleOk(s.w.l, s.w.hs[s.timers[id].slot]);
  }

  /**
   A timer that nobody cancels and that has not fired stays in the registry, with its descriptor open and registered
   for its own callback: the cleaner leaves it alone.
   */
  lemma {:induction false} StaysUntilFired(ss: seq<State>, acts: seq<Action>, a: nat, b: nat, id: Id)
    requires IsRun(ss, acts) && a <= b < |ss| && id in ss[a].timers && ss[a].timers[id].reg !in ss[b].fired
    requires forall x :: a <= x < b ==> !(acts[x].Cancel? && acts[x].id == id)
    ensures Registered(ss[b], id, ss[a].timers[id])
    decreases b
  {
    RunIsLong(ss, acts);
    hide Inv, IsRun, Registered;
    if a < b {
      RunStep(ss, acts, b - 1);
      FiredGrows(ss[b - 1], acts[b - 1]);
      hide Do, Enabled;
      StaysUntilFired(ss, acts, a, b - 1, id);
      StaysRegistered(ss[b - 1], acts[b - 1], id, ss[a].timers[id]);
    } else {
      RunKeepsInv(ss, acts, b);
      EntryIsRegistered(ss[b], id);
    }
  }

  lemma RunIsLong(ss: seq<State>, acts: seq<Action>)
    requires IsRun(ss, acts)
    ensures |ss| == |acts| + 1
  {
  }

  lemma RunStep(ss: seq<State>, acts: seq<Action>, k: nat)
    requires IsRun(ss, acts) && k < |acts|
    ensures |ss| == |acts| + 1 && Inv(ss[k]) && Enabled(ss[k], acts[k]) && ss[k + 1] == Do(ss[k], acts[k])
    ensures Inv(ss[k + 1])
  {
    hide Inv, Do, Enabled, Init;
    RunKeepsInv(ss, acts, k);
    RunKeepsInv(ss, acts, k + 1);
    assert Leads(ss[k], acts[k], ss[k + 1]);
  }

  lemma StaysRegistered(s: State, a: Action, id: Id, e: Entry)
    requires Inv(s) && Enabled(s, a) && Inv(Do(s, a)) && Registered(s, id, e) && e.reg !in s.fired
    requires !(a.Cancel? && a.id == id)
    ensures Registered(Do(s, a), id, e)
  {
    assert id in s.timers && s.timers[id] == e;
    hide Inv, Do, Enabled, Registered;
    EntryStays(s, a, id);
    EntryIsRegistered(Do(s, a), id);
  }
}
