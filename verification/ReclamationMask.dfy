/**
 Continuations of a run, and a way to reason about them while some producers pause before their CAS on tail: the other
 threads do not see the difference between such a producer and one that has made its CAS.
 */
module ReclamationMask {
  import opened MichaelScott
  import opened MichaelScottInvariant
  import opened Reclamation
  import opened ReclamationInvariant
  import opened ReclamationProof
  import opened ReclamationSystem
  import T = ReclamationTheorems
  import opened ReclamationSolo

  // ---- Continuations in which every allocation respects H ----

  ghost predicate Leads(s: System, mv: Move, s': System) {
    Allowed(s, mv) && RespectsH(s, mv) && s' == Next(s, mv)
  }

  ghost predicate IsPath(ss: seq<System>, mvs: seq<Move>) {
    |ss| == |mvs| + 1 && forall k :: 0 <= k < |mvs| ==> Leads(ss[k], mvs[k], ss[k + 1])
  }

  ghost predicate Reach(s: System, t: System) {
    exists ss, mvs :: IsPath(ss, mvs) && ss[0] == s && ss[|mvs|] == t
  }

  lemma ReachNone(s: System)
    ensures Reach(s, s)
  {
    assert IsPath([s], []);
  }

  lemma ReachOne(s: System, mv: Move)
    requires Allowed(s, mv) && RespectsH(s, mv)
    ensures Reach(s, Next(s, mv))
  {
    hide Allowed, RespectsH, Next;
    var ss, mvs := [s, Next(s, mv)], [mv];
    assert Leads(ss[0], mvs[0], ss[0 + 1]);
    assert IsPath(ss, mvs) && ss[|mvs|] == Next(s, mv);
  }

  lemma ReachOn(s: System, t: System, u: System)
    requires Reach(s, t) && Reach(t, u)
    ensures Reach(s, u)
  {
    hide Leads;
    var ss, mvs :| IsPath(ss, mvs) && ss[0] == s && ss[|mvs|] == t;
    var ss', mvs' :| IsPath(ss', mvs') && ss'[0] == t && ss'[|mvs'|] == u;
    var all, moves := ss + ss'[1..], mvs + mvs';
    forall k | 0 <= k < |moves| ensures Leads(all[k], moves[k], all[k + 1]) {
      if k < |mvs| {
        assert Leads(ss[k], mvs[k], ss[k + 1]);
      } else {
        assert Leads(ss'[k - |mvs|], mvs'[k - |mvs|], ss'[k - |mvs| + 1]);
      }
    }
    assert IsPath(all, moves) && all[|moves|] == u;
  }

  lemma {:induction false} GoesReach(s: System, i: Tid, n: nat, t: System)
    requires Goes(s, i, n, t)
    ensures Reach(s, t)
    decreases n
  {
    hide Reach, SystemStep;
    if n == 0 {
      ReachNone(s);
    } else {
      ReachOne(s, Act(Run(i)));
      GoesReach(SystemStep(s, i), i, n - 1, t);
      ReachOn(s, SystemStep(s, i), t);
    }
  }

  lemma RunsReach(s: System, i: Tid, t: System)
    requires Runs(s, i, t)
    ensures Reach(s, t)
  {
    var n: nat :| Goes(s, i, n, t);
    GoesReach(s, i, n, t);
  }

  // ---- Forgetting that some producers still have their CAS on tail before them ----

  function Masked(ths: seq<Thread>, paused: set<Tid>): (r: seq<Thread>)
    ensures |r| == |ths|
    ensures forall k: Tid :: k < |ths| ==>
              r[k] == if k in paused && ths[k].pc.PushSwing? then ths[k].(pc := PushCount) else ths[k]
  {
    seq(|ths|, k requires 0 <= k < |ths| =>
      if k in paused && ths[k].pc.PushSwing? then ths[k].(pc := PushCount) else ths[k])
  }

  function Mask(s: System, paused: set<Tid>): System {
    s.(q := s.q.(threads := Masked(s.q.threads, paused)))
  }

  lemma MaskedUpdate(ths: seq<Thread>, paused: set<Tid>, i: Tid, th: Thread)
    requires i < |ths| && i !in paused
    ensures Masked(ths[i := th], paused) == Masked(ths, paused)[i := th]
  {
  }

  /** A running thread does not see whether another has made its CAS. */
  lemma MaskCommutes(s: System, paused: set<Tid>, i: Tid)
    requires i < |s.q.threads| == |s.hz| && i !in paused
    ensures SystemStep(Mask(s, paused), i) == Mask(SystemStep(s, i), paused)
  {
    hide Masked, Retire, SlotEffect, PlaceEffect, ThreadStep, FirstFree;
    var th' := ThreadStep(Recycled(s.m.addr, s.m.cur), s.q.g, i, s.q.threads[i]).1;
    MaskedAt(s.q.threads, paused, i);
    MaskedUpdate(s.q.threads, paused, i, th');
    MaskedUpdate(s.q.threads, paused, i, s.q.threads[i].(pc := Broken));
  }

  lemma MaskedAt(ths: seq<Thread>, paused: set<Tid>, i: Tid)
    requires i < |ths| && i !in paused
    ensures |Masked(ths, paused)| == |ths| && Masked(ths, paused)[i] == ths[i]
  {
  }

  lemma {:induction false} GoesMasked(s: System, paused: set<Tid>, i: Tid, n: nat, t: System) returns (s': System)
    requires i !in paused && Goes(Mask(s, paused), i, n, t)
    ensures Goes(s, i, n, s') && Mask(s', paused) == t
    decreases n
  {
    hide SystemStep, Masked;
    if n == 0 {
      s' := s;
    } else {
      MaskedAt(s.q.threads, paused, i) by { MaskedSize(s.q.threads, paused); }
      MaskCommutes(s, paused, i);
      s' := GoesMasked(SystemStep(s, i), paused, i, n - 1, t);
    }
  }

  lemma MaskedSize(ths: seq<Thread>, paused: set<Tid>)
    ensures |Masked(ths, paused)| == |ths|
  {
  }

  /** What a thread can do alone in the masked system it can do alone in the real one. */
  lemma RunsMasked(s: System, paused: set<Tid>, i: Tid, t: System) returns (s': System)
    requires i !in paused && Runs(Mask(s, paused), i, t)
    ensures Runs(s, i, s') && Mask(s', paused) == t
  {
    hide Goes, Mask;
    var n: nat :| Goes(Mask(s, paused), i, n, t);
    s' := GoesMasked(s, paused, i, n, t);
  }

  /** A producer at its CAS on tail needs nothing of the invariant that it does not need after it. */
  lemma MaskKeepsInv(s: System, paused: set<Tid>)
    requires SysInv(s)
    ensures SysInv(Mask(s, paused))
  {
    hide Chain, Wired, Placed, Accounted, RecordsOk, Listed, ThreadOk, Keeps, SlotsOk, WalkOk;
    var t := Mask(s, paused);
    forall k: Tid | k < |s.hz|
      ensures ThreadOk(t.q.g, k, t.q.threads[k]) && Keeps(t.m, k, t.q.threads[k].pc)
      ensures SlotsOk(t.m, t.q.threads[k].pc, t.hz[k])
    {
      if t.q.threads[k] != s.q.threads[k] { MaskThread(s.q.g, s.m, k, s.q.threads[k], s.hz[k]); }
    }
    MaskAccounted(s.m, s.q.threads, paused);
    forall k: Tid | k < |s.hz| ensures WalkOk(t.m, t.q.threads, t.hz, t.records, t.hz[k].scan) {
      MaskWalk(s.m, s.q.threads, paused, s.hz, s.records, s.hz[k].scan);
    }
  }

  lemma MaskThread(g: Store, m: Mem, k: Tid, th: Thread, h: Hazard)
    requires ThreadOk(g, k, th) && Keeps(m, k, th.pc) && SlotsOk(m, th.pc, h) && th.pc.PushSwing?
    ensures var th' := th.(pc := PushCount); ThreadOk(g, k, th') && Keeps(m, k, th'.pc) && SlotsOk(m, th'.pc, h)
  {
  }

  lemma MaskAccounted(m: Mem, ths: seq<Thread>, paused: set<Tid>)
    requires Accounted(m, ths)
    ensures Accounted(m, Masked(ths, paused))
  {
    hide Masked;
    forall k: Tid | k < |ths|
      ensures |Masked(ths, paused)| == |ths| && UnlinkedNode(Masked(ths, paused)[k].pc) == UnlinkedNode(ths[k].pc)
      ensures DetachedNode(Masked(ths, paused)[k].pc) == DetachedNode(ths[k].pc)
    {
      MaskOwns(ths, paused, k);
    }
    MaskedSize(ths, paused);
    hide UnlinkedNode, DetachedNode;
  }

  lemma MaskOwns(ths: seq<Thread>, paused: set<Tid>, k: Tid)
    requires k < |ths|
    ensures var pc, pc' := ths[k].pc, Masked(ths, paused)[k].pc;
            && UnlinkedNode(pc') == UnlinkedNode(pc) && DetachedNode(pc') == DetachedNode(pc)
            && FirstHeld(pc') == FirstHeld(pc) && SecondHeld(pc') == SecondHeld(pc)
  {
  }

  lemma MaskWalk(m: Mem, ths: seq<Thread>, paused: set<Tid>, hz: seq<Hazard>, records: seq<Tid>, scan: Scan)
    requires |ths| == |hz| && WalkOk(m, ths, hz, records, scan)
    ensures |Masked(ths, paused)| == |hz| && WalkOk(m, Masked(ths, paused), hz, records, scan)
  {
    hide Masked, FirstHeld, SecondHeld;
    MaskedSize(ths, paused);
    if scan.Scanning? && scan.todo != [] && scan.walk.Reading? {
      forall l | 0 <= l < |hz|
        ensures Unseen(m, Masked(ths, paused)[l].pc, hz[l], scan.todo[0], scan.walk.rec, scan.walk.slot)
      {
        MaskOwns(ths, paused, l);
        assert Unseen(m, ths[l].pc, hz[l], scan.todo[0], scan.walk.rec, scan.walk.slot);
      }
    }
  }

  lemma CallsPop(s: System, i: Tid)
    requires SysInv(s) && i < |s.hz| && s.q.threads[i].pc.Idle? && !s.hz[i].exited
    ensures var s' := Next(s, Act(CallPop(i, false)));
            && Allowed(s, Act(CallPop(i, false))) && SysInv(s') && Aside(s, s', i) && CanRun(s', i) && s'.q.g == s.q.g
            && s'.q.threads[i].pc == PopLoadHead
  {
    hide SysInv;
    Sizes(s);
    T.CallKeeps(s, CallPop(i, false));
  }

  lemma MaskedCall(s: System, paused: set<Tid>, i: Tid)
    requires i < |s.hz| == |s.q.threads| && i !in paused && Mask(s, paused).q.threads[i].pc.Idle? && !s.hz[i].exited
    ensures s.q.threads[i].pc.Idle? && Allowed(s, Act(CallPop(i, false)))
    ensures Mask(Next(s, Act(CallPop(i, false))), paused) == Next(Mask(s, paused), Act(CallPop(i, false)))
    ensures Reach(s, Next(s, Act(CallPop(i, false))))
  {
    hide Masked, Reach;
    MaskedAt(s.q.threads, paused, i);
    MaskedSize(s.q.threads, paused);
    MaskedUpdate(s.q.threads, paused, i, s.q.threads[i].(pc := PopLoadHead, timed := false));
    ReachOne(s, Act(CallPop(i, false)));
  }

  /** The masked and the real system differ only in the paused producers. */
  lemma SeenThrough(s: System, paused: set<Tid>, t: System)
    requires Mask(s, paused) == t
    ensures t.q.g == s.q.g && t.m == s.m && t.pool == s.pool && t.hz == s.hz && |t.q.threads| == |s.q.threads|
    ensures t.limit == s.limit && t.lock == s.lock && t.orphans == s.orphans
  {
  }

  lemma {:induction false} GoesBeside(s: System, i: Tid, n: nat, t: System)
    requires Goes(s, i, n, t) && i < |s.q.threads| == |s.hz|
    ensures |t.q.threads| == |s.q.threads| && |t.hz| == |s.hz|
    ensures forall k :: 0 <= k < |s.hz| && k != i ==> t.q.threads[k] == s.q.threads[k]
    decreases n
  {
    if n > 0 {
      StepBeside(s, i);
      hide SystemStep;
      GoesBeside(SystemStep(s, i), i, n - 1, t);
    }
  }

  lemma StepBeside(s: System, i: Tid)
    requires i < |s.q.threads| == |s.hz|
    ensures var s' := SystemStep(s, i);
            && |s'.q.threads| == |s.q.threads| && |s'.hz| == |s.hz|
            && forall k :: 0 <= k < |s.hz| && k != i ==> s'.q.threads[k] == s.q.threads[k]
  {
    hide Retire, SlotEffect, PlaceEffect, ThreadStep, FirstFree, SlotOf, Put;
  }

  lemma RunsBeside(s: System, i: Tid, t: System)
    requires Runs(s, i, t) && i < |s.q.threads| == |s.hz|
    ensures |t.q.threads| == |s.q.threads| && |t.hz| == |s.hz|
    ensures forall k :: 0 <= k < |s.hz| && k != i ==> t.q.threads[k] == s.q.threads[k]
  {
    hide Goes;
    var n: nat :| Goes(s, i, n, t);
    GoesBeside(s, i, n, t);
  }
}
