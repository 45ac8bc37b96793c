/**
 A thread that pops, with nobody else in its way, until one node is left.  It is not quite alone: a scan of orphans by
 another thread has to come to its end before its own can begin.
 */
module ReclamationEmpties {
  import opened MichaelScott
  import opened MichaelScottInvariant
  import opened Reclamation
  import opened ReclamationInvariant
  import opened ReclamationProof
  import opened ReclamationSystem
  import opened ReclamationSolo
  import opened ReclamationMask

  // ---- Stretches in which some producers pause ----

  /** One of the other threads calls `pop`, or runs for a while. */
  ghost predicate Hop(s: System, t: System, paused: set<Tid>) {
    || (exists x: Tid :: x !in paused && x < |s.hz| == |s.q.threads| && Runs(s, x, t))
    || (exists x: Tid :: x !in paused && CallsAt(s, x, t))
  }

  ghost predicate CallsAt(s: System, x: Tid, t: System) {
    && x < |s.hz| == |s.q.threads| && s.q.threads[x].pc.Idle? && !s.hz[x].exited
    && Allowed(s, Act(CallPop(x, false))) && t == Next(s, Act(CallPop(x, false)))
  }

  ghost predicate Hops(s: System, t: System, paused: set<Tid>, n: nat)
    decreases n
  {
    if n == 0 then s == t else exists u :: Hop(s, u, paused) && Hops(u, t, paused, n - 1)
  }

  ghost predicate Glides(s: System, t: System, paused: set<Tid>) {
    exists n: nat :: Hops(s, t, paused, n)
  }

  lemma GlidesNone(s: System, paused: set<Tid>)
    ensures Glides(s, s, paused)
  {
    assert Hops(s, s, paused, 0);
  }

  lemma GlidesHop(s: System, t: System, paused: set<Tid>)
    requires Hop(s, t, paused)
    ensures Glides(s, t, paused)
  {
    hide Hop;
    assert Hops(t, t, paused, 0);
    assert Hops(s, t, paused, 1);
  }

  lemma GlidesRun(s: System, i: Tid, t: System, paused: set<Tid>)
    requires i !in paused && i < |s.hz| == |s.q.threads| && Runs(s, i, t)
    ensures Glides(s, t, paused)
  {
    hide Runs, Glides;
    GlidesHop(s, t, paused);
  }

  lemma {:induction false} HopsOn(s: System, t: System, u: System, paused: set<Tid>, a: nat, b: nat)
    requires Hops(s, t, paused, a) && Hops(t, u, paused, b)
    ensures Hops(s, u, paused, a + b)
    decreases a
  {
    hide Hop;
    if a > 0 {
      var w :| Hop(s, w, paused) && Hops(w, t, paused, a - 1);
      HopsOn(w, t, u, paused, a - 1, b);
    }
  }

  lemma GlidesOn(s: System, t: System, u: System, paused: set<Tid>)
    requires Glides(s, t, paused) && Glides(t, u, paused)
    ensures Glides(s, u, paused)
  {
    hide Hop;
    var a: nat :| Hops(s, t, paused, a);
    var b: nat :| Hops(t, u, paused, b);
    HopsOn(s, t, u, paused, a, b);
  }

  /** The paused threads are where they were. */
  ghost predicate StillPaused(s: System, t: System, paused: set<Tid>) {
    && |t.hz| == |s.hz| && |t.q.threads| == |s.q.threads|
    && forall k: Tid :: k in paused && k < |s.q.threads| ==> t.q.threads[k] == s.q.threads[k]
  }

  lemma HopMasked(s: System, paused: set<Tid>, t: System) returns (s': System)
    requires |s.hz| == |s.q.threads| && Hop(Mask(s, paused), t, paused)
    ensures Reach(s, s') && Mask(s', paused) == t && StillPaused(s, s', paused)
  {
    hide Reach, Runs, Masked;
    var m := Mask(s, paused);
    MaskedSize(s.q.threads, paused);
    if x: Tid :| x !in paused && x < |m.hz| == |m.q.threads| && Runs(m, x, t) {
      s' := RunsMasked(s, paused, x, t);
      RunsReach(s, x, s');
      RunsBeside(s, x, s');
    } else {
      var x: Tid :| x !in paused && CallsAt(m, x, t);
      MaskedCall(s, paused, x);
      s' := Next(s, Act(CallPop(x, false)));
    }
  }

  lemma {:induction false} HopsMasked(s: System, paused: set<Tid>, t: System, n: nat) returns (s': System)
    requires |s.hz| == |s.q.threads| && Hops(Mask(s, paused), t, paused, n)
    ensures Reach(s, s') && Mask(s', paused) == t && StillPaused(s, s', paused)
    decreases n
  {
    hide Reach, Hop, Masked, Mask;
    if n == 0 {
      s' := s;
      ReachNone(s);
    } else {
      var u :| Hop(Mask(s, paused), u, paused) && Hops(u, t, paused, n - 1);
      var r := HopMasked(s, paused, u);
      s' := HopsMasked(r, paused, t, n - 1);
      ReachOn(s, r, s');
    }
  }

  /** What the others can do in the masked system they can do in the real one. */
  lemma GlidesMasked(s: System, paused: set<Tid>, t: System) returns (s': System)
    requires |s.hz| == |s.q.threads| && Glides(Mask(s, paused), t, paused)
    ensures Reach(s, s') && Mask(s', paused) == t && StillPaused(s, s', paused)
  {
    hide Reach, Hops, Mask;
    var n: nat :| Hops(Mask(s, paused), t, paused, n);
    s' := HopsMasked(s, paused, t, n);
  }

  // ---- Scans, whatever the slots announce ----

  /** The queue and the addresses stay as they are, and so do all threads but `i`. */
  ghost predicate Near(s: System, t: System, i: Tid) {
    && SameButFor(s, t, i) && i < |s.hz| && t.m.addr == s.m.addr && SameQueue(s.q.g, t.q.g)
    && t.hz[i].exited == s.hz[i].exited
  }

  lemma NearOn(s: System, t: System, u: System, i: Tid)
    requires Near(s, t, i) && Near(t, u, i)
    ensures Near(s, u, i)
  {
  }

  lemma ScanIsNear(s: System, i: Tid)
    requires i < |s.hz| == |s.q.threads| && Scans(s.hz[i])
    ensures Near(s, ScanStep(s, i), i) && ScanStep(s, i).q == s.q
  {
    hide SlotOf;
  }

  /** How far a scan is from the end of its list. */
  function ItemLeft(walk: Walk): nat {
    if walk == Ready then 1 else 0
  }

  function RecordsLeft(walk: Walk): nat {
    if walk == Ready then 0 else walk.rec
  }

  /** Run alone, a scan comes to the end of its list. */
  lemma {:induction false} ScanDrains(s: System, i: Tid) returns (t: System)
    requires SysInv(s) && CanRun(s, i) && s.hz[i].scan.Scanning?
    ensures Runs(s, i, t) && SysInv(t) && CanRun(t, i) && Near(s, t, i) && t.q == s.q
    ensures t.lock == s.lock && t.orphans == s.orphans
    ensures t.hz[i].scan.Scanning? && t.hz[i].scan.orphan == s.hz[i].scan.orphan && t.hz[i].scan.todo == []
    decreases |s.hz[i].scan.todo|, ItemLeft(s.hz[i].scan.walk), RecordsLeft(s.hz[i].scan.walk),
              SlotsLeft(s.hz[i].scan.walk)
  {
    hide SysInv, Runs, SlotOf;
    if s.hz[i].scan.todo == [] {
      t := s;
      RunsNone(s, i);
    } else {
      if s.hz[i].scan.walk.Reading? { WalkBound(s, i); }
      ScanOne(s, i);
      ScanIsNear(s, i);
      var u := ScanStep(s, i);
      t := ScanDrains(u, i);
      RunsOn(s, i, u, t);
      NearOn(s, u, t, i);
    }
  }

  /** Run alone, a scan of orphans ends and releases the lock. */
  lemma OrphanScanEnds(s: System, i: Tid) returns (t: System)
    requires SysInv(s) && CanRun(s, i) && ScansOrphans(s.hz[i])
    ensures Runs(s, i, t) && SysInv(t) && CanRun(t, i) && Near(s, t, i) && t.q == s.q
    ensures t.lock == {} && t.hz[i].scan == NoScan
  {
    hide SysInv, Runs, SlotOf;
    var u := ScanDrains(s, i);
    ScanOne(u, i);
    ScanIsNear(u, i);
    t := ScanStep(u, i);
    RunsOn(s, i, u, t);
    NearOn(s, u, t, i);
  }

  // ---- Waiting for the lock ----

  /** A thread that has ended is outside the queue. */
  ghost predicate EndedAreIdle(s: System) {
    |s.hz| == |s.q.threads| && forall k :: 0 <= k < |s.hz| && s.hz[k].exited ==> s.q.threads[k].pc.Idle?
  }

  /** The states in which the argument moves: nobody who pauses is in the middle of a scan. */
  ghost predicate Fit(s: System, paused: set<Tid>) {
    SysInv(s) && EndedAreIdle(s) && forall k: Tid :: k in paused && k < |s.hz| ==> !Scans(s.hz[k])
  }

  lemma FitStays(s: System, t: System, i: Tid, paused: set<Tid>)
    requires Fit(s, paused) && SysInv(t) && Near(s, t, i) && i !in paused && CanRun(s, i)
    ensures Fit(t, paused)
  {
    hide SysInv;
  }

  /** Whoever has the lock is in the middle of a scan of the orphans. */
  lemma LockHolder(s: System) returns (k: Tid)
    requires SysInv(s) && s.lock != {}
    ensures k < |s.hz| && ScansOrphans(s.hz[k]) && s.lock == {k}
  {
    hide Inv, Wired, Placed, Accounted, RecordsOk, Keeps, SlotsOk, WalkOk, OwnListOk;
    k :| 0 <= k < |s.hz| && OrphanListOk(s.m.place, s.hz[k]);
  }

  lemma ScannerRuns(s: System, k: Tid, paused: set<Tid>)
    requires Fit(s, paused) && k < |s.hz| && Scans(s.hz[k])
    ensures CanRun(s, k) && k !in paused
  {
    hide Inv, Wired, Placed, Accounted, RecordsOk, Listed, Keeps, WalkOk;
    assert SlotsOk(s.m, s.q.threads[k].pc, s.hz[k]);
  }

  /** A thread that waits for the lock can have it: the holder comes to its end. */
  lemma LockIsFreed(s: System, i: Tid, paused: set<Tid>) returns (t: System)
    requires Fit(s, paused) && CanRun(s, i) && s.hz[i].scan == WaitLock
    ensures Glides(s, t, paused) && Fit(t, paused) && t.lock == {} && CanRun(t, i) && |t.hz| == |s.hz|
    ensures t.q == s.q && t.hz[i] == s.hz[i] && t.m.addr == s.m.addr
  {
    hide SysInv, Glides, Runs;
    if s.lock == {} {
      t := s;
      GlidesNone(s, paused);
    } else {
      var k := LockHolder(s);
      ScannerRuns(s, k, paused);
      t := OrphanScanEnds(s, k);
      GlidesRun(s, k, t, paused);
      FitStays(s, t, k, paused);
    }
  }

  // ---- A whole pop ----

  /** What a thread leaves as it is that finishes its pop, with help where it waits for the lock. */
  ghost predicate Around(s: System, t: System, i: Tid) {
    && |t.hz| == |s.hz| && |t.q.threads| == |s.q.threads| && i < |s.hz| && t.m.addr == s.m.addr
    && SameQueue(s.q.g, t.q.g) && t.hz[i].exited == s.hz[i].exited
    && forall k :: 0 <= k < |s.q.threads| && k != i ==> t.q.threads[k] == s.q.threads[k]
  }

  lemma AroundOn(s: System, t: System, u: System, i: Tid)
    requires Around(s, t, i) && Around(t, u, i)
    ensures Around(s, u, i)
  {
  }

  /** From waiting for the lock to the end of the pop. */
  lemma OrphansLast(s: System, i: Tid, paused: set<Tid>) returns (t: System)
    requires Fit(s, paused) && CanRun(s, i) && i !in paused && s.hz[i].scan == WaitLock
    ensures Glides(s, t, paused) && Fit(t, paused) && Around(s, t, i) && t.q.threads[i].pc.Idle?
  {
    hide SysInv, Glides, Runs, SystemStep, SlotOf;
    var s1 := LockIsFreed(s, i, paused);
    ScanOne(s1, i);
    ScanIsNear(s1, i);
    var s2 := ScanStep(s1, i);
    var s3 := OrphanScanEnds(s2, i);
    NotAllocating(s, i);
    ScanEnds(s3, i);
    t := SystemStep(s3, i);
    RunsOn(s1, i, s2, s3);
    RunsOn(s1, i, s3, t);
    GlidesRun(s1, i, t, paused);
    GlidesOn(s, s1, t, paused);
    NearOn(s1, s2, s3, i);
    NearOn(s1, s3, t, i);
    FitStays(s1, t, i, paused);
  }

  /** From having retired the old head to the end of the pop. */
  lemma FinishesPop(s: System, i: Tid, paused: set<Tid>) returns (t: System)
    requires Fit(s, paused) && CanRun(s, i) && i !in paused && s.q.threads[i].pc.PopScan?
    requires s.hz[i].scan == NoScan || ScansOwn(s.hz[i])
    ensures Glides(s, t, paused) && Fit(t, paused) && Around(s, t, i) && t.q.threads[i].pc.Idle?
  {
    hide SysInv, Glides, Runs, SystemStep, SlotOf;
    if s.hz[i].scan == NoScan {
      ScanEnds(s, i);
      t := SystemStep(s, i);
      GlidesRun(s, i, t, paused);
      FitStays(s, t, i, paused);
    } else {
      var s1 := ScanDrains(s, i);
      ScanOne(s1, i);
      ScanIsNear(s1, i);
      var s2 := ScanStep(s1, i);
      RunsOn(s, i, s1, s2);
      NearOn(s, s1, s2, i);
      FitStays(s, s2, i, paused);
      GlidesRun(s, i, s2, paused);
      t := OrphansLast(s2, i, paused);
      GlidesOn(s, s2, t, paused);
      AroundOn(s, s2, t, i);
    }
  }

  /** One value is popped; tail, which is not where head is, stays. */
  ghost predicate OnePopped(s: System, t: System, i: Tid) {
    && |t.hz| == |s.hz| && |t.q.threads| == |s.q.threads| && i < |s.hz| && t.m.addr == s.m.addr
    && t.q.g.order == s.q.g.order && t.q.g.popped == s.q.g.popped + 1 && t.q.g.tail == s.q.g.tail
    && t.hz[i].exited == s.hz[i].exited
    && forall k :: 0 <= k < |s.q.threads| && k != i ==> t.q.threads[k] == s.q.threads[k]
  }

  lemma PopsFully(s: System, i: Tid, paused: set<Tid>) returns (t: System)
    requires Fit(s, paused) && i < |s.hz| && i !in paused && s.q.threads[i].pc.Idle? && !s.hz[i].exited
    requires s.q.g.popped + 1 < |s.q.g.order| && s.q.g.tail != s.q.g.head
    ensures Glides(s, t, paused) && Fit(t, paused) && OnePopped(s, t, i) && t.q.threads[i].pc.Idle?
  {
    hide SysInv, Glides, Runs, SystemStep, AddressOf, CallsAt;
    CallsPop(s, i);
    var s1 := Next(s, Act(CallPop(i, false)));
    GlidesHop(s, s1, paused) by { Called(s, i, s1); }
    var s2 := PopsToRetire(s1, i);
    RetireOne(s2, i);
    var s3 := SystemStep(s2, i);
    RunsOn(s1, i, s2, s3);
    GlidesRun(s1, i, s3, paused);
    NoScanAt(s2, i);
    FitBeside(s, s3, i, paused);
    t := FinishesPop(s3, i, paused);
    GlidesOn(s, s1, s3, paused);
    GlidesOn(s, s3, t, paused);
  }

  lemma Called(s: System, i: Tid, t: System)
    requires i < |s.hz| == |s.q.threads| && s.q.threads[i].pc.Idle? && !s.hz[i].exited
    requires Allowed(s, Act(CallPop(i, false))) && t == Next(s, Act(CallPop(i, false)))
    ensures CallsAt(s, i, t)
  {
  }

  lemma FitBeside(s: System, t: System, i: Tid, paused: set<Tid>)
    requires Fit(s, paused) && SysInv(t) && SameButFor(s, t, i) && i < |s.hz| && i !in paused && !s.hz[i].exited
    requires t.hz[i].exited == s.hz[i].exited
    ensures Fit(t, paused)
  {
    hide SysInv;
  }

  /** Pops until one node is left: the last one, which is tail. */
  lemma {:induction false} Empties(s: System, i: Tid, paused: set<Tid>) returns (t: System)
    requires Fit(s, paused) && i < |s.hz| && i !in paused && s.q.threads[i].pc.Idle? && !s.hz[i].exited
    requires s.q.g.popped < |s.q.g.order| && s.q.g.order[|s.q.g.order| - 1] == s.q.g.tail
    ensures Glides(s, t, paused) && SysInv(t) && |t.hz| == |s.hz| && |t.q.threads| == |s.q.threads|
    ensures t.m.addr == s.m.addr && t.q.g.order == s.q.g.order && t.q.g.tail == s.q.g.tail
    ensures t.q.g.popped + 1 == |t.q.g.order|
    decreases |s.q.g.order| - s.q.g.popped
  {
    hide SysInv, Glides;
    if s.q.g.popped + 1 == |s.q.g.order| {
      t := s;
      GlidesNone(s, paused);
    } else {
      ThreadAt(s, i);
      HeadBeforeLast(s.q.g);
      var u := PopsFully(s, i, paused);
      t := Empties(u, i, paused);
      GlidesOn(s, u, t, paused);
    }
  }

  lemma HeadBeforeLast(g: Store)
    requires Chain(g) && g.popped + 1 < |g.order| && g.order[|g.order| - 1] == g.tail
    ensures g.head != g.tail
  {
  }
}
