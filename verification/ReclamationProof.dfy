/** Every step of the queue with recycled nodes keeps the invariant, under hypothesis H. */
module ReclamationProof {
  import opened MichaelScott
  import opened MichaelScottInvariant
  import opened Reclamation
  import opened ReclamationInvariant

  // ---- What a step of thread `i` may do to the places of nodes ----

  predicate Moves(p: Place, p': Place, i: Tid) {
    || p' == p
    || (p == Unlinked(i) && p' == Linked)
    || (p == Linked && p' == Detached(i))
    || (p == Detached(i) && p' == Retired(i))
    || (p == Retired(i) && (p' == Orphan || p' == Pooled))
    || (p == Orphan && p' == Pooled)
  }

  ghost predicate MemEvolves(m: Mem, m': Mem, i: Tid) {
    && m.addr <= m'.addr && |m.cur| == |m.place| && |m'.cur| == |m'.place| && |m.cur| <= |m'.cur|
    && (forall a {:trigger m'.cur[a]} {:trigger m'.place[a]} :: 0 <= a < |m.cur| ==>
          || (m'.cur[a] == m.cur[a] && Moves(m.place[a], m'.place[a], i))
          || (m.place[a] == Pooled && m'.place[a] == Unlinked(i)))
    && (forall a {:trigger m'.place[a]} :: |m.cur| <= a < |m'.place| ==> m'.place[a] == Unlinked(i))
  }

  /** The step takes nothing away from a thread at `pc`. */
  ghost predicate Spares(m: Mem, m': Mem, pc: Pc) {
    && (FirstHeld(pc).To? && Live(m, FirstHeld(pc).node) && m.addr[FirstHeld(pc).node] < |m'.place| ==>
          !m'.place[m.addr[FirstHeld(pc).node]].Pooled?)
    && (SecondHeld(pc).To? && Live(m, SecondHeld(pc).node) && m.addr[SecondHeld(pc).node] < |m'.place| ==>
          !m'.place[m.addr[SecondHeld(pc).node]].Pooled?)
    && (pc.PushSwing? && Current(m, pc.t) && m.addr[pc.t] < |m'.cur| ==> m'.cur[m.addr[pc.t]] == pc.t)
  }

  lemma KeepsIsStable(m: Mem, m': Mem, i: Tid, j: Tid, pc: Pc)
    requires Keeps(m, j, pc) && MemEvolves(m, m', i) && i != j && Spares(m, m', pc)
    ensures Keeps(m', j, pc)
  {
    hide UnlinkedNode, DetachedNode, FirstHeld, SecondHeld;
  }

  lemma SlotsAreStable(m: Mem, m': Mem, pc: Pc, h: Hazard)
    requires SlotsOk(m, pc, h) && m.addr <= m'.addr
    ensures SlotsOk(m', pc, h)
  {
    hide UsesFirst, UsesSecond, FirstAnnounced, SecondAnnounced;
  }

  /** No node enters or leaves the pool. */
  ghost predicate Calm(m: Mem, m': Mem) {
    && |m.cur| == |m.place| && |m'.cur| == |m'.place| && |m.cur| <= |m'.cur|
    && forall a {:trigger m'.cur[a]} {:trigger m'.place[a]} :: 0 <= a < |m.cur| ==>
         m'.cur[a] == m.cur[a] && (m'.place[a].Pooled? ==> m.place[a].Pooled?)
  }

  lemma CalmSpares(m: Mem, m': Mem, pc: Pc)
    requires Calm(m, m')
    ensures Spares(m, m', pc)
  {
    hide FirstHeld, SecondHeld;
  }

  // ---- Scans in progress ----

  /** What a thread holds at `a` after the step, it held before. */
  ghost predicate HoldsOn(m': Mem, pc: Pc, h: Hazard, pc': Pc, h': Hazard, a: Address) {
    && (FirstHeld(pc').To? && AddressOf(m', FirstHeld(pc').node) == a ==>
          FirstHeld(pc') == FirstHeld(pc) && h'.pos == h.pos)
    && (SecondHeld(pc').To? && AddressOf(m', SecondHeld(pc').node) == a ==>
          SecondHeld(pc') == SecondHeld(pc) && h'.pos == h.pos)
  }

  lemma UnseenIsStable(m: Mem, m': Mem, pc: Pc, h: Hazard, pc': Pc, h': Hazard, a: Address, r: nat, k: nat)
    requires SlotsOk(m, pc, h) && m.addr <= m'.addr && HoldsOn(m', pc, h, pc', h', a)
    requires Unseen(m, pc, h, a, r, k)
    ensures Unseen(m', pc', h', a, r, k)
  {
    assert FirstHeld(pc).To? ==> FirstAnnounced(pc) == FirstHeld(pc);
    assert SecondHeld(pc).To? ==> SecondAnnounced(pc) == SecondHeld(pc);
    hide UsesFirst, UsesSecond, FirstAnnounced, SecondAnnounced, FirstHeld, SecondHeld;
  }

  // ---- Putting a step together ----

  /** The nodes marked as thread `i`'s are the ones its program point names. */
  ghost predicate OwnAccounted(m: Mem, i: Tid, pc: Pc) {
    forall a {:trigger m.place[a]} :: 0 <= a < |m.place| && a < |m.cur| ==>
      && (m.place[a] == Unlinked(i) ==> UnlinkedNode(pc) == To(m.cur[a]))
      && (m.place[a] == Detached(i) ==> DetachedNode(pc) == To(m.cur[a]))
  }

  lemma AccountedIsStable(m: Mem, m': Mem, threads: seq<Thread>, i: Tid, th': Thread)
    requires i < |threads| && Accounted(m, threads) && MemEvolves(m, m', i) && OwnAccounted(m', i, th'.pc)
    ensures Accounted(m', threads[i := th'])
  {
    hide UnlinkedNode, DetachedNode;
  }

  ghost predicate SameButFor(s: System, s': System, i: Tid) {
    && |s'.hz| == |s'.q.threads| == |s.hz| == |s.q.threads|
    && forall j :: 0 <= j < |s.hz| && j != i ==> s'.q.threads[j] == s.q.threads[j] && s'.hz[j] == s.hz[j]
  }

  ghost predicate Walking(scan: Scan, a: Address) {
    scan.Scanning? && scan.todo != [] && scan.walk.Reading? && scan.todo[0] == a
  }

  lemma WalkIsStable(s: System, s': System, i: Tid, scan: Scan)
    requires SysInv(s) && i < |s.hz| && SameButFor(s, s', i)
    requires s.m.addr <= s'.m.addr && s.records <= s'.records
    requires WalkOk(s.m, s.q.threads, s.hz, s.records, scan)
    requires forall a :: Walking(scan, a) ==>
               HoldsOn(s'.m, s.q.threads[i].pc, s.hz[i], s'.q.threads[i].pc, s'.hz[i], a)
    ensures WalkOk(s'.m, s'.q.threads, s'.hz, s'.records, scan)
  {
    hide Inv, Wired, Placed, Accounted, RecordsOk, Listed, Keeps, SlotsOk, Unseen, HoldsOn;
    if scan.Scanning? && scan.todo != [] && scan.walk.Reading? {
      var a, r, k := scan.todo[0], scan.walk.rec, scan.walk.slot;
      assert Walking(scan, a);
      forall l | 0 <= l < |s.hz| ensures Unseen(s'.m, s'.q.threads[l].pc, s'.hz[l], a, r, k) {
        if l != i { HoldsOnItself(s'.m, s.q.threads[l].pc, s.hz[l], a); }
        UnseenIsStable(s.m, s'.m, s.q.threads[l].pc, s.hz[l], s'.q.threads[l].pc, s'.hz[l], a, r, k);
      }
    }
  }

  lemma HoldsOnItself(m: Mem, pc: Pc, h: Hazard, a: Address)
    ensures HoldsOn(m, pc, h, pc, h, a)
  {
  }

  /** The other threads keep their part of the invariant; the stepping thread has to show its own. */
  lemma Assemble(s: System, s': System, i: Tid)
    requires SysInv(s) && i < |s.hz| && SameButFor(s, s', i)
    requires Inv(s'.q) && Wired(s'.q.g, s'.m) && Placed(s'.q.g, s'.m)
    requires MemEvolves(s.m, s'.m, i) && OwnAccounted(s'.m, i, s'.q.threads[i].pc)
    requires s.records <= s'.records && RecordsOk(s'.records, s'.hz)
    requires Listed(s'.m.place, s'.hz, s'.orphans, s'.lock, s'.pool)
    requires forall j :: 0 <= j < |s.hz| && j != i ==> Spares(s.m, s'.m, s.q.threads[j].pc)
    requires Keeps(s'.m, i, s'.q.threads[i].pc) && SlotsOk(s'.m, s'.q.threads[i].pc, s'.hz[i])
    requires WalkOk(s'.m, s'.q.threads, s'.hz, s'.records, s'.hz[i].scan)
    requires forall j, a :: 0 <= j < |s.hz| && j != i && Walking(s.hz[j].scan, a) ==>
               HoldsOn(s'.m, s.q.threads[i].pc, s.hz[i], s'.q.threads[i].pc, s'.hz[i], a)
    ensures SysInv(s')
  {
    hide Inv, Wired, Placed, Accounted, RecordsOk, Listed, Keeps, SlotsOk, WalkOk, Spares, HoldsOn, MemEvolves, Walking,
         OwnAccounted;
    assert s'.q.threads == s.q.threads[i := s'.q.threads[i]];
    AccountedIsStable(s.m, s'.m, s.q.threads, i, s'.q.threads[i]);
    AddrGrows(s.m, s'.m, i);
    forall j | 0 <= j < |s.hz| && j != i
      ensures Keeps(s'.m, j, s'.q.threads[j].pc) && SlotsOk(s'.m, s'.q.threads[j].pc, s'.hz[j])
      ensures WalkOk(s'.m, s'.q.threads, s'.hz, s'.records, s'.hz[j].scan)
    {
      KeepsIsStable(s.m, s'.m, i, j, s.q.threads[j].pc);
      SlotsAreStable(s.m, s'.m, s.q.threads[j].pc, s.hz[j]);
      WalkIsStable(s, s', i, s.hz[j].scan);
    }
  }

  lemma AddrGrows(m: Mem, m': Mem, i: Tid)
    requires MemEvolves(m, m', i)
    ensures m.addr <= m'.addr
  {
  }
}
