/** Steps of the whole system keep the invariant. */
module ReclamationSystem {
  import opened MichaelScott
  import opened MichaelScottInvariant
  import opened Reclamation
  import opened ReclamationInvariant
  import opened ReclamationProof
  import opened ReclamationSteps

  // ---- Lists ----

  predicate InList(p: Place) {
    p.Retired? || p.Orphan? || p.Pooled?
  }

  ghost predicate SameLists(place: seq<Place>, place': seq<Place>) {
    && |place'| == |place|
    && forall a {:trigger place'[a]} :: 0 <= a < |place| ==>
         place'[a] == place[a] || (!InList(place[a]) && !InList(place'[a]))
  }

  lemma SameListsAt(place: seq<Place>, place': seq<Place>, a: Address, p: Place)
    requires SameLists(place, place') && InList(p)
    ensures At(place', a, p) == At(place, a, p)
  {
    if a < |place| { assert place'[a] == place[a] || (!InList(place[a]) && !InList(place'[a])); }
  }

  lemma ListedIsStable(place: seq<Place>, place': seq<Place>, hz: seq<Hazard>, orphans: seq<Address>,
                       lock: set<Tid>, pool: seq<Address>, i: Tid, h': Hazard)
    requires Listed(place, hz, orphans, lock, pool) && SameLists(place, place') && i < |hz|
    requires h'.retired == hz[i].retired && h'.scan == hz[i].scan
    ensures Listed(place', hz[i := h'], orphans, lock, pool)
  {
    var hz' := hz[i := h'];
    forall a, p | InList(p) ensures At(place', a, p) == At(place, a, p) {
      SameListsAt(place, place', a, p);
    }
    hide SameLists, At;
    forall j | 0 <= j < |hz'| ensures OwnListOk(place', j, hz'[j]) {
      assert OwnListOk(place, j, hz[j]);
      assert OwnList(hz'[j]) == OwnList(hz[j]);
    }
    if lock != {} {
      var j :| 0 <= j < |hz| && OrphanListOk(place, hz[j]);
      assert OrphanList(hz'[j]) == OrphanList(hz[j]);
      assert OrphanListOk(place', hz'[j]);
    }
  }

  lemma HeadOccurs(todo: seq<Address>, rest: seq<Address>)
    requires todo != []
    ensures 0 < Occurs(todo + rest, todo[0])
  {
    assert todo[0] in todo + rest by { assert (todo + rest)[0] == todo[0]; }
  }

  /** The node a walk is about lies on the list that is being scanned. */
  lemma WalkedIsListed(s: System, j: Tid, a: Address)
    requires SysInv(s) && j < |s.hz| && Walking(s.hz[j].scan, a)
    ensures a < |s.m.place| && (s.m.place[a] == Retired(j) || s.m.place[a] == Orphan)
    ensures ScansOwn(s.hz[j]) ==> s.m.place[a] == Retired(j)
    ensures ScansOrphans(s.hz[j]) ==> s.m.place[a] == Orphan
  {
    hide Inv, Wired, Placed, Accounted, RecordsOk, Keeps, SlotsOk, WalkOk;
    var h := s.hz[j];
    HeadOccurs(h.scan.todo, h.scan.kept);
    if ScansOwn(h) {
      assert OwnListOk(s.m.place, j, h);
      assert OwnList(h) == h.scan.todo + h.scan.kept;
      assert At(s.m.place, a, Retired(j));
    } else {
      var l :| 0 <= l < |s.hz| && OrphanListOk(s.m.place, s.hz[l]);
      assert s.lock == {l} && s.lock == {j};
      assert l in s.lock;
      assert At(s.m.place, a, Orphan);
    }
  }

  // ---- Steps of the queue's own code ----

  lemma RebindKeeps(g: Store, m: Mem, i: Tid, th: Thread)
    ensures var th' := Rebind(Memory2(m), g, th);
            && (Keeps(m, i, th.pc) ==> Keeps(m, i, th'.pc))
            && (OwnAccounted(m, i, th.pc) ==> OwnAccounted(m, i, th'.pc))
            && FirstHeld(th'.pc) == FirstHeld(th.pc) && SecondHeld(th'.pc) == SecondHeld(th.pc)
            && PlaceEffect(g, m, i, th'.pc) == PlaceEffect(g, m, i, th.pc)
            && (forall h :: SlotEffect(m, th'.pc, h) == SlotEffect(m, th.pc, h))
            && (th'.pc.PushAlloc? <==> th.pc.PushAlloc?) && (th'.pc.PopRetire? <==> th.pc.PopRetire?)
            && (Protects(th'.pc) <==> Protects(th.pc))
  {
  }

  /** The queue's invariant survives a step on recycled memory. */
  lemma QueueStepKeepsInv(s: System, i: Tid)
    requires SysInv(s) && i < |s.hz|
    ensures var th := Rebind(Memory2(s.m), s.q.g, s.q.threads[i]);
            && ThreadOk(s.q.g, i, th)
            && Inv(s.q.(threads := s.q.threads[i := th]))
            && QueueStep(s, i) == Step(Ideal, s.q.(threads := s.q.threads[i := th]), i)
            && Inv(QueueStep(s, i)) && Evolves(s.q.g, QueueStep(s, i).g, i)
  {
    hide Chain, Wired, Placed, Accounted, RecordsOk, Listed, Keeps, SlotsOk, WalkOk, ThreadOk, ThreadStep, Rebind,
         Evolves;
    var th0 := s.q.threads[i];
    StepAgrees(s.q.g, s.m, i, th0);
    var th := Rebind(Memory2(s.m), s.q.g, th0);
    var q := s.q.(threads := s.q.threads[i := th]);
    assert q.threads[i] == th;
    StepKeepsInv(q, i);
    var (g', th') := ThreadStep(Ideal, s.q.g, i, th);
    assert q.threads[i := th'] == s.q.threads[i := th'];
  }

  predicate IsPlain(s: System, i: Tid)
    requires i < |s.hz| == |s.q.threads|
  {
    var pc, h := s.q.threads[i].pc, s.hz[i];
    !Scans(h) && (Protects(pc) ==> h.published) && !pc.PushAlloc? && !pc.PopRetire?
  }

  lemma OwnAccountedFrom(m: Mem, threads: seq<Thread>, i: Tid)
    requires Accounted(m, threads) && i < |threads|
    ensures OwnAccounted(m, i, threads[i].pc)
  {
  }

  lemma PlaceEffectLists(g: Store, m: Mem, i: Tid, pc: Pc)
    requires Chain(g) && Wired(g, m) && Placed(g, m) && Knows(g, i, pc) && Keeps(m, i, pc)
    ensures SameLists(m.place, PlaceEffect(g, m, i, pc).place)
  {
    EndsAreCurrent(g, m);
    PlaceAgrees(g, m, i, pc);
    hide PlaceEffect, Chain, Placed;
  }

  lemma PlainIs(s: System, i: Tid)
    requires SysInv(s) && i < |s.hz| && IsPlain(s, i)
    ensures var pc := s.q.threads[i].pc;
            SystemStep(s, i) == s.(q := QueueStep(s, i), m := PlaceEffect(s.q.g, s.m, i, pc),
                                   hz := s.hz[i := SlotEffect(s.m, pc, s.hz[i])])
  {
    hide SysInv, QueueStep, PlaceEffect, SlotEffect, FirstFree;
    FreeSlotIfNeeded(s, i);
  }

  lemma PlainStep(s: System, i: Tid)
    requires SysInv(s) && i < |s.hz| && IsPlain(s, i)
    ensures SysInv(SystemStep(s, i)) && MemEvolves(s.m, SystemStep(s, i).m, i)
  {
    hide SystemStep, Chain, Wired, Placed, Accounted, RecordsOk, Listed, Keeps, SlotsOk, WalkOk, Knows, Paced,
         ThreadStep, Rebind, PlaceEffect, SlotEffect, MemEvolves, Calm, OwnAccounted, HoldsOn, Walking, Evolves,
         SameLists, FirstHeld, SecondHeld, Spares;
    PlainIs(s, i);
    var s' := SystemStep(s, i);
    var g, m, th0, h := s.q.g, s.m, s.q.threads[i], s.hz[i];
    var th := Rebind(Memory2(m), g, th0);
    QueueStepKeepsInv(s, i);
    RebindKeeps(g, m, i, th0);
    EndsAreCurrent(g, m);
    OwnAccountedFrom(m, s.q.threads, i);
    RebindSlots(g, m, i, th0, h);
    PlainMem(g, m, i, th);
    PlainKeeps(g, m, i, th);
    PlainAccounted(g, m, i, th);
    PlainSlots(g, m, i, th, h);
    SlotEffectKeeps(m, th0.pc, h);
    SlotsAreStable(m, s'.m, s'.q.threads[i].pc, s'.hz[i]);
    PlaceEffectLists(g, m, i, th.pc);
    ListedIsStable(m.place, s'.m.place, s.hz, s.orphans, s.lock, s.pool, i, s'.hz[i]);
    RecordsAreStable(s.records, s.hz, i, s'.hz[i]);
    forall j, a | 0 <= j < |s.hz| && Walking(s.hz[j].scan, a)
      ensures HoldsOn(s'.m, th0.pc, h, s'.q.threads[i].pc, s'.hz[i], a)
    {
      WalkedIsListed(s, j, a);
      PlainHolds(g, m, i, th, h, s'.hz[i], a);
      HoldsSame(m, th.pc, h, th0.pc, h, s'.q.threads[i].pc, s'.hz[i], a);
      HoldsByAddress(m, s'.m, th0.pc, h, s'.q.threads[i].pc, s'.hz[i], a);
    }
    WalkIsStable(s, s', i, h.scan);
    forall j | 0 <= j < |s.hz| ensures Spares(m, s'.m, s.q.threads[j].pc) {
      CalmSpares(m, s'.m, s.q.threads[j].pc);
    }
    Assemble(s, s', i);
  }

  lemma FreeSlotIfNeeded(s: System, i: Tid)
    requires SysInv(s) && i < |s.hz|
    ensures Protects(s.q.threads[i].pc) ==> FirstFree(s.hz[i].slots) < |s.hz[i].slots|
  {
    hide Inv, Wired, Placed, Accounted, RecordsOk, Listed, Keeps, WalkOk, FirstFree;
    assert SlotsOk(s.m, s.q.threads[i].pc, s.hz[i]);
    if Protects(s.q.threads[i].pc) { FreeSlot(s.m, s.q.threads[i].pc, s.hz[i]); }
  }

  lemma SlotEffectKeeps(m: Mem, pc: Pc, h: Hazard)
    ensures var h' := SlotEffect(m, pc, h);
            h'.retired == h.retired && h'.scan == h.scan && h'.published == h.published && h'.pos == h.pos
  {
  }

  lemma RecordsAreStable(records: seq<Tid>, hz: seq<Hazard>, i: Tid, h': Hazard)
    requires RecordsOk(records, hz) && i < |hz| && h'.published == hz[i].published && h'.pos == hz[i].pos
    ensures RecordsOk(records, hz[i := h'])
  {
  }

  lemma HoldsByAddress(m: Mem, m': Mem, pc: Pc, h: Hazard, pc': Pc, h': Hazard, a: Address)
    requires HoldsOn(m, pc, h, pc', h', a) && m'.addr == m.addr
    ensures HoldsOn(m', pc, h, pc', h', a)
  {
  }

  // ---- Publishing the announcement record ----

  lemma PublishStep(s: System, i: Tid)
    requires SysInv(s) && i < |s.hz| && !Scans(s.hz[i])
    requires Protects(s.q.threads[i].pc) && !s.hz[i].published
    ensures SysInv(SystemStep(s, i)) && MemEvolves(s.m, SystemStep(s, i).m, i)
  {
    var s', pc, h := SystemStep(s, i), s.q.threads[i].pc, s.hz[i];
    assert s' == s.(records := s.records + [i], hz := s.hz[i := h.(published := true, pos := |s.records|)]);
    hide SystemStep, Inv, Wired, Placed, Accounted, Listed, Keeps, WalkOk, MemEvolves, Calm, Spares, SameLists,
         OwnAccounted,
         UnlinkedNode, DetachedNode;
    assert SlotsOk(s.m, pc, h);
    assert FirstHeld(pc) == Null && SecondHeld(pc) == Null;
    assert SlotsOk(s.m, pc, s'.hz[i]);
    hide SlotsOk;
    WiredLengths(s.q.g, s.m);
    CalmItself(s.m, i);
    OwnAccountedFrom(s.m, s.q.threads, i);
    SameListsItself(s.m.place);
    ListedIsStable(s.m.place, s.m.place, s.hz, s.orphans, s.lock, s.pool, i, s'.hz[i]);
    forall a ensures HoldsOn(s'.m, pc, h, pc, s'.hz[i], a) { }
    WalkIsStable(s, s', i, h.scan);
    forall j | 0 <= j < |s.hz| ensures Spares(s.m, s'.m, s.q.threads[j].pc) {
      CalmSpares(s.m, s'.m, s.q.threads[j].pc);
    }
    Assemble(s, s', i);
  }

  lemma WiredLengths(g: Store, m: Mem)
    requires Wired(g, m)
    ensures |m.cur| == |m.place| && |m.addr| == |g.next|
  {
  }

  lemma SameListsItself(place: seq<Place>)
    ensures SameLists(place, place)
  {
  }

  // ---- Allocating ----

  /** A node for the new value lives at address `a`, which was fresh or came from the pool. */
  function Settle(m: Mem, i: Tid, a: Address): Mem
    requires a <= |m.cur| == |m.place|
  {
    if a == |m.cur| then Mem(m.addr + [a], m.cur + [|m.addr|], m.place + [Unlinked(i)])
    else Mem(m.addr + [a], m.cur[a := |m.addr|], m.place[a := Unlinked(i)])
  }

  lemma SettleMem(g: Store, m: Mem, i: Tid, v: Value, a: Address)
    requires Chain(g) && Wired(g, m) && Placed(g, m) && a <= |m.cur|
    requires a < |m.cur| ==> m.place[a] == Pooled
    ensures var g', m' := Allocate(g, i, v), Settle(m, i, a);
            Wired(g', m') && Placed(g', m') && MemEvolves(m, m', i)
  {
    assert |g.next| !in g.rank;
    hide Chain, Wired, Placed, MemEvolves, Settle;
    WiredLengths(g, m);
    SettleWired(g, m, i, v, a);
    SettlePlaced(g, m, i, v, a);
    SettleEvolves(m, i, a);
  }

  lemma SettleWired(g: Store, m: Mem, i: Tid, v: Value, a: Address)
    requires Wired(g, m) && a <= |m.cur|
    ensures Wired(Allocate(g, i, v), Settle(m, i, a))
  {
  }

  lemma SettlePlaced(g: Store, m: Mem, i: Tid, v: Value, a: Address)
    requires Wired(g, m) && Placed(g, m) && a <= |m.cur| && (a < |m.cur| ==> m.place[a] == Pooled)
    requires |g.next| !in g.rank
    ensures Placed(Allocate(g, i, v), Settle(m, i, a))
  {
    var m' := Settle(m, i, a);
    forall n | n in g.rank && g.popped <= g.rank[n] ensures Current(m', n) && m'.place[m'.addr[n]] == Linked {
      assert Current(m, n) && m.place[m.addr[n]] == Linked;
    }
    forall b | 0 <= b < |m'.place| && b < |m'.cur|
      ensures m'.place[b] == Linked ==> m'.cur[b] in g.rank && g.popped <= g.rank[m'.cur[b]]
      ensures Gone(m'.place[b]) ==> m'.cur[b] in g.rank && g.rank[m'.cur[b]] < g.popped
    {
      if b != a { assert m'.place[b] == m.place[b] && m'.cur[b] == m.cur[b]; }
    }
  }

  lemma SettleEvolves(m: Mem, i: Tid, a: Address)
    requires a <= |m.cur| == |m.place| && (a < |m.cur| ==> m.place[a] == Pooled)
    ensures MemEvolves(m, Settle(m, i, a), i)
  {
  }

  lemma SettleKeeps(g: Store, m: Mem, i: Tid, v: Value, a: Address)
    requires Wired(g, m) && a <= |m.cur| && (a < |m.cur| ==> m.place[a] == Pooled)
    requires OwnAccounted(m, i, PushAlloc(v))
    ensures Keeps(Settle(m, i, a), i, PushLoadTail(|m.addr|, v))
    ensures OwnAccounted(Settle(m, i, a), i, PushLoadTail(|m.addr|, v))
  {
    var m' := Settle(m, i, a);
    forall b | 0 <= b < |m'.place| && b < |m'.cur|
      ensures m'.place[b] == Unlinked(i) ==> m'.cur[b] == |m.addr|
      ensures m'.place[b] != Detached(i)
    {
      if b != a { assert m'.place[b] == m.place[b]; }
    }
  }

  lemma SettleSpares(m: Mem, i: Tid, a: Address, pc: Pc)
    requires a <= |m.cur| == |m.place|
    requires pc.PushSwing? && pc.t < |m.addr| ==> m.addr[pc.t] != a
    ensures Spares(m, Settle(m, i, a), pc)
  {
    hide FirstHeld, SecondHeld;
  }

  lemma LastOccurs(pool: seq<Address>)
    requires pool != []
    ensures 0 < Occurs(pool, pool[|pool| - 1])
    ensures forall b :: Occurs(pool, b) == Occurs(pool[..|pool| - 1], b) + (if b == pool[|pool| - 1] then 1 else 0)
  {
    assert pool == pool[..|pool| - 1] + [pool[|pool| - 1]];
  }

  lemma SettleListed(s: System, i: Tid, h': Hazard)
    requires SysInv(s) && i < |s.hz| && h' == s.hz[i]
    ensures |s.m.cur| == |s.m.place|
    ensures s.pool != [] ==> At(s.m.place, s.pool[|s.pool| - 1], Pooled)
    ensures var a := if s.pool == [] then |s.m.cur| else s.pool[|s.pool| - 1];
            a <= |s.m.cur| &&
            Listed(Settle(s.m, i, a).place, s.hz, s.orphans, s.lock,
                if s.pool == [] then [] else s.pool[..|s.pool| - 1])
  {
    hide Inv, Placed, Accounted, RecordsOk, Keeps, SlotsOk, WalkOk;
    var place := s.m.place;
    var a := if s.pool == [] then |s.m.cur| else s.pool[|s.pool| - 1];
    var pool' := if s.pool == [] then [] else s.pool[..|s.pool| - 1];
    if s.pool != [] {
      LastOccurs(s.pool);
      assert At(place, a, Pooled);
    }
    var place' := Settle(s.m, i, a).place;
    forall b, p | InList(p) && (b != a || p != Pooled) ensures At(place', b, p) == At(place, b, p) { }
    forall b ensures Occurs(pool', b) == Once(At(place', b, Pooled)) {
      assert Occurs(s.pool, b) == Once(At(place, b, Pooled));
    }
    hide At;
    forall j | 0 <= j < |s.hz| ensures OwnListOk(place', j, s.hz[j]) {
      assert OwnListOk(place, j, s.hz[j]);
    }
    if s.lock != {} {
      var j :| 0 <= j < |s.hz| && OrphanListOk(place, s.hz[j]);
      assert OrphanListOk(place', s.hz[j]);
    }
  }

  lemma AllocIs(s: System, i: Tid)
    requires SysInv(s) && i < |s.hz| && s.q.threads[i].pc.PushAlloc? && !Scans(s.hz[i])
    ensures |s.m.cur| == |s.m.place|
    ensures var a := if s.pool == [] then |s.m.cur| else s.pool[|s.pool| - 1];
            && a <= |s.m.cur|
            && SystemStep(s, i) ==
               s.(q := QueueStep(s, i), m := Settle(s.m, i, a),
                  pool := if s.pool == [] then [] else s.pool[..|s.pool| - 1])
  {
    hide SysInv, QueueStep;
    SettleListed(s, i, s.hz[i]);
  }

  lemma AllocQueue(s: System, i: Tid)
    requires SysInv(s) && i < |s.hz| && s.q.threads[i].pc.PushAlloc?
    ensures QueueStep(s, i) ==
              Queue(Allocate(s.q.g, i, s.q.threads[i].pc.v),
                    s.q.threads[i := s.q.threads[i].(pc := PushLoadTail(|s.m.addr|, s.q.threads[i].pc.v))])
  {
    WiredLengths(s.q.g, s.m);
    hide SysInv;
  }

  lemma AllocStep(s: System, i: Tid)
    requires SysInv(s) && i < |s.hz| && s.q.threads[i].pc.PushAlloc? && !Scans(s.hz[i])
    requires RespectsH(s, Act(Run(i)))
    ensures SysInv(SystemStep(s, i)) && MemEvolves(s.m, SystemStep(s, i).m, i)
  {
    hide SystemStep, QueueStep, Chain, Wired, Placed, Accounted, RecordsOk, Listed, Keeps, SlotsOk, WalkOk, Knows,
         Paced,
         MemEvolves, Calm, OwnAccounted, HoldsOn, Walking, Evolves, Spares, Settle, Allocate, Rebind;
    WiredLengths(s.q.g, s.m);
    AllocIs(s, i);
    AllocQueue(s, i);
    QueueStepKeepsInv(s, i);
    SettleListed(s, i, s.hz[i]);
    var s', pc, h := SystemStep(s, i), s.q.threads[i].pc, s.hz[i];
    var a := if s.pool == [] then |s.m.cur| else s.pool[|s.pool| - 1];
    OwnAccountedFrom(s.m, s.q.threads, i);
    SettleMem(s.q.g, s.m, i, pc.v, a);
    SettleKeeps(s.q.g, s.m, i, pc.v, a);
    AddrGrows(s.m, s'.m, i);
    SlotsTransfer(s.m, pc, s'.q.threads[i].pc, h);
    SlotsAreStable(s.m, s'.m, s'.q.threads[i].pc, h);
    forall b ensures HoldsOn(s'.m, pc, h, s'.q.threads[i].pc, h, b) {
      NothingHeld(s'.m, pc, h, s'.q.threads[i].pc, h, b);
    }
    WalkIsStable(s, s', i, h.scan);
    forall j | 0 <= j < |s.hz| && j != i ensures Spares(s.m, s'.m, s.q.threads[j].pc) {
      if s.q.threads[j].pc.PushSwing? { SwingInMemory(s, j); }
      SettleSpares(s.m, i, a, s.q.threads[j].pc);
    }
    Assemble(s, s', i);
  }

  lemma NothingHeld(m: Mem, pc: Pc, h: Hazard, pc': Pc, h': Hazard, a: Address)
    requires FirstHeld(pc') == Null && SecondHeld(pc') == Null
    ensures HoldsOn(m, pc, h, pc', h', a)
  {
  }

  lemma SwingInMemory(s: System, j: Tid)
    requires SysInv(s) && j < |s.hz| && s.q.threads[j].pc.PushSwing?
    ensures s.q.threads[j].pc.t < |s.m.addr| && s.m.addr[s.q.threads[j].pc.t] < |s.m.cur|
  {
    assert Keeps(s.m, j, s.q.threads[j].pc);
  }

  // ---- Retiring ----

  lemma RetireMem(g: Store, m: Mem, i: Tid, pc: Pc)
    requires Wired(g, m) && Placed(g, m) && pc.PopRetire? && Keeps(m, i, pc) && OwnAccounted(m, i, pc)
    ensures var m', pc' := Put(m, AddressOf(m, pc.h), Retired(i)), PopScan(pc.v);
            && Wired(g, m') && Placed(g, m') && MemEvolves(m, m', i) && Calm(m, m') && m'.addr == m.addr
            && Keeps(m', i, pc') && OwnAccounted(m', i, pc')
  {
    assert Current(m, pc.h) && m.place[m.addr[pc.h]] == Detached(i);
    hide Keeps, OwnAccounted;
    RetiredMem(g, m, i, m.addr[pc.h]);
    RetiredOwn(g, m, i, pc);
  }

  lemma RetiredMem(g: Store, m: Mem, i: Tid, a: Address)
    requires Wired(g, m) && Placed(g, m) && a < |m.place| && m.place[a] == Detached(i)
    ensures var m' := Put(m, a, Retired(i));
            Wired(g, m') && Placed(g, m') && MemEvolves(m, m', i) && Calm(m, m') && m'.addr == m.addr
  {
  }

  lemma RetiredOwn(g: Store, m: Mem, i: Tid, pc: Pc)
    requires Wired(g, m) && pc.PopRetire? && Keeps(m, i, pc) && OwnAccounted(m, i, pc)
    ensures var m', pc' := Put(m, AddressOf(m, pc.h), Retired(i)), PopScan(pc.v);
            Keeps(m', i, pc') && OwnAccounted(m', i, pc')
  {
  }

  lemma RetiredAt(place: seq<Place>, i: Tid, a: Address)
    requires a < |place| && place[a] == Detached(i)
    ensures forall b, p :: InList(p) && (b != a || p != Retired(i)) ==>
              At(place[a := Retired(i)], b, p) == At(place, b, p)
    ensures At(place[a := Retired(i)], a, Retired(i)) && !At(place, a, Retired(i))
  {
  }

  lemma RetiredOwnList(place: seq<Place>, i: Tid, h: Hazard, a: Address, limit: nat)
    requires OwnListOk(place, i, h) && !Scans(h) && a < |place| && place[a] == Detached(i)
    ensures OwnListOk(place[a := Retired(i)], i, Retire(limit, h, a))
  {
    var place', h' := place[a := Retired(i)], Retire(limit, h, a);
    RetiredAt(place, i, a);
    assert OwnList(h') == OwnList(h) + [a];
    hide At;
    forall b ensures Occurs(OwnList(h'), b) == Once(At(place', b, Retired(i))) {
      assert Occurs(OwnList(h), b) == Once(At(place, b, Retired(i)));
    }
  }

  lemma DetachedPlace(s: System, i: Tid)
    requires SysInv(s) && i < |s.hz| && s.q.threads[i].pc.PopRetire?
    ensures var a := AddressOf(s.m, s.q.threads[i].pc.h); a < |s.m.place| && s.m.place[a] == Detached(i)
  {
    hide Inv, Placed, Accounted, RecordsOk, SlotsOk, WalkOk, Listed;
    assert Keeps(s.m, i, s.q.threads[i].pc);
  }

  lemma RetireListed(s: System, i: Tid)
    requires SysInv(s) && i < |s.hz| && s.q.threads[i].pc.PopRetire? && !Scans(s.hz[i])
    ensures var a := AddressOf(s.m, s.q.threads[i].pc.h);
            Listed(Put(s.m, a, Retired(i)).place, s.hz[i := Retire(s.limit, s.hz[i], a)], s.orphans, s.lock, s.pool)
  {
    hide Inv, Placed, Accounted, RecordsOk, SlotsOk, WalkOk, Keeps, At, OwnListOk;
    DetachedPlace(s, i);
    var a := AddressOf(s.m, s.q.threads[i].pc.h);
    RetireLists(s.m.place, s.hz, s.orphans, s.lock, s.pool, i, a, s.limit);
  }

  /** What retiring does not concern: the lists of the other threads, and the orphans. */
  lemma OtherLists(place: seq<Place>, i: Tid, a: Address, j: Tid, h: Hazard)
    requires a < |place| && place[a] == Detached(i)
    ensures OwnListOk(place, j, h) && j != i ==> OwnListOk(place[a := Retired(i)], j, h)
    ensures OrphanListOk(place, h) ==> OrphanListOk(place[a := Retired(i)], h)
  {
    RetiredAt(place, i, a);
    hide At, Occurs;
  }

  lemma RetireScansOwn(h: Hazard, a: Address, limit: nat)
    requires !Scans(h)
    ensures !ScansOrphans(Retire(limit, h, a)) && !ScansOrphans(h)
  {
  }

  lemma RetireLists(place: seq<Place>, hz: seq<Hazard>, orphans: seq<Address>, lock: set<Tid>, pool: seq<Address>,
                    i: Tid, a: Address, limit: nat)
    requires Listed(place, hz, orphans, lock, pool) && i < |hz| && !Scans(hz[i])
    requires a < |place| && place[a] == Detached(i)
    ensures Listed(place[a := Retired(i)], hz[i := Retire(limit, hz[i], a)], orphans, lock, pool)
  {
    hide At, OwnListOk, OrphanListOk, Retire, ScansOrphans, Occurs;
    var place', h' := place[a := Retired(i)], Retire(limit, hz[i], a);
    var hz' := hz[i := h'];
    RetiredAt(place, i, a);
    RetireScansOwn(hz[i], a, limit);
    RetiredOwnList(place, i, hz[i], a, limit);
    forall j | 0 <= j < |hz'| ensures OwnListOk(place', j, hz'[j]) {
      OtherLists(place, i, a, j, hz[j]);
    }
    if lock != {} {
      var j :| 0 <= j < |hz| && OrphanListOk(place, hz[j]);
      OtherLists(place, i, a, j, hz[j]);
      OrphanScans(place, hz[j]);
      assert OrphanListOk(place', hz'[j]);
    }
  }

  lemma OrphanScans(place: seq<Place>, h: Hazard)
    requires OrphanListOk(place, h)
    ensures ScansOrphans(h)
  {
  }

  lemma RetireIs(s: System, i: Tid)
    requires SysInv(s) && i < |s.hz| && s.q.threads[i].pc.PopRetire? && !Scans(s.hz[i])
    ensures var pc := s.q.threads[i].pc;
            && SystemStep(s, i) ==
               s.(q := QueueStep(s, i), m := Put(s.m, AddressOf(s.m, pc.h), Retired(i)),
                  hz := s.hz[i := Retire(s.limit, s.hz[i], AddressOf(s.m, pc.h))])
            && QueueStep(s, i) == s.q.(threads := s.q.threads[i := s.q.threads[i].(pc := PopScan(pc.v))])
  {
    hide SysInv;
  }

  lemma RetireStep(s: System, i: Tid)
    requires SysInv(s) && i < |s.hz| && s.q.threads[i].pc.PopRetire? && !Scans(s.hz[i])
    ensures SysInv(SystemStep(s, i)) && MemEvolves(s.m, SystemStep(s, i).m, i)
  {
    hide SystemStep, QueueStep, Chain, Wired, Placed, Accounted, RecordsOk, Listed, Keeps, WalkOk, Knows, Paced,
         MemEvolves, Calm, OwnAccounted, HoldsOn, Walking, Evolves, Spares, Put, AddressOf, Rebind;
    RetireIs(s, i);
    QueueStepKeepsInv(s, i);
    RetireListed(s, i);
    var s', pc, h := SystemStep(s, i), s.q.threads[i].pc, s.hz[i];
    OwnAccountedFrom(s.m, s.q.threads, i);
    RetireMem(s.q.g, s.m, i, pc);
    assert SlotsOk(s.m, pc, h);
    assert SlotsOk(s.m, PopScan(pc.v), s'.hz[i]);
    hide SlotsOk;
    SlotsAreStable(s.m, s'.m, s'.q.threads[i].pc, s'.hz[i]);
    RecordsAreStable(s.records, s.hz, i, s'.hz[i]);
    forall b ensures HoldsOn(s'.m, pc, h, s'.q.threads[i].pc, s'.hz[i], b) {
      NothingHeld(s'.m, pc, h, s'.q.threads[i].pc, s'.hz[i], b);
    }
    NoWalk(s'.m, s'.q.threads, s'.hz, s'.records, s'.hz[i].scan);
    forall j | 0 <= j < |s.hz| ensures Spares(s.m, s'.m, s.q.threads[j].pc) {
      CalmSpares(s.m, s'.m, s.q.threads[j].pc);
    }
    Assemble(s, s', i);
  }

  lemma NoWalk(m: Mem, threads: seq<Thread>, hz: seq<Hazard>, records: seq<Tid>, scan: Scan)
    requires |threads| == |hz| && (scan.Scanning? ==> scan.todo == [] || scan.walk == Ready)
    ensures WalkOk(m, threads, hz, records, scan)
  {
  }

  // ---- Scanning ----

  /** A scan step leaves the queue and the slots alone. */
  ghost predicate OnlyScans(s: System, s': System, i: Tid) {
    && i < |s.hz| && s'.q == s.q && s'.records == s.records && |s'.hz| == |s.hz|
    && s'.hz == s.hz[i := s'.hz[i]]
    && s'.hz[i] == s.hz[i].(retired := s'.hz[i].retired, scan := s'.hz[i].scan)
  }

  lemma ScanAssemble(s: System, s': System, i: Tid)
    requires SysInv(s) && OnlyScans(s, s', i) && Scans(s.hz[i])
    requires s'.m == s.m && Listed(s'.m.place, s'.hz, s'.orphans, s'.lock, s'.pool)
    requires WalkOk(s'.m, s'.q.threads, s'.hz, s'.records, s'.hz[i].scan)
    ensures SysInv(s') && MemEvolves(s.m, s'.m, i)
  {
    hide Inv, Wired, Placed, Accounted, RecordsOk, Listed, Keeps, WalkOk, MemEvolves, Calm, Spares, OwnAccounted,
         HoldsOn, Walking;
    var pc, h := s.q.threads[i].pc, s.hz[i];
    WiredLengths(s.q.g, s.m);
    CalmItself(s.m, i);
    OwnAccountedFrom(s.m, s.q.threads, i);
    RecordsAreStable(s.records, s.hz, i, s'.hz[i]);
    assert SlotsOk(s.m, pc, h);
    assert SlotsOk(s.m, pc, s'.hz[i]);
    hide SlotsOk;
    forall a ensures HoldsOn(s'.m, pc, h, pc, s'.hz[i], a) { NothingHeld(s'.m, pc, h, pc, s'.hz[i], a); }
    forall j | 0 <= j < |s.hz| ensures Spares(s.m, s'.m, s.q.threads[j].pc) {
      CalmSpares(s.m, s'.m, s.q.threads[j].pc);
    }
    Assemble(s, s', i);
  }

  lemma TakeLockStep(s: System, i: Tid)
    requires SysInv(s) && i < |s.hz| && s.hz[i].scan == WaitLock && s.lock == {}
    ensures SysInv(ScanStep(s, i)) && MemEvolves(s.m, ScanStep(s, i).m, i)
  {
    hide Inv, Wired, Placed, Accounted, RecordsOk, Keeps, SlotsOk, WalkOk;
    var s' := ScanStep(s, i);
    forall j | 0 <= j < |s.hz| ensures OwnListOk(s.m.place, j, s'.hz[j]) {
      assert OwnListOk(s.m.place, j, s.hz[j]);
      assert OwnList(s'.hz[j]) == OwnList(s.hz[j]);
    }
    assert OrphanList(s'.hz[i]) == s.orphans;
    assert OrphanListOk(s.m.place, s'.hz[i]);
    assert Listed(s.m.place, s'.hz, s'.orphans, s'.lock, s'.pool);
    hide Listed;
    NoWalk(s'.m, s'.q.threads, s'.hz, s'.records, s'.hz[i].scan);
    ScanAssemble(s, s', i);
  }

  lemma FinishOwnStep(s: System, i: Tid)
    requires SysInv(s) && i < |s.hz| && ScansOwn(s.hz[i]) && s.hz[i].scan.todo == []
    ensures SysInv(ScanStep(s, i)) && MemEvolves(s.m, ScanStep(s, i).m, i)
  {
    hide Inv, Wired, Placed, Accounted, RecordsOk, Keeps, SlotsOk, WalkOk;
    var s' := ScanStep(s, i);
    forall j | 0 <= j < |s.hz| ensures OwnListOk(s.m.place, j, s'.hz[j]) {
      assert OwnListOk(s.m.place, j, s.hz[j]);
      assert OwnList(s'.hz[j]) == OwnList(s.hz[j]);
    }
    OrphansElsewhere(s, s', i);
    hide Listed;
    NoWalk(s'.m, s'.q.threads, s'.hz, s'.records, s'.hz[i].scan);
    ScanAssemble(s, s', i);
  }

  /** A step of a thread that does not scan orphans leaves the orphans as they are. */
  lemma OrphansElsewhere(s: System, s': System, i: Tid)
    requires Listed(s.m.place, s.hz, s.orphans, s.lock, s.pool) && OnlyScans(s, s', i)
    requires s'.m == s.m && s'.lock == s.lock && s'.orphans == s.orphans && s'.pool == s.pool
    requires !ScansOrphans(s.hz[i]) && !ScansOrphans(s'.hz[i])
    requires forall j :: 0 <= j < |s.hz| ==> OwnListOk(s.m.place, j, s'.hz[j])
    ensures Listed(s'.m.place, s'.hz, s'.orphans, s'.lock, s'.pool)
  {
    hide OwnListOk;
    if s.lock != {} {
      var j :| 0 <= j < |s.hz| && OrphanListOk(s.m.place, s.hz[j]);
      assert OrphanListOk(s'.m.place, s'.hz[j]);
    }
  }

  lemma FinishOrphanStep(s: System, i: Tid)
    requires SysInv(s) && i < |s.hz| && ScansOrphans(s.hz[i]) && s.hz[i].scan.todo == []
    ensures SysInv(ScanStep(s, i)) && MemEvolves(s.m, ScanStep(s, i).m, i)
  {
    hide Inv, Wired, Placed, Accounted, RecordsOk, Keeps, SlotsOk, WalkOk;
    var s' := ScanStep(s, i);
    forall j | 0 <= j < |s.hz| ensures OwnListOk(s.m.place, j, s'.hz[j]) {
      assert OwnListOk(s.m.place, j, s.hz[j]);
      assert OwnList(s'.hz[j]) == OwnList(s.hz[j]);
    }
    OrphanScanner(s, i);
    assert OrphanList(s.hz[i]) == s'.orphans;
    forall j | 0 <= j < |s.hz| && j != i ensures !ScansOrphans(s.hz[j]) { }
    assert Listed(s.m.place, s'.hz, s'.orphans, s'.lock, s'.pool);
    hide Listed;
    NoWalk(s'.m, s'.q.threads, s'.hz, s'.records, s'.hz[i].scan);
    ScanAssemble(s, s', i);
  }

  /** Whoever scans orphans holds the lock, and has all of them. */
  lemma OrphanScanner(s: System, i: Tid)
    requires Listed(s.m.place, s.hz, s.orphans, s.lock, s.pool) && i < |s.hz| && ScansOrphans(s.hz[i])
    ensures s.lock == {i} && s.orphans == [] && OrphanListOk(s.m.place, s.hz[i])
    ensures forall j :: 0 <= j < |s.hz| && j != i ==> !ScansOrphans(s.hz[j])
  {
    hide OwnListOk, OrphanListOk;
    var l :| 0 <= l < |s.hz| && OrphanListOk(s.m.place, s.hz[l]);
    assert ScansOrphans(s.hz[l]) by { OrphanScans(s.m.place, s.hz[l]); }
    assert l in s.lock && i in s.lock;
    forall j | 0 <= j < |s.hz| && ScansOrphans(s.hz[j]) ensures j == i { assert j in s.lock; }
  }

  /** Moving on within a walk: the lists stay, and holders not yet seen are still ahead. */
  lemma WalkStep(s: System, s': System, i: Tid)
    requires SysInv(s) && OnlyScans(s, s', i) && s.hz[i].scan.Scanning?
    requires s' == s.(hz := s.hz[i := s.hz[i].(scan := s'.hz[i].scan)])
    requires s'.hz[i].scan.Scanning? && s'.hz[i].scan == s.hz[i].scan.(walk := s'.hz[i].scan.walk)
    requires WalkOk(s.m, s.q.threads, s.hz, s.records, s'.hz[i].scan)
    ensures SysInv(s') && MemEvolves(s.m, s'.m, i)
  {
    hide Inv, Wired, Placed, Accounted, RecordsOk, Keeps, SlotsOk, WalkOk;
    forall j | 0 <= j < |s.hz| ensures OwnListOk(s.m.place, j, s'.hz[j]) {
      assert OwnListOk(s.m.place, j, s.hz[j]);
      assert OwnList(s'.hz[j]) == OwnList(s.hz[j]);
    }
    if s.lock != {} {
      var j :| 0 <= j < |s.hz| && OrphanListOk(s.m.place, s.hz[j]);
      assert OrphanList(s'.hz[j]) == OrphanList(s.hz[j]);
      assert OrphanListOk(s.m.place, s'.hz[j]);
    }
    assert Listed(s.m.place, s'.hz, s'.orphans, s'.lock, s'.pool);
    hide Listed;
    forall a ensures HoldsOn(s'.m, s.q.threads[i].pc, s.hz[i], s'.q.threads[i].pc, s'.hz[i], a) { }
    WalkIsStable(s, s', i, s'.hz[i].scan);
    ScanAssemble(s, s', i);
  }

  /** The invariant says where each holder's record is, and what its slots announce. */
  lemma HolderFacts(s: System, l: Tid)
    requires SysInv(s) && l < |s.hz|
    ensures var pc, h := s.q.threads[l].pc, s.hz[l];
            && |h.slots| == SLOTS_COUNT
            && (FirstHeld(pc).To? || SecondHeld(pc).To? ==> h.pos < |s.records| && s.records[h.pos] == l)
            && (FirstHeld(pc).To? ==> h.slots[0] == Holds(AddressOf(s.m, FirstHeld(pc).node)))
            && (SecondHeld(pc).To? ==> h.slots[1] == Holds(AddressOf(s.m, SecondHeld(pc).node)))
  {
    hide Inv, Wired, Placed, Accounted, Listed, Keeps, WalkOk;
    assert SlotsOk(s.m, s.q.threads[l].pc, s.hz[l]);
  }

  lemma StartWalk(s: System, i: Tid)
    requires SysInv(s) && i < |s.hz| && s.hz[i].scan.Scanning? && s.hz[i].scan.todo != []
    ensures WalkOk(s.m, s.q.threads, s.hz, s.records, s.hz[i].scan.(walk := Reading(|s.records|, 0)))
  {
    hide SysInv, FirstHeld, SecondHeld;
    var a := s.hz[i].scan.todo[0];
    assert |s.hz| == |s.q.threads| by { Sizes(s); }
    forall l | 0 <= l < |s.hz| ensures Unseen(s.m, s.q.threads[l].pc, s.hz[l], a, |s.records|, 0) {
      HolderFacts(s, l);
    }
  }

  lemma Sizes(s: System)
    requires SysInv(s)
    ensures |s.hz| == |s.q.threads|
  {
  }

  lemma NextRecord(s: System, i: Tid)
    requires SysInv(s) && i < |s.hz| && s.hz[i].scan.Scanning? && s.hz[i].scan.todo != []
    requires s.hz[i].scan.walk.Reading? && 0 < s.hz[i].scan.walk.rec && SLOTS_COUNT <= s.hz[i].scan.walk.slot
    ensures WalkOk(s.m, s.q.threads, s.hz, s.records, s.hz[i].scan.(walk := Reading(s.hz[i].scan.walk.rec - 1, 0)))
  {
    hide Inv, Wired, Placed, Accounted, RecordsOk, Keeps, SlotsOk, Listed, FirstHeld, SecondHeld;
    assert WalkOk(s.m, s.q.threads, s.hz, s.records, s.hz[i].scan);
  }

  /** A slot that announces something else cannot be the one a holder of this node uses. */
  lemma NextSlot(s: System, i: Tid)
    requires SysInv(s) && i < |s.hz| && s.hz[i].scan.Scanning? && s.hz[i].scan.todo != []
    requires s.hz[i].scan.walk.Reading?
    requires var (r, k) := (s.hz[i].scan.walk.rec, s.hz[i].scan.walk.slot);
             && 0 < r <= |s.records| && k < SLOTS_COUNT
             && SlotOf(s, s.records[r - 1], k) != Holds(s.hz[i].scan.todo[0])
    ensures var (r, k) := (s.hz[i].scan.walk.rec, s.hz[i].scan.walk.slot);
            WalkOk(s.m, s.q.threads, s.hz, s.records, s.hz[i].scan.(walk := Reading(r, k + 1)))
  {
    hide SysInv, FirstHeld, SecondHeld;
    Sizes(s);
    assert WalkOk(s.m, s.q.threads, s.hz, s.records, s.hz[i].scan) by { OwnWalk(s, i); }
    var a, r, k := s.hz[i].scan.todo[0], s.hz[i].scan.walk.rec, s.hz[i].scan.walk.slot;
    forall l | 0 <= l < |s.hz| ensures Unseen(s.m, s.q.threads[l].pc, s.hz[l], a, r, k + 1) {
      HolderFacts(s, l);
      assert Unseen(s.m, s.q.threads[l].pc, s.hz[l], a, r, k);
    }
  }

  lemma OwnWalk(s: System, i: Tid)
    requires SysInv(s) && i < |s.hz|
    ensures WalkOk(s.m, s.q.threads, s.hz, s.records, s.hz[i].scan)
  {
  }

  // ---- Keeping or reclaiming the examined node ----

  lemma KeepLists(todo: seq<Address>, kept: seq<Address>, b: Address)
    requires todo != []
    ensures Occurs(todo[1..] + (kept + [todo[0]]), b) == Occurs(todo + kept, b)
  {
    assert todo == [todo[0]] + todo[1..];
  }

  lemma PoolLists(todo: seq<Address>, kept: seq<Address>, b: Address)
    requires todo != []
    ensures Occurs(todo + kept, b) == Occurs(todo[1..] + kept, b) + (if b == todo[0] then 1 else 0)
  {
    assert todo == [todo[0]] + todo[1..];
  }

  lemma KeepStep(s: System, s': System, i: Tid)
    requires SysInv(s) && i < |s.hz| && s.hz[i].scan.Scanning? && s.hz[i].scan.todo != []
    requires var sc := s.hz[i].scan;
             s' == s.(hz := s.hz[i := s.hz[i].(scan := Scanning(sc.orphan, sc.todo[1..], sc.kept + [sc.todo[0]],
                 Ready))])
    ensures SysInv(s') && MemEvolves(s.m, s'.m, i)
  {
    hide Inv, Wired, Placed, Accounted, RecordsOk, Keeps, SlotsOk, WalkOk;
    var h, h' := s.hz[i], s'.hz[i];
    var todo, kept := h.scan.todo, h.scan.kept;
    assert OwnListOk(s.m.place, i, h);
    if ScansOwn(h) {
      assert OwnList(h) == todo + kept && OwnList(h') == todo[1..] + (kept + [todo[0]]);
      forall b ensures Occurs(OwnList(h'), b) == Once(At(s.m.place, b, Retired(i))) {
        KeepLists(todo, kept, b);
        assert Occurs(OwnList(h), b) == Once(At(s.m.place, b, Retired(i)));
      }
    }
    forall j | 0 <= j < |s.hz| ensures OwnListOk(s.m.place, j, s'.hz[j]) {
      assert OwnListOk(s.m.place, j, s.hz[j]);
    }
    if ScansOrphans(h) {
      OrphanScanner(s, i);
      forall b ensures Occurs(OrphanList(h'), b) == Once(At(s.m.place, b, Orphan)) {
        KeepLists(todo, kept, b);
        assert Occurs(OrphanList(h), b) == Once(At(s.m.place, b, Orphan));
      }
      assert OrphanListOk(s.m.place, s'.hz[i]);
      assert Listed(s.m.place, s'.hz, s'.orphans, s'.lock, s'.pool);
    } else {
      OrphansElsewhere(s, s', i);
    }
    hide Listed;
    NoWalk(s'.m, s'.q.threads, s'.hz, s'.records, s'.hz[i].scan);
    ScanAssemble(s, s', i);
  }

  /** When the walk is over, nobody holds the node. */
  lemma NobodyHolds(s: System, i: Tid, l: Tid)
    requires SysInv(s) && i < |s.hz| && l < |s.hz|
    requires s.hz[i].scan.Scanning? && s.hz[i].scan.todo != [] && s.hz[i].scan.walk.Reading?
    requires s.hz[i].scan.walk.rec == 0
    ensures var pc, a := s.q.threads[l].pc, s.hz[i].scan.todo[0];
            && (FirstHeld(pc).To? ==> AddressOf(s.m, FirstHeld(pc).node) != a)
            && (SecondHeld(pc).To? ==> AddressOf(s.m, SecondHeld(pc).node) != a)
  {
    hide SysInv, FirstHeld, SecondHeld;
    Sizes(s);
    OwnWalk(s, i);
    assert Unseen(s.m, s.q.threads[l].pc, s.hz[l], s.hz[i].scan.todo[0], 0, s.hz[i].scan.walk.slot);
  }

  lemma PoolMem(g: Store, m: Mem, i: Tid, a: Address, pc: Pc)
    requires Wired(g, m) && Placed(g, m) && a < |m.place| && (m.place[a] == Retired(i) || m.place[a] == Orphan)
    requires pc.PopScan? && OwnAccounted(m, i, pc)
    ensures var m' := Put(m, a, Pooled);
            && Wired(g, m') && Placed(g, m') && MemEvolves(m, m', i) && m'.addr == m.addr
            && Keeps(m', i, pc) && OwnAccounted(m', i, pc)
  {
  }

  lemma PoolSpares(m: Mem, a: Address, pc: Pc)
    requires |m.cur| == |m.place|
    requires FirstHeld(pc).To? ==> AddressOf(m, FirstHeld(pc).node) != a
    requires SecondHeld(pc).To? ==> AddressOf(m, SecondHeld(pc).node) != a
    ensures Spares(m, Put(m, a, Pooled), pc)
  {
    hide FirstHeld, SecondHeld;
  }

  lemma PutAt(m: Mem, a: Address, to: Place, b: Address, p: Place)
    requires a < |m.place|
    ensures At(Put(m, a, to).place, b, p) == if b == a then p == to else At(m.place, b, p)
    ensures At(m.place, a, p) == (p == m.place[a])
  {
  }

  /** One entry of a list goes, and the place it stood for. */
  lemma OneLess(place: seq<Place>, place': seq<Place>, p: Place, todo: seq<Address>, kept: seq<Address>, b: Address)
    requires todo != [] && p != Pooled && At(place, todo[0], p)
    requires At(place', b, p) == if b == todo[0] then p == Pooled else At(place, b, p)
    requires Occurs(todo + kept, b) == Once(At(place, b, p))
    ensures Occurs(todo[1..] + kept, b) == Once(At(place', b, p))
  {
    PoolLists(todo, kept, b);
    hide At, Occurs;
  }

  /** The reclaimed node is off the scanned list. */
  lemma PoolOwnList(place: seq<Place>, place': seq<Place>, i: Tid, h: Hazard)
    requires OwnListOk(place, i, h) && h.scan.Scanning? && h.scan.todo != []
    requires forall b, p :: At(place', b, p) == if b == h.scan.todo[0] then p == Pooled else At(place, b, p)
    requires ScansOwn(h) == At(place, h.scan.todo[0], Retired(i))
    ensures OwnListOk(place', i, h.(scan := Scanning(h.scan.orphan, h.scan.todo[1..], h.scan.kept, Ready)))
  {
    hide At, Occurs;
    var todo, kept := h.scan.todo, h.scan.kept;
    var h' := h.(scan := Scanning(h.scan.orphan, todo[1..], kept, Ready));
    if ScansOwn(h) {
      assert OwnList(h) == todo + kept && OwnList(h') == todo[1..] + kept;
      forall b ensures Occurs(OwnList(h'), b) == Once(At(place', b, Retired(i))) {
        assert Occurs(OwnList(h), b) == Once(At(place, b, Retired(i)));
        OneLess(place, place', Retired(i), todo, kept, b);
      }
    } else {
      assert OwnList(h') == OwnList(h);
      forall b ensures At(place', b, Retired(i)) == At(place, b, Retired(i)) { }
    }
  }

  lemma PoolOrphanList(place: seq<Place>, place': seq<Place>, h: Hazard)
    requires OrphanListOk(place, h) && h.scan.todo != []
    requires forall b, p :: At(place', b, p) == if b == h.scan.todo[0] then p == Pooled else At(place, b, p)
    requires At(place, h.scan.todo[0], Orphan)
    ensures OrphanListOk(place', h.(scan := Scanning(true, h.scan.todo[1..], h.scan.kept, Ready)))
  {
    hide At;
    var todo, kept := h.scan.todo, h.scan.kept;
    var h' := h.(scan := Scanning(true, todo[1..], kept, Ready));
    forall b ensures Occurs(OrphanList(h'), b) == Once(At(place', b, Orphan)) {
      PoolLists(todo, kept, b);
      assert Occurs(OrphanList(h), b) == Once(At(place, b, Orphan));
    }
  }

  lemma OwnListElsewhere(place: seq<Place>, place': seq<Place>, j: Tid, h: Hazard)
    requires OwnListOk(place, j, h) && forall b :: At(place', b, Retired(j)) == At(place, b, Retired(j))
    ensures OwnListOk(place', j, h)
  {
    hide At;
  }

  lemma OrphanListElsewhere(place: seq<Place>, place': seq<Place>, h: Hazard)
    requires OrphanListOk(place, h) && forall b :: At(place', b, Orphan) == At(place, b, Orphan)
    ensures OrphanListOk(place', h)
  {
    hide At;
  }

  lemma PoolGrows(place: seq<Place>, place': seq<Place>, pool: seq<Address>, a: Address)
    requires forall b {:trigger Occurs(pool, b)} {:trigger At(place, b, Pooled)} ::
               Occurs(pool, b) == Once(At(place, b, Pooled))
    requires forall b :: At(place', b, Pooled) == (b == a || At(place, b, Pooled)) 
    requires !At(place, a, Pooled)
    ensures forall b {:trigger Occurs(pool + [a], b)} {:trigger At(place', b, Pooled)} ::
              Occurs(pool + [a], b) == Once(At(place', b, Pooled))
  {
    hide At;
    forall b ensures Occurs(pool + [a], b) == Once(At(place', b, Pooled)) {
      assert Occurs(pool, b) == Once(At(place, b, Pooled));
    }
  }

  lemma PoolListed(s: System, s': System, i: Tid)
    requires SysInv(s) && i < |s.hz| && s.hz[i].scan.Scanning? && s.hz[i].scan.todo != [] && s.hz[i].scan.walk.Reading?
    requires var sc := s.hz[i].scan;
             s' == s.(hz := s.hz[i := s.hz[i].(scan := Scanning(sc.orphan, sc.todo[1..], sc.kept, Ready))],
                      pool := s.pool + [sc.todo[0]], m := Put(s.m, sc.todo[0], Pooled))
    ensures Listed(s'.m.place, s'.hz, s'.orphans, s'.lock, s'.pool)
  {
    hide Inv, Wired, Placed, Accounted, RecordsOk, Keeps, SlotsOk, WalkOk, At, Put, OwnListOk, OrphanListOk, Occurs;
    var h, place, place' := s.hz[i], s.m.place, s'.m.place;
    var a := h.scan.todo[0];
    WalkedIsListed(s, i, a);
    forall b, p ensures At(place', b, p) == if b == a then p == Pooled else At(place, b, p) {
      PutAt(s.m, a, Pooled, b, p);
    }
    forall p ensures At(place, a, p) == (p == place[a]) { PutAt(s.m, a, Pooled, a, p); }
    PoolGrows(place, place', s.pool, a);
    PoolOwnList(place, place', i, h);
    forall j | 0 <= j < |s.hz| && j != i ensures OwnListOk(place', j, s'.hz[j]) {
      OwnListElsewhere(place, place', j, s.hz[j]);
    }
    if ScansOrphans(h) {
      OrphanScanner(s, i);
      PoolOrphanList(place, place', h);
    } else if s.lock != {} {
      var j :| 0 <= j < |s.hz| && OrphanListOk(place, s.hz[j]);
      OrphanScans(place, s.hz[j]);
      OrphanListElsewhere(place, place', s.hz[j]);
      assert OrphanListOk(place', s'.hz[j]);
    }
  }

  lemma PoolStep(s: System, s': System, i: Tid)
    requires SysInv(s) && i < |s.hz| && s.hz[i].scan.Scanning? && s.hz[i].scan.todo != [] && s.hz[i].scan.walk.Reading?
    requires s.hz[i].scan.walk.rec == 0
    requires var sc := s.hz[i].scan;
             s' == s.(hz := s.hz[i := s.hz[i].(scan := Scanning(sc.orphan, sc.todo[1..], sc.kept, Ready))],
                      pool := s.pool + [sc.todo[0]], m := Put(s.m, sc.todo[0], Pooled))
    ensures SysInv(s') && MemEvolves(s.m, s'.m, i)
  {
    hide Inv, Wired, Placed, Accounted, RecordsOk, Listed, Keeps, WalkOk, MemEvolves, Calm, Spares, OwnAccounted,
         HoldsOn, Put;
    PoolListed(s, s', i);
    var pc, h, a := s.q.threads[i].pc, s.hz[i], s.hz[i].scan.todo[0];
    WalkedIsListed(s, i, a);
    WiredLengths(s.q.g, s.m);
    OwnAccountedFrom(s.m, s.q.threads, i);
    RecordsAreStable(s.records, s.hz, i, s'.hz[i]);
    assert SlotsOk(s.m, pc, h);
    assert SlotsOk(s.m, pc, s'.hz[i]);
    hide SlotsOk;
    PoolMem(s.q.g, s.m, i, a, pc);
    SlotsAreStable(s.m, s'.m, pc, s'.hz[i]);
    NoWalk(s'.m, s'.q.threads, s'.hz, s'.records, s'.hz[i].scan);
    forall b ensures HoldsOn(s'.m, pc, h, pc, s'.hz[i], b) { NothingHeld(s'.m, pc, h, pc, s'.hz[i], b); }
    forall j | 0 <= j < |s.hz| ensures Spares(s.m, s'.m, s.q.threads[j].pc) {
      NobodyHolds(s, i, j);
      PoolSpares(s.m, a, s.q.threads[j].pc);
    }
    Assemble(s, s', i);
  }

  lemma ScanningStep(s: System, i: Tid)
    requires SysInv(s) && i < |s.hz| && s.hz[i].scan.Scanning? && s.hz[i].scan.todo != []
    ensures SysInv(ScanStep(s, i)) && MemEvolves(s.m, ScanStep(s, i).m, i)
  {
    hide SysInv, SlotOf, WalkOk, MemEvolves;
    var s', sc := ScanStep(s, i), s.hz[i].scan;
    Sizes(s);
    OwnWalk(s, i);
    if sc.walk == Ready {
      StartWalk(s, i);
      WalkStep(s, s', i);
    } else {
      var r, k := sc.walk.rec, sc.walk.slot;
      assert r <= |s.records| by { WalkBound(s, i); }
      if r == 0 {
        PoolStep(s, s', i);
      } else if SLOTS_COUNT <= k {
        NextRecord(s, i);
        WalkStep(s, s', i);
      } else if SlotOf(s, s.records[r - 1], k) == Holds(sc.todo[0]) {
        KeepStep(s, s', i);
      } else {
        NextSlot(s, i);
        WalkStep(s, s', i);
      }
    }
  }

  lemma WalkBound(s: System, i: Tid)
    requires SysInv(s) && i < |s.hz| && s.hz[i].scan.Scanning? && s.hz[i].scan.todo != []
    requires s.hz[i].scan.walk.Reading?
    ensures s.hz[i].scan.walk.rec <= |s.records|
  {
    OwnWalk(s, i);
    hide SysInv;
  }

  lemma MemLengths(s: System)
    requires SysInv(s)
    ensures |s.m.cur| == |s.m.place|
  {
  }

  lemma ScanKeepsInv(s: System, i: Tid)
    requires SysInv(s) && i < |s.hz| && Scans(s.hz[i])
    ensures SysInv(ScanStep(s, i)) && MemEvolves(s.m, ScanStep(s, i).m, i)
  {
    hide SysInv, MemEvolves;
    if s.hz[i].scan == WaitLock {
      if s.lock == {} { TakeLockStep(s, i); }
      else { MemLengths(s); CalmItself(s.m, i); }
    } else if s.hz[i].scan.todo != [] {
      ScanningStep(s, i);
    } else if s.hz[i].scan.orphan {
      FinishOrphanStep(s, i);
    } else {
      FinishOwnStep(s, i);
    }
  }
}
