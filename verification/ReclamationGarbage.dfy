/**
 How much garbage a thread can be left with while slots move during its scans.  A node survives a scan only if some
 thread announces it; and a thread can come to announce a retired node during a scan only if it had a pointer to it
 when the scan began.  There are at most two such pointers per announcement record.
 */
module ReclamationGarbage {
  import opened Counting
  import opened MichaelScott
  import opened MichaelScottInvariant
  import opened Reclamation
  import opened ReclamationInvariant
  import opened ReclamationProof
  import opened ReclamationSteps
  import opened ReclamationSystem
  import T = ReclamationTheorems

  // ---- The two nodes that a thread announces or may come to announce ----

  function FirstValue(m: Mem, pc: Pc, h: Hazard): Slot
    requires |h.slots| == SLOTS_COUNT
  {
    if h.slots[0] != Free then h.slots[0]
    else if pc.PushProtect? then Holds(AddressOf(m, pc.t))
    else if pc.PopProtect? then Holds(AddressOf(m, pc.h))
    else Free
  }

  function SecondValue(g: Store, m: Mem, pc: Pc, h: Hazard): Slot
    requires |h.slots| == SLOTS_COUNT
  {
    if h.slots[1] != Free then h.slots[1]
    else if pc.PopProtectNext? then Holds(AddressOf(m, pc.x))
    else if pc.PopLoadNext? && pc.h < |g.next| && g.next[pc.h].To? then Holds(AddressOf(m, g.next[pc.h].node))
    else Free
  }

  /** What is announced, or may come to be, at `a` after a step was so before. */
  ghost predicate NoNewer(g: Store, m: Mem, pc: Pc, h: Hazard, g': Store, m': Mem, pc': Pc, h': Hazard, a: Address) {
    && |h.slots| == SLOTS_COUNT == |h'.slots|
    && (FirstValue(m', pc', h') == Holds(a) ==> FirstValue(m, pc, h) == Holds(a))
    && (SecondValue(g', m', pc', h') == Holds(a) ==> SecondValue(g, m, pc, h) == Holds(a))
  }

  predicate IsRetired(m: Mem, a: Address) {
    a < |m.place| && m.place[a].Retired?
  }

  /** Announcing a pointer. */
  lemma ProtectValues(g: Store, m: Mem, i: Tid, th: Thread, h: Hazard, a: Address)
    requires SlotsOk(m, th.pc, h) && Protects(th.pc)
    ensures var (g', th') := ThreadStep(Ideal, g, i, th); NoNewer(g, m, th.pc, h, g', m, th'.pc,
        SlotEffect(m, th.pc, h), a)
  {
    FreeSlot(m, th.pc, h);
    hide FirstFree, UsesFirst, UsesSecond, FirstAnnounced, SecondAnnounced, AddressOf;
  }

  /** Withdrawing one. */
  lemma DropValues(g: Store, m: Mem, i: Tid, th: Thread, h: Hazard, a: Address)
    requires SlotsOk(m, th.pc, h) && (DropsFirst(th.pc) || DropsSecond(th.pc))
    ensures var (g', th') := ThreadStep(Ideal, g, i, th); NoNewer(g, m, th.pc, h, g', m, th'.pc,
        SlotEffect(m, th.pc, h), a)
  {
    assert DropsFirst(th.pc) ==> h.first == 0;
    assert DropsSecond(th.pc) ==> h.second == 1;
    assert |h.slots| == SLOTS_COUNT;
    hide SlotsOk, AddressOf, Protect;
    AfterDrop(g, i, th);
    hide ThreadStep;
  }

  lemma AfterDrop(g: Store, i: Tid, th: Thread)
    requires DropsFirst(th.pc) || DropsSecond(th.pc)
    ensures var pc' := ThreadStep(Ideal, g, i, th).1.pc; !Protects(pc') && !pc'.PopLoadNext?
  {
  }

  /** Reading head, tail or the successor of head gives a node that is not retired. */
  lemma LoadValues(g: Store, m: Mem, i: Tid, th: Thread, h: Hazard, a: Address)
    requires Chain(g) && Wired(g, m) && Placed(g, m) && ThreadOk(g, i, th) && |h.slots| == SLOTS_COUNT
    requires IsRetired(m, a)
    requires th.pc.PushLoadTail? || th.pc.PopLoadHead? || th.pc.PopRecheck?
    ensures var (g', th') := ThreadStep(Ideal, g, i, th); NoNewer(g, m, th.pc, h, g', m, th'.pc, h, a)
  {
    EndsAreCurrent(g, m);
    SuccessorIsLinked(g, m);
    hide Chain, Wired, Placed, ThreadOk;
  }

  lemma SuccessorIsLinked(g: Store, m: Mem)
    requires Chain(g) && Placed(g, m)
    ensures g.head < |g.next|
    ensures (g.next[g.head].To? ==> Current(m, g.next[g.head].node) && m.place[m.addr[g.next[g.head].node]] == Linked)
  {
    Ends(g);
    NextOf(g, g.head);
  }

  lemma OtherValues(g: Store, m: Mem, i: Tid, th: Thread, h: Hazard, a: Address)
    requires |h.slots| == SLOTS_COUNT && ThreadOk(g, i, th) && Chain(g)
    requires !Protects(th.pc) && !DropsFirst(th.pc) && !DropsSecond(th.pc) && !th.pc.PushLoadTail?
    requires !th.pc.PopLoadHead? && !th.pc.PopRecheck?
    ensures var (g', th') := ThreadStep(Ideal, g, i, th); NoNewer(g, m, th.pc, h, g', m, th'.pc, h, a)
  {
    hide Chain, AddressOf;
    if th.pc.PopLoadNext? { NextOf(g, th.pc.h); }
    PendingPcs(g, i, th);
    if !th.pc.PopLoadNext? { hide ThreadStep, ThreadOk; }
  }

  lemma PendingPcs(g: Store, i: Tid, th: Thread)
    requires !Protects(th.pc) && !DropsFirst(th.pc) && !DropsSecond(th.pc) && !th.pc.PushLoadTail?
    requires !th.pc.PopLoadHead? && !th.pc.PopRecheck?
    ensures var pc' := ThreadStep(Ideal, g, i, th).1.pc;
            && !pc'.PushProtect? && !pc'.PopProtect? && (pc'.PopProtectNext? ==> th.pc.PopLoadNext?)
            && (pc'.PopLoadNext? ==> pc' == th.pc)
  {
  }

  /** A plain step of thread `i`. */
  lemma PlainValues(g: Store, m: Mem, i: Tid, th: Thread, h: Hazard, a: Address)
    requires Chain(g) && Wired(g, m) && Placed(g, m) && ThreadOk(g, i, th) && SlotsOk(m, th.pc, h) && IsRetired(m, a)
    ensures var (g', th') := ThreadStep(Ideal, g, i, th); NoNewer(g, m, th.pc, h, g', m, th'.pc,
        SlotEffect(m, th.pc, h), a)
  {
    assert |h.slots| == SLOTS_COUNT;
    hide Chain, Wired, Placed, ThreadOk, SlotsOk, ThreadStep, NoNewer;
    if Protects(th.pc) { ProtectValues(g, m, i, th, h, a); }
    else if DropsFirst(th.pc) || DropsSecond(th.pc) { DropValues(g, m, i, th, h, a); }
    else if th.pc.PushLoadTail? || th.pc.PopLoadHead? || th.pc.PopRecheck? { LoadValues(g, m, i, th, h, a); }
    else { OtherValues(g, m, i, th, h, a); }
  }

  /** Pointers stay where they are. */
  lemma SameAddress(g: Store, m: Mem, m': Mem, n: Node)
    requires Chain(g) && Wired(g, m) && m.addr <= m'.addr && n in g.rank
    ensures AddressOf(m', n) == AddressOf(m, n)
  {
  }

  /** A successor that is retired was there before the step. */
  lemma LaterNext(g: Store, g': Store, i: Tid, x: Node, m': Mem, a: Address)
    requires Chain(g) && Chain(g') && Evolves(g, g', i) && g'.popped <= g.popped + 1
    requires WasHead(g, x) && Placed(g', m') && IsRetired(m', a) && x < |g'.next|
    requires g'.next[x].To? && AddressOf(m', g'.next[x].node) == a
    ensures x < |g.next| && g.next[x] == g'.next[x] && g.next[x].node in g.rank
  {
    NextOf(g, x);
    NextOf(g', x);
    Grown(g, g', i, x);
    var n := g'.next[x].node;
    if g.next[x] == Null {
      Ends(g);
      NotRetired(g', m', n);
    } else {
      SameNext(g, g', i, x);
    }
    hide Chain, Evolves, Placed;
  }

  lemma Grown(g: Store, g': Store, i: Tid, x: Node)
    requires Evolves(g, g', i) && x in g.rank
    ensures x in g'.rank && g'.rank[x] == g.rank[x]
  {
  }

  lemma NotRetired(g: Store, m: Mem, n: Node)
    requires Placed(g, m) && n in g.rank && g.popped <= g.rank[n]
    ensures !IsRetired(m, AddressOf(m, n))
  {
    assert Current(m, n) && m.place[m.addr[n]] == Linked;
  }

  lemma SameNext(g: Store, g': Store, i: Tid, x: Node)
    requires Chain(g) && Chain(g') && Evolves(g, g', i) && x in g.rank && g.next[x].To?
    ensures x in g'.rank && g'.next[x] == g.next[x] && g.next[x].node in g.rank
  {
    assert g.order[g.rank[x] + 1] == g'.order[g.rank[x] + 1];
  }

  /** A step of another thread, seen by one that is about to read the successor of head. */
  lemma ReaderValues(g: Store, m: Mem, g': Store, m': Mem, i: Tid, pc: Pc, h: Hazard, a: Address)
    requires Chain(g) && Chain(g') && Evolves(g, g', i) && g'.popped <= g.popped + 1
    requires Wired(g, m) && Placed(g', m') && m.addr <= m'.addr
    requires pc.PopLoadNext? && WasHead(g, pc.h) && |h.slots| == SLOTS_COUNT && IsRetired(m', a)
    ensures NoNewer(g, m, pc, h, g', m', pc, h, a)
  {
    hide Chain, Evolves, Placed, Wired, AddressOf, IsRetired;
    var x := pc.h;
    if x < |g'.next| && g'.next[x].To? && AddressOf(m', g'.next[x].node) == a {
      LaterNext(g, g', i, x, m', a);
      SameAddress(g, m, m', g.next[x].node);
    }
  }

  /** A step of another thread. */
  lemma BystanderValues(g: Store, m: Mem, g': Store, m': Mem, i: Tid, j: Tid, pc: Pc, h: Hazard, a: Address)
    requires Chain(g) && Chain(g') && Evolves(g, g', i) && g'.popped <= g.popped + 1
    requires Wired(g, m) && Placed(g', m') && m.addr <= m'.addr
    requires Knows(g, j, pc) && |h.slots| == SLOTS_COUNT && IsRetired(m', a)
    ensures NoNewer(g, m, pc, h, g', m', pc, h, a)
  {
    hide Chain, Evolves, Placed, Wired, AddressOf, IsRetired, WasHead, WasTail, Private, Claimed;
    if pc.PopLoadNext? {
      ReaderValues(g, m, g', m', i, pc, h, a);
    } else if Protects(pc) {
      ProtectedNode(g, j, pc);
      SameAddress(g, m, m', if pc.PushProtect? then pc.t else if pc.PopProtect? then pc.h else pc.x);
      hide Knows;
    } else {
      hide Knows;
    }
  }

  lemma ProtectedNode(g: Store, j: Tid, pc: Pc)
    requires Knows(g, j, pc) && Protects(pc)
    ensures (if pc.PushProtect? then pc.t else if pc.PopProtect? then pc.h else pc.x) in g.rank
  {
  }

  // ---- Counting them ----

  function Hit(v: Slot, list: seq<Address>): nat {
    if v.Holds? && v.a in list then 1 else 0
  }

  /** How many of the two nodes of thread `j` are on the list. */
  function Stale(s: System, j: Tid, list: seq<Address>): nat {
    if j < |s.hz| && j < |s.q.threads| && |s.hz[j].slots| == SLOTS_COUNT
    then Hit(FirstValue(s.m, s.q.threads[j].pc, s.hz[j]),
        list) + Hit(SecondValue(s.q.g, s.m, s.q.threads[j].pc, s.hz[j]), list)
    else 0
  }

  /** The same for the threads of the `n` oldest records together. */
  function AllStale(s: System, list: seq<Address>, n: nat): nat
    requires n <= |s.records|
  {
    if n == 0 then 0 else AllStale(s, list, n - 1) + Stale(s, s.records[n - 1], list)
  }

  lemma {:induction false} AtMostTwoEach(s: System, list: seq<Address>, n: nat)
    requires n <= |s.records|
    ensures AllStale(s, list, n) <= 2 * n
  {
    if n > 0 { AtMostTwoEach(s, list, n - 1); }
  }

  lemma {:induction false} FewerStale(s: System, list: seq<Address>, s': System, list': seq<Address>, n: nat)
    requires n <= |s.records| && s.records <= s'.records && forall j: Tid :: Stale(s', j, list') <= Stale(s, j, list)
    ensures AllStale(s', list', n) <= AllStale(s, list, n)
  {
    hide Stale;
    if n > 0 { FewerStale(s, list, s', list', n - 1); }
  }

  /** One thread of the first `n` records loses one. */
  lemma {:induction false} OneFewerStale(s: System, list: seq<Address>, list': seq<Address>, r: nat, n: nat)
    requires r < n <= |s.records| && (forall j: Tid :: Stale(s, j, list') <= Stale(s, j, list))
    requires Stale(s, s.records[r], list') < Stale(s, s.records[r], list)
    ensures AllStale(s, list', n) < AllStale(s, list, n)
  {
    hide Stale;
    if r < n - 1 { OneFewerStale(s, list, list', r, n - 1); } else { FewerStale(s, list, s, list', n - 1); }
  }

  // ---- The invariant ----

  /** A list is within the bound; a scan in progress has kept no more than will be left of it. */
  ghost predicate Tidy(s: System, h: Hazard) {
    if ScansOwn(h) then |h.scan.kept| + AllStale(s, h.scan.todo, |s.records|) <= 2 * |s.records|
    else |h.retired| <= Max(s.limit, 2 * |s.records|)
  }

  ghost predicate AllTidy(s: System) {
    forall i :: 0 <= i < |s.hz| ==> Tidy(s, s.hz[i])
  }

  // ---- No move makes a retired node newly known ----

  ghost predicate KnowsNoMore(s: System, s': System, j: Tid, a: Address)
    requires |s.hz| == |s.q.threads| == |s'.hz| == |s'.q.threads| && j < |s.hz|
  {
    NoNewer(s.q.g, s.m, s.q.threads[j].pc, s.hz[j], s'.q.g, s'.m, s'.q.threads[j].pc, s'.hz[j], a)
  }

  lemma PopsAtMostOne(g: Store, i: Tid, th: Thread)
    ensures ThreadStep(Ideal, g, i, th).0.popped <= g.popped + 1
  {
  }

  lemma ByAddress(g: Store, m: Mem, pc: Pc, h: Hazard, g': Store, m1: Mem, m2: Mem, pc': Pc, h': Hazard, a: Address)
    requires NoNewer(g, m, pc, h, g', m1, pc', h', a) && m2.addr == m1.addr
    ensures NoNewer(g, m, pc, h, g', m2, pc', h', a)
  {
    SameAddresses(m1, m2, g', pc', h');
    hide FirstValue, SecondValue;
  }

  lemma SameAddresses(m1: Mem, m2: Mem, g: Store, pc: Pc, h: Hazard)
    requires m2.addr == m1.addr && |h.slots| == SLOTS_COUNT
    ensures FirstValue(m2, pc, h) == FirstValue(m1, pc, h) && SecondValue(g, m2, pc, h) == SecondValue(g, m1, pc, h)
  {
  }

  lemma Rebound(g: Store, m: Mem, th: Thread, h: Hazard, g': Store, m': Mem, pc': Pc, h': Hazard, a: Address)
    requires NoNewer(g, m, Rebind(Memory2(m), g, th).pc, h, g', m', pc', h', a)
    ensures NoNewer(g, m, th.pc, h, g', m', pc', h', a)
  {
  }

  lemma SlotCount(s: System, j: Tid)
    requires SysInv(s) && j < |s.hz|
    ensures |s.hz[j].slots| == SLOTS_COUNT && |s.hz| == |s.q.threads|
    ensures Knows(s.q.g, j, s.q.threads[j].pc) && Chain(s.q.g) && Wired(s.q.g, s.m) && Placed(s.q.g, s.m)
    ensures SlotsOk(s.m, s.q.threads[j].pc, s.hz[j])
  {
    hide Chain, Wired, Placed, Accounted, RecordsOk, Listed, Keeps, WalkOk, Knows;
    assert SlotsOk(s.m, s.q.threads[j].pc, s.hz[j]);
    assert ThreadOk(s.q.g, j, s.q.threads[j]);
  }

  lemma PlainMoverValues(s: System, i: Tid, a: Address)
    requires SysInv(s) && i < |s.hz| && IsPlain(s, i) && IsRetired(s.m, a)
    ensures var s' := SystemStep(s, i);
            |s'.hz| == |s'.q.threads| == |s.hz| == |s.q.threads| && KnowsNoMore(s, s', i, a)
  {
    hide SysInv, SystemStep, Chain, Wired, Placed, ThreadOk, Knows, ThreadStep, Rebind, PlaceEffect, SlotEffect,
         NoNewer, SlotsOk, Evolves, Inv;
    PlainIs(s, i);
    SlotCount(s, i);
    QueueStepKeepsInv(s, i);
    EndsAreCurrent(s.q.g, s.m);
    var th0, h := s.q.threads[i], s.hz[i];
    var th := Rebind(Memory2(s.m), s.q.g, th0);
    RebindSlots(s.q.g, s.m, i, th0, h);
    PlainValues(s.q.g, s.m, i, th, h, a);
    RebindKeeps(s.q.g, s.m, i, th0);
    var s' := SystemStep(s, i);
    Rebound(s.q.g, s.m, th0, h, s'.q.g, s.m, s'.q.threads[i].pc, s'.hz[i], a);
    PlacesOnly(s.q.g, s.m, i, th0.pc);
    ByAddress(s.q.g, s.m, th0.pc, h, s'.q.g, s.m, s'.m, s'.q.threads[i].pc, s'.hz[i], a);
  }

  lemma PlacesOnly(g: Store, m: Mem, i: Tid, pc: Pc)
    ensures PlaceEffect(g, m, i, pc).addr == m.addr
  {
  }

  /** A step that leaves the list and the thread's own slots alone. */
  lemma SameValues(s: System, s': System, j: Tid, a: Address)
    requires |s.hz| == |s.q.threads| == |s'.hz| == |s'.q.threads| && j < |s.hz| && |s.hz[j].slots| == SLOTS_COUNT
    requires s'.hz[j].slots == s.hz[j].slots
    requires var pc, pc' := s.q.threads[j].pc, s'.q.threads[j].pc;
             || (pc' == pc && s'.q.g.next == s.q.g.next && s'.m.addr == s.m.addr)
             || (!Protects(pc') && !pc'.PopLoadNext?)
    ensures KnowsNoMore(s, s', j, a)
  {
  }

  /** How one step of thread `i` looks to another. */
  lemma BystanderSees(s: System, i: Tid, j: Tid, a: Address)
    requires SysInv(s) && i < |s.hz| && j < |s.hz| && i != j && RespectsH(s, Act(Run(i)))
    requires IsRetired(SystemStep(s, i).m, a)
    requires !Scans(s.hz[i])
    ensures var s' := SystemStep(s, i);
            |s'.hz| == |s'.q.threads| == |s.hz| == |s.q.threads| && KnowsNoMore(s, s', j, a)
  {
    hide SysInv, SystemStep, Chain, Wired, Placed, Knows, ThreadStep, Rebind, NoNewer, SlotsOk, Evolves, Inv, IsRetired,
         MemEvolves, RespectsH;
    SlotCount(s, j);
    var s' := SystemStep(s, i);
    T.RunKeeps(s, i);
    StepShape(s, i, j);
    SlotCount(s', j);
    AddrGrows(s.m, s'.m, i);
    BystanderValues(s.q.g, s.m, s'.q.g, s'.m, i, j, s.q.threads[j].pc, s.hz[j], a);
  }

  lemma StepShape(s: System, i: Tid, j: Tid)
    requires SysInv(s) && i < |s.hz| && j < |s.hz| && i != j && !Scans(s.hz[i])
    ensures var s' := SystemStep(s, i);
            && |s'.hz| == |s'.q.threads| == |s.hz| == |s.q.threads|
            && s'.q.threads[j] == s.q.threads[j] && s'.hz[j] == s.hz[j]
            && Evolves(s.q.g, s'.q.g, i) && s'.q.g.popped <= s.q.g.popped + 1
  {
    hide SysInv, Chain, ThreadStep, Rebind, Evolves, Inv, PlaceEffect, SlotEffect, Retire, Put, FirstFree;
    Sizes(s);
    QueueStepKeepsInv(s, i);
    SameEvolves(s.q.g, i);
    PopsAtMostOne(s.q.g, i, Rebind(Memory2(s.m), s.q.g, s.q.threads[i]));
  }

  lemma SameEvolves(g: Store, i: Tid)
    ensures Evolves(g, g, i)
  {
  }

  lemma MoverValues(s: System, i: Tid, a: Address)
    requires SysInv(s) && i < |s.hz| && !Scans(s.hz[i]) && IsRetired(s.m, a)
    ensures var s' := SystemStep(s, i);
            |s'.hz| == |s'.q.threads| == |s.hz| == |s.q.threads| && KnowsNoMore(s, s', i, a)
  {
    hide SysInv, NoNewer, SlotsOk, IsRetired, Chain, Wired, Placed, Knows, QueueStep, PlaceEffect, SlotEffect,
         FirstFree;
    SlotCount(s, i);
    var s', pc := SystemStep(s, i), s.q.threads[i].pc;
    if IsPlain(s, i) {
      PlainMoverValues(s, i, a);
    } else if pc.PushAlloc? {
      AllocIs(s, i);
      AllocQueue(s, i);
      hide SystemStep;
      SameValues(s, s', i, a);
    } else if pc.PopRetire? {
      RetireIs(s, i);
      hide SystemStep;
      SameValues(s, s', i, a);
    } else {
      assert s' == s.(records := s.records + [i], hz := s.hz[i := s.hz[i].(published := true, pos := |s.records|)]);
      hide SystemStep;
      SameValues(s, s', i, a);
    }
  }

  lemma ScanShape(s: System, i: Tid, j: Tid)
    requires |s.hz| == |s.q.threads| && i < |s.hz| && j < |s.hz| && Scans(s.hz[i])
    ensures var s' := SystemStep(s, i);
            && s' == ScanStep(s, i) && s'.q == s.q && s'.m.addr == s.m.addr && |s'.hz| == |s.hz|
            && s'.hz[j].slots == s.hz[j].slots
  {
    assert SystemStep(s, i) == ScanStep(s, i);
    hide SystemStep, SlotOf;
  }

  lemma ScanValues(s: System, i: Tid, j: Tid, a: Address)
    requires SysInv(s) && i < |s.hz| && j < |s.hz| && Scans(s.hz[i])
    ensures var s' := SystemStep(s, i);
            |s'.hz| == |s'.q.threads| == |s.hz| == |s.q.threads| && KnowsNoMore(s, s', j, a) && s'.q == s.q
  {
    hide SysInv, NoNewer, SystemStep, ScanStep;
    SlotsAt(s, j);
    ScanShape(s, i, j);
    SameValues(s, SystemStep(s, i), j, a);
  }

  lemma OutsideShape(s: System, mv: Move, j: Tid)
    requires Allowed(s, mv) && j < |s.hz| && !(mv.Act? && mv.a.Run?)
    ensures var s' := Next(s, mv);
            && |s'.hz| == |s'.q.threads| == |s.hz| == |s.q.threads| && s'.hz[j].slots == s.hz[j].slots
            && s'.q.g.next == s.q.g.next && s'.m.addr == s.m.addr
            && (s'.q.threads[j].pc == s.q.threads[j].pc || (!Protects(s'.q.threads[j].pc)
                 && !s'.q.threads[j].pc.PopLoadNext?))
  {
    hide Orphaned, Drained;
  }

  /** The same for whatever else can happen. */
  lemma OutsideValues(s: System, mv: Move, j: Tid, a: Address)
    requires SysInv(s) && Allowed(s, mv) && j < |s.hz| && !(mv.Act? && mv.a.Run?)
    ensures var s' := Next(s, mv);
            |s'.hz| == |s'.q.threads| == |s.hz| == |s.q.threads| && KnowsNoMore(s, s', j, a)
  {
    hide SysInv, NoNewer, Next, Allowed, Protects;
    SlotsAt(s, j);
    OutsideShape(s, mv, j);
    SameValues(s, Next(s, mv), j, a);
  }

  /** A retired node that a thread may announce after a move it might have announced before. */
  lemma MoveValues(s: System, mv: Move, j: Tid, a: Address)
    requires SysInv(s) && Allowed(s, mv) && RespectsH(s, mv) && j < |s.hz| && IsRetired(s.m, a)
    requires IsRetired(Next(s, mv).m, a)
    ensures var s' := Next(s, mv);
            |s'.hz| == |s'.q.threads| == |s.hz| == |s.q.threads| && KnowsNoMore(s, s', j, a)
  {
    hide SysInv, NoNewer, IsRetired, RespectsH, SystemStep;
    if mv.Act? && mv.a.Run? {
      var i := mv.a.i;
      if Scans(s.hz[i]) { ScanValues(s, i, j, a); }
      else if i == j { MoverValues(s, i, a); }
      else { BystanderSees(s, i, j, a); }
    } else {
      OutsideValues(s, mv, j, a);
    }
  }

  // ---- Every move keeps every list tidy ----

  /** What is on a list that is being scanned is retired. */
  lemma ListedIsRetired(s: System, i: Tid, a: Address)
    requires SysInv(s) && i < |s.hz| && ScansOwn(s.hz[i]) && a in s.hz[i].scan.todo
    ensures IsRetired(s.m, a)
  {
    hide Inv, Wired, Placed, Accounted, RecordsOk, Keeps, SlotsOk, WalkOk;
    var h := s.hz[i];
    assert OwnListOk(s.m.place, i, h);
    assert OwnList(h) == h.scan.todo + h.scan.kept;
    assert a in multiset(h.scan.todo + h.scan.kept);
    assert Occurs(OwnList(h), a) == Once(At(s.m.place, a, Retired(i)));
  }

  lemma StaleShrinks(s: System, s': System, j: Tid, list: seq<Address>, list': seq<Address>)
    requires |s.hz| == |s.q.threads| == |s'.hz| == |s'.q.threads| && j < |s.hz|
    requires forall a :: a in list' ==> a in list
    requires forall a :: a in list' ==> KnowsNoMore(s, s', j, a)
    requires |s.hz[j].slots| == SLOTS_COUNT == |s'.hz[j].slots|
    ensures Stale(s', j, list') <= Stale(s, j, list)
  {
    hide FirstValue, SecondValue;
  }

  /** A scan in progress of a thread whose list shrinks at most: the others know no more of it. */
  lemma ScanStaysTidy(s: System, mv: Move, i: Tid)
    requires SysInv(s) && Allowed(s, mv) && RespectsH(s, mv) && i < |s.hz| && |Next(s, mv).hz| == |s.hz|
    requires ScansOwn(s.hz[i]) && ScansOwn(Next(s, mv).hz[i])
    requires forall a :: a in Next(s, mv).hz[i].scan.todo ==> a in s.hz[i].scan.todo
    ensures forall j: Tid :: Stale(Next(s, mv), j, Next(s, mv).hz[i].scan.todo) <= Stale(s, j, s.hz[i].scan.todo)
  {
    var s' := Next(s, mv);
    T.MoveKeeps(s, mv);
    hide SysInv, KnowsNoMore, IsRetired, Stale, Next, Allowed, RespectsH;
    forall j: Tid ensures Stale(s', j, s'.hz[i].scan.todo) <= Stale(s, j, s.hz[i].scan.todo) {
      if j < |s.hz| {
        SlotsAt(s, j);
        SlotsAt(s', j);
        forall a | a in s'.hz[i].scan.todo ensures KnowsNoMore(s, s', j, a) {
          ListedIsRetired(s, i, a);
          ListedIsRetired(s', i, a);
          MoveValues(s, mv, j, a);
        }
        StaleShrinks(s, s', j, s.hz[i].scan.todo, s'.hz[i].scan.todo);
      } else {
        NobodyThere(s', j, s'.hz[i].scan.todo);
      }
    }
  }

  lemma SlotsAt(s: System, j: Tid)
    requires SysInv(s) && j < |s.hz|
    ensures |s.hz[j].slots| == SLOTS_COUNT && |s.hz| == |s.q.threads|
  {
    SlotCount(s, j);
  }

  lemma NobodyThere(s: System, j: Tid, list: seq<Address>)
    requires |s.hz| <= j
    ensures Stale(s, j, list) == 0
  {
  }

  lemma {:induction false} MoreRecords(s: System, list: seq<Address>, n: nat, n': nat)
    requires n <= n' <= |s.records|
    ensures AllStale(s, list, n') <= AllStale(s, list, n) + 2 * (n' - n)
    decreases n'
  {
    if n < n' { MoreRecords(s, list, n, n' - 1); }
  }

  /** Nothing was retired, and a scan in progress has kept nothing more. */
  lemma NothingKept(s: System, mv: Move, i: Tid)
    requires SysInv(s) && Allowed(s, mv) && RespectsH(s, mv) && i < |s.hz| && Tidy(s, s.hz[i])
    requires var s' := Next(s, mv);
             && |s'.hz| == |s.hz| && s.records <= s'.records && s'.limit == s.limit
             && ScansOwn(s'.hz[i]) == ScansOwn(s.hz[i])
             && (if ScansOwn(s.hz[i]) then s'.hz[i].scan.kept == s.hz[i].scan.kept
                  && forall a :: a in s'.hz[i].scan.todo ==> a in s.hz[i].scan.todo
                 else |s'.hz[i].retired| <= |s.hz[i].retired|)
    ensures Tidy(Next(s, mv), Next(s, mv).hz[i])
  {
    var s' := Next(s, mv);
    if ScansOwn(s.hz[i]) {
      ScanStaysTidy(s, mv, i);
      hide SysInv, Next, Allowed, RespectsH, Stale;
      FewerStale(s, s.hz[i].scan.todo, s', s'.hz[i].scan.todo, |s.records|);
      MoreRecords(s', s'.hz[i].scan.todo, |s.records|, |s'.records|);
    } else {
      hide SysInv, Next, Allowed, RespectsH;
    }
  }

  /** How a step of thread `i` changes what the others retire or scan: not at all. */
  lemma OthersUntouched(s: System, i: Tid, j: Tid)
    requires |s.hz| == |s.q.threads| && i < |s.hz| && j < |s.hz| && j != i
    ensures var s' := SystemStep(s, i);
            |s'.hz| == |s.hz| && s'.hz[j] == s.hz[j] && s.records <= s'.records && s'.limit == s.limit
  {
    hide Retire, SlotEffect, PlaceEffect, QueueStep, FirstFree, SlotOf, Put;
  }

  /** A thread that neither retires nor scans. */
  lemma OwnUntouched(s: System, i: Tid)
    requires |s.hz| == |s.q.threads| && i < |s.hz| && !Scans(s.hz[i]) && !s.q.threads[i].pc.PopRetire?
    ensures var s' := SystemStep(s, i);
            && |s'.hz| == |s.hz| && s'.hz[i].retired == s.hz[i].retired && s'.hz[i].scan == s.hz[i].scan
            && s.records <= s'.records && s'.limit == s.limit
  {
    SlotEffectKeeps(s.m, s.q.threads[i].pc, s.hz[i]);
    hide SlotEffect, PlaceEffect, QueueStep, FirstFree;
  }

  lemma RetireTidies(s: System, i: Tid)
    requires SysInv(s) && i < |s.hz| && s.q.threads[i].pc.PopRetire? && !Scans(s.hz[i])
    ensures var s' := SystemStep(s, i); |s'.hz| == |s.hz| && Tidy(s', s'.hz[i])
  {
    hide SysInv, QueueStep, Put, AddressOf;
    Sizes(s);
    RetireIs(s, i);
    var s' := SystemStep(s, i);
    hide SystemStep;
    if ScansOwn(s'.hz[i]) { AtMostTwoEach(s', s'.hz[i].scan.todo, |s'.records|); }
  }

  /** A node that was seen in a slot is one that its thread had a pointer to. */
  lemma SeenIsStale(s: System, i: Tid, j: Tid, k: nat)
    requires SysInv(s) && i < |s.hz| && ScansOwn(s.hz[i]) && s.hz[i].scan.todo != []
    requires k < SLOTS_COUNT && SlotOf(s, j, k) == Holds(s.hz[i].scan.todo[0])
    ensures Stale(s, j, s.hz[i].scan.todo[1..]) < Stale(s, j, s.hz[i].scan.todo)
  {
    var todo := s.hz[i].scan.todo;
    OnceOnly(s, i);
    SlotCount(s, j);
    assert k == 0 || k == 1 by { assert SlotsOk(s.m, s.q.threads[j].pc, s.hz[j]); }
    hide SysInv, SlotsOk, Chain, Wired, Placed, Knows;
    assert todo[0] in todo;
    forall a | a in todo[1..] ensures a in todo { }
  }

  lemma OnceOnly(s: System, i: Tid)
    requires SysInv(s) && i < |s.hz| && ScansOwn(s.hz[i]) && s.hz[i].scan.todo != []
    ensures s.hz[i].scan.todo[0] !in s.hz[i].scan.todo[1..]
  {
    hide Inv, Wired, Placed, Accounted, RecordsOk, Keeps, SlotsOk, WalkOk;
    var h := s.hz[i];
    var todo, kept := h.scan.todo, h.scan.kept;
    assert OwnListOk(s.m.place, i, h);
    assert OwnList(h) == todo + kept;
    assert Occurs(OwnList(h), todo[0]) == Once(At(s.m.place, todo[0], Retired(i)));
    PoolLists(todo, kept, todo[0]);
  }

  lemma ShorterList(s: System, list: seq<Address>, list': seq<Address>, j: Tid)
    requires forall a :: a in list' ==> a in list
    ensures Stale(s, j, list') <= Stale(s, j, list)
  {
    hide FirstValue, SecondValue;
  }

  /** The node that the scan examines has been seen, and is kept. */
  lemma KeepTidies(s: System, s': System, i: Tid, r: nat, k: nat)
    requires SysInv(s) && i < |s.hz| && ScansOwn(s.hz[i]) && s.hz[i].scan.todo != [] && Tidy(s, s.hz[i])
    requires r < |s.records| && k < SLOTS_COUNT && SlotOf(s, s.records[r], k) == Holds(s.hz[i].scan.todo[0])
    requires var sc := s.hz[i].scan; s' == s.(hz := s.hz[i := s.hz[i].(scan := Scanning(false, sc.todo[1..],
        sc.kept + [sc.todo[0]], Ready))])
    ensures Tidy(s', s'.hz[i])
  {
    hide SysInv, SlotOf, Stale;
    var todo := s.hz[i].scan.todo;
    SeenIsStale(s, i, s.records[r], k);
    forall j: Tid ensures Stale(s, j, todo[1..]) <= Stale(s, j, todo) { ShorterList(s, todo, todo[1..], j); }
    OneFewerStale(s, todo, todo[1..], r, |s.records|);
    forall j: Tid ensures Stale(s', j, todo[1..]) <= Stale(s, j, todo[1..]) { OnlyScanChanged(s, s', i, j, todo[1..]); }
    FewerStale(s, todo[1..], s', todo[1..], |s.records|);
  }

  lemma OnlyScanChanged(s: System, s': System, i: Tid, j: Tid, list: seq<Address>)
    requires i < |s.hz| == |s'.hz| && s' == s.(hz := s.hz[i := s.hz[i].(scan := s'.hz[i].scan)])
    ensures Stale(s', j, list) == Stale(s, j, list)
  {
  }

  /** A step of a scan. */
  lemma ScanTidies(s: System, i: Tid)
    requires SysInv(s) && Allowed(s, Act(Run(i))) && i < |s.hz| && Scans(s.hz[i]) && Tidy(s, s.hz[i])
    ensures var s' := Next(s, Act(Run(i))); |s'.hz| == |s.hz| && Tidy(s', s'.hz[i])
  {
    hide SysInv, SlotOf, AllStale;
    Sizes(s);
    var s', sc := ScanStep(s, i), s.hz[i].scan;
    assert Next(s, Act(Run(i))) == s';
    ScanningPc(s, i);
    if !ScansOwn(s.hz[i]) || (sc.todo != [] && !Sees(s, sc)) {
      NothingKept(s, Act(Run(i)), i);
    } else if sc.todo != [] {
      WalkBound(s, i);
      KeepTidies(s, s', i, sc.walk.rec - 1, sc.walk.slot);
    }
  }

  /** The walk is at a slot that announces the examined node. */
  predicate Sees(s: System, sc: Scan) {
    && sc.Scanning? && sc.todo != [] && sc.walk.Reading? && 0 < sc.walk.rec <= |s.records| && sc.walk.slot < SLOTS_COUNT
    && SlotOf(s, s.records[sc.walk.rec - 1], sc.walk.slot) == Holds(sc.todo[0])
  }

  lemma ScanningPc(s: System, i: Tid)
    requires SysInv(s) && i < |s.hz| && Scans(s.hz[i])
    ensures |s.hz| == |s.q.threads| && s.q.threads[i].pc.PopScan? && RespectsH(s, Act(Run(i)))
  {
    SlotCount(s, i);
    hide SysInv, Chain, Wired, Placed, Knows;
  }

  lemma RunTidies(s: System, i: Tid, j: Tid)
    requires SysInv(s) && Allowed(s, Act(Run(i))) && RespectsH(s, Act(Run(i))) && j < |s.hz| && Tidy(s, s.hz[j])
    ensures var s' := Next(s, Act(Run(i))); |s'.hz| == |s.hz| && Tidy(s', s'.hz[j])
  {
    hide SysInv, RespectsH, Tidy, SystemStep;
    Sizes(s);
    if j != i {
      OthersUntouched(s, i, j);
      NothingKept(s, Act(Run(i)), j);
    } else if Scans(s.hz[i]) {
      ScanTidies(s, i);
    } else if s.q.threads[i].pc.PopRetire? {
      RetireTidies(s, i);
    } else {
      OwnUntouched(s, i);
      NothingKept(s, Act(Run(i)), i);
    }
  }

  lemma MoveTidies(s: System, mv: Move)
    requires SysInv(s) && Allowed(s, mv) && RespectsH(s, mv) && AllTidy(s)
    ensures AllTidy(Next(s, mv))
  {
    hide SysInv, RespectsH, Tidy, SystemStep, Orphaned, Drained;
    var s' := Next(s, mv);
    NextSizes(s, mv);
    forall j | 0 <= j < |s'.hz| ensures Tidy(s', s'.hz[j]) {
      if mv.Act? && mv.a.Run? {
        RunTidies(s, mv.a.i, j);
      } else {
        IdleDoesNotScan(s, mv);
        NothingKept(s, mv, j);
      }
    }
  }

  lemma NextSizes(s: System, mv: Move)
    requires SysInv(s) && Allowed(s, mv)
    ensures |Next(s, mv).hz| == |s.hz|
  {
    hide SysInv, Orphaned, Drained, QueueStep, Retire, SlotEffect, PlaceEffect, FirstFree, SlotOf;
  }

  lemma IdleDoesNotScan(s: System, mv: Move)
    requires SysInv(s) && Allowed(s, mv)
    ensures mv.Leave? || mv.Destroy? ==> mv.i < |s.hz| && !Scans(s.hz[mv.i])
  {
    if mv.Leave? || mv.Destroy? { SlotCount(s, mv.i); }
    hide SysInv, Chain, Wired, Placed, Knows;
  }

  lemma {:induction false} RunIsTidy(ss: seq<System>, mvs: seq<Move>, k: nat)
    requires T.IsSystemRun(ss, mvs) && k < |ss|
    ensures AllTidy(ss[k])
  {
    hide SysInv, Next, RespectsH, Allowed, Tidy;
    if k == 0 {
      forall i | 0 <= i < |ss[0].hz| ensures Tidy(ss[0], ss[0].hz[i]) { TidyAtFirst(ss[0], i); }
    } else {
      RunIsTidy(ss, mvs, k - 1);
      T.SystemRunKeepsInv(ss, mvs, k - 1);
      assert ss[(k - 1) + 1] == Next(ss[k - 1], mvs[k - 1]);
      MoveTidies(ss[k - 1], mvs[k - 1]);
    }
  }

  lemma TidyAtFirst(s: System, i: Tid)
    requires Start(s) && i < |s.hz|
    ensures Tidy(s, s.hz[i])
  {
  }

  /**
   In every run, with slots that move during scans and nodes that are reused: a thread that is not in the middle of a
   scan of its own list has on it at most the threshold or two nodes for each announcement record.
   */
  lemma GarbageIsBoundedInRuns(ss: seq<System>, mvs: seq<Move>, k: nat, i: Tid)
    requires T.IsSystemRun(ss, mvs) && k < |ss| && i < |ss[k].hz| && !ScansOwn(ss[k].hz[i])
    ensures |ss[k].hz[i].retired| <= Max(ss[k].limit, 2 * |ss[k].records|)
  {
    hide T.IsSystemRun;
    RunIsTidy(ss, mvs, k);
    assert Tidy(ss[k], ss[k].hz[i]);
  }
}
