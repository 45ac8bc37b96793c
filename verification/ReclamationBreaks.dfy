/**
 Whatever the retire threshold, there is a run in which an allocation breaks hypothesis H, and after which tail points
 into the pool.  Threads 1 and 2 fill their retired lists; thread 0 links a node and pauses before its CAS on tail;
 thread 1 pops, which recycles the node that thread 0 has linked after, and pushes, which makes it the tail again;
 thread 2 pops, which recycles the node of thread 0; then thread 0 makes its CAS.
 */
module ReclamationBreaks {
  import opened MichaelScott
  import opened MichaelScottInvariant
  import opened Reclamation
  import opened ReclamationInvariant
  import opened ReclamationProof
  import opened ReclamationSystem
  import T = ReclamationTheorems
  import opened ReclamationSolo
  import opened ReclamationMask
  import opened ReclamationNeedsH

  // ---- Calls ----

  lemma CallsPush(s: System, i: Tid, v: Value)
    requires SysInv(s) && i < |s.hz| && s.q.threads[i].pc.Idle? && !s.hz[i].exited
    ensures var s' := Next(s, Act(CallPush(i, v)));
            && Allowed(s, Act(CallPush(i, v))) && SysInv(s') && Aside(s, s', i) && CanRun(s', i) && s'.q.g == s.q.g
            && s'.q.threads[i].pc == PushCheck(v) && s'.m == s.m && Reach(s, s')
  {
    hide SysInv, Reach;
    Sizes(s);
    T.CallKeeps(s, CallPush(i, v));
    ReachOne(s, Act(CallPush(i, v)));
  }

  lemma CheckTurn(g: Store, i: Tid, th: Thread)
    requires th.pc.PushCheck? && !g.closed
    ensures ThreadStep(Ideal, g, i, th) == (g, th.(pc := PushAlloc(th.pc.v)))
  {
  }

  /** A thread calls `emplace` and is about to allocate. */
  lemma ComesToAllocate(s: System, i: Tid, v: Value) returns (t: System)
    requires SysInv(s) && i < |s.hz| && s.q.threads[i].pc.Idle? && !s.hz[i].exited && !s.q.g.closed
    ensures Reach(s, t) && SysInv(t) && Aside(s, t, i) && CanRun(t, i) && t.q.g == s.q.g
    ensures t.q.threads[i].pc == PushAlloc(v)
  {
    hide SysInv, Reach, Runs, SystemStep, ThreadStep;
    CallsPush(s, i, v);
    var u := Next(s, Act(CallPush(i, v)));
    NoScanAt(u, i);
    CheckTurn(u.q.g, i, u.q.threads[i]);
    PlainOne(u, i, u.q.g, u.q.threads[i].(pc := PushAlloc(v)));
    t := SystemStep(u, i);
    RunsReach(u, i, t);
    ReachOn(s, u, t);
    AsideOn(s, u, t, i);
  }

  /** With an empty pool the node is new. */
  lemma Allocates(s: System, i: Tid)
    requires SysInv(s) && CanRun(s, i) && s.q.threads[i].pc.PushAlloc? && s.pool == []
    ensures var t := SystemStep(s, i);
            && Reach(s, t) && SysInv(t) && SameButFor(s, t, i) && t.hz == s.hz && CanRun(t, i)
            && Linking(t.q.threads[i].pc) && UnlinkedNode(t.q.threads[i].pc).To?
            && t.q.g.order == s.q.g.order && t.q.g.popped == s.q.g.popped && t.q.g.head == s.q.g.head
                 && t.q.g.closed == s.q.g.closed
            && t.pool == [] && t.orphans == s.orphans && t.lock == s.lock && t.limit == s.limit
  {
    hide SysInv, Reach, SystemStep, MemEvolves;
    NoScanAt(s, i);
    T.RunKeeps(s, i);
    AllocIs(s, i);
    AllocQueue(s, i);
    ReachOne(s, Act(Run(i)));
  }

  // ---- Rounds of a push and a pop ----

  /** Nobody is inside; the queue, the pool and the orphan list are empty. */
  ghost predicate Rest(s: System) {
    && SysInv(s) && |s.q.threads| == |s.hz| && !s.q.g.closed && |s.q.g.order| == s.q.g.popped + 1
    && s.pool == [] && s.orphans == [] && s.lock == {}
    && forall k :: 0 <= k < |s.hz| ==> s.q.threads[k].pc.Idle? && !s.hz[k].exited
  }

  /** One round leaves one more node on the list of the thread that makes it. */
  lemma Round(s: System, i: Tid, v: Value) returns (t: System)
    requires Rest(s) && i < |s.hz| && |s.hz[i].retired| < s.limit
    ensures Reach(s, t) && Rest(t) && |t.hz| == |s.hz| && t.limit == s.limit
    ensures |t.hz[i].retired| == |s.hz[i].retired| + 1 && forall k :: 0 <= k < |s.hz| && k != i ==> t.hz[k] == s.hz[k]
  {
    hide SysInv, Reach, Runs, SystemStep, Linking, UnlinkedNode;
    var s1 := ComesToAllocate(s, i, v);
    Allocates(s1, i);
    var s2 := SystemStep(s1, i);
    var s3 := PushesAlone(s2, i);
    RunsReach(s2, i, s3);
    CallsPop(s3, i);
    var s4 := Next(s3, Act(CallPop(i, false)));
    ReachOne(s3, Act(CallPop(i, false)));
    var s5 := PopsToRetire(s4, i);
    RunsReach(s4, i, s5);
    t := RetiresAlone(s5, i);
    RunsReach(s5, i, t);
    ReachOn(s, s1, s2);
    ReachOn(s, s2, s3);
    ReachOn(s, s3, s4);
    ReachOn(s, s4, s5);
    ReachOn(s, s5, t);
  }

  lemma {:induction false} Rounds(s: System, i: Tid, v: Value) returns (t: System)
    requires Rest(s) && i < |s.hz| && |s.hz[i].retired| <= s.limit
    ensures Reach(s, t) && Rest(t) && |t.hz| == |s.hz| && t.limit == s.limit
    ensures |t.hz[i].retired| == s.limit && forall k :: 0 <= k < |s.hz| && k != i ==> t.hz[k] == s.hz[k]
    decreases s.limit - |s.hz[i].retired|
  {
    hide Rest, Reach;
    if |s.hz[i].retired| == s.limit {
      t := s;
      ReachNone(s);
    } else {
      var u := Round(s, i, v);
      t := Rounds(u, i, v);
      ReachOn(s, u, t);
    }
  }

  // ---- Up to the allocation that breaks H ----

  /** Thread 0 has linked a node after head, and pauses before its CAS on tail; the two others have full lists. */
  ghost predicate Paused(s: System) {
    && SysInv(s) && |s.q.threads| == 3 == |s.hz| && !s.q.g.closed && s.orphans == [] && s.lock == {} && s.pool == []
    && (forall k :: 0 <= k < 3 ==> !s.hz[k].exited) && s.q.threads[0].pc.PushSwing? && s.q.threads[0].pc.t == s.q.g.head
    && s.q.threads[1].pc.Idle? && s.q.threads[2].pc.Idle?
    && |s.q.g.order| == s.q.g.popped + 2 && s.q.threads[0].pc.n == s.q.g.order[s.q.g.popped + 1]
    && |s.hz[1].retired| == s.limit == |s.hz[2].retired|
  }

  /** A node linked after the only node was linked after head. */
  lemma LinkedAfterHead(g: Store, i: Tid, pc: Pc)
    requires Chain(g) && Knows(g, i, pc) && pc.PushSwing? && |g.order| == g.popped + 2 && pc.n == g.order[g.popped + 1]
    ensures pc.t == g.head
  {
    Ends(g);
    RankIsInjective(g, pc.t, g.head);
  }

  lemma Pauses(s: System, v: Value) returns (t: System)
    requires Rest(s) && |s.hz| == 3 && |s.hz[1].retired| == s.limit == |s.hz[2].retired|
    ensures Reach(s, t) && Paused(t) && t.limit == s.limit
  {
    hide SysInv, Reach, Runs, SystemStep, Linking, UnlinkedNode, Knows, Paced, Chain;
    var s1 := ComesToAllocate(s, 0, v);
    Allocates(s1, 0);
    var s2 := SystemStep(s1, 0);
    t := PausesAlone(s2, 0);
    RunsReach(s2, 0, t);
    ThreadAt(t, 0);
    LinkedAfterHead(t.q.g, 0, t.q.threads[0].pc);
    ReachOn(s, s1, s2);
    ReachOn(s, s2, t);
  }

  /** Whoever is outside its critical stretches announces nothing. */
  predicate Unarmed(pc: Pc) {
    pc.Idle? || pc.PushSwing? || pc.PushCount? || pc.PopRetire?
  }

  lemma NothingAnnouncedBy(s: System)
    requires SysInv(s) && |s.q.threads| == |s.hz| && forall k :: 0 <= k < |s.hz| ==> Unarmed(s.q.threads[k].pc)
    ensures Bare(s)
  {
    hide Inv, Wired, Placed, Accounted, RecordsOk, Listed, Keeps, WalkOk;
    forall k, x | 0 <= k < |s.hz| && 0 <= x < |s.hz[k].slots| ensures s.hz[k].slots[x] == Free {
      assert SlotsOk(s.m, s.q.threads[k].pc, s.hz[k]);
    }
  }

  /** Thread 1 is about to allocate, and the pool offers the node that thread 0 has linked after. */
  ghost predicate AboutToBreak(s: System) {
    && SysInv(s) && |s.q.threads| == 3 == |s.hz| && s.orphans == [] && s.lock == {} && s.pool != []
    && (forall k :: 0 <= k < 3 ==> !s.hz[k].exited) && s.q.threads[0].pc.PushSwing?
    && s.q.threads[0].pc.t < |s.m.addr| && s.m.addr[s.q.threads[0].pc.t] == s.pool[|s.pool| - 1]
    && s.q.threads[1].pc.PushAlloc? && s.q.threads[2].pc.Idle? && |s.hz[2].retired| == s.limit
    && |s.q.g.order| == s.q.g.popped + 1 && s.q.threads[0].pc.n == s.q.g.head
  }

  lemma InMemory(s: System, j: Tid)
    requires SysInv(s) && j < |s.hz| == |s.q.threads| && s.q.threads[j].pc.PushSwing?
    ensures s.q.threads[j].pc.t < |s.m.addr|
  {
    SwingInMemory(s, j);
  }

  /** Thread 1 pops, and the node that thread 0 has linked after is the last to come into the pool. */
  lemma PopsOnce(s: System) returns (t: System)
    requires Paused(s)
    ensures Reach(s, t) && SysInv(t) && Beside(s, t, 1) && t.q.threads[1].pc.Idle?
    ensures t.q.g.order == s.q.g.order && t.q.g.popped == s.q.g.popped + 1
    ensures t.pool != [] && t.pool[|t.pool| - 1] == AddressOf(s.m, s.q.g.head)
  {
    hide SysInv, Reach, Runs, SystemStep, Bare, AddressOf;
    CallsPop(s, 1);
    ReachOne(s, Act(CallPop(1, false)));
    var s1 := Next(s, Act(CallPop(1, false)));
    var s2 := PopsToRetire(s1, 1);
    RunsReach(s1, 1, s2);
    NothingAnnouncedBy(s2);
    t := RetiresAndFrees(s2, 1);
    RunsReach(s2, 1, t);
    ReachOn(s, s1, s2);
    ReachOn(s, s2, t);
    BesideOn(s, s1, s2, 1);
    BesideOn(s, s2, t, 1);
    SameAddress(s.m, s2.m, s.q.g.head);
  }

  lemma SameAddress(m: Mem, m': Mem, n: Node)
    requires m'.addr == m.addr
    ensures AddressOf(m', n) == AddressOf(m, n)
  {
  }

  lemma Recycles(s: System, v: Value) returns (t: System)
    requires Paused(s)
    ensures Reach(s, t) && AboutToBreak(t) && t.limit == s.limit
  {
    hide SysInv, Reach;
    var u := PopsOnce(s);
    t := ComesToAllocate(u, 1, v);
    ReachOn(s, u, t);
    InMemory(s, 0);
    ThreadAt(t, 0);
    OrderNotEmpty(t.q.g);
  }

  lemma BreaksH(s: System)
    requires AboutToBreak(s)
    ensures Allowed(s, Act(Run(1))) && !RespectsH(s, Act(Run(1)))
  {
    hide SysInv;
  }

  // ---- After it ----

  /** The recycled node is the tail, and the only one behind the node of thread 0, which is head. */
  ghost predicate IsTailAgain(s: System, u: System) {
    && AboutToBreak(s) && SysInv(Mask(u, {0})) && |u.q.threads| == 3 == |u.hz| && u.orphans == [] && u.lock == {}
    && !u.hz[0].exited && !u.hz[2].exited && u.q.threads[0] == s.q.threads[0]
    && u.q.threads[1].pc.Idle? && u.q.threads[2].pc.Idle? && |u.hz[2].retired| == u.limit
    && u.m.addr == s.m.addr + [s.pool[|s.pool| - 1]] && u.q.g.tail == |s.m.addr|
         && u.q.g.order == s.q.g.order + [u.q.g.tail]
    && u.q.g.popped == s.q.g.popped && u.q.g.head == s.q.g.head
  }

  /** Thread 1 pushes the recycled node, which becomes the tail. */
  lemma Reuses(s: System) returns (u: System)
    requires AboutToBreak(s)
    ensures Reach(Next(s, Act(Run(1))), u) && IsTailAgain(s, u)
  {
    hide SysInv, Reach, Runs, SystemStep, Masked, UnlinkedNode, Linking, RespectsH;
    BreaksH(s);
    AllocatesMasked(s, {0}, 1);
    var s1 := SystemStep(s, 1);
    var m1 := Mask(s1, {0});
    Unpaused(s1, m1);
    var m2 := PushesAlone(m1, 1);
    u := RunsMasked(s1, {0}, 1, m2);
    RunsReach(s1, 1, u);
    RunsBeside(s1, 1, u);
    Unpaused(u, m2);
  }

  /** A whole pop by a thread that runs alone and whose list is full: the old head is the last to come into the pool. */
  lemma PopsAndFrees(s: System, i: Tid) returns (t: System)
    requires SysInv(s) && CanRun(s, i) && s.q.threads[i].pc == PopLoadHead && s.q.g.popped + 1 < |s.q.g.order|
    requires s.q.g.tail != s.q.g.head && |s.hz[i].retired| == s.limit && s.lock == {} && s.orphans == []
    requires forall k :: 0 <= k < |s.hz| && k != i ==> Unarmed(s.q.threads[k].pc)
    ensures Runs(s, i, t) && SysInv(t) && Beside(s, t, i) && t.q.threads[i].pc.Idle?
    ensures t.q.g.order == s.q.g.order && t.q.g.popped == s.q.g.popped + 1 && t.q.g.tail == s.q.g.tail
    ensures t.pool != [] && t.pool[|t.pool| - 1] == AddressOf(s.m, s.q.g.head)
  {
    hide SysInv, Runs, Bare;
    var u := PopsToRetire(s, i);
    NothingAnnouncedBy(u);
    t := RetiresAndFrees(u, i);
    RunsOn(s, i, u, t);
    BesideOn(s, u, t, i);
  }

  /** Thread 2 pops, and recycles the node of thread 0. */
  lemma RecyclesAgain(s: System, u: System) returns (t: System)
    requires IsTailAgain(s, u)
    ensures Reach(u, t) && SysInv(Mask(t, {0})) && |t.q.threads| == 3 == |t.hz| && !t.hz[0].exited
    ensures t.q.threads[0] == u.q.threads[0] && t.m.addr == u.m.addr && t.q.g.tail == u.q.g.tail
    ensures t.q.g.order == u.q.g.order && t.q.g.popped == u.q.g.popped + 1
    ensures t.pool != [] && t.pool[|t.pool| - 1] == AddressOf(t.m, u.q.g.head)
  {
    hide SysInv, Reach, Runs, SystemStep, Masked, Chain, ThreadOk;
    var m := Mask(u, {0});
    Unpaused(u, m);
    MaskedCall(u, {0}, 2);
    CallsPop(m, 2);
    var u1, m1 := Next(u, Act(CallPop(2, false))), Next(m, Act(CallPop(2, false)));
    ThreadAt(m1, 2);
    HeadIsNotTail(m1.q.g);
    var m2 := PopsAndFrees(m1, 2);
    t := RunsMasked(u1, {0}, 2, m2);
    RunsReach(u1, 2, t);
    RunsBeside(u1, 2, t);
    Unpaused(t, m2);
    ReachOn(u, u1, t);
  }

  lemma HeadIsNotTail(g: Store)
    requires Chain(g) && |g.order| == g.popped + 2 && g.order[|g.order| - 1] == g.tail
    ensures g.head != g.tail
  {
  }

  lemma Unpaused(s: System, m: System)
    requires Mask(s, {0}) == m
    ensures m.q.g == s.q.g && m.m == s.m && m.pool == s.pool && m.hz == s.hz && m.limit == s.limit
    ensures m.lock == s.lock && m.orphans == s.orphans && |m.q.threads| == |s.q.threads|
    ensures forall k :: 0 < k < |s.q.threads| ==> m.q.threads[k] == s.q.threads[k]
    ensures |s.q.threads| > 0 && s.q.threads[0].pc.PushSwing? ==> m.q.threads[0].pc.PushCount?
  {
  }

  lemma Initial(limit: nat) returns (s: System)
    ensures Start(s) && s.limit == limit && |s.hz| == 3 && Rest(s)
  {
    var idle, hz := Thread(Idle(NoCall), false, 0, 0),
        Hazard(false, 0, [Free, Free, Free, Free], 0, 0, [], NoScan, false);
    var g := Store([Null], [Blank], 0, 0, 0, false, [0], map[0 := 0], [], 0, 0, [0], map[]);
    s := System(Queue(g, [idle, idle, idle]), Mem([0], [0], [Linked]), [hz, hz, hz], [], [], {}, [], limit);
    T.StartHasInv(s);
    hide SysInv;
  }

  /**
   For every retire threshold there is a run of three threads that respects H up to one allocation, and respects it
   again afterwards, at whose end tail is behind head and points to a node in the pool.
   */
  lemma TailIsReclaimed(limit: nat, v: Value) returns (s0: System, s: System, t: System)
    ensures Start(s0) && s0.limit == limit && Reach(s0, s)
    ensures Allowed(s, Act(Run(1))) && !RespectsH(s, Act(Run(1))) && Reach(Next(s, Act(Run(1))), t)
    ensures BehindHead(t.q.g) && OffTheList(t) && !Sane(t) && AddressOf(t.m, t.q.g.tail) in t.pool
  {
    hide SysInv, Reach, SystemStep, Sane, OffTheList, Start, RespectsH, Masked;
    s0 := Initial(limit);
    var a := Rounds(s0, 1, v) by { Fresh(s0); }
    var b := Rounds(a, 2, v) by { Fresh(s0); }
    var c := Pauses(b, v);
    s := Recycles(c, v);
    ReachOn(s0, a, b);
    ReachOn(s0, b, c);
    ReachOn(s0, c, s);
    BreaksH(s);
    var d := Reuses(s);
    var e := RecyclesAgain(s, d);
    t := MakesItsCas(s, e);
    ReachOn(Next(s, Act(Run(1))), d, e);
    ReachOn(Next(s, Act(Run(1))), e, t);
  }

  lemma Fresh(s: System)
    requires Start(s)
    ensures forall k :: 0 <= k < |s.hz| ==> s.hz[k].retired == []
  {
  }

  lemma MakesItsCas(s: System, u: System) returns (t: System)
    requires AboutToBreak(s) && SysInv(Mask(u, {0})) && |u.q.threads| == 3 == |u.hz| && !u.hz[0].exited
    requires u.q.threads[0] == s.q.threads[0] && u.m.addr == s.m.addr + [s.pool[|s.pool| - 1]]
    requires u.q.g.tail == |s.m.addr|
    requires u.q.g.order == s.q.g.order + [u.q.g.tail] && u.q.g.popped == s.q.g.popped + 1
    requires u.pool != [] && u.pool[|u.pool| - 1] == AddressOf(u.m, s.q.g.head)
    ensures Reach(u, t) && BehindHead(t.q.g) && OffTheList(t) && !Sane(t) && AddressOf(t.m, t.q.g.tail) in t.pool
  {
    hide SysInv, Reach, SystemStep, Sane, OffTheList, AddressOf, Masked, Chain, Wired, Placed, ThreadOk;
    SwingsBack(u, {0}, 0);
    t := SystemStep(u, 0);
    var n := s.q.threads[0].pc.n;
    ThreadAt(s, 0);
    OrderNotEmpty(s.q.g);
    MaskedSize(u.q.threads, {0});
    ThreadAt(Mask(u, {0}), 0);
    HeadRank(s.q.g);
    HeadRank(u.q.g);
    RankByOrder(s.q.g, u.q.g, n);
    SeenThrough(u, {0}, Mask(u, {0}));
    StoreOk(Mask(u, {0}));
    forall k | u.q.g.popped <= k < |u.q.g.order| ensures AddressOf(u.m, u.q.g.order[k]) != AddressOf(u.m, n) {
      PooledIsOffTheList(Mask(u, {0}), k, AddressOf(u.m, n));
    }
    MovedOff(u, t, n);
  }

  /** What is in the pool is not on the list. */
  lemma PooledIsOffTheList(s: System, k: nat, a: Address)
    requires SysInv(s) && s.q.g.popped <= k < |s.q.g.order| && a in s.pool
    ensures AddressOf(s.m, s.q.g.order[k]) != a
  {
    hide Wired, Accounted, RecordsOk, Keeps, SlotsOk, WalkOk;
    assert a in multiset(s.pool);
    assert Occurs(s.pool, a) == Once(At(s.m.place, a, Pooled));
    var n := s.q.g.order[k];
    assert Current(s.m, n) && s.m.place[s.m.addr[n]] == Linked;
  }

  /** Tail is a node that was linked before the one that is head now. */
  predicate BehindHead(g: Store) {
    g.tail in g.rank && g.head in g.rank && g.rank[g.tail] < g.rank[g.head]
  }

  lemma RankByOrder(g: Store, g': Store, n: Node)
    requires Chain(g) && Chain(g') && g.order <= g'.order && n in g.rank
    ensures n in g'.rank && g'.rank[n] == g.rank[n]
  {
    assert g.order[g.rank[n]] == n && g'.order[g.rank[n]] == n;
  }

  lemma HeadRank(g: Store)
    requires Chain(g)
    ensures g.head in g.rank && g.rank[g.head] == g.popped
  {
  }
}
