/**
 Hypothesis H is exact.  As long as every allocation respects it, the pointer tail addresses the last or the
 second-to-last node; and from any state that can be reached with it, an allocation that breaks it can be followed by
 steps after which tail addresses neither.
 */
module ReclamationNeedsH {
  import opened MichaelScott
  import opened MichaelScottInvariant
  import Q = MichaelScottTheorems
  import opened Reclamation
  import opened ReclamationInvariant
  import opened ReclamationProof
  import opened ReclamationSteps
  import opened ReclamationSystem
  import T = ReclamationTheorems
  import opened ReclamationSolo
  import opened ReclamationMask
  import opened ReclamationEmpties

  // ---- The list as the machine sees it: addresses ----

  /** The addresses met when following the links from address `a`, at most `fuel` of them. */
  function Trail(g: Store, m: Mem, a: Address, fuel: nat): seq<Address>
    decreases fuel
  {
    if fuel == 0 || |m.cur| <= a || |g.next| <= m.cur[a] then []
    else match g.next[m.cur[a]]
      case Null => [a]
      case To(x) => [a] + Trail(g, m, AddressOf(m, x), fuel - 1)
  }

  /** Tail addresses the last or the second-to-last of the nodes that one meets from head on. */
  predicate Sane(s: System) {
    var w := Trail(s.q.g, s.m, AddressOf(s.m, s.q.g.head), |s.q.g.order|);
    var a := AddressOf(s.m, s.q.g.tail);
    w != [] && (a == w[|w| - 1] || (2 <= |w| && a == w[|w| - 2]))
  }

  /** Tail addresses none of them. */
  predicate OffTheList(s: System) {
    AddressOf(s.m, s.q.g.tail) !in Trail(s.q.g, s.m, AddressOf(s.m, s.q.g.head), |s.q.g.order|)
  }

  function Addresses(m: Mem, ns: seq<Node>): (r: seq<Address>)
    ensures |r| == |ns| && forall k :: 0 <= k < |ns| ==> r[k] == AddressOf(m, ns[k])
  {
    seq(|ns|, k requires 0 <= k < |ns| => AddressOf(m, ns[k]))
  }

  /** A node from head on lives at its address, and leads to the next. */
  lemma NodeInPlace(g: Store, m: Mem, k: nat)
    requires Chain(g) && Wired(g, m) && Placed(g, m) && g.popped <= k < |g.order|
    ensures var n := g.order[k];
            && n < |m.addr| && AddressOf(m, n) < |m.cur| && m.cur[AddressOf(m, n)] == n && n < |g.next|
            && |g.order| == |g.log| + 1
            && g.next[n] == (if k < |g.log| then To(g.order[k + 1]) else Null)
  {
    Q.NodeAt(g, k);
    NextOf(g, g.order[k]);
    assert Current(m, g.order[k]);
    hide Chain;
  }

  lemma AddressesFrom(m: Mem, ns: seq<Node>, k: nat)
    requires k < |ns|
    ensures Addresses(m, ns[k..]) == [AddressOf(m, ns[k])] + Addresses(m, ns[k + 1..])
  {
  }

  lemma {:induction false} TrailIsOrder(g: Store, m: Mem, k: nat, fuel: nat)
    requires Chain(g) && Wired(g, m) && Placed(g, m) && g.popped <= k < |g.order| && |g.order| - k <= fuel
    ensures Trail(g, m, AddressOf(m, g.order[k]), fuel) == Addresses(m, g.order[k..])
    decreases |g.order| - k
  {
    hide Chain, Wired, Placed, AddressOf, Addresses;
    NodeInPlace(g, m, k);
    AddressesFrom(m, g.order, k);
    if k < |g.log| {
      TrailIsOrder(g, m, k + 1, fuel - 1);
    } else {
      assert g.order[k + 1..] == [];
      NoAddresses(m);
    }
  }

  lemma NoAddresses(m: Mem)
    ensures Addresses(m, []) == []
  {
  }

  /** Distinct nodes from head on are at distinct addresses. */
  lemma AddressesApart(g: Store, m: Mem, a: nat, b: nat)
    requires Chain(g) && Wired(g, m) && Placed(g, m) && g.popped <= a < b < |g.order|
    ensures AddressOf(m, g.order[a]) != AddressOf(m, g.order[b])
  {
    NodeInPlace(g, m, a);
    NodeInPlace(g, m, b);
    Q.OrderFacts(g);
  }

  lemma StoreOk(s: System)
    requires SysInv(s)
    ensures Chain(s.q.g) && Wired(s.q.g, s.m) && Placed(s.q.g, s.m) && |s.hz| == |s.q.threads|
  {
    hide Chain, Wired, Placed, Accounted, RecordsOk, Listed, Keeps, SlotsOk, WalkOk, ThreadOk;
  }

  /**
   One acyclic list of addresses from head on, however far one is willing to follow it: no address twice, one more
   than there are values, and tail addresses the last or the second-to-last.
   */
  lemma OneAcyclicChainWithReuse(s: System, fuel: nat)
    requires SysInv(s) && |s.q.g.order| <= fuel
    ensures var w, a := Trail(s.q.g, s.m, AddressOf(s.m, s.q.g.head), fuel), AddressOf(s.m, s.q.g.tail);
            && (forall x, y :: 0 <= x < y < |w| ==> w[x] != w[y])
            && w != [] && (a == w[|w| - 1] || (2 <= |w| && a == w[|w| - 2]))
            && |w| == |Q.Contents(s.q.g)| + 1
  {
    hide SysInv, Chain, Wired, Placed, AddressOf, Trail;
    StoreOk(s);
    var g, m := s.q.g, s.m;
    Q.OrderFacts(g);
    TrailFromHead(g, m, fuel);
    var w := Trail(g, m, AddressOf(m, g.head), fuel);
    forall x, y | 0 <= x < y < |w| ensures w[x] != w[y] { AddressesApart(g, m, g.popped + x, g.popped + y); }
    assert w[g.swung - g.popped] == AddressOf(m, g.order[g.popped + (g.swung - g.popped)]);
  }

  lemma TrailFromHead(g: Store, m: Mem, fuel: nat)
    requires Chain(g) && Wired(g, m) && Placed(g, m) && |g.order| <= fuel
    ensures var w := Trail(g, m, AddressOf(m, g.head), fuel);
            && g.popped < |g.order| && |w| == |g.order| - g.popped
            && forall x :: 0 <= x < |w| ==> w[x] == AddressOf(m, g.order[g.popped + x])
  {
    hide Chain, Wired, Placed, AddressOf, Trail;
    Q.OrderFacts(g);
    TrailIsOrder(g, m, g.popped, fuel);
    hide Addresses;
    AddressesAt(m, g.order, g.popped);
  }

  lemma AddressesAt(m: Mem, ns: seq<Node>, k: nat)
    requires k <= |ns|
    ensures var r := Addresses(m, ns[k..]);
            |r| == |ns| - k && forall x :: 0 <= x < |r| ==> r[x] == AddressOf(m, ns[k + x])
  {
    hide AddressOf;
  }

  ghost predicate StaysSane(s: System) {
    forall t :: Reach(s, t) ==> Sane(t)
  }

  lemma {:induction false} PathKeepsInv(ss: seq<System>, mvs: seq<Move>, k: nat)
    requires IsPath(ss, mvs) && SysInv(ss[0]) && k < |ss|
    ensures SysInv(ss[k])
  {
    hide SysInv, Allowed, RespectsH, Next;
    if k > 0 {
      PathKeepsInv(ss, mvs, k - 1);
      assert Leads(ss[k - 1], mvs[k - 1], ss[(k - 1) + 1]);
      T.MoveKeeps(ss[k - 1], mvs[k - 1]);
    }
  }

  lemma ReachKeepsInv(s: System, t: System)
    requires SysInv(s) && Reach(s, t)
    ensures SysInv(t)
  {
    hide SysInv, Leads;
    var ss, mvs :| IsPath(ss, mvs) && ss[0] == s && ss[|mvs|] == t;
    PathKeepsInv(ss, mvs, |mvs|);
  }

  lemma InvIsSane(s: System)
    requires SysInv(s)
    ensures Sane(s)
  {
    hide SysInv, Trail;
    OneAcyclicChainWithReuse(s, |s.q.g.order|);
  }

  lemma {:induction false} TrailSame(g: Store, g': Store, m: Mem, a: Address, fuel: nat)
    requires g'.next == g.next
    ensures Trail(g', m, a, fuel) == Trail(g, m, a, fuel)
    decreases fuel
  {
    if fuel > 0 && a < |m.cur| && m.cur[a] < |g.next| && g.next[m.cur[a]].To? {
      TrailSame(g, g', m, AddressOf(m, g.next[m.cur[a]].node), fuel - 1);
    }
  }

  // ---- Two facts about threads that hold in every run ----

  /** A producer that has linked its node has linked it after a node at another address. */
  predicate LinkedApart(m: Mem, pc: Pc) {
    pc.PushRelease? || pc.PushSwing? ==> pc.n < |m.addr| && pc.t < |m.addr| && m.addr[pc.n] != m.addr[pc.t]
  }

  /** So it is for all threads, and threads that have ended are outside the queue. */
  ghost predicate Orderly(s: System) {
    EndedAreIdle(s) && forall k :: 0 <= k < |s.q.threads| ==> LinkedApart(s.m, s.q.threads[k].pc)
  }

  lemma LinksApart(s: System, i: Tid)
    requires SysInv(s) && i < |s.hz| && IsPlain(s, i) && LinkedApart(s.m, s.q.threads[i].pc)
    ensures var s' := SystemStep(s, i); |s'.q.threads| == |s.q.threads| && LinkedApart(s'.m, s'.q.threads[i].pc)
  {
    hide SysInv, SystemStep, Chain, Wired, Placed, ThreadStep, Rebind, ThreadOk, Keeps;
    PlainQueue(s, i);
    StoreOk(s);
    var th := Rebind(Memory2(s.m), s.q.g, s.q.threads[i]);
    KeptNode(s, i);
    Unbound(Memory2(s.m), s.q.g, s.q.threads[i]);
    if th.pc.PushLink? {
      LinkTurn(s.q.g, i, th);
      LinksAfterLast(s.q.g, s.m, i, th);
    } else {
      NoLinkTurn(s.q.g, i, th);
    }
  }

  lemma KeptNode(s: System, i: Tid)
    requires SysInv(s) && i < |s.hz|
    ensures |s.hz| == |s.q.threads| && Keeps(s.m, i, s.q.threads[i].pc)
  {
    hide Inv, Wired, Placed, Accounted, RecordsOk, Listed, SlotsOk, WalkOk, Keeps;
  }

  lemma Unbound(mem: Memory, g: Store, th: Thread)
    ensures var pc, pc' := th.pc, Rebind(mem, g, th).pc;
            && (pc'.PushLink? || pc'.PushRelease? || pc'.PushSwing? ==> pc' == pc)
            && (pc.PushLink? || pc.PushRelease? || pc.PushSwing? ==> pc' == pc)
  {
  }

  lemma LinkTurn(g: Store, i: Tid, th: Thread)
    requires th.pc.PushLink?
    ensures var pc' := ThreadStep(Ideal, g, i, th).1.pc;
            || (pc' == PushRelease(th.pc.n, th.pc.t) && NextAt(Ideal, g, th.pc.t) == Null)
            || (!pc'.PushRelease? && !pc'.PushSwing?)
  {
  }

  lemma NoLinkTurn(g: Store, i: Tid, th: Thread)
    requires !th.pc.PushLink?
    ensures var pc' := ThreadStep(Ideal, g, i, th).1.pc;
            && !pc'.PushRelease?
            && (pc'.PushSwing? ==> th.pc.PushRelease? && pc' == PushSwing(th.pc.n, th.pc.t))
  {
  }

  /** A node without a successor is the last of the list, and not one that is still to be linked. */
  lemma LinksAfterLast(g: Store, m: Mem, i: Tid, th: Thread)
    requires Chain(g) && Wired(g, m) && Placed(g, m) && ThreadOk(g, i, th) && Keeps(m, i, th.pc) && th.pc.PushLink?
    ensures th.pc.n < |m.addr| && th.pc.t < |m.addr|
    ensures NextAt(Ideal, g, th.pc.t) == Null ==> m.addr[th.pc.n] != m.addr[th.pc.t]
  {
    var n, t := th.pc.n, th.pc.t;
    NextOf(g, t);
    Ends(g);
    if NextAt(Ideal, g, t) == Null { assert Current(m, t) && m.place[m.addr[t]] == Linked; }
    hide Chain, Placed;
  }

  lemma NextKeepsOrderly(s: System, mv: Move)
    requires SysInv(s) && Orderly(s) && Allowed(s, mv) && RespectsH(s, mv)
    ensures Orderly(Next(s, mv))
  {
    NextKeepsEnded(s, mv);
    var s' := Next(s, mv);
    forall k | 0 <= k < |s'.q.threads| ensures LinkedApart(s'.m, s'.q.threads[k].pc) { KeepsApart(s, mv, k); }
    hide SysInv, Next, RespectsH;
  }

  lemma KeepsApart(s: System, mv: Move, k: Tid)
    requires SysInv(s) && Orderly(s) && Allowed(s, mv) && RespectsH(s, mv) && k < |Next(s, mv).q.threads|
    ensures LinkedApart(Next(s, mv).m, Next(s, mv).q.threads[k].pc)
  {
    hide SysInv, SystemStep, MemEvolves, RespectsH, Orphaned, Drained;
    if mv.Act? && mv.a.Run? {
      var i := mv.a.i;
      StepBeside(s, i);
      T.RunKeeps(s, i);
      AddrGrows(s.m, SystemStep(s, i).m, i);
      if k == i { RunKeepsApart(s, i); }
    }
  }

  lemma RunKeepsApart(s: System, i: Tid)
    requires SysInv(s) && i < |s.hz| == |s.q.threads| && LinkedApart(s.m, s.q.threads[i].pc)
    ensures var s' := SystemStep(s, i);
            |s'.q.threads| == |s.q.threads| && LinkedApart(s'.m, s'.q.threads[i].pc)
  {
    hide SysInv, QueueStep, PlaceEffect, SlotEffect, FirstFree, SlotOf;
    var pc := s.q.threads[i].pc;
    if IsPlain(s, i) {
      LinksApart(s, i);
    } else if !Scans(s.hz[i]) && pc.PushAlloc? {
      AllocIs(s, i);
      AllocQueue(s, i);
      hide SystemStep;
    } else if !Scans(s.hz[i]) && pc.PopRetire? {
      RetireIs(s, i);
      hide SystemStep;
    } else if Scans(s.hz[i]) {
      assert SystemStep(s, i) == ScanStep(s, i);
      ScanIsNear(s, i);
      hide SystemStep;
    }
  }

  lemma NextKeepsEnded(s: System, mv: Move)
    requires EndedAreIdle(s) && Allowed(s, mv)
    ensures EndedAreIdle(Next(s, mv))
  {
    match mv {
      case Act(a) => if a.Run? { StepBeside(s, a.i); StepKeepsEnded(s, a.i); }
      case _ =>
    }
    hide SystemStep, ScanStep;
  }

  lemma StepKeepsEnded(s: System, i: Tid)
    requires i < |s.q.threads| == |s.hz|
    ensures var s' := SystemStep(s, i);
            |s'.hz| == |s.hz| && forall k :: 0 <= k < |s.hz| ==> s'.hz[k].exited == s.hz[k].exited
  {
    hide QueueStep, PlaceEffect, Put, FirstFree, SlotOf;
    SlotsOnly(s.m, s.q.threads[i].pc, s.hz[i]);
    hide SlotEffect;
  }

  // ---- An allocation that breaks H ----

  /** What it takes away: the address of the node a paused producer has linked after. */
  lemma Violation(s: System, i: Tid) returns (j: Tid)
    requires SysInv(s) && !RespectsH(s, Act(Run(i)))
    ensures i < |s.hz| == |s.q.threads| && s.q.threads[i].pc.PushAlloc? && s.pool != []
    ensures j < |s.hz| && j != i && s.q.threads[j].pc.PushSwing?
    ensures var x := s.q.threads[j].pc.t; x < |s.m.addr| && s.m.addr[x] == s.pool[|s.pool| - 1]
  {
    j :| 0 <= j < |s.q.threads| && s.q.threads[j].pc.PushSwing? &&
         AddressOf(s.m, s.q.threads[j].pc.t) == s.pool[|s.pool| - 1];
    SwingInMemory(s, j);
  }

  lemma ObeysWithoutSwings(s: System, i: Tid)
    requires forall k :: 0 <= k < |s.q.threads| ==> !s.q.threads[k].pc.PushSwing?
    ensures RespectsH(s, Act(Run(i)))
  {
  }

  /** The allocation, seen without the paused producers. */
  lemma AllocatesMasked(s: System, paused: set<Tid>, i: Tid)
    requires SysInv(s) && i < |s.hz| && i !in paused && s.q.threads[i].pc.PushAlloc? && s.pool != [] && !s.hz[i].exited
    requires forall k: Tid :: k < |s.hz| && s.q.threads[k].pc.PushSwing? ==> k in paused
    ensures var s', t := SystemStep(s, i), Mask(SystemStep(s, i), paused);
            && SysInv(t) && CanRun(t, i) && Linking(t.q.threads[i].pc)
                 && UnlinkedNode(t.q.threads[i].pc) == To(|s.m.addr|)
            && t.m.addr == s.m.addr + [s.pool[|s.pool| - 1]] && t.q.g.order == s.q.g.order
            && t.q.g.popped == s.q.g.popped && t.q.g.head == s.q.g.head && SameButFor(s, s', i)
            && s'.limit == s.limit && s'.lock == s.lock && s'.orphans == s.orphans
  {
    hide SysInv, RespectsH, SystemStep, MemEvolves;
    Sizes(s);
    var m := Mask(s, paused);
    MaskKeepsInv(s, paused);
    MaskCommutes(s, paused, i);
    ObeysWithoutSwings(m, i);
    T.RunKeeps(m, i);
    NoScanAt(m, i);
    AllocIs(m, i);
    AllocQueue(m, i);
    NoScanAt(s, i);
    AllocIs(s, i);
    AllocQueue(s, i);
  }

  /** The CAS of a paused producer succeeds on a tail that has the address of the node it linked after. */
  lemma SwingsBack(s: System, paused: set<Tid>, j: Tid)
    requires SysInv(Mask(s, paused)) && j in paused && j < |s.hz| && !s.hz[j].exited
    requires j < |s.q.threads| && s.q.threads[j].pc.PushSwing?
    requires var x := s.q.threads[j].pc.t;
             s.q.g.tail < |s.m.addr| && x < |s.m.addr| && s.m.addr[s.q.g.tail] == s.m.addr[x]
    ensures Reach(s, SystemStep(s, j)) && SystemStep(s, j).q.g == MoveTail(s.q.g, s.q.threads[j].pc.n)
    ensures SystemStep(s, j).m == s.m && SystemStep(s, j).pool == s.pool
  {
    hide SysInv, Reach, SystemStep;
    MaskedSize(s.q.threads, paused);
    MaskedSwing(s.q.threads, paused, j);
    NoScanAt(Mask(s, paused), j);
    SwingIs(s, j);
    ReachOne(s, Act(Run(j)));
  }

  lemma MaskedSwing(ths: seq<Thread>, paused: set<Tid>, j: Tid)
    requires j < |ths| && j in paused && ths[j].pc.PushSwing?
    ensures Masked(ths, paused)[j].pc.PushCount?
  {
  }

  lemma SwingIs(s: System, j: Tid)
    requires j < |s.hz| == |s.q.threads| && !Scans(s.hz[j]) && s.q.threads[j].pc.PushSwing?
    requires Same(Recycled(s.m.addr, s.m.cur), s.q.g.tail, s.q.threads[j].pc.t)
    ensures var s' := SystemStep(s, j);
            s'.q.g == MoveTail(s.q.g, s.q.threads[j].pc.n) && s'.m == s.m && s'.pool == s.pool
  {
    hide Retire, NewNode, ScanStep, FirstFree, Same, PopStep, FinishStep;
  }

  /** A tail that is moved to an address where no node of the list is. */
  lemma MovedOff(s: System, t: System, n: Node)
    requires Chain(s.q.g) && Wired(s.q.g, s.m) && Placed(s.q.g, s.m) && t.q.g == MoveTail(s.q.g, n) && t.m == s.m
    requires forall k :: s.q.g.popped <= k < |s.q.g.order| ==> AddressOf(s.m, s.q.g.order[k]) != AddressOf(s.m, n)
    ensures OffTheList(t) && !Sane(t)
  {
    hide Chain, Wired, Placed, Trail, AddressOf;
    var g, m := s.q.g, s.m;
    TrailFromHead(g, m, |g.order|);
    TrailSame(g, MoveTail(g, n), m, AddressOf(m, g.head), |g.order|);
  }

  /** The thread that has allocated pushes its node and pops all the others; the list is then that node alone. */
  lemma PushesAndEmpties(s: System, paused: set<Tid>, i: Tid) returns (t: System)
    requires Fit(Mask(s, paused), paused) && CanRun(s, i) && i !in paused && i < |s.hz| == |s.q.threads|
    requires var pc := s.q.threads[i].pc; Linking(pc) && UnlinkedNode(pc).To?
    ensures Reach(s, t) && SysInv(Mask(t, paused)) && StillPaused(s, t, paused) && |t.hz| == |t.q.threads|
    ensures t.m.addr == s.m.addr && t.q.g.tail == UnlinkedNode(s.q.threads[i].pc).node
    ensures t.q.g.popped + 1 == |t.q.g.order| && t.q.g.head == t.q.g.tail
  {
    hide SysInv, Runs, Reach, Glides, UnlinkedNode, Masked, Linking, SystemStep;
    var m := Mask(s, paused);
    MaskedAt(s.q.threads, paused, i);
    MaskedSize(s.q.threads, paused);
    var m1 := PushesAlone(m, i);
    FitBeside(m, m1, i, paused);
    GlidesRun(m, i, m1, paused);
    ThreadAt(m1, i);
    OrderNotEmpty(m1.q.g);
    var m2 := Empties(m1, i, paused);
    GlidesOn(m, m1, m2, paused);
    t := GlidesMasked(s, paused, m2);
    SeenThrough(t, paused, m2);
    ThreadAt(m2, i);
    OrderNotEmpty(m2.q.g);
  }

  lemma MaskedFit(s: System, paused: set<Tid>)
    requires SysInv(Mask(s, paused)) && EndedAreIdle(s)
    requires forall k: Tid :: k in paused && k < |s.hz| ==> s.q.threads[k].pc.PushSwing?
    ensures Fit(Mask(s, paused), paused)
  {
    hide SysInv;
    var m := Mask(s, paused);
    forall k: Tid | k in paused && k < |s.hz| ensures !Scans(m.hz[k]) {
      MaskedSwing(s.q.threads, paused, k);
      NoScanAt(m, k);
    }
  }

  /**
   After an allocation that breaks H, the allocating thread, with help where it waits for the orphan lock, and one CAS
   of the paused producer bring tail to an address that is not on the list.
   */
  lemma BreaksWithoutH(s: System, i: Tid) returns (t: System)
    requires SysInv(s) && Orderly(s) && Allowed(s, Act(Run(i))) && !RespectsH(s, Act(Run(i)))
    ensures Reach(Next(s, Act(Run(i))), t) && OffTheList(t) && !Sane(t)
  {
    hide SysInv, Reach, RespectsH, UnlinkedNode, Linking, SystemStep, Masked, Sane, OffTheList,
         Chain, Wired, Placed, ThreadOk;
    var j := Violation(s, i);
    var paused := set k: Tid | k < |s.q.threads| && s.q.threads[k].pc.PushSwing?;
    AllocatesMasked(s, paused, i);
    var s1 := SystemStep(s, i);
    NextKeepsEnded(s, Act(Run(i)));
    MaskedAt(s1.q.threads, paused, i);
    MaskedSize(s1.q.threads, paused);
    SeenThrough(s1, paused, Mask(s1, paused));
    MaskedFit(s1, paused);
    var s2 := PushesAndEmpties(s1, paused, i);
    assert s2.q.threads[j] == s.q.threads[j];
    StillRuns(s1, s2, paused, j);
    SwingsBack(s2, paused, j);
    t := SystemStep(s2, j);
    ReachOn(s1, s2, t);
    StoreOk(Mask(s2, paused));
    SeenThrough(s2, paused, Mask(s2, paused));
    Q.OrderFacts(s2.q.g);
    MovedOff(s2, t, s.q.threads[j].pc.n);
  }

  /** A thread inside the queue has not ended. */
  lemma StillRuns(s: System, t: System, paused: set<Tid>, j: Tid)
    requires EndedAreIdle(s) && Reach(s, t) && j < |t.hz| == |t.q.threads| && !t.q.threads[j].pc.Idle?
    ensures !t.hz[j].exited
  {
    hide Leads;
    var ss, mvs :| IsPath(ss, mvs) && ss[0] == s && ss[|mvs|] == t;
    PathKeepsEnded(ss, mvs, |mvs|);
  }

  lemma {:induction false} PathKeepsEnded(ss: seq<System>, mvs: seq<Move>, k: nat)
    requires IsPath(ss, mvs) && EndedAreIdle(ss[0]) && k < |ss|
    ensures EndedAreIdle(ss[k])
  {
    hide Allowed, RespectsH, Next;
    if k > 0 {
      PathKeepsEnded(ss, mvs, k - 1);
      assert Leads(ss[k - 1], mvs[k - 1], ss[(k - 1) + 1]);
      NextKeepsEnded(ss[k - 1], mvs[k - 1]);
    }
  }

  /**
   In every state that a run with H can reach, and for every move that is possible there: whatever happens afterwards
   with H respected, tail addresses the last or the second-to-last node, if and only if the move respects H.
   */
  lemma HIsExact(s: System, mv: Move)
    requires SysInv(s) && Orderly(s) && Allowed(s, mv)
    ensures RespectsH(s, mv) <==> StaysSane(Next(s, mv))
  {
    hide SysInv, Reach, Sane, Next, Allowed;
    if RespectsH(s, mv) {
      T.MoveKeeps(s, mv);
      forall t | Reach(Next(s, mv), t) ensures Sane(t) {
        ReachKeepsInv(Next(s, mv), t);
        InvIsSane(t);
      }
    } else {
      var t := BreaksWithoutH(s, mv.a.i);
    }
  }

  lemma {:induction false} RunIsOrderly(ss: seq<System>, mvs: seq<Move>, k: nat)
    requires T.IsSystemRun(ss, mvs) && k < |ss|
    ensures Orderly(ss[k])
  {
    hide SysInv, Next, RespectsH, Allowed;
    if k > 0 {
      RunIsOrderly(ss, mvs, k - 1);
      T.SystemRunKeepsInv(ss, mvs, k - 1);
      assert ss[(k - 1) + 1] == Next(ss[k - 1], mvs[k - 1]);
      NextKeepsOrderly(ss[k - 1], mvs[k - 1]);
    }
  }

  lemma HIsExactInRuns(ss: seq<System>, mvs: seq<Move>, mv: Move)
    requires T.IsSystemRun(ss, mvs) && Allowed(ss[|mvs|], mv)
    ensures RespectsH(ss[|mvs|], mv) <==> StaysSane(Next(ss[|mvs|], mv))
  {
    hide Start, Next, RespectsH, StaysSane, SysInv;
    T.SystemRunKeepsInv(ss, mvs, |mvs|);
    RunIsOrderly(ss, mvs, |mvs|);
    HIsExact(ss[|mvs|], mv);
  }
}
