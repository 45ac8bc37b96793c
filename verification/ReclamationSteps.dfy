/** The steps of the queue with recycled nodes, one kind at a time. */
module ReclamationSteps {
  import opened MichaelScott
  import opened MichaelScottInvariant
  import opened Reclamation
  import opened ReclamationInvariant
  import opened ReclamationProof

  // ---- Linking, detaching, and steps that do neither ----

  lemma QuietMem(g: Store, g': Store, m: Mem)
    requires Wired(g, m) && Placed(g, m)
    requires g'.rank == g.rank && g'.popped == g.popped && |g'.next| == |g.next|
    ensures Wired(g', m) && Placed(g', m)
  {
  }

  lemma LinkMem(g: Store, m: Mem, i: Tid, t: Node, n: Node, v: Value)
    requires Chain(g) && Wired(g, m) && Placed(g, m) && Private(g, i, n, v)
    requires Current(m, n) && m.place[m.addr[n]] == Unlinked(i)
    ensures var g', m' := Link(g, t, n, v), Put(m, m.addr[n], Linked);
            Wired(g', m') && Placed(g', m') && MemEvolves(m, m', i) && Calm(m, m')
  {
    assert g.popped <= |g.order|;
    hide Chain;
    assert |m.cur| == |m.place|;
    LinkCalm(m, i, m.addr[n]);
    hide MemEvolves, Calm;
  }

  lemma LinkCalm(m: Mem, i: Tid, a: Address)
    requires a < |m.place| == |m.cur| && m.place[a] == Unlinked(i)
    ensures MemEvolves(m, Put(m, a, Linked), i) && Calm(m, Put(m, a, Linked))
  {
  }

  lemma DetachMem(g: Store, m: Mem, i: Tid, x: Node)
    requires Chain(g) && Wired(g, m) && Placed(g, m)
    ensures Current(m, g.head)
    ensures var g', m' := Detach(g, i, x), Put(m, m.addr[g.head], Detached(i));
            Wired(g', m') && Placed(g', m') && MemEvolves(m, m', i) && Calm(m, m')
  {
    Ends(g);
    forall n | n in g.rank && g.popped + 1 <= g.rank[n] ensures n != g.head { }
    forall a | 0 <= a < |m.place| && m.place[a] == Linked && m.cur[a] in g.rank && g.rank[m.cur[a]] == g.popped
      ensures a == m.addr[g.head]
    {
      RankIsInjective(g, m.cur[a], g.head);
    }
    hide Chain;
  }

  predicate Links(g: Store, pc: Pc) {
    pc.PushLink? && pc.t < |g.next| && g.next[pc.t] == Null
  }

  predicate Detaches(g: Store, pc: Pc) {
    pc.PopDetach? && g.head == pc.h
  }

  /** On recycled memory a link or a detachment happens exactly when it does on ideal memory. */
  lemma PlaceAgrees(g: Store, m: Mem, i: Tid, pc: Pc)
    requires Chain(g) && Wired(g, m) && Placed(g, m) && Knows(g, i, pc) && Keeps(m, i, pc)
    ensures PlaceEffect(g, m, i, pc) ==
              if Links(g, pc) then Put(m, AddressOf(m, pc.n), Linked)
              else if Detaches(g, pc) then Put(m, AddressOf(m, pc.h), Detached(i))
              else m
  {
    EndsAreCurrent(g, m);
    if pc.PushLink? {
      NextOf(g, pc.t);
      SameCurrent(m, pc.t, pc.t);
    } else if pc.PopDetach? {
      SameCurrent(m, g.head, pc.h);
    }
    hide Chain, Wired, Placed;
  }

  /** Steps other than links, detachments and allocations leave the list's shape alone. */
  lemma QuietStep(g: Store, i: Tid, th: Thread)
    requires !th.pc.PushAlloc? && !Links(g, th.pc) && !Detaches(g, th.pc)
    requires Knows(g, i, th.pc) && Chain(g)
    ensures var g' := ThreadStep(Ideal, g, i, th).0;
            g'.rank == g.rank && g'.popped == g.popped && |g'.next| == |g.next|
  {
    if th.pc.PushLink? { NextOf(g, th.pc.t); }
    hide Chain, Private, Claimed, WasHead, WasTail, Follows;
  }

  lemma LinkStep(g: Store, i: Tid, th: Thread)
    requires Links(g, th.pc)
    ensures ThreadStep(Ideal, g, i, th) ==
              (Link(g, th.pc.t, th.pc.n, th.pc.v), th.(pc := PushRelease(th.pc.n, th.pc.t)))
  {
  }

  lemma DetachStep(g: Store, i: Tid, th: Thread)
    requires Detaches(g, th.pc)
    ensures ThreadStep(Ideal, g, i, th) == (Detach(g, i, th.pc.x), th.(pc := PopTake(th.pc.h, th.pc.x)))
  {
  }

  lemma CalmItself(m: Mem, i: Tid)
    requires |m.cur| == |m.place|
    ensures MemEvolves(m, m, i) && Calm(m, m)
  {
  }

  /** The memory of the nodes after a step that neither allocates nor retires. */
  lemma PlainMem(g: Store, m: Mem, i: Tid, th: Thread)
    requires Chain(g) && Wired(g, m) && Placed(g, m) && Knows(g, i, th.pc) && Keeps(m, i, th.pc)
    requires !th.pc.PushAlloc?
    ensures var g', m' := ThreadStep(Ideal, g, i, th).0, PlaceEffect(g, m, i, th.pc);
            Wired(g', m') && Placed(g', m') && MemEvolves(m, m', i) && Calm(m, m') && m'.addr == m.addr
  {
    hide PlaceEffect, ThreadStep, Chain, Placed, MemEvolves, Calm;
    PlaceAgrees(g, m, i, th.pc);
    if Links(g, th.pc) {
      LinkStep(g, i, th);
      LinkMem(g, m, i, th.pc.t, th.pc.n, th.pc.v);
    } else if Detaches(g, th.pc) {
      DetachStep(g, i, th);
      DetachMem(g, m, i, th.pc.x);
    } else {
      QuietStep(g, i, th);
      QuietMem(g, ThreadStep(Ideal, g, i, th).0, m);
      CalmItself(m, i);
    }
  }

  // ---- What the stepping thread keeps ----

  lemma LinkedIsLive(g: Store, m: Mem, n: Node)
    requires Placed(g, m) && n in g.rank && g.popped <= g.rank[n]
    ensures Live(m, n) && m.place[m.addr[n]] == Linked
  {
  }

  lemma PushKeeps(g: Store, m: Mem, i: Tid, th: Thread)
    requires Chain(g) && Placed(g, m) && Knows(g, i, th.pc) && Keeps(m, i, th.pc)
    requires InPush(th.pc) && !th.pc.PushAlloc? && !Links(g, th.pc)
    ensures Keeps(m, i, PushStep(Ideal, g, i, th).1.pc)
  {
    hide Chain, Placed, Private, Follows;
    Ends(g);
    LinkedIsLive(g, m, g.tail);
    if th.pc.PushLink? { NextOf(g, th.pc.t); }
  }

  lemma PopKeeps(g: Store, m: Mem, i: Tid, th: Thread)
    requires Chain(g) && Placed(g, m) && Knows(g, i, th.pc) && Keeps(m, i, th.pc)
    requires !InPush(th.pc) && !InFinish(th.pc) && !Detaches(g, th.pc)
    ensures Keeps(m, i, PopStep(Ideal, g, i, th).1.pc)
  {
    hide Chain, Placed;
    Ends(g);
    LinkedIsLive(g, m, g.head);
    if th.pc.PopRecheckNext? && g.head == th.pc.h { LinkedIsLive(g, m, th.pc.x); }
  }

  lemma FinishKeeps(g: Store, m: Mem, i: Tid, th: Thread)
    requires Knows(g, i, th.pc) && Keeps(m, i, th.pc) && InFinish(th.pc) && !th.pc.PopRetire?
    ensures Keeps(m, i, FinishStep(Ideal, g, i, th).1.pc)
  {
    hide WasHead, Follows;
  }

  lemma LinkKeeps(g: Store, m: Mem, i: Tid, pc: Pc)
    requires Keeps(m, i, pc) && pc.PushLink?
    ensures Keeps(Put(m, AddressOf(m, pc.n), Linked), i, PushRelease(pc.n, pc.t))
  {
  }

  lemma DetachKeeps(g: Store, m: Mem, i: Tid, pc: Pc)
    requires Chain(g) && Placed(g, m) && Knows(g, i, pc) && Keeps(m, i, pc) && Detaches(g, pc)
    ensures Keeps(Put(m, AddressOf(m, pc.h), Detached(i)), i, PopTake(pc.h, pc.x))
  {
    Ends(g);
    LinkedIsLive(g, m, pc.x);
    hide Chain, Placed;
  }

  lemma PlainKeeps(g: Store, m: Mem, i: Tid, th: Thread)
    requires Chain(g) && Wired(g, m) && Placed(g, m) && Knows(g, i, th.pc) && Keeps(m, i, th.pc)
    requires !th.pc.PushAlloc? && !th.pc.PopRetire?
    ensures Keeps(PlaceEffect(g, m, i, th.pc), i, ThreadStep(Ideal, g, i, th).1.pc)
  {
    hide PlaceEffect, Chain, Wired, Placed, Knows, Keeps, PushStep, PopStep, FinishStep;
    PlaceAgrees(g, m, i, th.pc);
    if Links(g, th.pc) { LinkStep(g, i, th); LinkKeeps(g, m, i, th.pc); }
    else if Detaches(g, th.pc) { DetachStep(g, i, th); DetachKeeps(g, m, i, th.pc); }
    else if InPush(th.pc) { PushKeeps(g, m, i, th); }
    else if InFinish(th.pc) { FinishKeeps(g, m, i, th); }
    else { PopKeeps(g, m, i, th); }
  }

  // ---- Who owns what ----

  predicate SameOwns(pc: Pc, pc': Pc) {
    UnlinkedNode(pc') == UnlinkedNode(pc) && DetachedNode(pc') == DetachedNode(pc)
  }

  lemma PushOwns(g: Store, i: Tid, th: Thread)
    requires InPush(th.pc) && !th.pc.PushAlloc? && !Links(g, th.pc)
    requires th.pc.PushLink? ==> th.pc.t < |g.next|
    ensures SameOwns(th.pc, PushStep(Ideal, g, i, th).1.pc)
  {
  }

  lemma PopOwns(g: Store, i: Tid, th: Thread)
    requires !InPush(th.pc) && !InFinish(th.pc) && !Detaches(g, th.pc)
    ensures SameOwns(th.pc, PopStep(Ideal, g, i, th).1.pc)
  {
  }

  lemma FinishOwns(g: Store, i: Tid, th: Thread)
    requires InFinish(th.pc) && !th.pc.PopRetire? && Knows(g, i, th.pc)
    ensures SameOwns(th.pc, FinishStep(Ideal, g, i, th).1.pc)
  {
  }

  lemma QuietAccounted(g: Store, m: Mem, i: Tid, th: Thread)
    requires OwnAccounted(m, i, th.pc) && Knows(g, i, th.pc) && Chain(g)
    requires !th.pc.PushAlloc? && !th.pc.PopRetire? && !Links(g, th.pc) && !Detaches(g, th.pc)
    ensures OwnAccounted(m, i, ThreadStep(Ideal, g, i, th).1.pc)
  {
    hide OwnAccounted, Chain, PushStep, PopStep, FinishStep, UnlinkedNode, DetachedNode;
    if InPush(th.pc) {
      if th.pc.PushLink? { NextOf(g, th.pc.t); }
      PushOwns(g, i, th);
    } else if InFinish(th.pc) { FinishOwns(g, i, th); }
    else { PopOwns(g, i, th); }
    SameOwner(m, i, th.pc, ThreadStep(Ideal, g, i, th).1.pc);
  }

  lemma SameOwner(m: Mem, i: Tid, pc: Pc, pc': Pc)
    requires OwnAccounted(m, i, pc)
    requires UnlinkedNode(pc') == UnlinkedNode(pc) && DetachedNode(pc') == DetachedNode(pc)
    ensures OwnAccounted(m, i, pc')
  {
  }

  lemma LinkAccounted(g: Store, m: Mem, i: Tid, pc: Pc)
    requires OwnAccounted(m, i, pc) && Keeps(m, i, pc) && pc.PushLink? && Wired(g, m)
    ensures OwnAccounted(Put(m, AddressOf(m, pc.n), Linked), i, PushRelease(pc.n, pc.t))
  {
  }

  lemma DetachAccounted(m: Mem, i: Tid, pc: Pc)
    requires OwnAccounted(m, i, pc) && Keeps(m, i, pc) && pc.PopDetach?
    ensures OwnAccounted(Put(m, AddressOf(m, pc.h), Detached(i)), i, PopTake(pc.h, pc.x))
  {
  }

  lemma PlainAccounted(g: Store, m: Mem, i: Tid, th: Thread)
    requires Chain(g) && Wired(g, m) && Placed(g, m) && Knows(g, i, th.pc) && Keeps(m, i, th.pc)
    requires OwnAccounted(m, i, th.pc) && !th.pc.PushAlloc? && !th.pc.PopRetire?
    ensures OwnAccounted(PlaceEffect(g, m, i, th.pc), i, ThreadStep(Ideal, g, i, th).1.pc)
  {
    hide PlaceEffect, Chain, Placed, Knows, Keeps, ThreadStep, OwnAccounted;
    PlaceAgrees(g, m, i, th.pc);
    if Links(g, th.pc) { LinkStep(g, i, th); LinkAccounted(g, m, i, th.pc); }
    else if Detaches(g, th.pc) { DetachStep(g, i, th); DetachAccounted(m, i, th.pc); }
    else { QuietAccounted(g, m, i, th); }
  }

  // ---- Slots ----

  lemma RebindSlots(g: Store, m: Mem, i: Tid, th: Thread, h: Hazard)
    requires Current(m, g.tail) && Current(m, g.head) && SlotsOk(m, th.pc, h)
    ensures SlotsOk(m, Rebind(Memory2(m), g, th).pc, h)
  {
  }

  /** Which slots the two program points use is as if the first had kept, or had not needed, its own. */
  predicate SameSlots(pc: Pc, pc': Pc) {
    && UsesFirst(pc') == UsesFirst(pc) && UsesSecond(pc') == UsesSecond(pc)
    && (FirstAnnounced(pc').To? ==> FirstAnnounced(pc') == FirstAnnounced(pc))
    && (SecondAnnounced(pc').To? ==> SecondAnnounced(pc') == SecondAnnounced(pc))
  }

  lemma SlotsTransfer(m: Mem, pc: Pc, pc': Pc, h: Hazard)
    requires SlotsOk(m, pc, h) && !Scans(h) && SameSlots(pc, pc')
    ensures SlotsOk(m, pc', h)
  {
    hide UsesFirst, UsesSecond, FirstAnnounced, SecondAnnounced;
  }

  lemma PushShape(g: Store, i: Tid, th: Thread)
    requires InPush(th.pc) && !Protects(th.pc) && !DropsFirst(th.pc)
    ensures SameSlots(th.pc, PushStep(Ideal, g, i, th).1.pc)
  {
  }

  lemma PopShape(g: Store, i: Tid, th: Thread)
    requires !InPush(th.pc) && !InFinish(th.pc)
    requires !Protects(th.pc) && !DropsFirst(th.pc) && !DropsSecond(th.pc)
    ensures SameSlots(th.pc, PopStep(Ideal, g, i, th).1.pc)
  {
  }

  lemma FinishShape(g: Store, i: Tid, th: Thread)
    requires InFinish(th.pc) && Knows(g, i, th.pc)
    requires !DropsFirst(th.pc) && !DropsSecond(th.pc)
    ensures SameSlots(th.pc, FinishStep(Ideal, g, i, th).1.pc)
  {
  }

  lemma DropFirstShape(g: Store, i: Tid, th: Thread)
    requires DropsFirst(th.pc)
    ensures var pc' := ThreadStep(Ideal, g, i, th).1.pc;
            && UsesFirst(th.pc) && !UsesFirst(pc') && UsesSecond(pc') == UsesSecond(th.pc)
            && SecondAnnounced(pc') == Null
  {
  }

  lemma DropSecondShape(g: Store, i: Tid, th: Thread)
    requires DropsSecond(th.pc)
    ensures var pc' := ThreadStep(Ideal, g, i, th).1.pc;
            UsesSecond(th.pc) && !UsesFirst(th.pc) && !UsesFirst(pc') && !UsesSecond(pc')
  {
  }

  lemma DropFirstSlots(m: Mem, pc: Pc, pc': Pc, h: Hazard)
    requires SlotsOk(m, pc, h) && !Scans(h)
    requires UsesFirst(pc) && !UsesFirst(pc') && UsesSecond(pc') == UsesSecond(pc)
    requires SecondAnnounced(pc') == Null
    ensures SlotsOk(m, pc', Unprotect(h, h.first))
  {
    assert !UsesFirst(pc') ==> FirstAnnounced(pc') == Null;
    hide UsesFirst, UsesSecond, FirstAnnounced, SecondAnnounced;
  }

  lemma DropSecondSlots(m: Mem, pc: Pc, pc': Pc, h: Hazard)
    requires SlotsOk(m, pc, h) && !Scans(h)
    requires UsesSecond(pc) && !UsesFirst(pc) && !UsesFirst(pc') && !UsesSecond(pc')
    ensures SlotsOk(m, pc', Unprotect(h, h.second))
  {
    assert FirstAnnounced(pc') == Null && SecondAnnounced(pc') == Null;
    hide UsesFirst, UsesSecond, FirstAnnounced, SecondAnnounced;
  }

  /** With at most one slot in use, `protect` finds a free one. */
  lemma FreeSlot(m: Mem, pc: Pc, h: Hazard)
    requires SlotsOk(m, pc, h) && Protects(pc)
    ensures FirstFree(h.slots) == if pc.PopProtectNext? then 1 else 0
  {
    assert h.slots[1] == Free;
    if pc.PopProtectNext? {
      assert h.slots[0] == Holds(m.addr[pc.h]);
      assert h.slots[1..][0] == Free;
    }
  }

  /** The node that the program point protects. */
  function Target(pc: Pc): Node
    requires Protects(pc)
  {
    if pc.PushProtect? then pc.t else if pc.PopProtect? then pc.h else pc.x
  }

  lemma TargetInMemory(g: Store, m: Mem, i: Tid, pc: Pc)
    requires Chain(g) && Wired(g, m) && Knows(g, i, pc) && Protects(pc)
    ensures Target(pc) < |m.addr|
  {
    assert Target(pc) in g.rank;
  }

  lemma ProtectSlots(g: Store, m: Mem, i: Tid, th: Thread, h: Hazard)
    requires SlotsOk(m, th.pc, h) && !Scans(h) && Protects(th.pc) && h.published && Target(th.pc) < |m.addr|
    ensures SlotsOk(m, ThreadStep(Ideal, g, i, th).1.pc, Protect(m, th.pc, h))
  {
    FreeSlot(m, th.pc, h);
    hide FirstFree;
  }

  lemma PlainSlots(g: Store, m: Mem, i: Tid, th: Thread, h: Hazard)
    requires Wired(g, m) && Chain(g) && Knows(g, i, th.pc) && SlotsOk(m, th.pc, h) && !Scans(h)
    requires Protects(th.pc) ==> h.published
    ensures SlotsOk(m, ThreadStep(Ideal, g, i, th).1.pc, SlotEffect(m, th.pc, h))
  {
    hide Chain, Wired, Knows, SlotsOk, PushStep, PopStep, FinishStep, SameSlots, Protect, Unprotect, Target;
    var pc' := ThreadStep(Ideal, g, i, th).1.pc;
    if Protects(th.pc) { TargetInMemory(g, m, i, th.pc); ProtectSlots(g, m, i, th, h); }
    else if DropsFirst(th.pc) { DropFirstShape(g, i, th); DropFirstSlots(m, th.pc, pc', h); }
    else if DropsSecond(th.pc) { DropSecondShape(g, i, th); DropSecondSlots(m, th.pc, pc', h); }
    else {
      if InPush(th.pc) { PushShape(g, i, th); }
      else if InFinish(th.pc) { FinishShape(g, i, th); }
      else { PopShape(g, i, th); }
      SlotsTransfer(m, th.pc, pc', h);
    }
  }

  // ---- What the thread newly holds is linked ----

  predicate NewHolds(g: Store, pc: Pc, pc': Pc) {
    && (FirstHeld(pc').To? ==>
          FirstHeld(pc') == FirstHeld(pc) || FirstHeld(pc') == To(g.tail) || FirstHeld(pc') == To(g.head))
    && (SecondHeld(pc').To? ==>
          SecondHeld(pc') == SecondHeld(pc) ||
          (pc.PopRecheckNext? && g.head == pc.h && SecondHeld(pc') == To(pc.x)))
  }

  lemma PushHolds(g: Store, i: Tid, th: Thread)
    requires InPush(th.pc)
    ensures NewHolds(g, th.pc, PushStep(Ideal, g, i, th).1.pc)
  {
  }

  lemma PopHolds(g: Store, i: Tid, th: Thread)
    requires !InPush(th.pc) && !InFinish(th.pc)
    ensures NewHolds(g, th.pc, PopStep(Ideal, g, i, th).1.pc)
  {
  }

  lemma FinishHolds(g: Store, i: Tid, th: Thread)
    requires InFinish(th.pc)
    ensures NewHolds(g, th.pc, FinishStep(Ideal, g, i, th).1.pc)
  {
  }

  lemma HoldsSame(m: Mem, pc: Pc, h: Hazard, pc0: Pc, h0: Hazard, pc': Pc, h': Hazard, a: Address)
    requires FirstHeld(pc) == FirstHeld(pc0) && SecondHeld(pc) == SecondHeld(pc0) && h.pos == h0.pos
    requires HoldsOn(m, pc, h, pc', h', a)
    ensures HoldsOn(m, pc0, h0, pc', h', a)
  {
  }

  /** A node that is being scanned is not newly held. */
  lemma PlainHolds(g: Store, m: Mem, i: Tid, th: Thread, h: Hazard, h': Hazard, a: Address)
    requires Chain(g) && Placed(g, m) && Knows(g, i, th.pc) && h'.pos == h.pos
    requires a < |m.place| && m.place[a] != Linked
    ensures HoldsOn(m, th.pc, h, ThreadStep(Ideal, g, i, th).1.pc, h', a)
  {
    hide Chain, Placed, PushStep, PopStep, FinishStep, FirstHeld, SecondHeld;
    if InPush(th.pc) { PushHolds(g, i, th); }
    else if InFinish(th.pc) { FinishHolds(g, i, th); }
    else { PopHolds(g, i, th); }
    Ends(g);
    LinkedIsLive(g, m, g.tail);
    LinkedIsLive(g, m, g.head);
    if th.pc.PopRecheckNext? && g.head == th.pc.h { LinkedIsLive(g, m, th.pc.x); }
  }
}
