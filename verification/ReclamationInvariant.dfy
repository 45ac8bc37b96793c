/**
 The invariant of the queue with recycled nodes, and the agreement lemma: a thread that
 follows the hazard-pointer discipline cannot tell recycled memory from ideal memory.
 */
module ReclamationInvariant {
  import opened MichaelScott
  import opened MichaelScottInvariant
  import opened Reclamation

  // ---- What the program point says about nodes and slots ----

  function UnlinkedNode(pc: Pc): Ptr {
    match pc
    case PushLoadTail(n, _) => To(n)
    case PushProtect(n, _, _) => To(n)
    case PushRecheck(n, _, _) => To(n)
    case PushLoadNext(n, _, _) => To(n)
    case PushHelp(n, _, _, _) => To(n)
    case PushLink(n, _, _) => To(n)
    case PushDrop(n, _) => To(n)
    case _ => Null
  }

  function DetachedNode(pc: Pc): Ptr {
    match pc
    case PopTake(h, _) => To(h)
    case PopCount(h, _) => To(h)
    case PopRelease(h, _) => To(h)
    case PopReleaseNext(h, _) => To(h)
    case PopRetire(h, _) => To(h)
    case _ => Null
  }

  /** The node announced in the first slot, validated or not. */
  function FirstAnnounced(pc: Pc): Ptr {
    match pc
    case PushRecheck(_, _, t) => To(t)
    case PopRecheck(h) => To(h)
    case _ => FirstHeld(pc)
  }

  function SecondAnnounced(pc: Pc): Ptr {
    match pc
    case PopRecheckNext(_, x) => To(x)
    case _ => SecondHeld(pc)
  }

  /** The node in the first slot whose announcement passed the re-check, while it is still needed. */
  function FirstHeld(pc: Pc): Ptr {
    match pc
    case PushLoadNext(_, _, t) => To(t)
    case PushHelp(_, _, t, _) => To(t)
    case PushLink(_, _, t) => To(t)
    case PushRelease(_, t) => To(t)
    case PopLoadNext(h) => To(h)
    case PopProtectNext(h, _) => To(h)
    case PopRecheckNext(h, _) => To(h)
    case PopLoadTail(h, _) => To(h)
    case PopHelp(h, _) => To(h)
    case PopDetach(h, _) => To(h)
    case _ => Null
  }

  function SecondHeld(pc: Pc): Ptr {
    match pc
    case PopLoadTail(_, x) => To(x)
    case PopHelp(_, x) => To(x)
    case PopDetach(_, x) => To(x)
    case PopTake(_, x) => To(x)
    case _ => Null
  }

  predicate UsesFirst(pc: Pc) {
    FirstAnnounced(pc) != Null || pc.PushDrop? || pc.PopDrop? || pc.PopDropEmpty? || pc.PopDropHead? ||
    pc.PopTake? || pc.PopCount? || pc.PopRelease?
  }

  predicate UsesSecond(pc: Pc) {
    SecondAnnounced(pc) != Null || pc.PopDropHead? || pc.PopDropNext? || pc.PopCount? || pc.PopRelease? ||
    pc.PopReleaseNext?
  }

  // ---- The invariant ----

  ghost predicate Wired(g: Store, m: Mem) {
    && |m.addr| == |g.next| && |m.cur| == |m.place|
    && (forall n :: 0 <= n < |m.addr| ==> m.addr[n] < |m.cur|)
    && (forall a {:trigger m.cur[a]} :: 0 <= a < |m.cur| ==> m.cur[a] < |m.addr| && m.addr[m.cur[a]] == a)
  }

  /** `n` is the node that lives at its address. */
  ghost predicate Current(m: Mem, n: Node) {
    n < |m.addr| && m.addr[n] < |m.cur| && m.addr[n] < |m.place| && m.cur[m.addr[n]] == n
  }

  predicate Gone(p: Place) {
    p.Detached? || p.Retired? || p.Orphan? || p.Pooled?
  }

  /** Every node of the list from head on is in place; nodes before head are on their way to the pool. */
  ghost predicate Placed(g: Store, m: Mem) {
    && (forall n :: n in g.rank && g.popped <= g.rank[n] ==> Current(m, n) && m.place[m.addr[n]] == Linked)
    && (forall a {:trigger m.place[a]} :: 0 <= a < |m.place| && a < |m.cur| ==>
          && (m.place[a] == Linked ==> m.cur[a] in g.rank && g.popped <= g.rank[m.cur[a]])
          && (Gone(m.place[a]) ==> m.cur[a] in g.rank && g.rank[m.cur[a]] < g.popped))
  }

  /** What a thread owns is where it should be, and what it holds has not been reclaimed. */
  ghost predicate Keeps(m: Mem, i: Tid, pc: Pc) {
    && (UnlinkedNode(pc).To? ==>
          Current(m, UnlinkedNode(pc).node) && m.place[m.addr[UnlinkedNode(pc).node]] == Unlinked(i))
    && (DetachedNode(pc).To? ==>
          Current(m, DetachedNode(pc).node) && m.place[m.addr[DetachedNode(pc).node]] == Detached(i))
    && (FirstHeld(pc).To? ==> Live(m, FirstHeld(pc).node))
    && (SecondHeld(pc).To? ==> Live(m, SecondHeld(pc).node))
    && (pc.PushSwing? ==> Current(m, pc.t))
  }

  /** A node that may be dereferenced: it lives at its address and is not in the pool or handed out again. */
  ghost predicate Live(m: Mem, n: Node) {
    Current(m, n) && !m.place[m.addr[n]].Pooled? && !m.place[m.addr[n]].Unlinked?
  }

  ghost predicate SlotsOk(m: Mem, pc: Pc, h: Hazard) {
    && |h.slots| == SLOTS_COUNT && h.slots[2] == h.slots[3] == Free
    && (if UsesFirst(pc) then h.first == 0 && h.published else h.slots[0] == Free)
    && (if UsesSecond(pc) then h.second == 1 && h.published else h.slots[1] == Free)
    && (FirstAnnounced(pc).To? ==> Announces(m, h.slots[0], FirstAnnounced(pc).node))
    && (SecondAnnounced(pc).To? ==> Announces(m, h.slots[1], SecondAnnounced(pc).node))
    && (Scans(h) ==> pc.PopScan?)
  }

  ghost predicate Announces(m: Mem, slot: Slot, n: Node) {
    n < |m.addr| && slot == Holds(m.addr[n])
  }

  ghost predicate RecordsOk(records: seq<Tid>, hz: seq<Hazard>) {
    forall i :: 0 <= i < |hz| && hz[i].published ==> hz[i].pos < |records| && records[hz[i].pos] == i
  }

  /** Slot `kk` of the record at `pos` is still to be read by a walk that is at `(r, k)`. */
  predicate Pending(pos: nat, kk: nat, r: nat, k: nat) {
    pos + 1 < r || (pos + 1 == r && k <= kk)
  }

  /** Whoever holds the node at `a` will be seen by the walk at `(r, k)`. */
  ghost predicate Unseen(m: Mem, pc: Pc, h: Hazard, a: Address, r: nat, k: nat) {
    && (FirstHeld(pc).To? && AddressOf(m, FirstHeld(pc).node) == a ==> Pending(h.pos, 0, r, k))
    && (SecondHeld(pc).To? && AddressOf(m, SecondHeld(pc).node) == a ==> Pending(h.pos, 1, r, k))
  }

  ghost predicate WalkOk(m: Mem, threads: seq<Thread>, hz: seq<Hazard>, records: seq<Tid>, scan: Scan)
    requires |threads| == |hz|
  {
    scan.Scanning? && scan.todo != [] && scan.walk.Reading? ==>
      && scan.walk.rec <= |records|
      && forall i :: 0 <= i < |hz| ==>
           Unseen(m, threads[i].pc, hz[i], scan.todo[0], scan.walk.rec, scan.walk.slot)
  }

  // ---- The lists ----

  function Occurs(list: seq<Address>, a: Address): nat {
    multiset(list)[a]
  }

  predicate ScansOwn(h: Hazard) {
    h.scan.Scanning? && !h.scan.orphan
  }

  predicate ScansOrphans(h: Hazard) {
    h.scan.Scanning? && h.scan.orphan
  }

  function OwnList(h: Hazard): seq<Address> {
    if ScansOwn(h) then h.retired + h.scan.todo + h.scan.kept else h.retired
  }

  function OrphanList(h: Hazard): seq<Address> {
    if ScansOrphans(h) then h.scan.todo + h.scan.kept else []
  }

  predicate At(place: seq<Place>, a: Address, p: Place) {
    a < |place| && place[a] == p
  }

  function Once(b: bool): nat {
    if b then 1 else 0
  }

  ghost predicate OwnListOk(place: seq<Place>, i: Tid, h: Hazard) {
    && (forall a {:trigger Occurs(OwnList(h), a)} {:trigger At(place, a, Retired(i))} ::
          Occurs(OwnList(h), a) == Once(At(place, a, Retired(i))))
    && (ScansOwn(h) ==> h.retired == [])
  }

  /** Every retired node is on exactly one list, once; likewise for orphans and pooled nodes. */
  ghost predicate Listed(place: seq<Place>, hz: seq<Hazard>, orphans: seq<Address>, lock: set<Tid>,
                         pool: seq<Address>)
  {
    && (forall i :: 0 <= i < |hz| ==> OwnListOk(place, i, hz[i]))
    && (forall a {:trigger Occurs(pool, a)} {:trigger At(place, a, Pooled)} ::
          Occurs(pool, a) == Once(At(place, a, Pooled)))
    && (forall i :: 0 <= i < |hz| && ScansOrphans(hz[i]) ==> lock == {i})
    && (lock == {} ==> forall a {:trigger Occurs(orphans, a)} {:trigger At(place, a, Orphan)} ::
          Occurs(orphans, a) == Once(At(place, a, Orphan)))
    && (lock != {} ==> orphans == [] && exists i :: 0 <= i < |hz| && OrphanListOk(place, hz[i]))
  }

  ghost predicate OrphanListOk(place: seq<Place>, h: Hazard) {
    && ScansOrphans(h)
    && forall a {:trigger Occurs(OrphanList(h), a)} {:trigger At(place, a, Orphan)} ::
         Occurs(OrphanList(h), a) == Once(At(place, a, Orphan))
  }

  /** Nodes marked as belonging to a thread do belong to it. */
  ghost predicate Accounted(m: Mem, threads: seq<Thread>) {
    forall a {:trigger m.place[a]} :: 0 <= a < |m.place| && a < |m.cur| ==>
      && (m.place[a].Unlinked? ==>
            m.place[a].i < |threads| && UnlinkedNode(threads[m.place[a].i].pc) == To(m.cur[a]))
      && (m.place[a].Detached? ==>
            m.place[a].i < |threads| && DetachedNode(threads[m.place[a].i].pc) == To(m.cur[a]))
  }

  ghost predicate SysInv(s: System) {
    && |s.hz| == |s.q.threads| && Inv(s.q)
    && Wired(s.q.g, s.m) && Placed(s.q.g, s.m) && Accounted(s.m, s.q.threads)
    && RecordsOk(s.records, s.hz) && Listed(s.m.place, s.hz, s.orphans, s.lock, s.pool)
    && (forall i :: 0 <= i < |s.hz| ==> Keeps(s.m, i, s.q.threads[i].pc))
    && (forall i :: 0 <= i < |s.hz| ==> SlotsOk(s.m, s.q.threads[i].pc, s.hz[i]))
    && (forall i :: 0 <= i < |s.hz| ==> WalkOk(s.m, s.q.threads, s.hz, s.records, s.hz[i].scan))
  }

  // ---- Agreement of recycled with ideal memory ----

  function Memory2(m: Mem): Memory {
    Recycled(m.addr, m.cur)
  }

  /**
   A re-check compares addresses.  If the address was recycled since it was loaded and is the
   tail (or head) again, the check passes and the pointer from then on means the new node.
   */
  function Rebind(m: Memory, g: Store, th: Thread): Thread {
    match th.pc
    case PushRecheck(n, v, t) => if Same(m, g.tail, t) then th.(pc := PushRecheck(n, v, g.tail)) else th
    case PopRecheck(h) => if Same(m, g.head, h) then th.(pc := PopRecheck(g.head)) else th
    case _ => th
  }

  lemma RebindOk(m: Memory, g: Store, i: Tid, th: Thread)
    requires Chain(g) && ThreadOk(g, i, th)
    ensures ThreadOk(g, i, Rebind(m, g, th))
  {
    hide Chain;
    Ends(g);
  }

  lemma EndsAreCurrent(g: Store, m: Mem)
    requires Chain(g) && Placed(g, m)
    ensures Current(m, g.tail) && m.place[m.addr[g.tail]] == Linked
    ensures Current(m, g.head) && m.place[m.addr[g.head]] == Linked
  {
    hide Chain;
    Ends(g);
  }

  /** Pointers to nodes that live at their addresses can be compared by address. */
  lemma SameCurrent(m: Mem, a: Node, b: Node)
    requires Current(m, a) && Current(m, b)
    ensures Same(Memory2(m), a, b) <==> a == b
    ensures Home(Memory2(m), a) == a
  {
  }

  lemma PushAgrees(g: Store, m: Mem, i: Tid, th: Thread)
    requires Chain(g) && Wired(g, m) && Placed(g, m) && ThreadOk(g, i, th) && Keeps(m, i, th.pc) && InPush(th.pc)
    ensures PushStep(Memory2(m), g, i, th) == PushStep(Ideal, g, i, Rebind(Memory2(m), g, th))
  {
    hide Chain, Wired, Placed;
    EndsAreCurrent(g, m);
    SameCurrent(m, g.tail, g.tail);
    match th.pc {
      case PushRecheck(_, _, t) => Ends(g); assert Same(Memory2(m), t, t);
      case PushLoadNext(_, _, t) => SameCurrent(m, t, t);
      case PushHelp(_, _, t, _) => SameCurrent(m, g.tail, t);
      case PushLink(_, _, t) => SameCurrent(m, t, t);
      case PushSwing(_, t) => SameCurrent(m, g.tail, t);
      case _ =>
    }
  }

  lemma PopAgrees(g: Store, m: Mem, i: Tid, th: Thread)
    requires Chain(g) && Wired(g, m) && Placed(g, m) && ThreadOk(g, i, th) && Keeps(m, i, th.pc)
    requires !InPush(th.pc) && !InFinish(th.pc)
    ensures PopStep(Memory2(m), g, i, th) == PopStep(Ideal, g, i, Rebind(Memory2(m), g, th))
  {
    hide Chain, Wired, Placed;
    EndsAreCurrent(g, m);
    SameCurrent(m, g.head, g.tail);
    match th.pc {
      case PopRecheck(h) => Ends(g); assert Same(Memory2(m), h, h);
      case PopLoadNext(h) => SameCurrent(m, h, h);
      case PopRecheckNext(h, _) => SameCurrent(m, g.head, h);
      case PopLoadTail(h, _) => SameCurrent(m, g.tail, h);
      case PopHelp(h, _) => SameCurrent(m, g.tail, h);
      case PopDetach(h, _) => SameCurrent(m, g.head, h);
      case _ =>
    }
  }

  lemma FinishAgrees(g: Store, m: Mem, i: Tid, th: Thread)
    requires Keeps(m, i, th.pc) && InFinish(th.pc)
    ensures FinishStep(Memory2(m), g, i, th) == FinishStep(Ideal, g, i, Rebind(Memory2(m), g, th))
  {
    if th.pc.PopTake? {
      SameCurrent(m, th.pc.x, th.pc.x);
    }
  }

  lemma StepAgrees(g: Store, m: Mem, i: Tid, th: Thread)
    requires Chain(g) && Wired(g, m) && Placed(g, m) && ThreadOk(g, i, th) && Keeps(m, i, th.pc)
    ensures ThreadStep(Memory2(m), g, i, th) == ThreadStep(Ideal, g, i, Rebind(Memory2(m), g, th))
    ensures ThreadOk(g, i, Rebind(Memory2(m), g, th))
  {
    hide Chain, Wired, Placed, ThreadOk, Keeps, PushStep, PopStep, FinishStep;
    RebindOk(Memory2(m), g, i, th);
    if InPush(th.pc) { PushAgrees(g, m, i, th); }
    else if InFinish(th.pc) { FinishAgrees(g, m, i, th); }
    else { PopAgrees(g, m, i, th); }
  }
}
