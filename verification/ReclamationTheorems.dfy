/** What the invariant means for whole runs of the queue with recycled nodes. */
module ReclamationTheorems {
  import opened MichaelScott
  import opened MichaelScottInvariant
  import opened MichaelScottTheorems
  import opened AtomicQueue
  import opened Reclamation
  import opened ReclamationInvariant
  import opened ReclamationProof
  import opened ReclamationSteps
  import opened ReclamationSystem

  // ---- The remaining moves ----

  lemma StartHasInv(s: System)
    requires Start(s)
    ensures SysInv(s)
  {
    InitHasInv(s.q);
    hide Inv;
    forall i | 0 <= i < |s.hz| ensures OwnListOk(s.m.place, i, s.hz[i]) { }
  }

  /** Calls, time-outs and `close` move one thread between program points that hold nothing. */
  ghost predicate Outside(pc: Pc, pc': Pc) {
    && SameSlots(pc, pc') && SameOwns(pc, pc') && !pc.PopScan?
    && FirstHeld(pc') == SecondHeld(pc') == UnlinkedNode(pc') == DetachedNode(pc') == Null && !pc'.PushSwing?
  }

  lemma CallShape(q: Queue, a: Action)
    requires Enabled(q, a) && !a.Run?
    ensures var q', i := Do(Ideal, q, a), a.i;
            && i < |q.threads| == |q'.threads|
            && (forall j :: 0 <= j < |q.threads| && j != i ==> q'.threads[j] == q.threads[j])
            && (q'.threads[i].pc == q.threads[i].pc || Outside(q.threads[i].pc, q'.threads[i].pc))
            && q'.g.rank == q.g.rank && q'.g.popped == q.g.popped && |q'.g.next| == |q.g.next|
  {
  }

  lemma OutsideOk(m: Mem, i: Tid, pc: Pc, pc': Pc, h: Hazard)
    requires Keeps(m, i, pc) && SlotsOk(m, pc, h) && OwnAccounted(m, i, pc)
    requires pc' == pc || Outside(pc, pc')
    ensures Keeps(m, i, pc') && SlotsOk(m, pc', h) && OwnAccounted(m, i, pc')
    ensures forall m', a :: HoldsOn(m', pc, h, pc', h, a)
  {
    if pc' != pc {
      assert !Scans(h);
      hide UnlinkedNode, DetachedNode, FirstHeld, SecondHeld, UsesFirst, UsesSecond, FirstAnnounced, SecondAnnounced;
      SlotsTransfer(m, pc, pc', h);
      SameOwner(m, i, pc, pc');
    }
  }

  lemma CallKeeps(s: System, a: Action)
    requires SysInv(s) && Enabled(s.q, a) && !a.Run?
    ensures SysInv(s.(q := Do(Ideal, s.q, a)))
  {
    hide Inv, Wired, Placed, Accounted, RecordsOk, Listed, Keeps, WalkOk, MemEvolves, Calm, Spares, OwnAccounted,
         HoldsOn,
         Walking, Do, Outside, SlotsOk;
    var s', i := s.(q := Do(Ideal, s.q, a)), a.i;
    ActionKeepsInv(s.q, a);
    CallShape(s.q, a);
    var pc, pc', h := s.q.threads[i].pc, s'.q.threads[i].pc, s.hz[i];
    WiredLengths(s.q.g, s.m);
    QuietMem(s.q.g, s'.q.g, s.m);
    CalmItself(s.m, i);
    OwnAccountedFrom(s.m, s.q.threads, i);
    OutsideOk(s.m, i, pc, pc', h);
    WalkIsStable(s, s', i, h.scan);
    forall j | 0 <= j < |s.hz| ensures Spares(s.m, s'.m, s.q.threads[j].pc) {
      CalmSpares(s.m, s'.m, s.q.threads[j].pc);
    }
    Assemble(s, s', i);
  }

  // ---- Thread exit and destruction of a queue ----

  lemma ExitListed(s: System, i: Tid)
    requires SysInv(s) && i < |s.hz| && !Scans(s.hz[i]) && s.lock == {}
    ensures var s' := Exit(s, i); Listed(s'.m.place, s'.hz, s'.orphans, s'.lock, s'.pool)
  {
    hide Inv, Wired, Placed, Accounted, RecordsOk, Keeps, SlotsOk, WalkOk;
    var s', place := Exit(s, i), s.m.place;
    var place' := s'.m.place;
    assert OwnListOk(place, i, s.hz[i]);
    forall b ensures Occurs(s'.orphans, b) == Once(At(place', b, Orphan)) {
      assert Occurs(s.orphans, b) == Once(At(place, b, Orphan));
      assert Occurs(OwnList(s.hz[i]), b) == Once(At(place, b, Retired(i)));
    }
    forall j | 0 <= j < |s.hz| ensures OwnListOk(place', j, s'.hz[j]) {
      if j != i { OwnListElsewhere(place, place', j, s.hz[j]); }
    }
    forall b ensures At(place', b, Pooled) == At(place, b, Pooled) { }
    forall b ensures Occurs(s'.pool, b) == Once(At(place', b, Pooled)) {
      assert Occurs(s.pool, b) == Once(At(place, b, Pooled));
    }
  }

  lemma ExitMem(g: Store, m: Mem, i: Tid, pc: Pc)
    requires Wired(g, m) && Placed(g, m) && OwnAccounted(m, i, pc) && pc.Idle?
    ensures var m' := m.(place := Orphaned(m.place, i));
            Wired(g, m') && Placed(g, m') && MemEvolves(m, m', i) && Calm(m, m') && OwnAccounted(m', i, pc)
                && Keeps(m', i, pc)
  {
  }

  lemma ExitKeeps(s: System, i: Tid)
    requires SysInv(s) && i < |s.hz| && s.q.threads[i].pc.Idle? && s.lock == {}
    ensures SysInv(Exit(s, i)) && MemEvolves(s.m, Exit(s, i).m, i)
  {
    hide Inv, Wired, Placed, Accounted, RecordsOk, Listed, Keeps, WalkOk, MemEvolves, Calm, Spares, OwnAccounted,
         HoldsOn, Orphaned;
    var s', pc, h := Exit(s, i), s.q.threads[i].pc, s.hz[i];
    assert SlotsOk(s.m, pc, h);
    assert SlotsOk(s'.m, pc, s'.hz[i]);
    hide SlotsOk;
    OwnAccountedFrom(s.m, s.q.threads, i);
    ExitListed(s, i);
    ExitMem(s.q.g, s.m, i, pc);
    Leaves(s, s', i);
  }

  /** A thread outside the queue changes the lists. */
  lemma Leaves(s: System, s': System, i: Tid)
    requires SysInv(s) && i < |s.hz| && SameButFor(s, s', i) && s'.q == s.q && s'.records == s.records
    requires s.q.threads[i].pc.Idle? && s'.hz[i] == s.hz[i].(retired := s'.hz[i].retired, exited := s'.hz[i].exited)
    requires !Scans(s.hz[i])
    requires Wired(s'.q.g, s'.m) && Placed(s'.q.g, s'.m) && MemEvolves(s.m, s'.m, i)
    requires OwnAccounted(s'.m, i, s.q.threads[i].pc) && Keeps(s'.m, i, s.q.threads[i].pc)
    requires SlotsOk(s'.m, s.q.threads[i].pc, s'.hz[i])
    requires Listed(s'.m.place, s'.hz, s'.orphans, s'.lock, s'.pool)
    requires Calm(s.m, s'.m) || forall j :: 0 <= j < |s.hz| ==> s.q.threads[j].pc.Idle?
    ensures SysInv(s')
  {
    hide Inv, Wired, Placed, Accounted, RecordsOk, Listed, Keeps, WalkOk, MemEvolves, Calm, OwnAccounted, HoldsOn,
         Walking, SlotsOk;
    var pc, h := s.q.threads[i].pc, s.hz[i];
    assert s'.hz == s.hz[i := s'.hz[i]];
    RecordsAreStable(s.records, s.hz, i, s'.hz[i]);
    forall b ensures HoldsOn(s'.m, pc, h, pc, s'.hz[i], b) { NothingHeld(s'.m, pc, h, pc, s'.hz[i], b); }
    NoWalk(s'.m, s'.q.threads, s'.hz, s'.records, s'.hz[i].scan);
    forall j | 0 <= j < |s.hz| ensures Spares(s.m, s'.m, s.q.threads[j].pc) {
      if Calm(s.m, s'.m) { CalmSpares(s.m, s'.m, s.q.threads[j].pc); }
    }
    Assemble(s, s', i);
  }

  lemma NobodyScans(s: System)
    requires SysInv(s) && forall j :: 0 <= j < |s.hz| ==> s.q.threads[j].pc.Idle?
    ensures forall j :: 0 <= j < |s.hz| ==> !Scans(s.hz[j])
    ensures s.lock == {}
  {
    forall j | 0 <= j < |s.hz| ensures !Scans(s.hz[j]) {
      assert SlotsOk(s.m, s.q.threads[j].pc, s.hz[j]);
    }
    hide Inv, Wired, Placed, Accounted, RecordsOk, Keeps, SlotsOk, WalkOk;
  }

  lemma DrainListed(s: System, i: Tid)
    requires SysInv(s) && i < |s.hz| && s.lock == {} && forall j :: 0 <= j < |s.hz| ==> !Scans(s.hz[j])
    ensures var s' := Drain(s, i); Listed(s'.m.place, s'.hz, s'.orphans, s'.lock, s'.pool)
  {
    hide Inv, Wired, Placed, Accounted, RecordsOk, Keeps, SlotsOk, WalkOk;
    var s', place := Drain(s, i), s.m.place;
    var place' := s'.m.place;
    assert OwnListOk(place, i, s.hz[i]);
    forall b ensures Occurs(s'.pool, b) == Once(At(place', b, Pooled)) {
      assert Occurs(s.pool, b) == Once(At(place, b, Pooled));
      assert Occurs(s.orphans, b) == Once(At(place, b, Orphan));
      assert Occurs(OwnList(s.hz[i]), b) == Once(At(place, b, Retired(i)));
    }
    forall j | 0 <= j < |s.hz| ensures OwnListOk(place', j, s'.hz[j]) {
      if j != i { OwnListElsewhere(place, place', j, s.hz[j]); }
    }
  }

  lemma DrainMem(g: Store, m: Mem, i: Tid, pc: Pc)
    requires Wired(g, m) && Placed(g, m) && OwnAccounted(m, i, pc) && pc.Idle?
    ensures var m' := m.(place := Drained(m.place, i));
            Wired(g, m') && Placed(g, m') && MemEvolves(m, m', i) && OwnAccounted(m', i, pc) && Keeps(m', i, pc)
  {
  }

  lemma DrainKeeps(s: System, i: Tid)
    requires SysInv(s) && Allowed(s, Destroy(i))
    ensures SysInv(Drain(s, i)) && MemEvolves(s.m, Drain(s, i).m, i)
  {
    hide Inv, Wired, Placed, Accounted, RecordsOk, Listed, Keeps, WalkOk, MemEvolves, Calm, Spares, OwnAccounted,
         HoldsOn, Drained;
    var s', pc, h := Drain(s, i), s.q.threads[i].pc, s.hz[i];
    NobodyScans(s);
    assert SlotsOk(s.m, pc, h);
    assert SlotsOk(s'.m, pc, s'.hz[i]);
    hide SlotsOk;
    OwnAccountedFrom(s.m, s.q.threads, i);
    DrainListed(s, i);
    DrainMem(s.q.g, s.m, i, pc);
    Leaves(s, s', i);
  }

  // ---- Every move, every run ----

  lemma RunKeeps(s: System, i: Tid)
    requires SysInv(s) && i < |s.hz| && RespectsH(s, Act(Run(i)))
    ensures SysInv(SystemStep(s, i)) && MemEvolves(s.m, SystemStep(s, i).m, i)
  {
    hide SysInv, MemEvolves, RespectsH;
    Sizes(s);
    var pc, h := s.q.threads[i].pc, s.hz[i];
    if Scans(h) { ScanKeepsInv(s, i); }
    else if Protects(pc) && !h.published { PublishStep(s, i); }
    else if pc.PushAlloc? { AllocStep(s, i); }
    else if pc.PopRetire? { RetireStep(s, i); }
    else { PlainStep(s, i); }
  }

  lemma MoveKeeps(s: System, mv: Move)
    requires SysInv(s) && Allowed(s, mv) && RespectsH(s, mv)
    ensures SysInv(Next(s, mv))
  {
    hide SysInv, RespectsH, MemEvolves;
    match mv {
      case Act(a) => if a.Run? { RunKeeps(s, a.i); } else { CallKeeps(s, a); }
      case Leave(i) => ExitKeeps(s, i);
      case Destroy(i) => DrainKeeps(s, i);
    }
  }

  ghost predicate IsSystemRun(ss: seq<System>, mvs: seq<Move>) {
    && |ss| == |mvs| + 1 && Start(ss[0])
    && forall k :: 0 <= k < |mvs| ==>
         Allowed(ss[k], mvs[k]) && RespectsH(ss[k], mvs[k]) && ss[k + 1] == Next(ss[k], mvs[k])
  }

  lemma {:induction false} SystemRunKeepsInv(ss: seq<System>, mvs: seq<Move>, k: nat)
    requires IsSystemRun(ss, mvs) && k < |ss|
    ensures SysInv(ss[k])
  {
    hide SysInv, Start, Next, RespectsH, Allowed;
    if k == 0 {
      StartHasInv(ss[0]);
    } else {
      SystemRunKeepsInv(ss, mvs, k - 1);
      assert ss[(k - 1) + 1] == Next(ss[k - 1], mvs[k - 1]);
      MoveKeeps(ss[k - 1], mvs[k - 1]);
    }
  }

  // ---- Safe reclamation ----

  /** The node a thread dereferences at a program point: lines 135, 144, 188 and 215. */
  function Dereferenced(pc: Pc): Ptr {
    match pc
    case PushLoadNext(_, _, t) => To(t)
    case PushLink(_, _, t) => To(t)
    case PopLoadNext(h) => To(h)
    case PopTake(_, x) => To(x)
    case _ => Null
  }

  /**
   No node is in the pool, or handed out again, while a thread that passed its re-check
   still holds it in a slot: what the slot announces is that node, and it is still there.
   */
  lemma HeldNodesAreNotReclaimed(ss: seq<System>, mvs: seq<Move>, k: nat, i: Tid, x: Node)
    requires IsSystemRun(ss, mvs) && k < |ss| && i < |ss[k].q.threads|
    requires FirstHeld(ss[k].q.threads[i].pc) == To(x) || SecondHeld(ss[k].q.threads[i].pc) == To(x)
    ensures var s := ss[k];
            && i < |s.hz| && x < |s.m.addr| && Holds(s.m.addr[x]) in s.hz[i].slots
            && s.m.addr[x] < |s.m.cur| && s.m.cur[s.m.addr[x]] == x
            && s.m.addr[x] !in s.pool
            && forall j :: 0 <= j < |s.q.threads| && UnlinkedNode(s.q.threads[j].pc).To? ==>
                 AddressOf(s.m, UnlinkedNode(s.q.threads[j].pc).node) != s.m.addr[x]
  {
    SystemRunKeepsInv(ss, mvs, k);
    HeldIsSafe(ss[k], i, x);
  }

  lemma HeldIsSafe(s: System, i: Tid, x: Node)
    requires SysInv(s) && i < |s.q.threads|
    requires FirstHeld(s.q.threads[i].pc) == To(x) || SecondHeld(s.q.threads[i].pc) == To(x)
    ensures i < |s.hz| && x < |s.m.addr| && Holds(s.m.addr[x]) in s.hz[i].slots
    ensures s.m.addr[x] < |s.m.cur| && s.m.cur[s.m.addr[x]] == x
    ensures s.m.addr[x] !in s.pool
    ensures forall j :: 0 <= j < |s.q.threads| && UnlinkedNode(s.q.threads[j].pc).To? ==>
              AddressOf(s.m, UnlinkedNode(s.q.threads[j].pc).node) != s.m.addr[x]
  {
    hide Inv, Wired, Placed, Accounted, RecordsOk, WalkOk, FirstHeld, SecondHeld, UnlinkedNode, DetachedNode;
    assert Keeps(s.m, i, s.q.threads[i].pc);
    HolderFacts(s, i);
    hide SlotsOk;
    var a := s.m.addr[x];
    assert s.hz[i].slots[0] in s.hz[i].slots && s.hz[i].slots[1] in s.hz[i].slots;
    assert Occurs(s.pool, a) == Once(At(s.m.place, a, Pooled));
    forall j | 0 <= j < |s.q.threads| && UnlinkedNode(s.q.threads[j].pc).To?
      ensures AddressOf(s.m, UnlinkedNode(s.q.threads[j].pc).node) != a
    {
      assert Keeps(s.m, j, s.q.threads[j].pc);
    }
  }

  /** Every dereference reaches the node the thread means: recycled memory behaves like ideal memory. */
  lemma DereferencesAreSafe(s: System, i: Tid)
    requires SysInv(s) && i < |s.q.threads| && Dereferenced(s.q.threads[i].pc).To?
    ensures var x := Dereferenced(s.q.threads[i].pc).node;
            && Home(Memory2(s.m), x) == x && x < |s.m.addr| && s.m.addr[x] !in s.pool
            && NextAt(Memory2(s.m), s.q.g, x) == NextAt(Ideal, s.q.g, x)
            && CellAt(Memory2(s.m), s.q.g, x) == CellAt(Ideal, s.q.g, x)
  {
    var pc := s.q.threads[i].pc;
    var x := Dereferenced(pc).node;
    assert FirstHeld(pc) == To(x) || SecondHeld(pc) == To(x);
    hide SysInv, FirstHeld, SecondHeld;
    HeldIsSafe(s, i, x);
  }

  // ---- Refinement, with recycled nodes ----

  /** The event of the atomic queue that a move amounts to. */
  function SystemEvent(s: System, mv: Move): Event {
    match mv
    case Act(Run(i)) =>
      if i < |s.hz| && i < |s.q.threads| && !Scans(s.hz[i]) &&
         (Protects(s.q.threads[i].pc) ==> s.hz[i].published)
      then ThreadEvent(Memory2(s.m), s.q.g, s.q.threads[i])
      else Silent
    case Act(a) => EventOf(Ideal, s.q, a)
    case _ => Silent
  }

  lemma EventAgrees(g: Store, m: Mem, i: Tid, th: Thread)
    requires Chain(g) && Placed(g, m) && Keeps(m, i, th.pc)
    ensures ThreadEvent(Memory2(m), g, th) == ThreadEvent(Ideal, g, Rebind(Memory2(m), g, th))
  {
    hide Chain, Placed;
    EndsAreCurrent(g, m);
    match th.pc {
      case PushLink(_, _, t) => SameCurrent(m, t, t);
      case PopLoadNext(h) => SameCurrent(m, h, h);
      case PopDetach(h, _) => SameCurrent(m, g.head, h);
      case _ =>
    }
  }

  lemma RebindAbs(s: System, i: Tid)
    requires SysInv(s) && i < |s.hz|
    ensures var th := Rebind(Memory2(s.m), s.q.g, s.q.threads[i]);
            && Abs(s.q.(threads := s.q.threads[i := th])) == Abs(s.q)
            && !th.pc.Idle? == !s.q.threads[i].pc.Idle?
  {
    hide Inv, Wired, Placed, Accounted, RecordsOk, Listed, Keeps, SlotsOk, WalkOk;
    var th := Rebind(Memory2(s.m), s.q.g, s.q.threads[i]);
    assert OpOf(s.q.g, th) == OpOf(s.q.g, s.q.threads[i]);
    assert Ops(s.q.g, s.q.threads[i := th]) == Ops(s.q.g, s.q.threads);
  }

  lemma SilentHappens(a: Atomic, i: Tid)
    requires i < |a.ops|
    ensures Happens(Silent, i, a, a)
  {
  }

  predicate Mover(s: System, mv: Move, i: Tid) {
    match mv
    case Act(a) => i == a.i
    case Leave(j) => i == j
    case Destroy(j) => i == j
  }

  lemma QueueMoves(s: System, i: Tid)
    requires SysInv(s) && Allowed(s, Act(Run(i))) && !Scans(s.hz[i])
    requires Protects(s.q.threads[i].pc) ==> s.hz[i].published
    ensures Happens(ThreadEvent(Memory2(s.m), s.q.g, s.q.threads[i]), i, Abs(s.q), Abs(QueueStep(s, i)))
  {
    hide Chain, Wired, Placed, Accounted, RecordsOk, Listed, Keeps, SlotsOk, WalkOk, ThreadOk, Rebind, Happens, Abs,
         Step, QueueStep,
         ThreadEvent, Evolves;
    QueueStepKeepsInv(s, i);
    RebindAbs(s, i);
    var th := Rebind(Memory2(s.m), s.q.g, s.q.threads[i]);
    var q := s.q.(threads := s.q.threads[i := th]);
    StepRefines(q, Run(i));
    EventAgrees(s.q.g, s.m, i, s.q.threads[i]);
  }

  lemma StepIsQueueStep(s: System, i: Tid)
    requires SysInv(s) && i < |s.hz|
    ensures SystemStep(s, i).q ==
              if Scans(s.hz[i]) || (Protects(s.q.threads[i].pc) && !s.hz[i].published) then s.q else QueueStep(s, i)
  {
    hide SysInv, QueueStep, FirstFree, PlaceEffect, SlotEffect;
    Sizes(s);
    FreeSlotIfNeeded(s, i);
  }

  /** Under H, every move with recycled nodes is an event of the atomic FIFO queue, at the same points. */
  lemma MoveRefines(s: System, mv: Move, i: Tid)
    requires SysInv(s) && Allowed(s, mv) && Mover(s, mv, i)
    ensures Happens(SystemEvent(s, mv), i, Abs(s.q), Abs(Next(s, mv).q))
  {
    hide SysInv, Happens, SystemStep, ThreadEvent;
    Sizes(s);
    if mv.Act? && mv.a.Run? {
      StepIsQueueStep(s, i);
      if Scans(s.hz[i]) || (Protects(s.q.threads[i].pc) && !s.hz[i].published) {
        SilentHappens(Abs(s.q), i);
      } else {
        QueueMoves(s, i);
      }
    } else if mv.Act? {
      assert Inv(s.q) by { QueueInv(s); }
      hide Do, EventOf, Abs;
      StepRefines(s.q, mv.a);
    } else {
      SilentHappens(Abs(s.q), i);
    }
  }

  lemma QueueInv(s: System)
    requires SysInv(s)
    ensures Inv(s.q)
  {
  }

  function MoverOf(mv: Move): Tid {
    match mv
    case Act(a) => a.i
    case Leave(i) => i
    case Destroy(i) => i
  }

  /** Every run with recycled nodes is a history of the atomic queue. */
  lemma LinearizableWithReuse(ss: seq<System>, mvs: seq<Move>)
    requires IsSystemRun(ss, mvs)
    ensures var hist := seq(|ss|, k requires 0 <= k < |ss| => Abs(ss[k].q));
            var es := seq(|mvs|, k requires 0 <= k < |mvs| => SystemEvent(ss[k], mvs[k]));
            var who := seq(|mvs|, k requires 0 <= k < |mvs| => MoverOf(mvs[k]));
            IsHistory(hist, es, who)
  {
    hide SysInv, Happens, Next, SystemEvent, Abs, RespectsH;
    EmptyAtFirst(ss[0].q);
    forall k | 0 <= k < |mvs|
      ensures Happens(SystemEvent(ss[k], mvs[k]), MoverOf(mvs[k]), Abs(ss[k].q), Abs(ss[k + 1].q))
    {
      SystemRunKeepsInv(ss, mvs, k);
      MoveRefines(ss[k], mvs[k], MoverOf(mvs[k]));
    }
  }

  /** The bound on failed attempts also holds when nodes are reused. */
  lemma FailuresAreBoundedWithReuse(ss: seq<System>, mvs: seq<Move>, k: nat, i: Tid)
    requires IsSystemRun(ss, mvs) && k < |ss| && i < |ss[k].q.threads|
    ensures ss[k].q.threads[i].fails <= 3 * |ss[k].q.g.log|
  {
    SystemRunKeepsInv(ss, mvs, k);
    QueueInv(ss[k]);
    hide SysInv;
    Ends(ss[k].q.g);
    assert ThreadOk(ss[k].q.g, i, ss[k].q.threads[i]);
  }

  // ---- Conservation ----

  ghost predicate WithProducer(s: System, i: Tid, a: Address) {
    i < |s.q.threads| && UnlinkedNode(s.q.threads[i].pc).To? &&
    UnlinkedNode(s.q.threads[i].pc).node < |s.m.addr| && s.m.addr[UnlinkedNode(s.q.threads[i].pc).node] == a
  }

  ghost predicate WithConsumer(s: System, i: Tid, a: Address) {
    i < |s.q.threads| && DetachedNode(s.q.threads[i].pc).To? &&
    DetachedNode(s.q.threads[i].pc).node < |s.m.addr| && s.m.addr[DetachedNode(s.q.threads[i].pc).node] == a
  }

  ghost predicate InChain(s: System, a: Address) {
    exists n :: n in s.q.g.rank && s.q.g.popped <= s.q.g.rank[n] && n < |s.m.addr| && s.m.addr[n] == a
  }

  ghost predicate OnRetiredList(s: System, i: Tid, a: Address) {
    i < |s.hz| && a in OwnList(s.hz[i])
  }

  ghost predicate OnOrphanList(s: System, a: Address) {
    a in s.orphans || exists i :: 0 <= i < |s.hz| && a in OrphanList(s.hz[i])
  }

  lemma OccursIn(list: seq<Address>, a: Address)
    ensures a in list <==> 0 < Occurs(list, a)
  {
  }

  /**
   Each allocated node is in exactly one place: the six possibilities are the six values of
   `place`, a function of the address, and no list has it twice.
   */
  lemma EachNodeIsInOnePlace(s: System, a: Address)
    requires SysInv(s) && a < |s.m.place|
    ensures forall i: Tid :: WithProducer(s, i, a) <==> s.m.place[a] == Unlinked(i)
    ensures InChain(s, a) <==> s.m.place[a] == Linked
    ensures forall i: Tid :: WithConsumer(s, i, a) <==> s.m.place[a] == Detached(i)
    ensures forall i: Tid :: i < |s.hz| ==> (OnRetiredList(s, i, a) <==> s.m.place[a] == Retired(i))
    ensures OnOrphanList(s, a) <==> s.m.place[a] == Orphan
    ensures a in s.pool <==> s.m.place[a] == Pooled
    ensures Occurs(s.pool, a) <= 1 && Occurs(s.orphans, a) <= 1
    ensures forall i :: 0 <= i < |s.hz| ==> Occurs(OwnList(s.hz[i]), a) <= 1
  {
    ThreadPlaces(s, a);
    ChainPlaces(s, a);
    ListPlaces(s, a);
    hide SysInv;
  }

  lemma ThreadPlaces(s: System, a: Address)
    requires SysInv(s) && a < |s.m.place|
    ensures forall i: Tid :: WithProducer(s, i, a) <==> s.m.place[a] == Unlinked(i)
    ensures forall i: Tid :: WithConsumer(s, i, a) <==> s.m.place[a] == Detached(i)
  {
    hide Inv, Placed, RecordsOk, Listed, SlotsOk, WalkOk, UnlinkedNode, DetachedNode, FirstHeld, SecondHeld;
    forall i: Tid
      ensures WithProducer(s, i, a) <==> s.m.place[a] == Unlinked(i)
      ensures WithConsumer(s, i, a) <==> s.m.place[a] == Detached(i)
    {
      if i < |s.hz| { assert Keeps(s.m, i, s.q.threads[i].pc); }
      assert s.m.cur[a] < |s.m.addr| && s.m.addr[s.m.cur[a]] == a;
    }
  }

  lemma ChainPlaces(s: System, a: Address)
    requires SysInv(s) && a < |s.m.place|
    ensures InChain(s, a) <==> s.m.place[a] == Linked
  {
    hide Inv, RecordsOk, Listed, SlotsOk, WalkOk, Keeps, Accounted;
    assert s.m.cur[a] < |s.m.addr| && s.m.addr[s.m.cur[a]] == a;
    if s.m.place[a] == Linked {
      var n := s.m.cur[a];
      assert n in s.q.g.rank && s.q.g.popped <= s.q.g.rank[n] && n < |s.m.addr| && s.m.addr[n] == a;
    }
  }

  lemma ListPlaces(s: System, a: Address)
    requires SysInv(s) && a < |s.m.place|
    ensures forall i: Tid :: i < |s.hz| ==> (OnRetiredList(s, i, a) <==> s.m.place[a] == Retired(i))
    ensures OnOrphanList(s, a) <==> s.m.place[a] == Orphan
    ensures a in s.pool <==> s.m.place[a] == Pooled
    ensures Occurs(s.pool, a) <= 1 && Occurs(s.orphans, a) <= 1
    ensures forall i :: 0 <= i < |s.hz| ==> Occurs(OwnList(s.hz[i]), a) <= 1
  {
    hide Inv, Wired, Placed, RecordsOk, SlotsOk, WalkOk, Keeps, Accounted;
    forall p ensures At(s.m.place, a, p) == (s.m.place[a] == p) { }
    assert Occurs(s.pool, a) == Once(At(s.m.place, a, Pooled));
    forall i: Tid | i < |s.hz|
      ensures OnRetiredList(s, i, a) <==> s.m.place[a] == Retired(i)
      ensures Occurs(OwnList(s.hz[i]), a) <= 1
    {
      assert OwnListOk(s.m.place, i, s.hz[i]);
      assert Occurs(OwnList(s.hz[i]), a) == Once(At(s.m.place, a, Retired(i)));
      OccursIn(OwnList(s.hz[i]), a);
    }
    if s.lock == {} {
      assert Occurs(s.orphans, a) == Once(At(s.m.place, a, Orphan));
    } else {
      var l :| 0 <= l < |s.hz| && OrphanListOk(s.m.place, s.hz[l]);
      OrphanScanner(s, l);
      assert Occurs(OrphanList(s.hz[l]), a) == Once(At(s.m.place, a, Orphan));
      OccursIn(OrphanList(s.hz[l]), a);
    }
  }

  lemma MoveEvolves(s: System, mv: Move)
    requires SysInv(s) && Allowed(s, mv) && RespectsH(s, mv)
    ensures MemEvolves(s.m, Next(s, mv).m, MoverOf(mv)) && |s.m.cur| == |s.m.place|
  {
    hide SysInv, RespectsH, MemEvolves, SystemStep;
    MemLengths(s);
    match mv {
      case Act(a) =>
        if a.Run? {
          RunKeeps(s, a.i);
        } else {
          CalmItself(s.m, a.i);
        }
      case Leave(i) => ExitKeeps(s, i);
      case Destroy(i) => DrainKeeps(s, i);
    }
  }

  /**
   Every move, thread exit and drain included, moves a node only along its life, and only the mover's own or an orphan.
   */
  lemma NodesMoveInOrder(s: System, mv: Move, a: Address)
    requires SysInv(s) && Allowed(s, mv) && RespectsH(s, mv) && a < |s.m.place|
    ensures var m, m', i := s.m, Next(s, mv).m, MoverOf(mv);
            && a < |m.cur| && a < |m'.place| && a < |m'.cur|
            && ((m'.cur[a] == m.cur[a] && Moves(m.place[a], m'.place[a], i)) ||
                (m.place[a] == Pooled && m'.place[a] == Unlinked(i)))
  {
    hide SysInv, Next, Allowed, RespectsH;
    MoveEvolves(s, mv);
  }
}
