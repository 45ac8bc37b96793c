/**
 The queue of module `MichaelScott` together with the hazard pointers of
 include/miniruntime/task/hazardpointers.h that recycle its nodes: announcement slots,
 per-thread retired lists, the orphan list, the node pool and the scans over them.  Nodes
 keep their identity (`Node`) but live at addresses that are handed out again, and the
 threads only ever see addresses.
 */
module Reclamation {
  import opened MichaelScott

  const SLOTS_COUNT := 4
  const RETIRE_THRESHOLD := 1024

  datatype Slot = Free | Holds(a: Address)

  /** Where the node at an address currently is. */
  datatype Place = Unlinked(i: Tid) | Linked | Detached(i: Tid) | Retired(i: Tid) | Orphan | Pooled

  /** `isProtected`: about to look at slot `slot` of the `rec`-th oldest record; newest records first. */
  datatype Walk = Ready | Reading(rec: nat, slot: nat)

  /** `scan` and `scanOrphaned`: the nodes still to examine, the survivors, the current walk. */
  datatype Scan =
    | NoScan
    | WaitLock
    | Scanning(orphan: bool, todo: seq<Address>, kept: seq<Address>, walk: Walk)

  /**
   The thread-local side of the reclaimer.  `published` and `pos` say whether and where the
   thread's record is in the announcement list; `first` and `second` are the slot indices
   that `protect` returned.
   */
  datatype Hazard = Hazard(published: bool, pos: nat, slots: seq<Slot>, first: nat, second: nat,
                           retired: seq<Address>, scan: Scan, exited: bool)

  /** `addr` is the address of each node, `cur` the latest node at each address, `place` where it is. */
  datatype Mem = Mem(addr: seq<Address>, cur: seq<Node>, place: seq<Place>)

  /** `records` lists the owners of the announcement records, oldest first; `lock` holds the orphan lock. */
  datatype System = System(q: Queue, m: Mem, hz: seq<Hazard>, records: seq<Tid>,
                           orphans: seq<Address>, lock: set<Tid>, pool: seq<Address>, limit: nat)

  function AddressOf(m: Mem, n: Node): Address {
    if n < |m.addr| then m.addr[n] else 0
  }

  function Put(m: Mem, a: Address, p: Place): Mem {
    if a < |m.place| then m.(place := m.place[a := p]) else m
  }

  function FirstFree(slots: seq<Slot>): nat {
    if slots == [] || slots[0] == Free then 0 else 1 + FirstFree(slots[1..])
  }

  // ---- What a step does besides the queue's own step ----

  predicate Protects(pc: Pc) {
    pc.PushProtect? || pc.PopProtect? || pc.PopProtectNext?
  }

  predicate DropsFirst(pc: Pc) {
    pc.PushDrop? || pc.PushRelease? || pc.PopDrop? || pc.PopDropEmpty? || pc.PopDropHead? || pc.PopRelease?
  }

  predicate DropsSecond(pc: Pc) {
    pc.PopDropNext? || pc.PopReleaseNext?
  }

  /** `protect`: announce the address in the first free slot (with no free slot it throws). */
  function Protect(m: Mem, pc: Pc, h: Hazard): Hazard {
    var k := FirstFree(h.slots);
    if |h.slots| <= k then h
    else if pc.PushProtect? then h.(slots := h.slots[k := Holds(AddressOf(m, pc.t))], first := k)
    else if pc.PopProtect? then h.(slots := h.slots[k := Holds(AddressOf(m, pc.h))], first := k)
    else if pc.PopProtectNext? then h.(slots := h.slots[k := Holds(AddressOf(m, pc.x))], second := k)
    else h
  }

  /** `unprotect` */
  function Unprotect(h: Hazard, k: nat): Hazard {
    if k < |h.slots| then h.(slots := h.slots[k := Free]) else h
  }

  function SlotEffect(m: Mem, pc: Pc, h: Hazard): Hazard {
    if Protects(pc) then Protect(m, pc, h)
    else if DropsFirst(pc) then Unprotect(h, h.first)
    else if DropsSecond(pc) then Unprotect(h, h.second)
    else h
  }

  /** Linking and detaching change where a node is. */
  function PlaceEffect(g: Store, m: Mem, i: Tid, pc: Pc): Mem {
    var mem := Recycled(m.addr, m.cur);
    if pc.PushLink? && NextAt(mem, g, pc.t) == Null then Put(m, AddressOf(m, pc.n), Linked)
    else if pc.PopDetach? && Same(mem, g.head, pc.h) then Put(m, AddressOf(m, pc.h), Detached(i))
    else m
  }

  /** `allocate`, or `new Node` when the pool is empty. */
  function NewNode(s: System, i: Tid): System {
    var n := |s.m.addr|;
    if s.pool == [] then
      s.(m := Mem(s.m.addr + [|s.m.cur|], s.m.cur + [n], s.m.place + [Unlinked(i)]))
    else
      var a := s.pool[|s.pool| - 1];
      s.(pool := s.pool[..|s.pool| - 1],
         m := if a < |s.m.cur| && a < |s.m.place|
              then Mem(s.m.addr + [a], s.m.cur[a := n], s.m.place[a := Unlinked(i)])
              else s.m)
  }

  /** `retire`: append, and start a scan when the list has grown too long. */
  function Retire(limit: nat, h: Hazard, a: Address): Hazard {
    var list := h.retired + [a];
    if |list| > limit then h.(retired := [], scan := Scanning(false, list, [], Ready)) else h.(retired := list)
  }

  predicate Scans(h: Hazard) {
    h.scan != NoScan
  }

  /** One step of `scan`/`scanOrphaned` by thread `i`. */
  function ScanStep(s: System, i: Tid): System
    requires i < |s.hz| && Scans(s.hz[i])
  {
    var h := s.hz[i];
    match h.scan
    case NoScan => s
    case WaitLock =>
      if s.lock != {} then s
      else s.(lock := {i}, orphans := [], hz := s.hz[i := h.(scan := Scanning(true, s.orphans, [], Ready))])
    case Scanning(orphan, todo, kept, walk) =>
      if todo == [] then
        if orphan then s.(lock := {}, orphans := kept, hz := s.hz[i := h.(scan := NoScan)])
        else s.(hz := s.hz[i := h.(retired := kept, scan := WaitLock)])
      else
        match walk
        case Ready =>
          s.(hz := s.hz[i := h.(scan := Scanning(orphan, todo, kept, Reading(|s.records|, 0)))])
        case Reading(r, k) =>
          if r == 0 || |s.records| < r then
            s.(hz := s.hz[i := h.(scan := Scanning(orphan, todo[1..], kept, Ready))],
               pool := s.pool + [todo[0]], m := Put(s.m, todo[0], Pooled))
          else if SLOTS_COUNT <= k then
            s.(hz := s.hz[i := h.(scan := Scanning(orphan, todo, kept, Reading(r - 1, 0)))])
          else if SlotOf(s, s.records[r - 1], k) == Holds(todo[0]) then
            s.(hz := s.hz[i := h.(scan := Scanning(orphan, todo[1..], kept + [todo[0]], Ready))])
          else
            s.(hz := s.hz[i := h.(scan := Scanning(orphan, todo, kept, Reading(r, k + 1)))])
  }

  function SlotOf(s: System, j: Tid, k: nat): Slot {
    if j < |s.hz| && k < |s.hz[j].slots| then s.hz[j].slots[k] else Free
  }

  /** The queue's own step, on recycled memory. */
  function QueueStep(s: System, i: Tid): Queue
    requires i < |s.q.threads|
  {
    Step(Recycled(s.m.addr, s.m.cur), s.q, i)
  }

  /** One step of thread `i` of the whole system. */
  function SystemStep(s: System, i: Tid): System
    requires i < |s.q.threads| == |s.hz|
  {
    var pc, h := s.q.threads[i].pc, s.hz[i];
    if Scans(h) then ScanStep(s, i)
    else if Protects(pc) && !h.published then
      s.(records := s.records + [i], hz := s.hz[i := h.(published := true, pos := |s.records|)])
    else if Protects(pc) && |h.slots| <= FirstFree(h.slots) then
      s.(q := Goto(s.q, i, Broken))
    else if pc.PushAlloc? then
      NewNode(s, i).(q := QueueStep(s, i))
    else if pc.PopRetire? then
      s.(q := QueueStep(s, i), m := Put(s.m, AddressOf(s.m, pc.h), Retired(i)),
         hz := s.hz[i := Retire(s.limit, h, AddressOf(s.m, pc.h))])
    else
      s.(q := QueueStep(s, i), m := PlaceEffect(s.q.g, s.m, i, pc), hz := s.hz[i := SlotEffect(s.m, pc, h)])
  }

  /** Thread exit: what is left on the retired list becomes orphaned. */
  function Exit(s: System, i: Tid): System
    requires i < |s.hz|
  {
    var h := s.hz[i];
    s.(orphans := s.orphans + h.retired, m := s.m.(place := Orphaned(s.m.place, i)),
       hz := s.hz[i := h.(retired := [], exited := true)])
  }

  function Orphaned(place: seq<Place>, i: Tid): seq<Place> {
    seq(|place|, a requires 0 <= a < |place| => if place[a] == Retired(i) then Orphan else place[a])
  }

  /**
   `drain`: the caller's retired nodes go to the pool unexamined, then the orphans are
   scanned.  It is called when no thread is inside a queue, so no slot is occupied and the
   scan lets every orphan go.
   */
  function Drain(s: System, i: Tid): System
    requires i < |s.hz|
  {
    s.(pool := s.pool + s.hz[i].retired + s.orphans, orphans := [],
       m := s.m.(place := Drained(s.m.place, i)), hz := s.hz[i := s.hz[i].(retired := [])])
  }

  function Drained(place: seq<Place>, i: Tid): seq<Place> {
    seq(|place|, a requires 0 <= a < |place| =>
      if place[a] == Retired(i) || place[a] == Orphan then Pooled else place[a])
  }

  datatype Move = Act(a: Action) | Leave(i: Tid) | Destroy(i: Tid)

  predicate Allowed(s: System, mv: Move) {
    |s.q.threads| == |s.hz| &&
    match mv
    case Act(a) => Enabled(s.q, a) && !s.hz[a.i].exited
    case Leave(i) => i < |s.hz| && s.q.threads[i].pc.Idle? && !s.hz[i].exited && s.lock == {}
    case Destroy(i) => i < |s.hz| && forall j :: 0 <= j < |s.hz| ==> s.q.threads[j].pc.Idle?
  }

  function Next(s: System, mv: Move): System
    requires Allowed(s, mv)
  {
    match mv
    case Act(a) => if a.Run? then SystemStep(s, a.i) else s.(q := Do(Ideal, s.q, a))
    case Leave(i) => Exit(s, i)
    case Destroy(i) => Drain(s, i)
  }

  ghost predicate Start(s: System) {
    && Init(s.q) && |s.hz| == |s.q.threads|
    && s.m == Mem([0], [0], [Linked])
    && (forall i :: 0 <= i < |s.hz| ==>
          s.hz[i] == Hazard(false, 0, [Free, Free, Free, Free], 0, 0, [], NoScan, false))
    && s.records == [] && s.orphans == [] && s.lock == {} && s.pool == []
  }

  /**
   Hypothesis H: the pool does not hand out the node a producer linked after while that
   producer is between its CAS of line 144 and its CAS of line 150.
   */
  ghost predicate RespectsH(s: System, mv: Move) {
    mv.Act? && mv.a.Run? && mv.a.i < |s.q.threads| && s.q.threads[mv.a.i].pc.PushAlloc? && s.pool != [] ==>
      forall j :: 0 <= j < |s.q.threads| && s.q.threads[j].pc.PushSwing? ==>
        AddressOf(s.m, s.q.threads[j].pc.t) != s.pool[|s.pool| - 1]
  }
}
