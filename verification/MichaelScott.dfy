/**
 The lock-free queue of include/miniruntime/task/michaelscottqueue.h as a state
 machine.  Every thread has a program counter (`Pc`); one step of a thread makes one
 access to shared memory, which is sequentially consistent.

 `Step` takes the memory as a parameter.  Under `Ideal` memory a node is never reused,
 so pointers are compared and dereferenced by identity.  Under `Recycled` memory
 pointers are addresses: two nodes that had the same address at different times compare
 equal, and a dereference reaches whichever node lives at the address now.  The same
 program text is thus run in both worlds; the module `Reclamation` relates them.
 */
module MichaelScott {
  type Value(==, !new)
  type Node = nat
  type Tid = nat
  type Address = nat

  /** `size_t` arithmetic wraps at this modulus. */
  const WORD := 0x1_0000_0000_0000_0000

  datatype Ptr = Null | To(node: Node)
  datatype Cell = Blank | Full(v: Value) | MovedFrom
  datatype Result = NoCall | Pushed(ok: bool) | Popped(v: Value) | Nothing

  /** The program counter of a thread, with the local variables live at that point. */
  datatype Pc =
    | Idle(result: Result)
    // emplace
    | PushCheck(v: Value)                        // :116
    | PushAlloc(v: Value)                        // :118-124
    | PushLoadTail(n: Node, v: Value)            // :127
    | PushProtect(n: Node, v: Value, t: Node)    // :128
    | PushRecheck(n: Node, v: Value, t: Node)    // :129
    | PushLoadNext(n: Node, v: Value, t: Node)   // :135
    | PushHelp(n: Node, v: Value, t: Node, x: Node) // :137
    | PushLink(n: Node, v: Value, t: Node)       // :144
    | PushDrop(n: Node, v: Value)                // :130, :139, :157
    | PushRelease(n: Node, t: Node)              // :147
    | PushSwing(n: Node, t: Node)                // :150
    | PushCount                                  // :153
    // tryPop, called in a loop by pop and timeoutPop
    | PopLoadHead                                // :181 (deadline test :96)
    | PopProtect(h: Node)                        // :182
    | PopRecheck(h: Node)                        // :183
    | PopDrop                                    // :184
    | PopLoadNext(h: Node)                       // :188
    | PopDropEmpty                               // :190
    | PopCheckClosed                             // :76, :100
    | PopProtectNext(h: Node, x: Node)           // :194
    | PopRecheckNext(h: Node, x: Node)           // :195
    | PopLoadTail(h: Node, x: Node)              // :202
    | PopHelp(h: Node, x: Node)                  // :204
    | PopDetach(h: Node, x: Node)                // :213
    | PopDropHead                                // :196, :206, :222
    | PopDropNext                                // :197, :207, :223
    | PopTake(h: Node, x: Node)                  // :215
    | PopCount(h: Node, v: Value)                // :216
    | PopRelease(h: Node, v: Value)              // :217
    | PopReleaseNext(h: Node, v: Value)          // :218
    | PopRetire(h: Node, v: Value)               // :219
    | PopScan(v: Value)                          // the scan inside retire
    | Broken                                     // reading a value that is not there

  /**
   `timed` tells timeoutPop from pop.  `start` and `fails` are history variables of the
   progress bound: the amount of work done in the queue when the current attempt began,
   and the number of failed attempts so far.
   */
  datatype Thread = Thread(pc: Pc, timed: bool, start: nat, fails: nat)

  /**
   `next`, `cell`, `head`, `tail`, `size`, `closed` are the queue's memory.  The other
   fields are history variables, written but never read by the algorithm: `order` lists
   the nodes in the order they were linked (the first dummy at index 0), `rank` is its
   inverse, `log` the values in the same order, `popped` and `swung` count the successful
   CASes on head and tail, `owner` is who allocated a node and `claim` who popped it.
   */
  datatype Store = Store(
    next: seq<Ptr>, cell: seq<Cell>, head: Node, tail: Node, size: nat, closed: bool,
    order: seq<Node>, rank: map<Node, nat>, log: seq<Value>, popped: nat, swung: nat,
    owner: seq<Tid>, claim: map<Node, Tid>)

  datatype Queue = Queue(g: Store, threads: seq<Thread>)

  datatype Memory =
    | Ideal
    | Recycled(addr: seq<Address>, cur: seq<Node>)

  predicate Same(m: Memory, a: Node, b: Node) {
    match m
    case Ideal => a == b
    case Recycled(addr, _) => if a < |addr| && b < |addr| then addr[a] == addr[b] else a == b
  }

  /** The node that lives at the address of `a`. */
  function Home(m: Memory, a: Node): Node {
    match m
    case Ideal => a
    case Recycled(addr, cur) => if a < |addr| && addr[a] < |cur| then cur[addr[a]] else a
  }

  function NextAt(m: Memory, g: Store, a: Node): Ptr {
    if Home(m, a) < |g.next| then g.next[Home(m, a)] else Null
  }

  function CellAt(m: Memory, g: Store, a: Node): Cell {
    if Home(m, a) < |g.cell| then g.cell[Home(m, a)] else Blank
  }

  /** Successful CASes so far: links, tail swings and head moves. */
  function Work(g: Store): nat {
    |g.log| + g.popped + g.swung
  }

  /** A new attempt: remember how much work had been done when it began. */
  function Begin(g: Store, th: Thread, pc: Pc): Thread {
    th.(pc := pc, start := Work(g))
  }

  /** A failed attempt: count it. */
  function Fail(th: Thread, pc: Pc): Thread {
    th.(pc := pc, fails := th.fails + 1)
  }

  function MoveTail(g: Store, x: Node): Store {
    g.(tail := x, swung := g.swung + 1)
  }

  function Allocate(g: Store, i: Tid, v: Value): Store {
    g.(next := g.next + [Null], cell := g.cell + [Full(v)], owner := g.owner + [i])
  }

  function Link(g: Store, at: Node, n: Node, v: Value): Store {
    g.(next := if at < |g.next| then g.next[at := To(n)] else g.next,
       order := g.order + [n], rank := g.rank[n := |g.order|], log := g.log + [v])
  }

  function Detach(g: Store, i: Tid, x: Node): Store {
    g.(head := x, popped := g.popped + 1, claim := g.claim[x := i])
  }

  function MoveOut(g: Store, at: Node): Store {
    g.(cell := if at < |g.cell| then g.cell[at := MovedFrom] else g.cell)
  }

  /** One step of thread `i` inside `emplace`. */
  function PushStep(m: Memory, g: Store, i: Tid, th: Thread): (Store, Thread) {
    match th.pc
    case PushCheck(v) =>
      (g, th.(pc := if g.closed then Idle(Pushed(false)) else PushAlloc(v)))
    case PushAlloc(v) =>
      (Allocate(g, i, v), th.(pc := PushLoadTail(|g.next|, v)))
    case PushLoadTail(n, v) =>
      (g, Begin(g, th, PushProtect(n, v, g.tail)))
    case PushProtect(n, v, t) =>
      (g, th.(pc := PushRecheck(n, v, t)))
    case PushRecheck(n, v, t) =>
      (g, if Same(m, g.tail, t) then th.(pc := PushLoadNext(n, v, g.tail)) else Fail(th, PushDrop(n, v)))
    case PushLoadNext(n, v, t) =>
      (match NextAt(m, g, t)
       case Null => (g, th.(pc := PushLink(n, v, t)))
       case To(x) => (g, th.(pc := PushHelp(n, v, t, x))))
    case PushHelp(n, v, t, x) =>
      (if Same(m, g.tail, t) then MoveTail(g, x) else g, Fail(th, PushDrop(n, v)))
    case PushLink(n, v, t) =>
      if NextAt(m, g, t) == Null
      then (Link(g, Home(m, t), n, v), th.(pc := PushRelease(n, t)))
      else (g, Fail(th, PushDrop(n, v)))
    case PushDrop(n, v) =>
      (g, th.(pc := PushLoadTail(n, v)))
    case PushRelease(n, t) =>
      (g, th.(pc := PushSwing(n, t)))
    case PushSwing(n, t) =>
      (if Same(m, g.tail, t) then MoveTail(g, n) else g, th.(pc := PushCount))
    case PushCount =>
      (g.(size := (g.size + 1) % WORD), th.(pc := Idle(Pushed(true))))
    case _ => (g, th)
  }

  /** One step of thread `i` inside `pop` or `timeoutPop`, up to the CAS on head. */
  function PopStep(m: Memory, g: Store, i: Tid, th: Thread): (Store, Thread) {
    match th.pc
    case PopLoadHead =>
      (g, Begin(g, th, PopProtect(g.head)))
    case PopProtect(h) =>
      (g, th.(pc := PopRecheck(h)))
    case PopRecheck(h) =>
      (g, if Same(m, g.head, h) then th.(pc := PopLoadNext(g.head)) else Fail(th, PopDrop))
    case PopDrop =>
      (g, th.(pc := PopLoadHead))
    case PopLoadNext(h) =>
      (match NextAt(m, g, h)
       case Null => (g, th.(pc := PopDropEmpty))
       case To(x) => (g, th.(pc := PopProtectNext(h, x))))
    case PopDropEmpty =>
      (g, th.(pc := PopCheckClosed))
    case PopCheckClosed =>
      (g, th.(pc := if g.closed then Idle(Nothing) else PopLoadHead))
    case PopProtectNext(h, x) =>
      (g, th.(pc := PopRecheckNext(h, x)))
    case PopRecheckNext(h, x) =>
      (g, if Same(m, g.head, h) then th.(pc := PopLoadTail(h, x)) else Fail(th, PopDropHead))
    case PopLoadTail(h, x) =>
      (g, th.(pc := if Same(m, g.tail, h) then PopHelp(h, x) else PopDetach(h, x)))
    case PopHelp(h, x) =>
      (if Same(m, g.tail, h) then MoveTail(g, x) else g, Fail(th, PopDropHead))
    case PopDetach(h, x) =>
      if Same(m, g.head, h)
      then (Detach(g, i, x), th.(pc := PopTake(h, x)))
      else (g, Fail(th, PopDropHead))
    case PopDropHead =>
      (g, th.(pc := PopDropNext))
    case PopDropNext =>
      (g, th.(pc := PopLoadHead))
    case _ => (g, th)
  }

  /** One step of thread `i` after its CAS on head: take the value out, retire the old dummy. */
  function FinishStep(m: Memory, g: Store, i: Tid, th: Thread): (Store, Thread) {
    match th.pc
    case PopTake(h, x) =>
      (match CellAt(m, g, x)
       case Full(v) => (MoveOut(g, Home(m, x)), th.(pc := PopCount(h, v)))
       case _ => (g, th.(pc := Broken)))
    case PopCount(h, v) =>
      (g.(size := (g.size + WORD - 1) % WORD), th.(pc := PopRelease(h, v)))
    case PopRelease(h, v) =>
      (g, th.(pc := PopReleaseNext(h, v)))
    case PopReleaseNext(h, v) =>
      (g, th.(pc := PopRetire(h, v)))
    case PopRetire(h, v) =>
      (g, th.(pc := PopScan(v)))
    case PopScan(v) =>
      (g, th.(pc := Idle(Popped(v))))
    case _ => (g, th)
  }

  function ThreadStep(m: Memory, g: Store, i: Tid, th: Thread): (Store, Thread) {
    if InPush(th.pc) then PushStep(m, g, i, th)
    else if InFinish(th.pc) then FinishStep(m, g, i, th)
    else PopStep(m, g, i, th)
  }

  function Step(m: Memory, s: Queue, i: Tid): Queue
    requires i < |s.threads|
  {
    var (g, th) := ThreadStep(m, s.g, i, s.threads[i]);
    Queue(g, s.threads[i := th])
  }

  predicate InPush(pc: Pc) {
    pc.PushCheck? || pc.PushAlloc? || pc.PushLoadTail? || pc.PushProtect? || pc.PushRecheck? ||
    pc.PushLoadNext? || pc.PushHelp? || pc.PushLink? || pc.PushDrop? || pc.PushRelease? ||
    pc.PushSwing? || pc.PushCount?
  }

  predicate InFinish(pc: Pc) {
    pc.PopTake? || pc.PopCount? || pc.PopRelease? || pc.PopReleaseNext? || pc.PopRetire? || pc.PopScan?
  }

  /** What may happen next: a thread runs, calls or gives up waiting, or the queue is closed. */
  datatype Action =
    | Run(i: Tid)
    | CallPush(i: Tid, v: Value)
    | CallPop(i: Tid, timed: bool)
    | Expire(i: Tid)
    | Close(i: Tid)

  predicate Enabled(s: Queue, a: Action) {
    match a
    case Run(i) => i < |s.threads| && !s.threads[i].pc.Idle?
    case CallPush(i, _) => i < |s.threads| && s.threads[i].pc.Idle?
    case CallPop(i, _) => i < |s.threads| && s.threads[i].pc.Idle?
    case Expire(i) => i < |s.threads| && s.threads[i].pc.PopLoadHead? && s.threads[i].timed
    case Close(i) => i < |s.threads|
  }

  function Goto(s: Queue, i: Tid, pc: Pc): Queue
    requires i < |s.threads|
  {
    s.(threads := s.threads[i := s.threads[i].(pc := pc)])
  }

  function Do(m: Memory, s: Queue, a: Action): Queue
    requires Enabled(s, a)
  {
    match a
    case Run(i) => Step(m, s, i)
    case CallPush(i, v) => Goto(s, i, PushCheck(v))
    case CallPop(i, timed) =>
      s.(threads := s.threads[i := s.threads[i].(pc := PopLoadHead, timed := timed)])
    case Expire(i) => Goto(s, i, Idle(Nothing))
    case Close(_) => s.(g := s.g.(closed := true))
  }

  /** The store after construction holds one dummy node. */
  ghost predicate NewStore(g: Store) {
    && g.next == [Null] && g.cell == [Blank] && g.head == g.tail == 0 && g.size == 0 && !g.closed
    && g.order == [0] && g.rank == map[0 := 0] && g.log == [] && g.popped == g.swung == 0
    && |g.owner| == 1 && g.claim == map[]
  }

  ghost predicate Init(s: Queue) {
    NewStore(s.g) && forall i :: 0 <= i < |s.threads| ==> s.threads[i] == Thread(Idle(NoCall), false, 0, 0)
  }
}
