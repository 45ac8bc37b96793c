/**
 `TaskScheduler::schedule`, `cancel` and the cleaner (src/scheduler/taskscheduler.cpp) on top of the event loop
 of module `EventLoop` and the promises of module `Futures`, with the pool reduced to a queue and its workers.
 Threads are interleaved between any two critical sections, system calls and accesses to a promise.
 */
module Scheduler {
  import E = EventLoop
  import F = Futures

  type Id = nat
  type Reg = E.Reg

  /** A registry entry: the place of the timer handle, and the registration whose promise `onCancel` closes. */
  datatype Entry = Entry(slot: nat, reg: Reg)

  datatype Client =
    | Free
    | Registering(slot: nat, reg: Reg)              // eventloop.cpp:181-183
    | Entering(slot: nat, reg: Reg)                 // taskscheduler.cpp:134-136
    | Erasing(slot: nat, reg: Reg, user: bool)      // taskscheduler.cpp:108 or :83, handle.cpp:53
    | Shutting(slot: nat, reg: Reg, user: bool)     // handle.cpp:54
    | Cancelling(reg: Reg)                          // taskscheduler.cpp:117

  datatype Worker = Off | On(reg: Reg, pc: F.Pc)

  /**
   `cells[r]` is the promise of registration `r`; `fired` the shared flags; `cancelled`, a history variable, whose
   `onCancel` has run.
   */
  datatype State = State(w: E.World, timers: map<Id, Entry>, nextId: Id, cells: seq<F.Cell>, clients: seq<Client>,
                         tasks: seq<Reg>, workers: seq<Worker>, fired: set<Reg>, cancelled: set<Reg>)

  datatype Action =
    | Schedule(c: nat, slot: nat, fd: E.Fd)   // schedule: makes the promise and the timer's descriptor
    | Cancel(c: nat, id: Id)                  // cancel: finds and erases the entry
    | Clean(c: nat, id: Id)                   // the cleaner erases an entry whose timer has fired
    | Go(c: nat)                              // a client goes on
    | Poll(fds: seq<E.Fd>)
    | Loop
    | Pick(k: nat, o: F.Outcome)              // a worker takes a task, whose body will deliver `o`
    | Work(k: nat)

  /** What a client does to the loop next. */
  function LoopAction(cl: Client): E.Action {
    match cl
    case Registering(slot, _) => E.Register(slot)
    case Erasing(slot, _, _) => E.Unregister(slot)
    case Shutting(slot, _, _) => E.Close(slot)
    case _ => E.Advance
  }

  predicate UsesLoop(cl: Client) {
    cl.Registering? || cl.Erasing? || cl.Shutting?
  }

  predicate Enabled(s: State, a: Action) {
    match a
    case Schedule(c, slot, fd) => c < |s.clients| && s.clients[c].Free? && E.Enabled(s.w, E.Open(slot, fd))
    case Cancel(c, id) => c < |s.clients| && s.clients[c].Free?
    case Clean(c, id) => c < |s.clients| && s.clients[c].Free? && id in s.timers && s.timers[id].reg in s.fired
    case Go(c) =>
      && c < |s.clients| && !s.clients[c].Free?
      && (UsesLoop(s.clients[c]) ==> E.Enabled(s.w, LoopAction(s.clients[c])))
    case Poll(fds) => E.Enabled(s.w, E.Poll(fds))
    case Loop => E.Enabled(s.w, E.Advance)
    case Pick(k, _) => k < |s.workers| && s.workers[k].Off? && s.tasks != []
    case Work(k) => k < |s.workers| && s.workers[k].On?
  }

  function Erased(s: State, c: nat, id: Id, user: bool): State
    requires c < |s.clients| && id in s.timers
  {
    s.(timers := s.timers - {id}, clients := s.clients[c := Erasing(s.timers[id].slot, s.timers[id].reg, user)])
  }

  function Updated(cells: seq<F.Cell>, r: Reg, pc: F.Pc): seq<F.Cell> {
    if r < |cells| then cells[r := F.CellStep(cells[r], pc)] else cells
  }

  function CellAt(s: State, r: Reg): F.Cell {
    if r < |s.cells| then s.cells[r] else F.Fresh
  }

  function GoStep(s: State, c: nat): State
    requires c < |s.clients| && (UsesLoop(s.clients[c]) ==> E.Enabled(s.w, LoopAction(s.clients[c])))
  {
    match s.clients[c]
    case Free => s
    case Registering(slot, reg) =>
      s.(w := E.Do(s.w, E.Register(slot)), clients := s.clients[c := Entering(slot, reg)])
    case Entering(slot, reg) =>
      s.(timers := s.timers[s.nextId := Entry(slot, reg)], nextId := s.nextId + 1, clients := s.clients[c := Free])
    case Erasing(slot, reg, user) =>
      s.(w := E.Do(s.w, E.Unregister(slot)), clients := s.clients[c := Shutting(slot, reg, user)])
    case Shutting(slot, reg, user) =>
      s.(w := E.Do(s.w, E.Close(slot)), clients := s.clients[c := if user then Cancelling(reg) else Free])
    case Cancelling(reg) =>
      s.(cells := Updated(s.cells, reg, F.Closing), cancelled := s.cancelled + {reg}, clients := s.clients[c := Free])
  }

  /** The loop starts a callback: it puts the task into the pool and sets the fired flag. */
  function LoopStep(s: State): State
    requires E.Enabled(s.w, E.Advance)
  {
    var s' := s.(w := E.Do(s.w, E.Advance));
    if s.w.l.pc.InHand? then s'.(tasks := s.tasks + [s.w.l.pc.reg], fired := s.fired + {s.w.l.pc.reg}) else s'
  }

  function WorkStep(s: State, k: nat): State
    requires k < |s.workers| && s.workers[k].On?
  {
    var r, pc := s.workers[k].reg, s.workers[k].pc;
    var pc' := F.PcStep(CellAt(s, r), pc);
    s.(cells := Updated(s.cells, r, pc), workers := s.workers[k := if pc'.Idle? then Off else On(r, pc')])
  }

  function Do(s: State, a: Action): State
    requires Enabled(s, a)
  {
    match a
    case Schedule(c, slot, fd) =>
      s.(w := E.Do(s.w, E.Open(slot, fd)), cells := s.cells + [F.Fresh],
         clients := s.clients[c := Registering(slot, s.w.l.next)])
    case Cancel(c, id) => if id in s.timers then Erased(s, c, id, true) else s
    case Clean(c, id) => Erased(s, c, id, false)
    case Go(c) => GoStep(s, c)
    case Poll(fds) => s.(w := E.Do(s.w, E.Poll(fds)))
    case Loop => LoopStep(s)
    case Pick(k, o) => s.(tasks := s.tasks[1..], workers := s.workers[k := On(s.tasks[0], F.Claiming(o))])
    case Work(k) => WorkStep(s, k)
  }

  ghost predicate Init(s: State) {
    && E.Init(s.w) && s.timers == map[] && s.nextId == 1 && s.cells == [] && s.tasks == []
    && s.fired == {} && s.cancelled == {}
    && (forall c :: 0 <= c < |s.clients| ==> s.clients[c].Free?)
    && (forall k :: 0 <= k < |s.workers| ==> s.workers[k].Off?)
  }
}
