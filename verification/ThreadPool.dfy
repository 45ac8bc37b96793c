/**
 The self-resizing pool of src/task/dynamicthreadpool.cpp as a state machine: its workers,
 the clients inside `enqueue`, and the destructor.  Time-outs may strike at any moment.
 Task bodies are single steps: they end, and they do not call into their own pool.
 */
module ThreadPool {
  type Task(==, !new)
  type Wid = nat

  datatype WorkerPc =
    | Top                  // :54
    | Popping              // :55
    | Running(t: Task)     // :58
    | Locking              // :70, with a time-out
    | Locked               // :73-81
    | Joining(z: Wid)      // :85, the move into the slot first joins the old zombie
    | Replacing            // :85-86
    | Leaving              // :90, the mutex is released on the way out
    | Ending               // nothing left but to end the thread
    | Exited

  datatype Worker = Worker(pc: WorkerPc, stop: bool)

  datatype ClientPc =
    | Away
    | Enqueuing(t: Task)   // :106, wants the mutex
    | Adjusting(t: Task)   // :108-117
    | Handing(t: Task)     // :167

  datatype DtorPc =
    | Alive
    | WantStop             // :144
    | Stopping             // :145-147
    | Closing              // :150
    | WantJoin             // :152
    | Joins(k: nat)        // :153-155
    | LastZombie           // destruction of the members
    | Gone

  datatype Holder = Nobody | HeldByWorker(w: Wid) | HeldByClient(i: nat) | HeldByDtor

  datatype Slot = NoZombie | Zombie(w: Wid)

  /** The threads not yet joined, in the vector or in the zombie slot, and the mutex that guards them. */
  datatype Roster = Roster(threads: seq<Wid>, zombie: Slot, joined: set<Wid>, mutex: Holder)

  /** The task queue.  `accepted`, `started` and `finished` are history variables. */
  datatype Jobs = Jobs(queue: seq<Task>, closed: bool, accepted: seq<Task>, started: seq<Task>,
      finished: multiset<Task>)

  /** Parameters of the pool; an unbounded queue ignores `cap`. */
  datatype Limits = Limits(min: nat, max: nat, bounded: bool, cap: nat)

  /** `workers` are all threads ever spawned. */
  datatype Pool = Pool(workers: seq<Worker>, r: Roster, j: Jobs, lim: Limits, clients: seq<ClientPc>, dtor: DtorPc)

  function StopAll(ws: seq<Worker>, ids: seq<Wid>): (r: seq<Worker>)
    ensures |r| == |ws|
    ensures forall w :: 0 <= w < |ws| ==> r[w] == (if w in ids then ws[w].(stop := true) else ws[w])
  {
    seq(|ws|, w requires 0 <= w < |ws| => if w in ids then ws[w].(stop := true) else ws[w])
  }

  function Without(ids: seq<Wid>, w: Wid): seq<Wid> {
    if ids == [] then [] else if ids[0] == w then ids[1..] else [ids[0]] + Without(ids[1..], w)
  }

  /** What a worker does to the roster; `go` chooses between success and time-out where both are possible. */
  function RosterStep(r: Roster, lim: Limits, w: Wid, pc: WorkerPc, go: bool): Roster {
    match pc
    case Locking => if go && r.mutex == Nobody then r.(mutex := HeldByWorker(w)) else r
    case Locked => if Stays(r, lim, w) then r.(mutex := Nobody) else r
    case Joining(z) => r.(zombie := NoZombie, joined := r.joined + {z})
    case Replacing => r.(zombie := Zombie(w), threads := Without(r.threads, w))
    case Leaving => r.(mutex := Nobody)
    case _ => r
  }

  /** The pool floor is reached, or the worker does not find itself in the vector. */
  predicate Stays(r: Roster, lim: Limits, w: Wid) {
    |r.threads| <= lim.min || w !in r.threads
  }

  function JobStep(j: Jobs, pc: WorkerPc, go: bool): Jobs {
    match pc
    case Popping => if go && j.queue != [] then j.(queue := j.queue[1..], started := j.started + [j.queue[0]]) else j
    case Running(t) => j.(finished := j.finished + multiset{t})
    case _ => j
  }

  function PcStep(r: Roster, j: Jobs, lim: Limits, w: Wid, wk: Worker, go: bool): WorkerPc {
    match wk.pc
    case Top => if wk.stop then Ending else Popping
    case Popping => if go && j.queue != [] then Running(j.queue[0]) else Locking
    case Running(_) => Top
    case Locking => if go && r.mutex == Nobody then Locked else Top
    case Locked =>
      if Stays(r, lim, w) then Top else if r.zombie == NoZombie then Replacing else Joining(r.zombie.w)
    case Joining(_) => Replacing
    case Replacing => Leaving
    case Leaving => Ending
    case Ending => Exited
    case Exited => Exited
  }

  /** The move into an occupied slot asks the old zombie to stop before it joins it. */
  function Stopped(r: Roster, lim: Limits, w: Wid, pc: WorkerPc): seq<Wid> {
    if pc.Locked? && !Stays(r, lim, w) && r.zombie.Zombie? then [r.zombie.w] else []
  }

  /** One step of worker `w`. */
  function WorkerStep(p: Pool, w: Wid, go: bool): Pool
    requires w < |p.workers|
  {
    var wk := p.workers[w];
    var ws := StopAll(p.workers, Stopped(p.r, p.lim, w, wk.pc));
    p.(workers := ws[w := ws[w].(pc := PcStep(p.r, p.j, p.lim, w, wk, go))],
       r := RosterStep(p.r, p.lim, w, wk.pc, go), j := JobStep(p.j, wk.pc, go))
  }

  /** A client grows the pool when it reads more than two tasks per thread and the cap is not reached. */
  predicate Grows(r: Roster, lim: Limits, n: nat) {
    n > 2 * |r.threads| && |r.threads| < lim.max
  }

  /** One step of client `i`; `n` is the queue size it reads. */
  function ClientStep(p: Pool, i: nat, n: nat): Pool
    requires i < |p.clients|
  {
    match p.clients[i]
    case Away => p
    case Enqueuing(t) => p.(clients := p.clients[i := Adjusting(t)], r := p.r.(mutex := HeldByClient(i)))
    case Adjusting(t) =>
      if Grows(p.r, p.lim, n) then
        p.(clients := p.clients[i := Handing(t)], workers := p.workers + [Worker(Top, false)],
           r := p.r.(mutex := Nobody, threads := p.r.threads + [|p.workers|]))
      else p.(clients := p.clients[i := Handing(t)], r := p.r.(mutex := Nobody))
    case Handing(t) =>
      p.(clients := p.clients[i := Away],
         j := if p.j.closed then p.j else p.j.(queue := p.j.queue + [t], accepted := p.j.accepted + [t]))
  }

  function DtorStep(p: Pool): Pool {
    match p.dtor
    case Alive => p.(dtor := WantStop)
    case WantStop => p.(dtor := Stopping, r := p.r.(mutex := HeldByDtor))
    case Stopping => p.(dtor := Closing, r := p.r.(mutex := Nobody), workers := StopAll(p.workers, p.r.threads))
    case Closing => p.(dtor := WantJoin, j := p.j.(closed := true))
    case WantJoin => p.(dtor := Joins(0), r := p.r.(mutex := HeldByDtor))
    case Joins(k) =>
      if k < |p.r.threads| then p.(dtor := Joins(k + 1), r := p.r.(joined := p.r.joined + {p.r.threads[k]}))
      else p.(dtor := LastZombie, r := p.r.(mutex := Nobody))
    case LastZombie =>
      p.(dtor := Gone,
         r := if p.r.zombie == NoZombie then p.r
              else p.r.(zombie := NoZombie, joined := p.r.joined + {p.r.zombie.w}))
    case Gone => p
  }

  datatype Action =
    | Work(w: Wid, go: bool)
    | Call(i: nat, t: Task)
    | Client(i: nat, n: nat)
    | Destroy

  predicate HasExited(p: Pool, w: Wid) {
    w < |p.workers| && p.workers[w].pc == Exited
  }

  /** The destructor runs when no client is inside `enqueue`, and none enters afterwards. */
  ghost predicate Enabled(p: Pool, a: Action) {
    match a
    case Work(w, _) =>
      && w < |p.workers| && p.workers[w].pc != Exited
      && (p.workers[w].pc.Joining? ==> HasExited(p, p.workers[w].pc.z))
    case Call(i, _) => i < |p.clients| && p.clients[i] == Away && p.dtor == Alive
    case Client(i, n) =>
      && i < |p.clients| && p.clients[i] != Away
      && (p.clients[i].Enqueuing? ==> p.r.mutex == Nobody)
      && (p.clients[i].Adjusting? && p.lim.bounded ==> n == |p.j.queue|)
      && (p.clients[i].Handing? ==> p.j.closed || !p.lim.bounded || |p.j.queue| < p.lim.cap)
    case Destroy =>
      match p.dtor
      case Alive => forall i :: 0 <= i < |p.clients| ==> p.clients[i] == Away
      case WantStop => p.r.mutex == Nobody
      case WantJoin => p.r.mutex == Nobody
      case Joins(k) => k < |p.r.threads| ==> HasExited(p, p.r.threads[k])
      case LastZombie => p.r.zombie.Zombie? ==> HasExited(p, p.r.zombie.w)
      case Gone => false
      case _ => true
  }

  function Do(p: Pool, a: Action): Pool
    requires (a.Work? ==> a.w < |p.workers|) && (a.Call? || a.Client? ==> a.i < |p.clients|)
  {
    match a
    case Work(w, go) => WorkerStep(p, w, go)
    case Call(i, t) => p.(clients := p.clients[i := Enqueuing(t)])
    case Client(i, n) => ClientStep(p, i, n)
    case Destroy => DtorStep(p)
  }

  /** The pool as the constructor leaves it. */
  ghost predicate Init(p: Pool) {
    && |p.workers| == |p.r.threads| == p.lim.min
    && (forall w :: 0 <= w < p.lim.min ==> p.workers[w] == Worker(Top, false) && p.r.threads[w] == w)
    && p.r.zombie == NoZombie && p.r.joined == {} && p.r.mutex == Nobody
    && p.j == Jobs([], false, [], [], multiset{}) && p.dtor == Alive
    && (forall i :: 0 <= i < |p.clients| ==> p.clients[i] == Away)
  }
}
