/** What becomes of the tasks: read off the calls of `enqueue`, none is lost, and each can be brought to its end. */
module ThreadPoolTasks {
  import opened ThreadPool
  import opened ThreadPoolTheorems
  import opened ThreadPoolShutdown
  import opened Counting

  // ---- Every called task is somewhere ----

  function Brought(c: ClientPc): multiset<Task> {
    if c.Away? then multiset{} else multiset{c.t}
  }

  /** The tasks that clients inside `enqueue` have not handed over. */
  function WithClients(cs: seq<ClientPc>): multiset<Task> {
    if cs == [] then multiset{} else Brought(cs[0]) + WithClients(cs[1..])
  }

  lemma {:induction false} WithClientsUpdate(cs: seq<ClientPc>, i: nat, c: ClientPc)
    requires i < |cs|
    ensures WithClients(cs[i := c]) + Brought(cs[i]) == WithClients(cs) + Brought(c)
  {
    if i == 0 {
      assert cs[i := c][1..] == cs[1..];
    } else {
      var rest := cs[1..];
      assert cs[i := c][1..] == rest[i - 1 := c];
      WithClientsUpdate(rest, i - 1, c);
      Regroup(Brought(cs[0]), WithClients(rest[i - 1 := c]), Brought(cs[i]), WithClients(rest), Brought(c));
    }
  }

  lemma {:induction false} NobodyBrings(cs: seq<ClientPc>)
    requires forall i :: 0 <= i < |cs| ==> cs[i].Away?
    ensures WithClients(cs) == multiset{}
  {
    if cs != [] {
      NobodyBrings(cs[1..]);
    }
  }

  function Asks(a: Action): multiset<Task> {
    if a.Call? then multiset{a.t} else multiset{}
  }

  /** The tasks of the first `k` actions that are calls of `enqueue`. */
  function Called(acts: seq<Action>, k: nat): multiset<Task>
    requires k <= |acts|
  {
    if k == 0 then multiset{} else Called(acts, k - 1) + Asks(acts[k - 1])
  }

  /** All places a task can be in. */
  function Everywhere(p: Pool): multiset<Task> {
    WithClients(p.clients) + multiset(p.j.queue) + InHand(p.workers) + p.j.finished
  }

  /** Only the client's last step adds to the accepted tasks. */
  lemma WorkerAccepts(p: Pool, w: Wid, go: bool)
    requires w < |p.workers|
    ensures WorkerStep(p, w, go).j.accepted == p.j.accepted && WorkerStep(p, w, go).clients == p.clients
  {
  }

  lemma DtorAccepts(p: Pool)
    ensures DtorStep(p).j.accepted == p.j.accepted && DtorStep(p).clients == p.clients
  {
  }

  lemma NotClosed(p: Pool, i: nat)
    requires Inv(p) && i < |p.clients| && !p.clients[i].Away?
    ensures !p.j.closed && p.dtor.Alive?
  {
  }

  lemma ClientAccepts(p: Pool, i: nat, n: nat)
    requires i < |p.clients| && !p.clients[i].Away? && !p.j.closed
    ensures var p', t := ClientStep(p, i, n), p.clients[i].t;
            && p'.clients == p.clients[i := p'.clients[i]]
            && (if p.clients[i].Handing? then p'.clients[i].Away? && p'.j.accepted == p.j.accepted + [t]
                else p'.j.accepted == p.j.accepted && !p'.clients[i].Away? && p'.clients[i].t == t)
  {
  }

  lemma Shift(all: multiset<Task>, all': multiset<Task>, t: Task, was: seq<Task>)
    requires all' + multiset{t} == all
    ensures all' + multiset(was + [t]) == all + multiset(was)
  {
    assert all' + multiset(was + [t]) == (all' + multiset{t}) + multiset(was);
  }

  lemma OneCall(p: Pool, a: Action)
    requires Inv(p) && Enabled(p, a) && Leads(p, a, Do(p, a))
    ensures var p' := Do(p, a);
            WithClients(p'.clients) + multiset(p'.j.accepted) ==
            WithClients(p.clients) + multiset(p.j.accepted) + Asks(a)
  {
    hide WorkerStep, ClientStep, DtorStep, WithClients, Inv;
    var p' := Do(p, a);
    match a {
      case Work(w, go) => WorkerAccepts(p, w, go);
      case Destroy => DtorAccepts(p);
      case Call(i, t) =>
        WithClientsUpdate(p.clients, i, Enqueuing(t));
        assert WithClients(p'.clients) == WithClients(p'.clients) + Brought(p.clients[i]);
      case Client(i, n) =>
        NotClosed(p, i);
        ClientAccepts(p, i, n);
        WithClientsUpdate(p.clients, i, p'.clients[i]);
        if p.clients[i].Handing? {
          Shift(WithClients(p.clients), WithClients(p'.clients), p.clients[i].t, p.j.accepted);
        } else {
          SameBrought(WithClients(p.clients), WithClients(p'.clients), p.clients[i].t);
        }
    }
  }

  lemma SameBrought(all: multiset<Task>, all': multiset<Task>, t: Task)
    requires all' + multiset{t} == all + multiset{t}
    ensures all' == all
  {
    forall x ensures all'[x] == all[x] {
      assert (all' + multiset{t})[x] == (all + multiset{t})[x];
    }
  }

  lemma Placed(p: Pool)
    requires Inv(p)
    ensures Everywhere(p) == WithClients(p.clients) + multiset(p.j.accepted)
  {
    hide RosterOk, WorkerOk, OthersOk, InHand, WithClients;
    assert multiset(p.j.started + p.j.queue) == multiset(p.j.started) + multiset(p.j.queue);
  }

  lemma EverywhereStep(p: Pool, a: Action)
    requires Inv(p) && Enabled(p, a) && Leads(p, a, Do(p, a))
    ensures Everywhere(Do(p, a)) == Everywhere(p) + Asks(a)
  {
    hide Inv, Enabled, Do, Everywhere;
    OneCall(p, a);
    Placed(p);
    ActionKeepsInv(p, a);
    Placed(Do(p, a));
  }

  lemma AtFirst(p: Pool)
    requires Init(p)
    ensures Everywhere(p) == multiset{}
  {
    NobodyBrings(p.clients);
    NoneInHand(p.workers);
    hide WithClients, InHand;
  }

  /**
   Whatever was ever passed to `enqueue` is with a client that is still inside the call, in the queue, being run, or
   finished; nothing else is.
   */
  lemma {:induction false} CalledTasksAreConserved(ps: seq<Pool>, acts: seq<Action>, k: nat)
    requires IsRun(ps, acts) && k < |ps|
    ensures Called(acts, k) == WithClients(ps[k].clients) + multiset(ps[k].j.queue) + InHand(ps[k].workers)
                               + ps[k].j.finished
  {
    hide Inv, Init, Do, Enabled, WithClients, InHand, Asks;
    if k == 0 {
      AtFirst(ps[0]);
    } else {
      CalledTasksAreConserved(ps, acts, k - 1);
      RunKeepsInv(ps, acts, k - 1);
      assert Leads(ps[k - 1], acts[k - 1], ps[(k - 1) + 1]);
      EverywhereStep(ps[k - 1], acts[k - 1]);
    }
  }

  // ---- Every called task can be finished ----

  /** Before the destructor begins nobody in the vector has been told to stop. */
  ghost predicate NobodyStopped(p: Pool) {
    p.dtor.Alive? ==> forall w: Wid :: w in p.r.threads && w < |p.workers| ==> !p.workers[w].stop
  }

  lemma WorkerStopsNobody(p: Pool, w: Wid, go: bool)
    requires Inv(p) && NobodyStopped(p) && Enabled(p, Work(w, go))
    ensures NobodyStopped(WorkerStep(p, w, go))
  {
    Basics(p, w, go);
    WorkerRoster(p.r, p.j, p.lim, p.dtor, |p.workers|, w, p.workers[w], go);
    assert RosterOk(p.r, p.lim, p.dtor, |p.workers|);
    if p.workers[w].pc.Replacing? { WithoutOk(p.r.threads, w); }
    hide WorkerOk, OthersOk, JobsOk, PcStep, JobStep, Without;
  }

  lemma ActionStopsNobody(p: Pool, a: Action)
    requires Inv(p) && NobodyStopped(p) && Enabled(p, a) && Leads(p, a, Do(p, a))
    ensures NobodyStopped(Do(p, a))
  {
    if a.Work? {
      WorkerStopsNobody(p, a.w, a.go);
      hide NobodyStopped;
    } else if p.dtor.Alive? {
      VectorIsOld(p);
      hide Inv;
    }
  }

  lemma VectorIsOld(p: Pool)
    requires Inv(p)
    ensures forall w: Wid :: w in p.r.threads ==> w < |p.workers|
  {
  }

  lemma {:induction false} RunStopsNobody(ps: seq<Pool>, acts: seq<Action>, k: nat)
    requires IsRun(ps, acts) && k < |ps|
    ensures NobodyStopped(ps[k])
  {
    hide Inv, Do, Enabled;
    if k > 0 {
      hide Init, NobodyStopped;
      RunStopsNobody(ps, acts, k - 1);
      RunKeepsInv(ps, acts, k - 1);
      assert Leads(ps[k - 1], acts[k - 1], ps[(k - 1) + 1]);
      ActionStopsNobody(ps[k - 1], acts[k - 1]);
    }
  }

  /** A floor of at least one worker, and a queue that can hold something. */
  predicate CanWork(lim: Limits) {
    1 <= lim.min && (lim.bounded ==> 1 <= lim.cap)
  }

  /** A pool before its destruction. */
  ghost predicate Serving(p: Pool) {
    Inv(p) && NobodyStopped(p) && p.dtor.Alive? && CanWork(p.lim)
  }

  predicate Quiet(a: Action) {
    a.Work? || a.Client?
  }

  lemma StillServing(p: Pool, a: Action)
    requires Serving(p) && Enabled(p, a) && Quiet(a)
    ensures Leads(p, a, Do(p, a)) && Serving(Do(p, a))
  {
    ActionKeepsInv(p, a);
    ActionStopsNobody(p, a);
    hide Inv, NobodyStopped, Enabled;
  }

  /** Nobody has a task in hand. */
  ghost predicate AllDone(p: Pool) {
    && (forall i :: 0 <= i < |p.clients| ==> p.clients[i].Away?) && p.j.queue == []
    && (forall w :: 0 <= w < |p.workers| ==> !p.workers[w].pc.Running?)
  }

  // What is still to do: the steps of clients and tasks, then of the holder of the mutex, then of the first worker.

  function ClientRank(c: ClientPc): nat {
    match c
    case Away => 0
    case Enqueuing(_) => 6
    case Adjusting(_) => 5
    case Handing(_) => 4
  }

  function ClientRanks(cs: seq<ClientPc>): nat {
    if cs == [] then 0 else ClientRank(cs[0]) + ClientRanks(cs[1..])
  }

  predicate Runs(wk: Worker) {
    wk.pc.Running?
  }

  function Todo(p: Pool): nat {
    ClientRanks(p.clients) + 3 * |p.j.queue| + Count(p.workers, Runs)
  }

  function HolderRank(p: Pool): nat {
    if p.r.mutex.HeldByWorker? && p.r.mutex.w < |p.workers| then
      match p.workers[p.r.mutex.w].pc
      case Locked => 6
      case Joining(z) => if HasExited(p, z) then 4 else 5
      case Replacing => 3
      case Leaving => 2
      case _ => 0
    else 0
  }

  function FirstRank(p: Pool): nat {
    if p.r.threads == [] || |p.workers| <= p.r.threads[0] then 0
    else match p.workers[p.r.threads[0]].pc
      case Top => 1
      case Locking => 2
      case _ => 0
  }

  predicate Less(p': Pool, p: Pool) {
    || Todo(p') < Todo(p)
    || (Todo(p') == Todo(p) && HolderRank(p') < HolderRank(p))
    || (Todo(p') == Todo(p) && HolderRank(p') == HolderRank(p) && FirstRank(p') < FirstRank(p))
  }

  lemma {:induction false} ClientRanksUpdate(cs: seq<ClientPc>, i: nat, c: ClientPc)
    requires i < |cs|
    ensures ClientRanks(cs[i := c]) + ClientRank(cs[i]) == ClientRanks(cs) + ClientRank(c)
  {
    if i == 0 {
      assert cs[i := c][1..] == cs[1..];
    } else {
      assert cs[i := c][1..] == cs[1..][i - 1 := c];
      ClientRanksUpdate(cs[1..], i - 1, c);
    }
  }

  lemma {:induction false} CountAppend(ws: seq<Worker>, wk: Worker)
    ensures Count(ws + [wk], Runs) == Count(ws, Runs) + One(Runs(wk))
  {
    if ws != [] {
      assert (ws + [wk])[1..] == ws[1..] + [wk];
      CountAppend(ws[1..], wk);
    }
  }

  /** A client's step is progress whenever it can be taken. */
  lemma ClientProgress(p: Pool, i: nat, n: nat)
    requires Inv(p) && Enabled(p, Client(i, n))
    ensures i < |p.clients| && Todo(ClientStep(p, i, n)) < Todo(p)
  {
    NotClosed(p, i);
    hide Inv, ClientRanks, Count;
    ClientRanksUpdate(p.clients, i, ClientStep(p, i, n).clients[i]);
    CountAppend(p.workers, Worker(Top, false));
  }

  lemma Recount(p: Pool, w: Wid, go: bool)
    requires w < |p.workers|
    ensures var p' := WorkerStep(p, w, go);
            Count(p'.workers, Runs) + One(Runs(p.workers[w])) == Count(p.workers, Runs) + One(Runs(p'.workers[w]))
  {
    hide Count, RosterStep, JobStep, PcStep, Stopped;
    var p', wk := WorkerStep(p, w, go), p.workers[w];
    var ws := StopAll(p.workers, Stopped(p.r, p.lim, w, wk.pc));
    CountSame(p.workers, ws, Runs);
    CountUpdate(ws, w, p'.workers[w], Runs);
  }

  lemma RunningProgress(p: Pool, w: Wid)
    requires w < |p.workers| && p.workers[w].pc.Running?
    ensures Enabled(p, Work(w, true)) && Less(WorkerStep(p, w, true), p)
  {
    Recount(p, w, true);
    hide Count, ClientRanks;
  }

  lemma PoppingProgress(p: Pool, w: Wid)
    requires w < |p.workers| && p.workers[w].pc.Popping? && p.j.queue != []
    ensures Enabled(p, Work(w, true)) && Less(WorkerStep(p, w, true), p)
  {
    Recount(p, w, true);
    hide Count, ClientRanks;
  }

  /** Steps of a worker that have nothing to do with tasks. */
  lemma SameTodo(p: Pool, w: Wid, go: bool)
    requires w < |p.workers| && !p.workers[w].pc.Running? && !p.workers[w].pc.Popping?
    ensures Todo(WorkerStep(p, w, go)) == Todo(p)
  {
    Recount(p, w, go);
    hide Count, ClientRanks, Stopped, RosterStep;
  }

  lemma HolderMoves(p: Pool, w: Wid)
    requires p.r.mutex == HeldByWorker(w) && w < |p.workers| && HoldsMutex(p.workers[w].pc)
    requires p.workers[w].pc.Joining? ==> HasExited(p, p.workers[w].pc.z) && p.workers[w].pc.z != w
    ensures Enabled(p, Work(w, true)) && HolderRank(WorkerStep(p, w, true)) < HolderRank(p)
  {
    hide JobStep, Without;
  }

  lemma ZombieMoves(p: Pool, w: Wid, z: Wid)
    requires p.r.mutex == HeldByWorker(w) && w < |p.workers| && p.workers[w].pc == Joining(z) && z != w
    requires z < |p.workers| && p.workers[z].pc.Ending?
    ensures Enabled(p, Work(z, true)) && HolderRank(WorkerStep(p, z, true)) < HolderRank(p)
  {
    hide JobStep, Without;
  }

  /** The holder of the mutex, or the thread that it joins, moves on. */
  lemma HolderNext(p: Pool, w: Wid) returns (v: Wid)
    requires Inv(p) && p.r.mutex == HeldByWorker(w)
    ensures v < |p.workers| && Enabled(p, Work(v, true)) && HolderRank(WorkerStep(p, v, true)) < HolderRank(p)
    ensures !p.workers[v].pc.Running? && !p.workers[v].pc.Popping?
  {
    Holds(p, w);
    v := w;
    if p.workers[w].pc.Joining? { ZombieCanMove(p, w); }
    hide Inv, HolderRank, WorkerStep, Enabled;
    if p.workers[w].pc.Joining? && !HasExited(p, p.workers[w].pc.z) {
      v := p.workers[w].pc.z;
      ZombieMoves(p, w, v);
    } else {
      HolderMoves(p, w);
    }
  }

  lemma HolderProgress(p: Pool, w: Wid) returns (v: Wid)
    requires Inv(p) && p.r.mutex == HeldByWorker(w)
    ensures Enabled(p, Work(v, true)) && Less(WorkerStep(p, v, true), p)
  {
    v := HolderNext(p, w);
    hide Inv, Todo, HolderRank, FirstRank, WorkerStep;
    SameTodo(p, v, true);
  }

  lemma Holds(p: Pool, w: Wid)
    requires Inv(p) && p.r.mutex == HeldByWorker(w)
    ensures w < |p.workers| && HoldsMutex(p.workers[w].pc)
    ensures p.workers[w].pc.Joining? ==> p.workers[w].pc.z != w
  {
    assert WorkerOk(p.r, p.lim, p.dtor, w, p.workers[w]);
  }

  /** With the mutex free, the first worker of the vector makes for the queue. */
  lemma FirstWorker(p: Pool)
    requires Serving(p) && p.r.mutex == Nobody
    ensures p.r.threads != [] && p.r.threads[0] < |p.workers|
    ensures var wk := p.workers[p.r.threads[0]];
            !wk.stop && (wk.pc.Top? || wk.pc.Popping? || wk.pc.Running? || wk.pc.Locking?)
  {
    var w := p.r.threads[0];
    assert w in p.r.threads;
    assert WorkerOk(p.r, p.lim, p.dtor, w, p.workers[w]);
  }

  lemma FirstProgress(p: Pool)
    requires Serving(p) && p.r.mutex == Nobody && p.j.queue != []
    ensures p.r.threads != [] && Enabled(p, Work(p.r.threads[0], p.workers[p.r.threads[0]].pc.Popping?))
    ensures Less(WorkerStep(p, p.r.threads[0], p.workers[p.r.threads[0]].pc.Popping?), p)
  {
    FirstWorker(p);
    hide Serving;
    var w := p.r.threads[0];
    if p.workers[w].pc.Popping? {
      PoppingProgress(p, w);
    } else if p.workers[w].pc.Running? {
      RunningProgress(p, w);
      RunningIgnoresGo(p, w);
    } else {
      SameTodo(p, w, false);
      hide Todo;
      FirstMoves(p, w);
    }
  }

  lemma RunningIgnoresGo(p: Pool, w: Wid)
    requires w < |p.workers| && p.workers[w].pc.Running?
    ensures WorkerStep(p, w, false) == WorkerStep(p, w, true)
  {
  }

  lemma FirstMoves(p: Pool, w: Wid)
    requires p.r.threads != [] && p.r.threads[0] == w < |p.workers| && p.r.mutex == Nobody && !p.workers[w].stop
    requires p.workers[w].pc.Top? || p.workers[w].pc.Locking?
    ensures HolderRank(WorkerStep(p, w, false)) == HolderRank(p) && FirstRank(WorkerStep(p, w, false)) < FirstRank(p)
  {
  }

  /** Who may have the mutex before the destructor begins. */
  lemma WhoHolds(p: Pool)
    requires Inv(p) && p.dtor.Alive?
    ensures !p.r.mutex.HeldByDtor?
    ensures p.r.mutex.HeldByClient? ==> p.r.mutex.i < |p.clients| && p.clients[p.r.mutex.i].Adjusting?
  {
  }

  /** Until all is done there is a step that brings the end nearer, and neither a call nor the destructor is needed. */
  lemma NextStep(p: Pool) returns (a: Action)
    requires Serving(p) && !AllDone(p)
    ensures Quiet(a) && Enabled(p, a) && Leads(p, a, Do(p, a)) && Less(Do(p, a), p)
  {
    WhoHolds(p);
    hide Inv, Todo, HolderRank, FirstRank, WorkerStep, ClientStep;
    if w :| 0 <= w < |p.workers| && p.workers[w].pc.Running? {
      RunningProgress(p, w);
      a := Work(w, true);
    } else if p.r.mutex.HeldByClient? {
      var i := p.r.mutex.i;
      a := Client(i, |p.j.queue|);
      ClientProgress(p, i, |p.j.queue|);
    } else if p.r.mutex.HeldByWorker? {
      var v := HolderProgress(p, p.r.mutex.w);
      a := Work(v, true);
    } else {
      a := FreeStep(p);
    }
  }

  lemma FreeStep(p: Pool) returns (a: Action)
    requires Serving(p) && !AllDone(p) && p.r.mutex == Nobody
    requires forall w :: 0 <= w < |p.workers| ==> !p.workers[w].pc.Running?
    ensures Quiet(a) && Enabled(p, a) && Leads(p, a, Do(p, a)) && Less(Do(p, a), p)
  {
    hide Todo, HolderRank, FirstRank, WorkerStep, ClientStep;
    if p.j.queue != [] {
      FirstProgress(p);
      FirstWorker(p);
      a := Work(p.r.threads[0], p.workers[p.r.threads[0]].pc.Popping?);
    } else {
      var i :| 0 <= i < |p.clients| && !p.clients[i].Away?;
      a := Client(i, 0);
      assert Enabled(p, a);
      ClientProgress(p, i, 0);
    }
  }

  ghost predicate IsPath(ps: seq<Pool>, acts: seq<Action>) {
    && |ps| == |acts| + 1
    && forall k :: 0 <= k < |acts| ==> Enabled(ps[k], acts[k]) && Leads(ps[k], acts[k], ps[k + 1])
  }

  /** Neither calls nor destruction. */
  ghost predicate IsQuiet(acts: seq<Action>) {
    forall k :: 0 <= k < |acts| ==> Quiet(acts[k])
  }

  lemma {:induction false} FinishesEverything(p: Pool) returns (ps: seq<Pool>, acts: seq<Action>)
    requires Serving(p)
    ensures IsPath(ps, acts) && IsQuiet(acts) && ps[0] == p && AllDone(ps[|acts|])
    ensures Inv(ps[|acts|]) && Everywhere(ps[|acts|]) == Everywhere(p)
    decreases Todo(p), HolderRank(p), FirstRank(p)
  {
    hide Enabled, Do, Inv, Todo, HolderRank, FirstRank, Everywhere;
    if AllDone(p) {
      ps, acts := [p], [];
    } else {
      var a := NextStep(p);
      StillServing(p, a);
      EverywhereStep(p, a);
      var rest, more := FinishesEverything(Do(p, a));
      ps, acts := [p] + rest, [a] + more;
      assert ps[|acts|] == rest[|more|];
    }
  }

  lemma AllFinished(p: Pool)
    requires Inv(p) && AllDone(p)
    ensures Everywhere(p) == p.j.finished
  {
    NobodyBrings(p.clients);
    NoneInHand(p.workers);
    hide Inv, WithClients, InHand;
  }

  /** From every moment of every run before the destruction, all tasks called so far can be brought to their end. */
  ghost predicate TasksCanFinish(lim: Limits) {
    forall ps: seq<Pool>, acts: seq<Action> ::
      IsRun(ps, acts) && ps[0].lim == lim && ps[|acts|].dtor.Alive? ==> CanFinish(ps[|acts|], Called(acts, |acts|))
  }

  /** Some continuation without further calls, and without destruction, finishes exactly `tasks`. */
  ghost predicate CanFinish(p: Pool, tasks: multiset<Task>) {
    exists ps: seq<Pool>, acts: seq<Action> ::
      IsPath(ps, acts) && IsQuiet(acts) && ps[0] == p && ps[|acts|].j.finished == tasks
  }

  lemma {:induction false} SameLimits(ps: seq<Pool>, acts: seq<Action>, k: nat)
    requires IsRun(ps, acts) && k < |ps|
    ensures ps[k].lim == ps[0].lim
  {
    hide Enabled;
    if k > 0 {
      SameLimits(ps, acts, k - 1);
      assert Leads(ps[k - 1], acts[k - 1], ps[(k - 1) + 1]);
    }
  }

  lemma CalledCanFinish(ps: seq<Pool>, acts: seq<Action>)
    requires IsRun(ps, acts) && CanWork(ps[0].lim) && ps[|acts|].dtor.Alive?
    ensures CanFinish(ps[|acts|], Called(acts, |acts|))
  {
    RunKeepsInv(ps, acts, |acts|);
    RunStopsNobody(ps, acts, |acts|);
    SameLimits(ps, acts, |acts|);
    CalledTasksAreConserved(ps, acts, |acts|);
    hide Enabled, Do, Inv, Init, IsPath, NobodyStopped;
    var rest, more := FinishesEverything(ps[|acts|]);
    AllFinished(rest[|more|]);
  }

  /** A pool in which nobody has touched a task, and nobody can. */
  ghost predicate Stuck(p: Pool) {
    && p.j.finished == multiset{} && !p.j.closed && (p.j.queue == [] || p.workers == [])
    && (forall w :: 0 <= w < |p.workers| ==> !p.workers[w].pc.Running?)
    && (forall i :: 0 <= i < |p.clients| ==>
          p.clients[i].Away? || (p.clients[i].Handing? && p.lim.bounded && p.lim.cap == 0))
  }

  lemma StuckStep(p: Pool, a: Action)
    requires Stuck(p) && Enabled(p, a) && Quiet(a) && Leads(p, a, Do(p, a))
    ensures Stuck(Do(p, a))
  {
    hide RosterStep, Stopped;
  }

  lemma {:induction false} StuckStays(ps: seq<Pool>, acts: seq<Action>, k: nat)
    requires IsPath(ps, acts) && IsQuiet(acts) && Stuck(ps[0]) && k < |ps|
    ensures Stuck(ps[k])
  {
    hide Stuck, Enabled, Do;
    if k > 0 {
      StuckStays(ps, acts, k - 1);
      assert Leads(ps[k - 1], acts[k - 1], ps[(k - 1) + 1]);
      StuckStep(ps[k - 1], acts[k - 1]);
    }
  }

  /** One client, which is bringing or has brought a task, and a pool of the minimal size. */
  function Scene(lim: Limits, c: ClientPc, mutex: Holder, queue: seq<Task>): Pool {
    Pool(seq(lim.min, _ => Worker(Top, false)), Roster(seq(lim.min, w => w), NoZombie, {}, mutex),
         Jobs(queue, false, queue, [], multiset{}), lim, [c], Alive)
  }

  lemma Initially(lim: Limits)
    ensures IsRun([Scene(lim, Away, Nobody, [])], [])
  {
  }

  lemma Then(ps: seq<Pool>, acts: seq<Action>, a: Action, p': Pool) returns (ps': seq<Pool>, acts': seq<Action>)
    requires IsRun(ps, acts) && Enabled(ps[|acts|], a) && Leads(ps[|acts|], a, p')
    ensures IsRun(ps', acts') && |ps'| == |acts'| + 1 && ps'[|acts'|] == p' && ps'[0] == ps[0]
    ensures Called(acts', |acts'|) == Called(acts, |acts|) + Asks(a)
  {
    hide Do, Enabled, Init, Asks;
    ps', acts' := ps + [p'], acts + [a];
    forall k | 0 <= k < |acts'| ensures Enabled(ps'[k], acts'[k]) && Leads(ps'[k], acts'[k], ps'[k + 1]) {
      if k < |acts| { assert Leads(ps[k], acts[k], ps[k + 1]); }
    }
    CalledSame(acts, acts', |acts|);
  }

  lemma {:induction false} CalledSame(acts: seq<Action>, acts': seq<Action>, k: nat)
    requires k <= |acts| && acts <= acts'
    ensures Called(acts', k) == Called(acts, k)
  {
    if k > 0 {
      CalledSame(acts, acts', k - 1);
    }
  }

  /**
   A single call, in a pool with a floor of no workers, leaves its task in the queue as long as there is no other call;
   and if the queue can hold nothing the call never returns.
   */
  lemma NeverRuns(lim: Limits, t: Task) returns (ps: seq<Pool>, acts: seq<Action>)
    requires !CanWork(lim)
    ensures IsRun(ps, acts) && |ps| == |acts| + 1 && ps[0].lim == lim && Called(acts, |acts|) == multiset{t}
    ensures ps[|acts|].dtor.Alive? && Stuck(ps[|acts|])
  {
    hide IsRun, Scene, Enabled, Leads, Stuck;
    ps, acts := [Scene(lim, Away, Nobody, [])], [];
    Initially(lim);
    SceneStuck(lim, t);
    SceneCalls(lim, t);
    ps, acts := Then(ps, acts, Call(0, t), Scene(lim, Enqueuing(t), Nobody, []));
    ps, acts := Then(ps, acts, Client(0, 0), Scene(lim, Adjusting(t), HeldByClient(0), []));
    ps, acts := Then(ps, acts, Client(0, 0), Scene(lim, Handing(t), Nobody, []));
    if !lim.bounded || lim.cap > 0 {
      SceneHands(lim, t);
      ps, acts := Then(ps, acts, Client(0, 0), Scene(lim, Away, Nobody, [t]));
    }
    assert multiset{} + Asks(Call(0, t)) + Asks(Client(0, 0)) + Asks(Client(0, 0)) + Asks(Client(0, 0)) == multiset{t};
  }

  lemma SceneCalls(lim: Limits, t: Task)
    ensures Enabled(Scene(lim, Away, Nobody, []), Call(0, t))
    ensures Leads(Scene(lim, Away, Nobody, []), Call(0, t), Scene(lim, Enqueuing(t), Nobody, []))
    ensures Enabled(Scene(lim, Enqueuing(t), Nobody, []), Client(0, 0))
    ensures Leads(Scene(lim, Enqueuing(t), Nobody, []), Client(0, 0), Scene(lim, Adjusting(t), HeldByClient(0), []))
    ensures Enabled(Scene(lim, Adjusting(t), HeldByClient(0), []), Client(0, 0))
    ensures Leads(Scene(lim, Adjusting(t), HeldByClient(0), []), Client(0, 0), Scene(lim, Handing(t), Nobody, []))
  {
  }

  lemma SceneHands(lim: Limits, t: Task)
    requires !lim.bounded || lim.cap > 0
    ensures Enabled(Scene(lim, Handing(t), Nobody, []), Client(0, 0))
    ensures Leads(Scene(lim, Handing(t), Nobody, []), Client(0, 0), Scene(lim, Away, Nobody, [t]))
  {
  }

  lemma SceneStuck(lim: Limits, t: Task)
    requires !CanWork(lim)
    ensures Scene(lim, Away, Nobody, []).lim == lim
    ensures Scene(lim, Handing(t), Nobody, []).dtor.Alive? && Scene(lim, Away, Nobody, [t]).dtor.Alive?
    ensures lim.bounded && lim.cap == 0 ==> Stuck(Scene(lim, Handing(t), Nobody, []))
    ensures lim.min == 0 ==> Stuck(Scene(lim, Away, Nobody, [t]))
  {
  }

  /**
   Tasks can always be finished exactly when the floor is at least one worker and the queue can hold something.  With a
   floor of none, the size that the first call reads never exceeds twice the number of threads.
   */
  lemma TasksCanFinishIff(lim: Limits, t: Task)
    ensures TasksCanFinish(lim) <==> CanWork(lim)
  {
    hide Enabled, Do, Init, IsPath, Stuck, CanWork;
    if CanWork(lim) {
      forall ps: seq<Pool>, acts: seq<Action> | IsRun(ps, acts) && ps[0].lim == lim && ps[|acts|].dtor.Alive?
        ensures CanFinish(ps[|acts|], Called(acts, |acts|))
      {
        CalledCanFinish(ps, acts);
      }
    } else {
      var ps, acts := NeverRuns(lim, t);
      StuckCannotFinish(ps[|acts|], t);
    }
  }

  lemma StuckCannotFinish(p: Pool, t: Task)
    requires Stuck(p)
    ensures !CanFinish(p, multiset{t})
  {
    assert t in multiset{t};
    forall ps: seq<Pool>, acts: seq<Action> | IsPath(ps, acts) && IsQuiet(acts) && ps[0] == p
      ensures ps[|acts|].j.finished == multiset{}
    {
      StuckStays(ps, acts, |acts|);
    }
  }
}
