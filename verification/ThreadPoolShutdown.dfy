/** What the thread pool guarantees over whole runs: conservation, and termination of its shutdown. */
module ThreadPoolShutdown {
  import opened ThreadPool
  import opened ThreadPoolTheorems
  import opened Counting

  // ---- Conservation ----

  /**
   The number of the three places that hold thread `w`: the part of the vector not yet joined, the zombie slot, the
   joined ones.
   */
  function PlacesOf(p: Pool, w: Wid): nat {
    (if w in p.r.threads && w !in p.r.joined then 1 else 0)
    + (if p.r.zombie == Zombie(w) then 1 else 0)
    + (if w in p.r.joined then 1 else 0)
  }

  /**
   In every reachable state the size of the pool is between the floor and the cap, and every thread
   ever spawned is in exactly one place.  A thread that was joined has ended, and nobody waits for itself.
   */
  lemma ThreadsAreConserved(ps: seq<Pool>, acts: seq<Action>, k: nat)
    requires IsRun(ps, acts) && k < |ps|
    ensures var p := ps[k];
            && p.lim.min <= |p.r.threads| <= Max(p.lim.min, p.lim.max)
            && (forall w: Wid :: w < |p.workers| ==> PlacesOf(p, w) == 1)
            && (forall w: Wid :: w < |p.workers| && w in p.r.joined ==> p.workers[w].pc.Exited?)
            && (forall w: Wid :: w < |p.workers| && p.workers[w].pc.Joining? ==> p.workers[w].pc.z != w)
            && (p.r.zombie.Zombie? && p.r.zombie.w < |p.workers| ==>
                 p.workers[p.r.zombie.w].pc.Leaving? || Past(p.workers[p.r.zombie.w].pc))
  {
    RunKeepsInv(ps, acts, k);
    var p := ps[k];
    forall w: Wid | w < |p.workers|
      ensures WorkerOk(p.r, p.lim, p.dtor, w, p.workers[w])
    {
    }
  }

  /**
   Tasks are started in the order of acceptance, each once; what has not started is still queued, what has started runs
   or has finished.
   */
  lemma TasksAreConserved(ps: seq<Pool>, acts: seq<Action>, k: nat)
    requires IsRun(ps, acts) && k < |ps|
    ensures var j := ps[k].j;
            && j.accepted == j.started + j.queue
            && multiset(j.accepted) == multiset(j.queue) + InHand(ps[k].workers) + j.finished
  {
    RunKeepsInv(ps, acts, k);
    hide RosterOk, WorkerOk, OthersOk, InHand;
    var j := ps[k].j;
    assert multiset(j.started + j.queue) == multiset(j.started) + multiset(j.queue);
  }

  // ---- Nobody is stuck ----

  /** A thread that the holder of the mutex waits for has let go of the mutex for good, and can move. */
  lemma ZombieCanMove(p: Pool, w: Wid)
    requires Inv(p) && w < |p.workers| && p.workers[w].pc.Joining?
    ensures var z := p.workers[w].pc.z;
            z < |p.workers| && Past(p.workers[z].pc) && (HasExited(p, z) || Enabled(p, Work(z, true)))
  {
    assert WorkerOk(p.r, p.lim, p.dtor, w, p.workers[w]);
    var z := p.workers[w].pc.z;
    assert WorkerOk(p.r, p.lim, p.dtor, z, p.workers[z]);
  }

  /** While the destructor joins, a worker that wants the mutex can still give up and go on. */
  lemma WorkerCanMove(p: Pool, w: Wid)
    requires Inv(p) && w < |p.workers| && !p.workers[w].pc.Exited?
    ensures exists v: Wid :: Enabled(p, Work(v, false))
  {
    if p.workers[w].pc.Joining? {
      ZombieCanMove(p, w);
      var z := p.workers[w].pc.z;
      assert Enabled(p, Work(if HasExited(p, z) then w else z, false));
    } else {
      assert Enabled(p, Work(w, false));
    }
  }

  /** As long as the destructor has not come to its end, it can move, or a worker can. */
  lemma DestructionIsNeverStuck(p: Pool)
    requires Inv(p) && !p.dtor.Alive? && !p.dtor.Gone?
    ensures Enabled(p, Destroy) || exists v: Wid :: Enabled(p, Work(v, false))
  {
    if !Enabled(p, Destroy) {
      var w: Wid;
      match p.dtor {
        case WantStop => w := Holding(p);
        case WantJoin => w := Holding(p);
        case Joins(k) => w := p.r.threads[k];
        case LastZombie => w := p.r.zombie.w;
      }
      WorkerCanMove(p, w);
    }
  }

  /** The mutex is held by a worker when neither a client nor the destructor can hold it. */
  ghost function Holding(p: Pool): (w: Wid)
    requires Inv(p) && !p.dtor.Alive? && !p.dtor.Stopping? && !p.dtor.Joins? && p.r.mutex != Nobody
    ensures w < |p.workers| && !p.workers[w].pc.Exited?
  {
    var w := p.r.mutex.w;
    assert WorkerOk(p.r, p.lim, p.dtor, w, p.workers[w]);
    w
  }

  // ---- Shutdown terminates ----

  /** How many steps a stopped worker has left at most. */
  function Rank(pc: WorkerPc): nat {
    match pc
    case Exited => 0
    case Ending => 1
    case Leaving => 2
    case Top => 2
    case Replacing => 3
    case Running(_) => 3
    case Joining(_) => 4
    case Locked => 5
    case Locking => 6
    case Popping => 7
  }

  function Ranks(ws: seq<Worker>): nat {
    if ws == [] then 0 else Rank(ws[0].pc) + Ranks(ws[1..])
  }

  function DtorRank(d: DtorPc, n: nat): nat {
    match d
    case Closing => n + 4
    case WantJoin => n + 3
    case Joins(k) => if k < n then n - k + 2 else 2
    case LastZombie => 1
    case Gone => 0
    case _ => n + 5
  }

  /** An upper bound on the steps left in the whole pool. */
  function StepsLeft(p: Pool): nat {
    Ranks(p.workers) + DtorRank(p.dtor, |p.r.threads|)
  }

  lemma {:induction false} RanksUpdate(ws: seq<Worker>, w: Wid, wk: Worker)
    requires w < |ws|
    ensures Ranks(ws[w := wk]) + Rank(ws[w].pc) == Ranks(ws) + Rank(wk.pc)
  {
    if w == 0 {
      assert ws[w := wk][1..] == ws[1..];
    } else {
      assert ws[w := wk][1..] == ws[1..][w - 1 := wk];
      RanksUpdate(ws[1..], w - 1, wk);
    }
  }

  lemma {:induction false} RanksSame(ws: seq<Worker>, ws': seq<Worker>)
    requires |ws| == |ws'| && forall w :: 0 <= w < |ws| ==> ws'[w].pc == ws[w].pc
    ensures Ranks(ws') == Ranks(ws)
  {
    if ws != [] {
      RanksSame(ws[1..], ws'[1..]);
    }
  }

  lemma {:induction false} RanksBound(ws: seq<Worker>)
    ensures Ranks(ws) <= 7 * |ws|
  {
    if ws != [] {
      RanksBound(ws[1..]);
    }
  }

  /** After the stop requests a worker that is still in its loop has been told to stop. */
  lemma StoppedOrPast(p: Pool, w: Wid)
    requires Inv(p) && StopsRequested(p.dtor) && w < |p.workers|
    ensures p.workers[w].stop || p.workers[w].pc.Leaving? || Past(p.workers[w].pc)
  {
    assert WorkerOk(p.r, p.lim, p.dtor, w, p.workers[w]);
  }

  lemma PcDescends(r: Roster, j: Jobs, lim: Limits, w: Wid, wk: Worker, go: bool)
    requires !wk.pc.Exited? && (wk.stop || wk.pc.Leaving? || Past(wk.pc))
    ensures Rank(PcStep(r, j, lim, w, wk, go)) < Rank(wk.pc)
  {
  }

  lemma RosterShrinks(r: Roster, lim: Limits, d: DtorPc, n: nat, w: Wid, pc: WorkerPc, go: bool)
    requires RosterOk(r, lim, d, n)
    ensures |RosterStep(r, lim, w, pc, go).threads| <= |r.threads|
  {
    WithoutOk(r.threads, w);
    WithoutAbsent(r.threads, w);
  }

  lemma {:induction false} WithoutAbsent(ids: seq<Wid>, w: Wid)
    ensures |Without(ids, w)| <= |ids|
  {
    if ids != [] {
      WithoutAbsent(ids[1..], w);
    }
  }

  lemma WorkerDescends(p: Pool, w: Wid, go: bool)
    requires Inv(p) && StopsRequested(p.dtor) && Enabled(p, Work(w, go))
    ensures StepsLeft(WorkerStep(p, w, go)) < StepsLeft(p)
  {
    StoppedOrPast(p, w);
    RosterShrinks(p.r, p.lim, p.dtor, |p.workers|, w, p.workers[w].pc, go);
    hide Inv, Ranks, Rank, RosterStep, JobStep, PcStep, Stopped;
    var p', wk := WorkerStep(p, w, go), p.workers[w];
    var ws := StopAll(p.workers, Stopped(p.r, p.lim, w, wk.pc));
    RanksSame(p.workers, ws);
    RanksUpdate(ws, w, p'.workers[w]);
    PcDescends(p.r, p.j, p.lim, w, wk, go);
  }

  lemma DtorDescends(p: Pool)
    requires Inv(p) && StopsRequested(p.dtor) && Enabled(p, Destroy)
    ensures StepsLeft(DtorStep(p)) < StepsLeft(p)
  {
    hide RosterOk, WorkerOk, OthersOk, JobsOk, Ranks, StopAll;
  }

  /** After the stop requests no step can be taken for nothing: each brings the end of the pool nearer. */
  lemma EveryStepDescends(p: Pool, a: Action)
    requires Inv(p) && StopsRequested(p.dtor) && Enabled(p, a)
    ensures Leads(p, a, Do(p, a)) && StopsRequested(Do(p, a).dtor) && StepsLeft(Do(p, a)) < StepsLeft(p)
  {
    hide RosterOk, WorkerOk, JobsOk, StepsLeft;
    InRange(p, a);
    match a {
      case Work(w, go) => WorkerDescends(p, w, go);
      case Call(i, t) => assert false;
      case Client(i, n) => assert false;
      case Destroy => DtorDescends(p);
    }
  }

  lemma {:induction false} ShutdownDescends(ps: seq<Pool>, acts: seq<Action>, a: nat, b: nat)
    requires IsRun(ps, acts) && a <= b < |ps| && StopsRequested(ps[a].dtor)
    ensures StopsRequested(ps[b].dtor) && b - a + StepsLeft(ps[b]) <= StepsLeft(ps[a])
  {
    hide Inv, Init, Do, Enabled, StepsLeft, StopsRequested;
    if a < b {
      ShutdownDescends(ps, acts, a, b - 1);
      RunKeepsInv(ps, acts, b - 1);
      assert Leads(ps[b - 1], acts[b - 1], ps[(b - 1) + 1]);
      EveryStepDescends(ps[b - 1], acts[b - 1]);
    }
  }

  /**
   Shutdown terminates, whatever the scheduler does: once the stop requests are out, at most seven
   steps per thread ever spawned and a few of the destructor are left in the whole run, and a run
   that can go no further has brought the destructor to its end.
   */
  lemma ShutdownTerminates(ps: seq<Pool>, acts: seq<Action>, a: nat)
    requires IsRun(ps, acts) && a < |ps| && StopsRequested(ps[a].dtor)
    ensures |acts| - a <= 7 * |ps[a].workers| + |ps[a].r.threads| + 4
    ensures (forall x :: !Enabled(ps[|acts|], x)) ==> ps[|acts|].dtor.Gone?
  {
    hide Inv, Init, Do, Enabled, Ranks;
    ShutdownDescends(ps, acts, a, |acts|);
    RanksBound(ps[a].workers);
    RunKeepsInv(ps, acts, |acts|);
    if !ps[|acts|].dtor.Gone? { DestructionIsNeverStuck(ps[|acts|]); }
  }

  // ---- At most one more task ----

  /** The step in which worker `w` takes a task out of the queue. */
  ghost predicate StartsTask(p: Pool, a: Action, w: Wid) {
    a.Work? && a.w == w && w < |p.workers| && p.workers[w].pc.Popping? && a.go && p.j.queue != []
  }

  predicate Beyond(wk: Worker) {
    !wk.pc.Popping? && (wk.stop || wk.pc.Leaving? || Past(wk.pc))
  }

  lemma BeyondIsStable(p: Pool, a: Action, w: Wid)
    requires Inv(p) && StopsRequested(p.dtor) && Enabled(p, a) && w < |p.workers| && Leads(p, a, Do(p, a))
    requires Beyond(p.workers[w]) || StartsTask(p, a, w)
    ensures w < |Do(p, a).workers| && Beyond(Do(p, a).workers[w])
  {
    StoppedOrPast(p, w);
    hide RosterOk, WorkerOk, JobsOk, RosterStep, JobStep, Stopped;
  }

  lemma {:induction false} BeyondFrom(ps: seq<Pool>, acts: seq<Action>, w: Wid, a: nat, b: nat)
    requires IsRun(ps, acts) && a < b < |ps| && StopsRequested(ps[a].dtor) && StartsTask(ps[a], acts[a], w)
    ensures w < |ps[b].workers| && Beyond(ps[b].workers[w])
  {
    hide Inv, Init, Do, Enabled, StopsRequested, Beyond;
    if a + 1 < b { BeyondFrom(ps, acts, w, a, b - 1); }
    RunKeepsInv(ps, acts, b - 1);
    ShutdownDescends(ps, acts, a, b - 1);
    assert Leads(ps[b - 1], acts[b - 1], ps[(b - 1) + 1]);
    BeyondIsStable(ps[b - 1], acts[b - 1], w);
  }

  /** After the stop requests no worker starts two tasks. */
  lemma AtMostOneMoreTask(ps: seq<Pool>, acts: seq<Action>, w: Wid, a: nat, b: nat)
    requires IsRun(ps, acts) && a < b < |acts| && StopsRequested(ps[a].dtor)
    ensures !(StartsTask(ps[a], acts[a], w) && StartsTask(ps[b], acts[b], w))
  {
    hide Init, Do, Enabled;
    if StartsTask(ps[a], acts[a], w) { BeyondFrom(ps, acts, w, a, b); }
  }

  // ---- What destruction leaves behind ----

  predicate Winding(p: Pool) {
    p.dtor.LastZombie? || p.dtor.Gone?
  }

  predicate LastOk(p: Pool) {
    (Winding(p) ==> p.r.mutex == Nobody) && (p.dtor.Gone? ==> p.r.zombie == NoZombie)
  }

  lemma VectorIsJoined(p: Pool, w: Wid)
    requires Inv(p) && LastOk(p) && Winding(p) && w < |p.workers|
    ensures w in p.r.joined || p.r.zombie == Zombie(w)
    ensures Past(p.workers[w].pc) && (w in p.r.joined ==> p.workers[w].pc.Exited?)
  {
    hide JobsOk, InHand, OthersOk;
    assert WorkerOk(p.r, p.lim, p.dtor, w, p.workers[w]);
    if w in p.r.threads {
      var k :| 0 <= k < |p.r.threads| && p.r.threads[k] == w;
      assert p.r.threads[k] in p.r.joined;
    }
  }

  lemma LastIsKept(p: Pool, a: Action)
    requires Inv(p) && LastOk(p) && Enabled(p, a) && Leads(p, a, Do(p, a))
    ensures LastOk(Do(p, a))
  {
    if Winding(p) && a.Work? { VectorIsJoined(p, a.w); }
    hide RosterOk, WorkerOk, JobsOk;
  }

  lemma {:induction false} RunKeepsLast(ps: seq<Pool>, acts: seq<Action>, k: nat)
    requires IsRun(ps, acts) && k < |ps|
    ensures LastOk(ps[k])
  {
    hide Inv, Do, Enabled;
    if k > 0 {
      RunKeepsLast(ps, acts, k - 1);
      RunKeepsInv(ps, acts, k - 1);
      assert Leads(ps[k - 1], acts[k - 1], ps[(k - 1) + 1]);
      LastIsKept(ps[k - 1], acts[k - 1]);
    }
  }

  /**
   When the vector has been joined nobody needs the mutex any more, so that destroying it is safe.
   At the very end every thread was joined, every started task has finished, and the tasks dropped
   with the queue are exactly those that no worker had started.
   */
  lemma AfterDestruction(ps: seq<Pool>, acts: seq<Action>, k: nat)
    requires IsRun(ps, acts) && k < |ps| && Winding(ps[k])
    ensures var p := ps[k];
            && p.r.mutex == Nobody
            && (forall w: Wid :: w < |p.workers| ==> Past(p.workers[w].pc))
            && multiset(p.j.started) == p.j.finished && p.j.accepted == p.j.started + p.j.queue
            && (p.dtor.Gone? ==> forall w: Wid :: w < |p.workers| ==> w in p.r.joined && p.workers[w].pc.Exited?)
  {
    RunKeepsInv(ps, acts, k);
    RunKeepsLast(ps, acts, k);
    var p := ps[k];
    forall w: Wid | w < |p.workers|
      ensures Past(p.workers[w].pc) && (p.dtor.Gone? ==> w in p.r.joined && p.workers[w].pc.Exited?)
    {
      VectorIsJoined(p, w);
    }
    NoneInHand(p.workers);
    hide RosterOk, WorkerOk, OthersOk, InHand;
    assert multiset{} + p.j.finished == p.j.finished;
  }
}
