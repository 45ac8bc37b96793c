/** When the pool grows, when a worker leaves it, and that its destruction can always be brought to its end. */
module ThreadPoolResizing {
  import opened ThreadPool
  import opened ThreadPoolTheorems
  import opened ThreadPoolShutdown
  import opened ThreadPoolTasks

  // ---- Growing ----

  /**
   A client that reads the size `n` adds one thread exactly if `n` exceeds twice the number of threads and that number
   is below the cap.  The new thread begins its loop, and nobody else is touched.
   */
  lemma GrowsByOne(p: Pool, i: nat, n: nat)
    requires Inv(p) && Enabled(p, Client(i, n)) && p.clients[i].Adjusting?
    ensures var p', grows := ClientStep(p, i, n), n > 2 * |p.r.threads| && |p.r.threads| < p.lim.max;
            && |p'.r.threads| == |p.r.threads| + (if grows then 1 else 0) && p.r.threads <= p'.r.threads
            && |p'.workers| == |p.workers| + (if grows then 1 else 0) && p.workers <= p'.workers
            && (grows ==> p'.workers[|p.workers|] == Worker(Top, false) && p'.r.threads[|p.r.threads|] == |p.workers|)
            && (forall w: Wid :: w in p'.r.threads && w !in p.r.threads ==> w == |p.workers|)
            && p'.r.mutex == Nobody && p'.clients[i] == Handing(p.clients[i].t) && p'.j == p.j
  {
  }

  // ---- Retiring ----

  lemma Prepend(p: Pool, a: Action, rest: seq<Pool>, more: seq<Action>) returns (ps: seq<Pool>, acts: seq<Action>)
    requires Enabled(p, a) && IsPath(rest, more) && Leads(p, a, rest[0])
    ensures IsPath(ps, acts) && ps[0] == p && ps[|acts|] == rest[|more|] && acts == [a] + more
  {
    hide Enabled, Do;
    ps, acts := [p] + rest, [a] + more;
  }

  predicate Retiring(pc: WorkerPc) {
    pc.Joining? || pc.Replacing? || pc.Leaving?
  }

  /** The vector without the worker that leaves. */
  function Remaining(p: Pool, w: Wid): seq<Wid> {
    if w < |p.workers| && p.workers[w].pc.Leaving? then p.r.threads else Without(p.r.threads, w)
  }

  /** `p'` comes about when `w` leaves `p`: out of the vector, into the zombie slot, mutex released, thread ended. */
  ghost predicate HasLeft(p: Pool, p': Pool, w: Wid) {
    && HasExited(p', w) && p'.r.mutex == Nobody && p'.r.zombie == Zombie(w)
    && p'.r.threads == Remaining(p, w) && p'.j == p.j && p'.clients == p.clients && p'.dtor == p.dtor
  }

  lemma LeavingStep(p: Pool, w: Wid)
    requires w < |p.workers| && p.workers[w].pc.Leaving?
    ensures var p' := WorkerStep(p, w, true);
            && Enabled(p, Work(w, true)) && w < |p'.workers| && p'.workers[w].pc.Ending?
            && p'.r == p.r.(mutex := Nobody)
            && p'.j == p.j && p'.clients == p.clients && p'.dtor == p.dtor
  {
  }

  lemma EndingStep(p: Pool, w: Wid)
    requires w < |p.workers| && p.workers[w].pc.Ending?
    ensures var p' := WorkerStep(p, w, true);
            && Enabled(p, Work(w, true)) && HasExited(p', w) && p'.r == p.r
            && p'.j == p.j && p'.clients == p.clients && p'.dtor == p.dtor && |p'.workers| == |p.workers|
            && forall v: Wid :: v < |p.workers| && v != w ==> p'.workers[v] == p.workers[v]
  {
  }

  lemma ReplacingStep(p: Pool, w: Wid)
    requires w < |p.workers| && p.workers[w].pc.Replacing?
    ensures var p' := WorkerStep(p, w, true);
            && Enabled(p, Work(w, true)) && w < |p'.workers| && p'.workers[w].pc.Leaving?
            && p'.r == p.r.(zombie := Zombie(w), threads := Without(p.r.threads, w))
            && p'.j == p.j && p'.clients == p.clients && p'.dtor == p.dtor
  {
    hide Without;
  }

  lemma JoiningStep(p: Pool, w: Wid)
    requires w < |p.workers| && p.workers[w].pc.Joining? && HasExited(p, p.workers[w].pc.z)
    ensures var p' := WorkerStep(p, w, true);
            && Enabled(p, Work(w, true)) && w < |p'.workers| && p'.workers[w].pc.Replacing?
            && p'.r.threads == p.r.threads && p'.r.mutex == p.r.mutex
            && p'.j == p.j && p'.clients == p.clients && p'.dtor == p.dtor
  {
  }

  lemma LockedStep(p: Pool, w: Wid)
    requires Inv(p) && w < |p.workers| && p.workers[w].pc.Locked?
    ensures var p' := WorkerStep(p, w, true);
            && Enabled(p, Work(w, true)) && w < |p'.workers|
            && p'.j == p.j && p'.clients == p.clients && p'.dtor == p.dtor
            && (if |p.r.threads| > p.lim.min && w in p.r.threads then
                  Retiring(p'.workers[w].pc) && !p'.workers[w].pc.Leaving? && p'.r == p.r
                else p'.workers[w].pc.Top? && p'.workers == p.workers[w := p'.workers[w]]
                     && p'.r == p.r.(mutex := Nobody))
  {
    assert WorkerOk(p.r, p.lim, p.dtor, w, p.workers[w]);
    hide Inv;
  }

  lemma LockingStep(p: Pool, w: Wid)
    requires w < |p.workers| && p.workers[w].pc.Locking? && p.r.mutex == Nobody
    ensures var p' := WorkerStep(p, w, true);
            && Enabled(p, Work(w, true)) && w < |p'.workers| && p'.workers[w].pc.Locked?
            && p'.workers == p.workers[w := p'.workers[w]] && p'.r == p.r.(mutex := HeldByWorker(w))
            && p'.j == p.j && p'.clients == p.clients && p'.dtor == p.dtor && p'.lim == p.lim
  {
  }

  /** Only workers move. */
  predicate OnlyWork(acts: seq<Action>) {
    forall k :: 0 <= k < |acts| ==> acts[k].Work?
  }

  lemma LeavesNext(p: Pool, w: Wid) returns (v: Wid)
    requires Inv(p) && w < |p.workers| && Retiring(p.workers[w].pc) && !p.workers[w].pc.Leaving?
    ensures Enabled(p, Work(v, true)) && v < |p.workers| && HolderRank(WorkerStep(p, v, true)) < HolderRank(p)
    ensures var p' := WorkerStep(p, v, true);
            && w < |p'.workers| && Retiring(p'.workers[w].pc) && Remaining(p', w) == Remaining(p, w)
            && p'.j == p.j && p'.clients == p.clients && p'.dtor == p.dtor
  {
    var pc := p.workers[w].pc;
    Holder(p, w);
    if pc.Joining? { ZombieCanMove(p, w); }
    hide Inv, Enabled, WorkerStep, HolderRank;
    v := w;
    if pc.Replacing? {
      ReplacingStep(p, w);
      HolderMoves(p, w);
    } else if HasExited(p, pc.z) {
      JoiningStep(p, w);
      HolderMoves(p, w);
    } else {
      v := pc.z;
      EndingStep(p, v);
      ZombieMoves(p, w, v);
    }
  }

  lemma LeavesAtLast(p: Pool, w: Wid) returns (ps: seq<Pool>, acts: seq<Action>)
    requires Inv(p) && w < |p.workers| && p.workers[w].pc.Leaving?
    ensures IsPath(ps, acts) && OnlyWork(acts) && ps[0] == p && HasLeft(p, ps[|acts|], w)
  {
    Holder(p, w);
    hide Inv, Enabled, WorkerStep, IsPath;
    LeavingStep(p, w);
    var p1 := WorkerStep(p, w, true);
    EndingStep(p1, w);
    var p2 := WorkerStep(p1, w, true);
    Trivial(p2);
    ps, acts := Prepend(p1, Work(w, true), [p2], []);
    ps, acts := Prepend(p, Work(w, true), ps, acts);
  }

  /** A worker that has begun to leave can complete it: the thread it joins has only to end. */
  lemma {:induction false} Leaves(p: Pool, w: Wid) returns (ps: seq<Pool>, acts: seq<Action>)
    requires Inv(p) && w < |p.workers| && Retiring(p.workers[w].pc)
    ensures IsPath(ps, acts) && OnlyWork(acts) && ps[0] == p && HasLeft(p, ps[|acts|], w)
    decreases HolderRank(p)
  {
    hide Inv, Enabled, WorkerStep, HolderRank, IsPath, Remaining;
    if p.workers[w].pc.Leaving? {
      ps, acts := LeavesAtLast(p, w);
    } else {
      var v := LeavesNext(p, w);
      WorkerKeepsInv(p, v, true);
      var rest, more := Leaves(WorkerStep(p, v, true), w);
      ps, acts := Prepend(p, Work(v, true), rest, more);
    }
  }

  lemma Trivial(p: Pool)
    ensures IsPath([p], [])
  {
  }

  lemma Holder(p: Pool, w: Wid)
    requires Inv(p) && w < |p.workers| && Retiring(p.workers[w].pc)
    ensures p.r.mutex == HeldByWorker(w)
    ensures p.workers[w].pc.Leaving? ==> p.r.zombie == Zombie(w)
    ensures p.workers[w].pc.Joining? ==> p.workers[w].pc.z != w
  {
    assert WorkerOk(p.r, p.lim, p.dtor, w, p.workers[w]);
  }

  lemma WithoutOne(p: Pool, w: Wid)
    requires Inv(p) && w in p.r.threads
    ensures |Without(p.r.threads, w)| == |p.r.threads| - 1
    ensures forall v :: v in Without(p.r.threads, w) <==> v in p.r.threads && v != w
  {
    DistinctThreads(p.r, p.lim, p.dtor, |p.workers|);
    WithoutOk(p.r.threads, w);
  }

  lemma BeginsToLeave(p: Pool, w: Wid)
    requires Inv(p) && w < |p.workers| && p.workers[w].pc.Locking? && p.r.mutex == Nobody
    requires p.lim.min < |p.r.threads| && w in p.r.threads
    ensures Enabled(p, Work(w, true)) && w < |WorkerStep(p, w, true).workers|
    ensures Enabled(WorkerStep(p, w, true), Work(w, true))
    ensures var p' := WorkerStep(WorkerStep(p, w, true), w, true);
            && Inv(p') && w < |p'.workers| && Retiring(p'.workers[w].pc) && !p'.workers[w].pc.Leaving?
            && p'.r.threads == p.r.threads && p'.j == p.j && p'.clients == p.clients
  {
    LockingStep(p, w);
    WorkerKeepsInv(p, w, true);
    hide Inv, Enabled, WorkerStep;
    var p1 := WorkerStep(p, w, true);
    LockedStep(p1, w);
    WorkerKeepsInv(p1, w, true);
  }

  /**
   An idle worker above the floor that gets the mutex can be brought to leave the pool, which becomes smaller by just
   that worker, without the help of clients or of the destructor.
   */
  lemma RetiresAboveTheFloor(p: Pool, w: Wid) returns (ps: seq<Pool>, acts: seq<Action>)
    requires Inv(p) && w < |p.workers| && p.workers[w].pc.Locking? && p.r.mutex == Nobody
    requires p.lim.min < |p.r.threads| && w in p.r.threads
    ensures IsPath(ps, acts) && OnlyWork(acts) && ps[0] == p && HasExited(ps[|acts|], w)
    ensures |ps[|acts|].r.threads| == |p.r.threads| - 1
    ensures forall v :: v in ps[|acts|].r.threads <==> v in p.r.threads && v != w
    ensures ps[|acts|].j == p.j && ps[|acts|].clients == p.clients && ps[|acts|].r.mutex == Nobody
  {
    BeginsToLeave(p, w);
    WithoutOne(p, w);
    hide Inv, Enabled, WorkerStep, IsPath, Without;
    var p1 := WorkerStep(p, w, true);
    var p2 := WorkerStep(p1, w, true);
    ps, acts := Leaves(p2, w);
    ps, acts := Prepend(p1, Work(w, true), ps, acts);
    ps, acts := Prepend(p, Work(w, true), ps, acts);
  }

  /** At the floor an idle worker that gets the mutex gives it back and goes on with its loop. */
  lemma StaysAtTheFloor(p: Pool, w: Wid)
    requires Inv(p) && w < |p.workers| && p.workers[w].pc.Locking? && p.r.mutex == Nobody
    requires |p.r.threads| == p.lim.min
    ensures Enabled(p, Work(w, true)) && Enabled(WorkerStep(p, w, true), Work(w, true))
    ensures WorkerStep(WorkerStep(p, w, true), w, true) ==
            p.(workers := p.workers[w := p.workers[w].(pc := Top)])
  {
    LockingStep(p, w);
    WorkerKeepsInv(p, w, true);
    var p1 := WorkerStep(p, w, true);
    LockedStep(p1, w);
    hide Inv;
    assert p1.workers[w].stop == p.workers[w].stop;
  }

  // ---- Destruction ----

  /** The destructor is at work, or nobody is inside `enqueue` and it may be called. */
  ghost predicate MayEnd(p: Pool) {
    Inv(p) && forall i :: 0 <= i < |p.clients| ==> p.clients[i].Away?
  }

  /** Steps of the destructor up to the stop requests. */
  function Ahead(d: DtorPc): nat {
    match d
    case Alive => 3
    case WantStop => 2
    case Stopping => 1
    case _ => 0
  }

  predicate Ends(a: Action) {
    a.Work? || a.Destroy?
  }

  lemma MayStillEnd(p: Pool, a: Action)
    requires MayEnd(p) && Enabled(p, a) && Ends(a)
    ensures Leads(p, a, Do(p, a)) && MayEnd(Do(p, a))
  {
    ActionKeepsInv(p, a);
    if a.Work? { WorkerAccepts(p, a.w, a.go); } else { DtorAccepts(p); }
    hide Inv, Enabled, WorkerStep, DtorStep;
  }

  predicate Nearer(p': Pool, p: Pool) {
    || Ahead(p'.dtor) < Ahead(p.dtor)
    || (Ahead(p'.dtor) == Ahead(p.dtor) && HolderRank(p') < HolderRank(p))
  }

  lemma DtorAhead(p: Pool)
    requires !StopsRequested(p.dtor)
    ensures Ahead(DtorStep(p).dtor) < Ahead(p.dtor)
  {
  }

  lemma WorkSparesDtor(p: Pool, w: Wid, go: bool)
    requires w < |p.workers|
    ensures WorkerStep(p, w, go).dtor == p.dtor
  {
  }

  /** The destructor can take its next step, or the worker that holds the mutex can go on. */
  lemma EndingBegins(p: Pool) returns (a: Action)
    requires MayEnd(p) && !StopsRequested(p.dtor)
    ensures Enabled(p, a) && Ends(a) && Leads(p, a, Do(p, a)) && Nearer(Do(p, a), p)
  {
    NoClientHolds(p);
    if p.r.mutex.HeldByWorker? {
      var v := HolderNext(p, p.r.mutex.w);
      WorkSparesDtor(p, v, true);
      a := Work(v, true);
    } else {
      assert Enabled(p, Destroy);
      DtorAhead(p);
      a := Destroy;
    }
  }

  lemma NoClientHolds(p: Pool)
    requires MayEnd(p)
    ensures !p.r.mutex.HeldByClient? && (p.r.mutex.HeldByDtor? ==> p.dtor.Stopping? || p.dtor.Joins?)
  {
  }

  lemma {:induction false} WindsUp(p: Pool) returns (ps: seq<Pool>, acts: seq<Action>)
    requires Inv(p) && StopsRequested(p.dtor)
    ensures IsPath(ps, acts) && ps[0] == p && ps[|acts|].dtor.Gone?
    ensures forall k :: 0 <= k < |acts| ==> Ends(acts[k])
    decreases StepsLeft(p)
  {
    hide Inv, Enabled, Do, StepsLeft, IsPath;
    if p.dtor.Gone? {
      ps, acts := [p], [];
      Trivial(p);
    } else {
      DestructionIsNeverStuck(p);
      var a: Action;
      if Enabled(p, Destroy) {
        a := Destroy;
      } else {
        var v: Wid :| Enabled(p, Work(v, false));
        a := Work(v, false);
      }
      EveryStepDescends(p, a);
      ActionKeepsInv(p, a);
      var rest, more := WindsUp(Do(p, a));
      ps, acts := Prepend(p, a, rest, more);
    }
  }

  /** With nobody inside `enqueue` the destruction can be begun, and always be brought to its end. */
  lemma {:induction false} CanBeDestroyed(p: Pool) returns (ps: seq<Pool>, acts: seq<Action>)
    requires MayEnd(p)
    ensures IsPath(ps, acts) && ps[0] == p && ps[|acts|].dtor.Gone?
    ensures forall k :: 0 <= k < |acts| ==> Ends(acts[k])
    decreases Ahead(p.dtor), HolderRank(p)
  {
    hide Inv, Enabled, Do, HolderRank, IsPath;
    if StopsRequested(p.dtor) {
      ps, acts := WindsUp(p);
    } else {
      var a := EndingBegins(p);
      MayStillEnd(p, a);
      var rest, more := CanBeDestroyed(Do(p, a));
      ps, acts := Prepend(p, a, rest, more);
    }
  }
}
