/** The invariant of the thread pool, and the conservation of threads and tasks. */
module ThreadPoolTheorems {
  import opened Counting
  import opened ThreadPool

  ghost predicate Distinct(ids: seq<Wid>) {
    forall a, b :: 0 <= a < b < |ids| ==> ids[a] != ids[b]
  }

  /** How many entries of the vector the destructor has joined. */
  function JoinedCount(r: Roster, d: DtorPc): nat {
    match d
    case Joins(k) => k
    case LastZombie => |r.threads|
    case Gone => |r.threads|
    case _ => 0
  }

  /** Every spawned thread is in exactly one of the vector (not joined), the zombie slot, and the joined ones. */
  ghost predicate RosterOk(r: Roster, lim: Limits, d: DtorPc, n: nat) {
    && Distinct(r.threads) && JoinedCount(r, d) <= |r.threads|
    && lim.min <= |r.threads| <= Max(lim.min, lim.max)
    && (forall a :: 0 <= a < |r.threads| ==> r.threads[a] < n)
    && (forall a :: 0 <= a < |r.threads| ==> (r.threads[a] in r.joined <==> a < JoinedCount(r, d)))
    && (r.zombie.Zombie? ==> r.zombie.w < n && r.zombie.w !in r.threads && r.zombie.w !in r.joined)
    && (forall w :: w in r.joined ==> w < n)
    && (forall w: Wid :: w < n ==> w in r.threads || r.zombie == Zombie(w) || w in r.joined)
  }

  predicate HoldsMutex(pc: WorkerPc) {
    pc.Locked? || pc.Joining? || pc.Replacing? || pc.Leaving?
  }

  /** Past the loop: nothing is left but to end. */
  predicate Past(pc: WorkerPc) {
    pc.Ending? || pc.Exited?
  }

  predicate StopsRequested(d: DtorPc) {
    !d.Alive? && !d.WantStop? && !d.Stopping?
  }

  ghost predicate WorkerOk(r: Roster, lim: Limits, d: DtorPc, w: Wid, wk: Worker) {
    && (HoldsMutex(wk.pc) <==> r.mutex == HeldByWorker(w))
    && (wk.pc.Leaving? ==> r.zombie == Zombie(w))
    && (wk.pc.Joining? ==> r.zombie == Zombie(wk.pc.z) && wk.pc.z != w && w in r.threads && lim.min < |r.threads|)
    && (wk.pc.Replacing? ==> r.zombie == NoZombie && w in r.threads && lim.min < |r.threads|)
    && (w in r.threads && Past(wk.pc) ==> wk.stop)
    && (r.zombie == Zombie(w) ==> wk.pc.Leaving? || Past(wk.pc))
    && (w in r.joined ==> wk.pc.Exited?)
    && (StopsRequested(d) && w in r.threads ==> wk.stop)
  }

  ghost predicate OthersOk(r: Roster, j: Jobs, clients: seq<ClientPc>, d: DtorPc, n: nat) {
    && (forall i :: 0 <= i < |clients| ==> (clients[i].Adjusting? <==> r.mutex == HeldByClient(i)))
    && (d.Stopping? || d.Joins? <==> r.mutex == HeldByDtor)
    && (r.mutex.HeldByWorker? ==> r.mutex.w < n)
    && (r.mutex.HeldByClient? ==> r.mutex.i < |clients|)
    && (!d.Alive? ==> forall i :: 0 <= i < |clients| ==> clients[i] == Away)
    && (j.closed <==> StopsRequested(d) && !d.Closing?)
  }

  // ---- Tasks ----

  function Bag(wk: Worker): multiset<Task> {
    if wk.pc.Running? then multiset{wk.pc.t} else multiset{}
  }

  function InHand(ws: seq<Worker>): multiset<Task> {
    if ws == [] then multiset{} else Bag(ws[0]) + InHand(ws[1..])
  }

  lemma Regroup(a: multiset<Task>, b: multiset<Task>, c: multiset<Task>, d: multiset<Task>, e: multiset<Task>)
    requires b + c == d + e
    ensures a + b + c == a + d + e
  {
    assert a + b + c == a + (b + c);
    assert a + d + e == a + (d + e);
  }

  lemma {:induction false} InHandUpdate(ws: seq<Worker>, w: Wid, wk: Worker)
    requires w < |ws|
    ensures InHand(ws[w := wk]) + Bag(ws[w]) == InHand(ws) + Bag(wk)
  {
    if w == 0 {
      assert ws[w := wk][1..] == ws[1..];
    } else {
      var rest := ws[1..];
      assert ws[w := wk][1..] == rest[w - 1 := wk];
      InHandUpdate(rest, w - 1, wk);
      Regroup(Bag(ws[0]), InHand(rest[w - 1 := wk]), Bag(ws[w]), InHand(rest), Bag(wk));
    }
  }

  lemma {:induction false} InHandAppend(ws: seq<Worker>, wk: Worker)
    ensures InHand(ws + [wk]) == InHand(ws) + Bag(wk)
  {
    if ws != [] {
      assert (ws + [wk])[1..] == ws[1..] + [wk];
      InHandAppend(ws[1..], wk);
    }
  }

  lemma {:induction false} InHandSame(ws: seq<Worker>, ws': seq<Worker>)
    requires |ws| == |ws'| && forall w :: 0 <= w < |ws| ==> ws'[w].pc == ws[w].pc
    ensures InHand(ws') == InHand(ws)
  {
    if ws != [] {
      InHandSame(ws[1..], ws'[1..]);
    }
  }

  /** Accepted tasks are started in order; a started task is being run or has finished. */
  ghost predicate JobsOk(j: Jobs, hand: multiset<Task>) {
    j.accepted == j.started + j.queue && multiset(j.started) == hand + j.finished
  }

  ghost predicate Inv(p: Pool) {
    && RosterOk(p.r, p.lim, p.dtor, |p.workers|)
    && (forall w :: 0 <= w < |p.workers| ==> WorkerOk(p.r, p.lim, p.dtor, w, p.workers[w]))
    && OthersOk(p.r, p.j, p.clients, p.dtor, |p.workers|)
    && JobsOk(p.j, InHand(p.workers))
  }

  // ---- Removing a worker from the vector ----

  lemma {:induction false} WithoutOk(ids: seq<Wid>, w: Wid)
    requires Distinct(ids)
    ensures forall x :: x in Without(ids, w) <==> x in ids && x != w
    ensures w in ids ==> |Without(ids, w)| == |ids| - 1
    ensures Distinct(Without(ids, w))
  {
    if ids != [] {
      assert Distinct(ids[1..]);
      WithoutOk(ids[1..], w);
      assert ids == [ids[0]] + ids[1..];
      if ids[0] == w {
        forall x | x in ids[1..] ensures x != w { var k :| 0 <= k < |ids[1..]| && ids[1..][k] == x; }
      } else {
        var rest := Without(ids[1..], w);
        forall b | 0 < b < |[ids[0]] + rest| ensures ([ids[0]] + rest)[b] != ids[0] {
          assert rest[b - 1] in rest;
          assert rest[b - 1] in ids[1..];
        }
      }
    }
  }

  // ---- Worker steps ----

  /** What a step of worker `w` may do to what the others rely on. */
  ghost predicate RosterEvolves(r: Roster, r': Roster, w: Wid) {
    && (forall v: Wid :: v != w ==> ((r'.mutex == HeldByWorker(v)) == (r.mutex == HeldByWorker(v))))
    && (forall v: Wid :: v != w ==> (v in r'.threads <==> v in r.threads))
    && (forall v: Wid :: v != w && r'.zombie == Zombie(v) ==> r.zombie == Zombie(v))
    && (forall v: Wid :: v != w && r.mutex == HeldByWorker(v) ==>
          r'.zombie == r.zombie && r'.threads == r.threads)
    && (r'.mutex.HeldByClient? ==> r'.mutex == r.mutex) && (r.mutex.HeldByClient? ==> r'.mutex == r.mutex)
    && (r'.mutex.HeldByDtor? <==> r.mutex.HeldByDtor?)
    && (r'.mutex.HeldByWorker? ==> r'.mutex == r.mutex || r'.mutex == HeldByWorker(w))
  }

  /** A bystander's knowledge survives, if nobody joined it without its having exited. */
  lemma BystanderOk(r: Roster, r': Roster, lim: Limits, d: DtorPc, w: Wid, v: Wid, wk: Worker, wk': Worker)
    requires WorkerOk(r, lim, d, v, wk) && RosterEvolves(r, r', w) && v != w
    requires wk'.pc == wk.pc && (wk.stop ==> wk'.stop)
    requires v in r'.joined ==> v in r.joined || wk.pc.Exited?
    ensures WorkerOk(r', lim, d, v, wk')
  {
  }

  lemma RetireRoster(r: Roster, lim: Limits, d: DtorPc, n: nat, w: Wid)
    requires RosterOk(r, lim, d, n) && w < n && r.zombie == NoZombie && w in r.threads && lim.min < |r.threads|
    requires w !in r.joined && !d.Joins?
    ensures RosterOk(r.(zombie := Zombie(w), threads := Without(r.threads, w)), lim, d, n)
  {
    WithoutOk(r.threads, w);
    hide Without;
    var r' := r.(zombie := Zombie(w), threads := Without(r.threads, w));
    var k :| 0 <= k < |r.threads| && r.threads[k] == w;
    assert JoinedCount(r, d) == 0 == JoinedCount(r', d);
    forall a | 0 <= a < |r'.threads| ensures r'.threads[a] < n && r'.threads[a] !in r'.joined {
      assert r'.threads[a] in r'.threads;
      assert r'.threads[a] in r.threads;
    }
  }

  lemma JoinRoster(r: Roster, lim: Limits, d: DtorPc, n: nat)
    requires RosterOk(r, lim, d, n) && r.zombie.Zombie?
    ensures RosterOk(r.(zombie := NoZombie, joined := r.joined + {r.zombie.w}), lim, d, n)
  {
  }

  lemma WorkerRoster(r: Roster, j: Jobs, lim: Limits, d: DtorPc, n: nat, w: Wid, wk: Worker, go: bool)
    requires RosterOk(r, lim, d, n) && WorkerOk(r, lim, d, w, wk) && w < n && !wk.pc.Exited?
    requires r.mutex == HeldByWorker(w) ==> !d.Joins?
    ensures var r' := RosterStep(r, lim, w, wk.pc, go);
            RosterOk(r', lim, d, n) && RosterEvolves(r, r', w)
  {
    hide RosterOk, Without;
    match wk.pc {
      case Joining(z) => JoinRoster(r, lim, d, n);
      case Replacing =>
        RetireRoster(r, lim, d, n, w);
        DistinctThreads(r, lim, d, n);
        WithoutOk(r.threads, w);
      case _ => MutexOnly(r, lim, d, n, RosterStep(r, lim, w, wk.pc, go).mutex);
    }
  }

  lemma DistinctThreads(r: Roster, lim: Limits, d: DtorPc, n: nat)
    requires RosterOk(r, lim, d, n)
    ensures Distinct(r.threads)
  {
  }

  lemma MutexOnly(r: Roster, lim: Limits, d: DtorPc, n: nat, h: Holder)
    requires RosterOk(r, lim, d, n)
    ensures RosterOk(r.(mutex := h), lim, d, n)
  {
    assert JoinedCount(r.(mutex := h), d) == JoinedCount(r, d);
  }

  lemma WorkerSelf(r: Roster, j: Jobs, lim: Limits, d: DtorPc, n: nat, w: Wid, wk: Worker, go: bool)
    requires RosterOk(r, lim, d, n) && WorkerOk(r, lim, d, w, wk) && w < n && !wk.pc.Exited?
    ensures WorkerOk(RosterStep(r, lim, w, wk.pc, go), lim, d, w, wk.(pc := PcStep(r, j, lim, w, wk, go)))
  {
    DistinctThreads(r, lim, d, n);
    if wk.pc.Replacing? { WithoutOk(r.threads, w); }
    if wk.pc.Locked? && !Stays(r, lim, w) { assert r.zombie != Zombie(w); }
    hide RosterOk, Without, Distinct;
  }

  /** The retiring worker joins another thread, never itself, and that thread has let go of the mutex. */
  lemma JoinedHasExited(p: Pool, w: Wid, go: bool, v: Wid)
    requires Inv(p) && Enabled(p, Work(w, go)) && v < |p.workers|
    requires v in RosterStep(p.r, p.lim, w, p.workers[w].pc, go).joined && v !in p.r.joined
    ensures p.workers[v].pc.Exited? && v != w
  {
    assert WorkerOk(p.r, p.lim, p.dtor, w, p.workers[w]);
  }

  lemma WorkerThreads(p: Pool, w: Wid, go: bool)
    requires Inv(p) && Enabled(p, Work(w, go))
    ensures var p' := WorkerStep(p, w, go);
            && RosterOk(p'.r, p'.lim, p'.dtor, |p'.workers|)
            && (forall v :: 0 <= v < |p'.workers| ==> WorkerOk(p'.r, p'.lim, p'.dtor, v, p'.workers[v]))
            && OthersOk(p'.r, p'.j, p'.clients, p'.dtor, |p'.workers|)
  {
    hide RosterOk, WorkerOk, JobsOk, InHand, RosterStep, JobStep, PcStep, Stopped, Enabled;
    Basics(p, w, go);
    var p', wk, n := WorkerStep(p, w, go), p.workers[w], |p.workers|;
    WorkerRoster(p.r, p.j, p.lim, p.dtor, n, w, wk, go);
    WorkerSelf(p.r, p.j, p.lim, p.dtor, n, w, wk, go);
    SelfIsNotStopped(p, w);
    forall v | 0 <= v < n && v != w ensures WorkerOk(p'.r, p'.lim, p'.dtor, v, p'.workers[v]) {
      if v in p'.r.joined && v !in p.r.joined { JoinedHasExited(p, w, go, v); }
      BystanderOk(p.r, p'.r, p.lim, p.dtor, w, v, p.workers[v], p'.workers[v]);
    }
    assert p'.j.closed == p.j.closed by { JobStepCloses(p.j, wk.pc, go); }
  }

  lemma Basics(p: Pool, w: Wid, go: bool)
    requires Inv(p) && Enabled(p, Work(w, go))
    ensures w < |p.workers| && !p.workers[w].pc.Exited?
    ensures p.r.mutex == HeldByWorker(w) ==> !p.dtor.Joins?
  {
  }

  lemma SelfIsNotStopped(p: Pool, w: Wid)
    requires Inv(p) && w < |p.workers|
    ensures w !in Stopped(p.r, p.lim, w, p.workers[w].pc)
  {
    assert WorkerOk(p.r, p.lim, p.dtor, w, p.workers[w]);
  }

  lemma JobStepCloses(j: Jobs, pc: WorkerPc, go: bool)
    ensures JobStep(j, pc, go).closed == j.closed
  {
  }

  lemma HandStep(p: Pool, w: Wid, go: bool)
    requires w < |p.workers|
    ensures var p' := WorkerStep(p, w, go);
            InHand(p'.workers) + Bag(p.workers[w]) == InHand(p.workers) + Bag(p'.workers[w])
  {
    hide InHand, Bag, RosterStep, JobStep, PcStep, Stopped;
    var p', wk := WorkerStep(p, w, go), p.workers[w];
    var ws := StopAll(p.workers, Stopped(p.r, p.lim, w, wk.pc));
    InHandSame(p.workers, ws);
    InHandUpdate(ws, w, p'.workers[w]);
    SameBag(ws[w], wk);
  }

  lemma SameBag(a: Worker, b: Worker)
    requires a.pc == b.pc
    ensures Bag(a) == Bag(b)
  {
  }

  lemma TaskStarted(j: Jobs, hand: multiset<Task>, hand': multiset<Task>)
    requires JobsOk(j, hand) && j.queue != [] && hand' == hand + multiset{j.queue[0]}
    ensures JobsOk(j.(queue := j.queue[1..], started := j.started + [j.queue[0]]), hand')
  {
    assert j.queue == [j.queue[0]] + j.queue[1..];
    Regroup(multiset{}, hand + j.finished, multiset{j.queue[0]}, hand', j.finished);
  }

  lemma TaskFinished(j: Jobs, hand: multiset<Task>, hand': multiset<Task>, t: Task)
    requires JobsOk(j, hand) && hand' + multiset{t} == hand
    ensures JobsOk(j.(finished := j.finished + multiset{t}), hand')
  {
  }

  lemma JobsKept(j: Jobs, hand: multiset<Task>, hand': multiset<Task>, r: Roster, lim: Limits, w: Wid, wk: Worker,
      go: bool)
    requires JobsOk(j, hand)
    requires hand' + Bag(wk) == hand + Bag(wk.(pc := PcStep(r, j, lim, w, wk, go)))
    ensures JobsOk(JobStep(j, wk.pc, go), hand')
  {
    hide JobsOk;
    assert hand' + multiset{} == hand' && hand + multiset{} == hand;
    if wk.pc.Popping? && go && j.queue != [] {
      TaskStarted(j, hand, hand');
    } else if wk.pc.Running? {
      TaskFinished(j, hand, hand', wk.pc.t);
    }
  }

  lemma WorkerJobs(p: Pool, w: Wid, go: bool)
    requires Inv(p) && Enabled(p, Work(w, go))
    ensures var p' := WorkerStep(p, w, go); JobsOk(p'.j, InHand(p'.workers))
  {
    hide RosterOk, WorkerOk, OthersOk, InHand, RosterStep, JobStep, PcStep, Stopped, JobsOk, Bag;
    var p', wk := WorkerStep(p, w, go), p.workers[w];
    HandStep(p, w, go);
    SameBag(p'.workers[w], wk.(pc := PcStep(p.r, p.j, p.lim, w, wk, go)));
    JobsKept(p.j, InHand(p.workers), InHand(p'.workers), p.r, p.lim, w, wk, go);
  }

  lemma WorkerKeepsInv(p: Pool, w: Wid, go: bool)
    requires Inv(p) && Enabled(p, Work(w, go))
    ensures Inv(WorkerStep(p, w, go))
  {
    hide RosterOk, WorkerOk, OthersOk, JobsOk, WorkerStep, Enabled, InHand;
    WorkerThreads(p, w, go);
    WorkerJobs(p, w, go);
  }

  // ---- Clients ----

  lemma SpawnRoster(r: Roster, lim: Limits, d: DtorPc, n: nat)
    requires RosterOk(r, lim, d, n) && d.Alive? && |r.threads| < lim.max
    ensures RosterOk(r.(mutex := Nobody, threads := r.threads + [n]), lim, d, n + 1)
  {
    var r' := r.(mutex := Nobody, threads := r.threads + [n]);
    assert JoinedCount(r', d) == 0 == JoinedCount(r, d);
    assert n in r'.threads by { assert r'.threads[|r.threads|] == n; }
    forall w: Wid | w < n ensures w in r'.threads <==> w in r.threads { }
  }

  /** Clients only ever take and release the mutex, and add a thread. */
  lemma ClientRoster(r: Roster, r': Roster, lim: Limits, d: DtorPc, w: Wid, wk: Worker)
    requires WorkerOk(r, lim, d, w, wk) && !r.mutex.HeldByWorker? && !r'.mutex.HeldByWorker?
    requires r'.zombie == r.zombie && r'.joined == r.joined && (w in r'.threads <==> w in r.threads)
    ensures WorkerOk(r', lim, d, w, wk)
  {
  }

  lemma ClientThreads(p: Pool, i: nat, n: nat)
    requires Inv(p) && Enabled(p, Client(i, n)) && !p.clients[i].Handing?
    ensures Inv(ClientStep(p, i, n))
  {
    hide WorkerOk, RosterOk, JobsOk, InHand;
    var p', k := ClientStep(p, i, n), |p.workers|;
    assert p.dtor.Alive? && !p.r.mutex.HeldByWorker? && !p'.r.mutex.HeldByWorker?;
    if p.clients[i].Adjusting? && Grows(p.r, p.lim, n) {
      SpawnRoster(p.r, p.lim, p.dtor, k);
      InHandAppend(p.workers, Worker(Top, false));
      assert InHand(p.workers) + multiset{} == InHand(p.workers);
      NewWorkerOk(p'.r, p.lim, p.dtor, k) by { OldOnly(p.r, p.lim, p.dtor, k); }
    } else {
      MutexOnly(p.r, p.lim, p.dtor, k, p'.r.mutex);
    }
    forall v | 0 <= v < k ensures WorkerOk(p'.r, p.lim, p.dtor, v, p.workers[v]) {
      ClientRoster(p.r, p'.r, p.lim, p.dtor, v, p.workers[v]);
    }
  }

  lemma OldOnly(r: Roster, lim: Limits, d: DtorPc, n: nat)
    requires RosterOk(r, lim, d, n)
    ensures r.zombie != Zombie(n) && n !in r.joined
  {
  }

  lemma NewWorkerOk(r: Roster, lim: Limits, d: DtorPc, n: nat)
    requires r.mutex == Nobody && r.zombie != Zombie(n) && n !in r.joined && d.Alive?
    ensures WorkerOk(r, lim, d, n, Worker(Top, false))
  {
  }

  lemma ClientHands(p: Pool, i: nat, n: nat)
    requires Inv(p) && Enabled(p, Client(i, n)) && p.clients[i].Handing?
    ensures Inv(ClientStep(p, i, n))
  {
    hide WorkerOk, RosterOk, InHand;
    assert p.j.started + (p.j.queue + [p.clients[i].t]) == p.j.started + p.j.queue + [p.clients[i].t];
  }

  lemma CallKeepsInv(p: Pool, i: nat, t: Task)
    requires Inv(p) && Enabled(p, Call(i, t))
    ensures Inv(p.(clients := p.clients[i := Enqueuing(t)]))
  {
    hide WorkerOk, RosterOk, JobsOk, InHand;
  }

  // ---- The destructor ----

  /** What the destructor changes does not matter to a worker, as long as it is joined only after its exit. */
  lemma DtorWorker(r: Roster, r': Roster, lim: Limits, d: DtorPc, d': DtorPc, w: Wid, wk: Worker, wk': Worker)
    requires WorkerOk(r, lim, d, w, wk) && wk'.pc == wk.pc && (wk.stop ==> wk'.stop)
    requires (r'.mutex == HeldByWorker(w)) == (r.mutex == HeldByWorker(w))
    requires r'.threads == r.threads
    requires (r'.zombie == r.zombie || (r'.zombie == NoZombie && !wk.pc.Joining? && !wk.pc.Leaving?))
    requires w in r'.joined ==> w in r.joined || wk.pc.Exited?
    requires StopsRequested(d') && w in r.threads ==> StopsRequested(d) || wk'.stop
    ensures WorkerOk(r', lim, d', w, wk')
  {
  }

  lemma DtorRoster(p: Pool)
    requires Inv(p) && Enabled(p, Destroy)
    ensures RosterOk(DtorStep(p).r, p.lim, DtorStep(p).dtor, |p.workers|)
  {
    hide WorkerOk, JobsOk, InHand, OthersOk;
  }

  lemma DtorWorkers(p: Pool)
    requires Inv(p) && Enabled(p, Destroy)
    ensures var p' := DtorStep(p);
            && |p'.workers| == |p.workers|
            && forall w :: 0 <= w < |p.workers| ==> WorkerOk(p'.r, p.lim, p'.dtor, w, p'.workers[w])
  {
    hide JobsOk, InHand, WorkerOk, RosterOk;
    var p' := DtorStep(p);
    forall w | 0 <= w < |p.workers| ensures WorkerOk(p'.r, p.lim, p'.dtor, w, p'.workers[w]) {
      if p.dtor.LastZombie? { NobodyLeft(p, w); }
      DtorWorker(p.r, p'.r, p.lim, p.dtor, p'.dtor, w, p.workers[w], p'.workers[w]);
    }
  }

  /** Once the destructor has joined the vector, no worker is inside its loop. */
  lemma NobodyLeft(p: Pool, w: Wid)
    requires Inv(p) && p.dtor.LastZombie? && w < |p.workers|
    ensures !p.workers[w].pc.Joining? && (Enabled(p, Destroy) ==> !p.workers[w].pc.Leaving?)
  {
    hide JobsOk, InHand, OthersOk;
    assert WorkerOk(p.r, p.lim, p.dtor, w, p.workers[w]);
    if w in p.r.threads {
      var k :| 0 <= k < |p.r.threads| && p.r.threads[k] == w;
      assert p.r.threads[k] in p.r.joined;
    }
  }

  lemma DtorOthers(p: Pool)
    requires Inv(p) && Enabled(p, Destroy)
    ensures var p' := DtorStep(p);
            OthersOk(p'.r, p'.j, p'.clients, p'.dtor, |p'.workers|) && JobsOk(p'.j, InHand(p'.workers))
  {
    hide WorkerOk, RosterOk, InHand;
    var p' := DtorStep(p);
    InHandSame(p.workers, p'.workers);
  }

  lemma DtorKeepsInv(p: Pool)
    requires Inv(p) && Enabled(p, Destroy)
    ensures Inv(DtorStep(p))
  {
    hide RosterOk, WorkerOk, OthersOk, JobsOk, InHand, Enabled;
    DtorRoster(p);
    DtorWorkers(p);
    DtorOthers(p);
    assert DtorStep(p).lim == p.lim;
  }

  lemma InRange(p: Pool, a: Action)
    requires Enabled(p, a)
    ensures (a.Work? ==> a.w < |p.workers|) && (a.Call? || a.Client? ==> a.i < |p.clients|)
  {
  }

  lemma ActionKeepsInv(p: Pool, a: Action)
    requires Inv(p) && Enabled(p, a)
    ensures (a.Work? ==> a.w < |p.workers|) && (a.Call? || a.Client? ==> a.i < |p.clients|)
    ensures Inv(Do(p, a))
  {
    hide Inv, Enabled, WorkerStep, ClientStep, DtorStep;
    InRange(p, a);
    match a {
      case Work(w, go) => WorkerKeepsInv(p, w, go);
      case Call(i, t) => CallKeepsInv(p, i, t);
      case Client(i, n) => if p.clients[i].Handing? { ClientHands(p, i, n); } else { ClientThreads(p, i, n); }
      case Destroy => DtorKeepsInv(p);
    }
  }

  lemma InitHasInv(p: Pool)
    requires Init(p)
    ensures Inv(p)
  {
    InitRoster(p);
    NoneInHand(p.workers);
    hide RosterOk, InHand;
  }

  lemma InitRoster(p: Pool)
    requires Init(p)
    ensures RosterOk(p.r, p.lim, p.dtor, |p.workers|)
  {
    forall w: Wid | w < |p.workers| ensures w in p.r.threads { assert p.r.threads[w] == w; }
  }

  lemma {:induction false} NoneInHand(ws: seq<Worker>)
    requires forall w :: 0 <= w < |ws| ==> !ws[w].pc.Running?
    ensures InHand(ws) == multiset{}
  {
    if ws != [] {
      NoneInHand(ws[1..]);
    }
  }

  ghost predicate IsRun(ps: seq<Pool>, acts: seq<Action>) {
    && |ps| == |acts| + 1 && Init(ps[0])
    && forall k :: 0 <= k < |acts| ==> Enabled(ps[k], acts[k]) && Leads(ps[k], acts[k], ps[k + 1])
  }

  ghost predicate Leads(p: Pool, a: Action, p': Pool) {
    (a.Work? ==> a.w < |p.workers|) && (a.Call? || a.Client? ==> a.i < |p.clients|) && p' == Do(p, a)
  }

  lemma {:induction false} RunKeepsInv(ps: seq<Pool>, acts: seq<Action>, k: nat)
    requires IsRun(ps, acts) && k < |ps|
    ensures Inv(ps[k])
  {
    hide Inv, Init, Do, Enabled;
    if k == 0 {
      InitHasInv(ps[0]);
    } else {
      RunKeepsInv(ps, acts, k - 1);
      assert Leads(ps[k - 1], acts[k - 1], ps[(k - 1) + 1]);
      ActionKeepsInv(ps[k - 1], acts[k - 1]);
    }
  }
}
