/** What `cancel` achieves, in every run of the scheduler. */
module SchedulerTheorems {
  import E = EventLoop
  import F = Futures
  import opened Scheduler

  // ---- Who has which handle ----

  predicate HasSlot(cl: Client) {
    !cl.Free? && !cl.Cancelling?
  }

  /** The handle of a client is in the state that the client's next step needs. */
  predicate ClientOk(hs: seq<E.Handle>, cl: Client) {
    HasSlot(cl) ==>
      && cl.slot < |hs| && !hs[cl.slot].Empty? && hs[cl.slot].reg == cl.reg
      && (if cl.Registering? then hs[cl.slot].Made?
          else if cl.Shutting? then hs[cl.slot].Dropping? else hs[cl.slot].Held?)
  }

  predicate EntryOk(hs: seq<E.Handle>, e: Entry) {
    e.slot < |hs| && hs[e.slot].Held? && hs[e.slot].reg == e.reg
  }

  ghost predicate SlotsOk(hs: seq<E.Handle>, timers: map<Id, Entry>, nextId: Id, clients: seq<Client>) {
    && (forall c :: 0 <= c < |clients| ==> ClientOk(hs, clients[c]))
    && (forall id :: id in timers ==> id < nextId && EntryOk(hs, timers[id]))
    && (forall c, d :: 0 <= c < d < |clients| && HasSlot(clients[c]) && HasSlot(clients[d]) ==>
         clients[c].slot != clients[d].slot)
    && (forall c, id :: 0 <= c < |clients| && HasSlot(clients[c]) && id in timers ==>
         clients[c].slot != timers[id].slot)
    && (forall id, jd :: id in timers && jd in timers && id != jd ==> timers[id].slot != timers[jd].slot)
  }

  // ---- What has happened to a promise ----

  /** A promise whose callback never started: nobody claimed it. */
  function Unclaimed(closed: bool): F.Cell {
    F.Cell(if closed then F.Closed else F.Pending, false, F.Untouched)
  }

  /** Only started registrations reach the pool, and only tasks in the pool touch a promise, besides `onCancel`. */
  ghost predicate PromisesOk(s: State) {
    && |s.cells| == s.w.l.next
    && (forall r :: r in s.tasks ==> r in s.w.l.starts)
    && (forall k :: 0 <= k < |s.workers| && s.workers[k].On? ==> s.workers[k].reg in s.w.l.starts)
    && (forall c :: 0 <= c < |s.clients| && !s.clients[c].Free? ==> s.clients[c].reg < |s.cells|)
    && (forall id :: id in s.timers ==> s.timers[id].reg < |s.cells|)
    && (forall r :: r in s.cancelled ==> r < |s.cells|)
    && (forall r: Reg :: r < |s.cells| && r !in s.w.l.starts ==> s.cells[r] == Unclaimed(r in s.cancelled))
  }

  ghost predicate Inv(s: State) {
    E.Inv(s.w) && SlotsOk(s.w.hs, s.timers, s.nextId, s.clients) && PromisesOk(s)
  }

  /** A client's step on its handle is always possible: nobody else touches it. */
  lemma ClientsCanMove(s: State, c: nat)
    requires Inv(s) && c < |s.clients| && !s.clients[c].Free?
    ensures Enabled(s, Go(c))
  {
    hide E.Inv, PromisesOk;
    assert ClientOk(s.w.hs, s.clients[c]);
  }

  // ---- Slots ----

  lemma ScheduleSlots(hs: seq<E.Handle>, timers: map<Id, Entry>, nextId: Id, clients: seq<Client>, c: nat, slot: nat,
      h: E.Handle)
    requires SlotsOk(hs, timers, nextId, clients) && c < |clients| && clients[c].Free? && slot < |hs| && hs[slot].Empty?
    requires h.Made?
    ensures SlotsOk(hs[slot := h], timers, nextId, clients[c := Registering(slot, h.reg)])
  {
    forall d | 0 <= d < |clients| && HasSlot(clients[d]) ensures clients[d].slot != slot {
      assert ClientOk(hs, clients[d]);
    }
    forall id | id in timers ensures timers[id].slot != slot { assert EntryOk(hs, timers[id]); }
  }

  /** A client changes its own handle and goes on with it, or lets it go. */
  lemma OwnSlot(hs: seq<E.Handle>, timers: map<Id, Entry>, nextId: Id, clients: seq<Client>, c: nat, h: E.Handle,
      cl: Client)
    requires SlotsOk(hs, timers, nextId, clients) && c < |clients| && HasSlot(clients[c])
    requires HasSlot(cl) ==> cl.slot == clients[c].slot
    requires clients[c].slot < |hs| && ClientOk(hs[clients[c].slot := h], cl)
    ensures SlotsOk(hs[clients[c].slot := h], timers, nextId, clients[c := cl])
  {
    var x, hs', clients' := clients[c].slot, hs[clients[c].slot := h], clients[c := cl];
    forall d | 0 <= d < |clients'| ensures ClientOk(hs', clients'[d]) {
      assert ClientOk(hs, clients[d]);
      if d != c && HasSlot(clients[d]) {
        assert clients[d].slot != x by { if c < d { } else { assert clients[d].slot != clients[c].slot; } }
      }
    }
    forall id | id in timers ensures EntryOk(hs', timers[id]) { assert EntryOk(hs, timers[id]); }
  }

  lemma EnterSlots(hs: seq<E.Handle>, timers: map<Id, Entry>, nextId: Id, clients: seq<Client>, c: nat)
    requires SlotsOk(hs, timers, nextId, clients) && c < |clients| && clients[c].Entering?
    ensures SlotsOk(hs, timers[nextId := Entry(clients[c].slot, clients[c].reg)], nextId + 1, clients[c := Free])
  {
    assert ClientOk(hs, clients[c]);
    forall d | 0 <= d < |clients| && d != c && HasSlot(clients[d]) ensures clients[d].slot != clients[c].slot {
      if c < d { } else { assert clients[d].slot != clients[c].slot; }
    }
  }

  lemma EraseSlots(hs: seq<E.Handle>, timers: map<Id, Entry>, nextId: Id, clients: seq<Client>, c: nat, id: Id,
      user: bool)
    requires SlotsOk(hs, timers, nextId, clients) && c < |clients| && clients[c].Free? && id in timers
    ensures SlotsOk(hs, timers - {id}, nextId, clients[c := Erasing(timers[id].slot, timers[id].reg, user)])
  {
    assert EntryOk(hs, timers[id]);
  }

  lemma LetGo(hs: seq<E.Handle>, timers: map<Id, Entry>, nextId: Id, clients: seq<Client>, c: nat, cl: Client)
    requires SlotsOk(hs, timers, nextId, clients) && c < |clients| && !HasSlot(cl)
    ensures SlotsOk(hs, timers, nextId, clients[c := cl])
  {
  }

  lemma GoSlots(s: State, c: nat)
    requires Inv(s) && Enabled(s, Go(c))
    ensures var s' := GoStep(s, c); SlotsOk(s'.w.hs, s'.timers, s'.nextId, s'.clients)
  {
    ClientAt(s, c);
    hide E.Inv, PromisesOk, SlotsOk;
    var s', cl := GoStep(s, c), s.clients[c];
    match cl {
      case Registering(slot, reg) => OwnSlot(s.w.hs, s.timers, s.nextId, s.clients, c, s'.w.hs[slot], s'.clients[c]);
      case Entering(_, _) => EnterSlots(s.w.hs, s.timers, s.nextId, s.clients, c);
      case Erasing(slot, reg, user) => OwnSlot(s.w.hs, s.timers, s.nextId, s.clients, c, s'.w.hs[slot], s'.clients[c]);
      case Shutting(slot, reg, user) => OwnSlot(s.w.hs, s.timers, s.nextId, s.clients, c, s'.w.hs[slot], s'.clients[c]);
      case Cancelling(_) => LetGo(s.w.hs, s.timers, s.nextId, s.clients, c, Free);
    }
  }

  lemma ClientAt(s: State, c: nat)
    requires SlotsOk(s.w.hs, s.timers, s.nextId, s.clients) && c < |s.clients|
    ensures ClientOk(s.w.hs, s.clients[c])
  {
  }

  lemma ActionSlots(s: State, a: Action)
    requires Inv(s) && Enabled(s, a)
    ensures var s' := Do(s, a); SlotsOk(s'.w.hs, s'.timers, s'.nextId, s'.clients)
  {
    hide E.Inv, PromisesOk, SlotsOk, GoStep;
    match a {
      case Schedule(c, slot, fd) =>
        ScheduleSlots(s.w.hs, s.timers, s.nextId, s.clients, c, slot, E.Made(fd, s.w.l.next));
      case Cancel(c, id) => if id in s.timers { EraseSlots(s.w.hs, s.timers, s.nextId, s.clients, c, id, true); }
      case Clean(c, id) => EraseSlots(s.w.hs, s.timers, s.nextId, s.clients, c, id, false);
      case Go(c) => GoSlots(s, c);
      case Poll(_) =>
      case Loop =>
      case Pick(_, _) =>
      case Work(_) =>
    }
  }

  // ---- Promises ----

  /** A started registration is known to the loop. */
  lemma StartsAreKnown(w: E.World)
    requires E.Inv(w)
    ensures (forall r :: r in w.l.starts ==> r < w.l.next) && (w.l.pc.InHand? ==> w.l.pc.reg < w.l.next)
  {
    hide E.KernelOk, E.HandlesOk;
  }

  lemma GoPromises(s: State, c: nat)
    requires Inv(s) && Enabled(s, Go(c))
    ensures PromisesOk(Do(s, Go(c)))
  {
    hide E.Inv, SlotsOk, E.Enabled;
  }

  lemma PollPromises(s: State, fds: seq<E.Fd>)
    requires Inv(s) && Enabled(s, Poll(fds))
    ensures PromisesOk(Do(s, Poll(fds)))
  {
    hide E.Inv, SlotsOk, E.Reported;
  }

  lemma LoopPromises(s: State)
    requires Inv(s) && Enabled(s, Loop)
    ensures PromisesOk(Do(s, Loop))
  {
    StartsAreKnown(s.w);
    hide E.Inv, SlotsOk;
    var s' := Do(s, Loop);
    assert s'.w.l.starts == s.w.l.starts || s'.w.l.starts == s.w.l.starts + [s.w.l.pc.reg];
    assert forall r :: r in s.w.l.starts ==> r in s'.w.l.starts;
    hide E.Do, E.Enabled;
  }

  lemma WorkPromises(s: State, a: Action)
    requires Inv(s) && Enabled(s, a) && (a.Pick? || a.Work?)
    ensures PromisesOk(Do(s, a))
  {
    hide E.Inv, SlotsOk;
  }

  lemma SchedulePromises(s: State, c: nat, slot: nat, fd: E.Fd)
    requires Inv(s) && Enabled(s, Schedule(c, slot, fd))
    ensures PromisesOk(Do(s, Schedule(c, slot, fd)))
  {
    StartsAreKnown(s.w);
    hide E.Inv, SlotsOk;
  }

  lemma ErasePromises(s: State, a: Action)
    requires Inv(s) && Enabled(s, a) && (a.Cancel? || a.Clean?)
    ensures PromisesOk(Do(s, a))
  {
    hide E.Inv, SlotsOk;
  }

  lemma ActionWorld(s: State, a: Action)
    requires Inv(s) && Enabled(s, a)
    ensures E.Inv(Do(s, a).w)
  {
    hide E.Inv, SlotsOk, PromisesOk, E.Enabled, E.Do;
    match a {
      case Schedule(_, slot, fd) => E.ActionKeepsInv(s.w, E.Open(slot, fd));
      case Go(c) => if UsesLoop(s.clients[c]) { E.ActionKeepsInv(s.w, LoopAction(s.clients[c])); }
      case Poll(fds) => E.ActionKeepsInv(s.w, E.Poll(fds));
      case Loop => E.ActionKeepsInv(s.w, E.Advance);
      case _ =>
    }
  }

  lemma ActionKeepsInv(s: State, a: Action)
    requires Inv(s) && Enabled(s, a)
    ensures Inv(Do(s, a))
  {
    hide E.Inv, SlotsOk, PromisesOk, Enabled, Do;
    ActionWorld(s, a);
    ActionSlots(s, a);
    match a {
      case Go(c) => GoPromises(s, c);
      case Poll(fds) => PollPromises(s, fds);
      case Loop => LoopPromises(s);
      case Pick(_, _) => WorkPromises(s, a);
      case Work(_) => WorkPromises(s, a);
      case Schedule(c, slot, fd) => SchedulePromises(s, c, slot, fd);
      case _ => ErasePromises(s, a);
    }
  }

  // ---- Runs ----

  ghost predicate Leads(s: State, a: Action, s': State) {
    Enabled(s, a) && s' == Do(s, a)
  }

  ghost predicate IsPath(ss: seq<State>, acts: seq<Action>) {
    && |ss| == |acts| + 1
    && forall k :: 0 <= k < |acts| ==> Leads(ss[k], acts[k], ss[k + 1])
  }

  ghost predicate IsRun(ss: seq<State>, acts: seq<Action>) {
    IsPath(ss, acts) && Init(ss[0])
  }

  lemma InitHasInv(s: State)
    requires Init(s)
    ensures Inv(s)
  {
    E.InitHasInv(s.w);
    hide E.Inv;
  }

  lemma {:induction false} PathKeepsInv(ss: seq<State>, acts: seq<Action>, k: nat)
    requires IsPath(ss, acts) && Inv(ss[0]) && k < |ss|
    ensures Inv(ss[k])
  {
    hide Inv, Enabled, Do;
    if k > 0 {
      PathKeepsInv(ss, acts, k - 1);
      assert Leads(ss[k - 1], acts[k - 1], ss[(k - 1) + 1]);
      ActionKeepsInv(ss[k - 1], acts[k - 1]);
    }
  }

  lemma RunKeepsInv(ss: seq<State>, acts: seq<Action>, k: nat)
    requires IsRun(ss, acts) && k < |ss|
    ensures Inv(ss[k])
  {
    hide Inv, Enabled, Do, Init;
    InitHasInv(ss[0]);
    PathKeepsInv(ss, acts, k);
  }

  // ---- Cancel ----

  /** Client `c` is about to unregister the timer `r` on behalf of a `cancel`. */
  ghost predicate ErasesAt(s: State, a: Action, c: nat, r: Reg) {
    a == Go(c) && c < |s.clients| && s.clients[c].Erasing? && s.clients[c].user && s.clients[c].reg == r
  }

  /** The loop has not copied the callback of `r`. */
  predicate NotCopied(s: State, r: Reg) {
    r !in s.w.l.starts && !(s.w.l.pc.InHand? && s.w.l.pc.reg == r)
  }

  /** `r` is unregistered and was never copied. */
  ghost predicate Prevented(s: State, r: Reg) {
    E.Released(s.w, r) && NotCopied(s, r)
  }

  /**
   The task is not in the pool, nobody runs it, and its promise is unclaimed: Closed once `onCancel` has run, Pending
   before.
   */
  ghost predicate NeverRan(s: State, r: Reg) {
    && r !in s.w.l.starts && r !in s.tasks
    && (forall k :: 0 <= k < |s.workers| && s.workers[k].On? ==> s.workers[k].reg != r)
    && r < |s.cells| && s.cells[r] == Unclaimed(r in s.cancelled)
  }

  lemma PreventedNeverRan(s: State, r: Reg)
    requires Inv(s) && Prevented(s, r)
    ensures NeverRan(s, r)
  {
    hide E.Inv, SlotsOk;
  }

  lemma CountIsMembership(x: seq<Reg>, r: Reg)
    ensures multiset(x)[r] == 0 <==> r !in x
  {
    assert r in x <==> r in multiset(x);
  }

  lemma NotCopiedIsNoStart(s: State, r: Reg)
    ensures NotCopied(s, r) <==> E.Starts(s.w.l, r) == 0
  {
    CountIsMembership(s.w.l.starts, r);
  }

  lemma PreventedStays(s: State, a: Action, r: Reg)
    requires Inv(s) && Enabled(s, a) && Prevented(s, r)
    ensures Prevented(Do(s, a), r)
  {
    hide E.Inv, SlotsOk, PromisesOk, E.Enabled, E.Do, E.Released, E.Starts, NotCopied;
    NotCopiedIsNoStart(s, r);
    NotCopiedIsNoStart(Do(s, a), r);
    match a {
      case Schedule(_, slot, fd) => E.ReleasedStays(s.w, E.Open(slot, fd), r);
      case Go(c) => if UsesLoop(s.clients[c]) { E.ReleasedStays(s.w, LoopAction(s.clients[c]), r); }
      case Poll(fds) => E.ReleasedStays(s.w, E.Poll(fds), r);
      case Loop => E.ReleasedStays(s.w, E.Advance, r);
      case _ =>
    }
  }

  lemma EraseReleases(s: State, a: Action, c: nat, r: Reg)
    requires Inv(s) && Enabled(s, a) && ErasesAt(s, a, c, r)
    ensures E.Released(Do(s, a).w, r) && (NotCopied(s, r) ==> Prevented(Do(s, a), r))
  {
    ClientAt(s, c);
    hide E.Inv, SlotsOk, PromisesOk, E.Released, E.Starts, NotCopied;
    NotCopiedIsNoStart(s, r);
    NotCopiedIsNoStart(Do(s, a), r);
    E.UnregisterReleases(s.w, s.clients[c].slot);
  }

  lemma {:induction false} PathPrevents(ss: seq<State>, acts: seq<Action>, k: nat, r: Reg)
    requires IsPath(ss, acts) && Inv(ss[0]) && k < |ss| && Prevented(ss[0], r)
    ensures Prevented(ss[k], r)
  {
    hide Inv, Enabled, Do, Prevented;
    if k > 0 {
      PathPrevents(ss, acts, k - 1, r);
      PathKeepsInv(ss, acts, k - 1);
      assert Leads(ss[k - 1], acts[k - 1], ss[(k - 1) + 1]);
      PreventedStays(ss[k - 1], acts[k - 1], r);
    }
  }

  lemma {:induction false} CancelledGrows(ss: seq<State>, acts: seq<Action>, a: nat, b: nat)
    requires IsPath(ss, acts) && a <= b < |ss|
    ensures ss[a].cancelled <= ss[b].cancelled
  {
    if a < b {
      CancelledGrows(ss, acts, a, b - 1);
      assert Leads(ss[b - 1], acts[b - 1], ss[(b - 1) + 1]);
    }
  }

  lemma Tail(ss: seq<State>, acts: seq<Action>, a: nat)
    requires IsPath(ss, acts) && a < |ss|
    ensures IsPath(ss[a..], acts[a..])
  {
    hide Enabled, Do;
    forall k | 0 <= k < |acts[a..]| ensures Leads(ss[a..][k], acts[a..][k], ss[a..][k + 1]) {
      assert Leads(ss[a + k], acts[a + k], ss[(a + k) + 1]);
    }
  }

  /** Client `c` is still inside the `cancel` that erases `r`. */
  ghost predicate InCancel(s: State, c: nat, r: Reg) {
    && c < |s.clients| && !s.clients[c].Free? && s.clients[c].reg == r
    && (s.clients[c].Cancelling? || ((s.clients[c].Erasing? || s.clients[c].Shutting?) && s.clients[c].user))
  }

  lemma {:induction false} CancelCloses(ss: seq<State>, acts: seq<Action>, u: nat, b: nat, c: nat, r: Reg)
    requires IsPath(ss, acts) && u <= b < |ss| && InCancel(ss[u], c, r)
    ensures InCancel(ss[b], c, r) || r in ss[b].cancelled
  {
    if u < b {
      CancelCloses(ss, acts, u, b - 1, c, r);
      assert Leads(ss[b - 1], acts[b - 1], ss[(b - 1) + 1]);
    }
  }

  /**
   If `cancel` erases a one-shot timer before the loop has copied its callback, the task never enters the pool,
   in whatever way descriptors are used again, and its Future is Closed in every state from the end of `cancel` on.
   */
  lemma CancelPrevents(ss: seq<State>, acts: seq<Action>, u: nat, b: nat, c: nat, r: Reg)
    requires IsRun(ss, acts) && u < b < |ss| && ErasesAt(ss[u], acts[u], c, r) && NotCopied(ss[u], r)
    ensures NeverRan(ss[b], r)
    ensures (exists m :: u < m <= b && !InCancel(ss[m], c, r)) ==> CellAt(ss[b], r).status == F.Closed
  {
    hide Inv, Enabled, Do, Prevented, Init, NotCopied;
    RunKeepsInv(ss, acts, u);
    RunKeepsInv(ss, acts, u + 1);
    RunKeepsInv(ss, acts, b);
    assert Leads(ss[u], acts[u], ss[u + 1]);
    EraseReleases(ss[u], acts[u], c, r);
    Tail(ss, acts, u + 1);
    PathPrevents(ss[u + 1..], acts[u + 1..], b - u - 1, r);
    PreventedNeverRan(ss[b], r);
    if m :| u < m <= b && !InCancel(ss[m], c, r) {
      CancelCloses(ss, acts, u, m, c, r);
      CancelledGrows(ss, acts, m, b);
    }
  }

  /** In no continuation does the callback of `r` start, now or before. */
  ghost predicate NeverStarts(s: State, r: Reg) {
    forall ss: seq<State>, acts: seq<Action> :: IsPath(ss, acts) && ss[0] == s ==> r !in ss[|acts|].w.l.starts
  }

  /** The erasure prevents the task exactly when the loop has not copied the callback yet. */
  lemma CancelPreventsIff(s: State, a: Action, c: nat, r: Reg)
    requires Inv(s) && Enabled(s, a) && ErasesAt(s, a, c, r)
    ensures NeverStarts(Do(s, a), r) <==> NotCopied(s, r)
  {
    hide Inv, Enabled, Do, Prevented, ErasesAt, NotCopied;
    var s' := Do(s, a);
    if NotCopied(s, r) {
      EraseReleases(s, a, c, r);
      ActionKeepsInv(s, a);
      forall ss: seq<State>, acts: seq<Action> | IsPath(ss, acts) && ss[0] == s' ensures r !in ss[|acts|].w.l.starts {
        EndPrevents(ss, acts, r);
      }
    } else {
      StartsInTheEnd(s, a, c, r);
    }
  }

  lemma EndPrevents(ss: seq<State>, acts: seq<Action>, r: Reg)
    requires IsPath(ss, acts) && Inv(ss[0]) && Prevented(ss[0], r)
    ensures |ss| == |acts| + 1 && r !in ss[|acts|].w.l.starts
  {
    hide Inv, Enabled, Do;
    PathPrevents(ss, acts, |acts|, r);
  }

  lemma StartsInTheEnd(s: State, a: Action, c: nat, r: Reg)
    requires Inv(s) && Enabled(s, a) && ErasesAt(s, a, c, r) && !NotCopied(s, r)
    ensures !NeverStarts(Do(s, a), r)
  {
    hide Inv;
    var s' := Do(s, a);
    if r in s.w.l.starts {
      assert IsPath([s'], []);
    } else {
      var ss, acts := [s', Do(s', Loop)], [Loop];
      assert Leads(ss[0], acts[0], ss[0 + 1]);
      assert IsPath(ss, acts) && ss[|acts|].w.l.starts[|s.w.l.starts|] == r;
    }
  }

  // ---- A cancelled task can still run ----

  lemma Then(ss: seq<State>, acts: seq<Action>, a: Action) returns (ss': seq<State>, acts': seq<Action>)
    requires IsRun(ss, acts) && Enabled(ss[|acts|], a)
    ensures IsRun(ss', acts') && |ss'| == |acts'| + 1 && ss'[|acts'|] == Do(ss[|acts|], a)
  {
    hide Do, Enabled, Init;
    ss', acts' := ss + [Do(ss[|acts|], a)], acts + [a];
    forall k | 0 <= k < |acts'| ensures Leads(ss'[k], acts'[k], ss'[k + 1]) {
      if k < |acts| { assert Leads(ss[k], acts[k], ss[k + 1]); }
    }
  }

  /** One client, one worker and one handle, whose timer has the number 5. */
  function Scene(pc: E.LoopPc, starts: seq<Reg>, ready: set<Reg>, h: E.Handle): E.World {
    E.World(E.Loop(if h.Held? then map[5 := 0] else map[], if h.Empty? then map[] else map[5 := 0], 1, pc,
                   if h.Empty? then [0] else [], starts, ready, 0), [h])
  }

  lemma Initially() returns (s: State)
    ensures s ==
              State(E.World(E.Loop(map[], map[], 0, E.Polling, [], [], {}, 0), [E.Empty]),
                    map[], 1, [], [Free], [], [Off], {}, {})
    ensures IsRun([s], [])
  {
    s := State(E.World(E.Loop(map[], map[], 0, E.Polling, [], [], {}, 0), [E.Empty]), map[], 1, [], [Free], [], [Off],
        {}, {});
  }

  lemma Scheduled() returns (ss: seq<State>, acts: seq<Action>)
    ensures IsRun(ss, acts) && |ss| == |acts| + 1
    ensures ss[|acts|] ==
              State(Scene(E.Polling, [], {}, E.Held(5, 0)),
                    map[1 := Entry(0, 0)], 2, [F.Fresh], [Free], [], [Off], {}, {})
  {
    hide IsRun;
    var s := Initially();
    ss, acts := [s], [];
    ss, acts := Then(ss, acts, Schedule(0, 0, 5));
    assert ss[|acts|].w == Scene(E.Polling, [], {}, E.Made(5, 0));
    ss, acts := Then(ss, acts, Go(0));
    ss, acts := Then(ss, acts, Go(0));
  }

  lemma Copied() returns (ss: seq<State>, acts: seq<Action>)
    ensures IsRun(ss, acts) && |ss| == |acts| + 1
    ensures ss[|acts|] ==
              State(Scene(E.InHand(0, []), [], {0}, E.Held(5, 0)),
                    map[1 := Entry(0, 0)], 2, [F.Fresh], [Free], [], [Off], {}, {})
  {
    hide IsRun;
    ss, acts := Scheduled();
    var l := ss[|acts|].w.l;
    assert E.Reported(l, [5]) == [E.Event(5, 0)];
    assert (set fd | fd in [5] :: l.events[fd]) == {0} by { assert 5 in [5] && l.events[5] == 0; }
    ss, acts := Then(ss, acts, Poll([5]));
    assert ss[|acts|].w == Scene(E.Batch([E.Event(5, 0)]), [], {0}, E.Held(5, 0));
    assert [E.Event(5, 0)][1..] == [];
    ss, acts := Then(ss, acts, Loop);
  }

  /** `cancel` comes too late, finds the entry, and closes the promise. */
  lemma CancelledTooLate() returns (ss: seq<State>, acts: seq<Action>)
    ensures IsRun(ss, acts) && |ss| == |acts| + 1
    ensures ss[|acts|] ==
              State(Scene(E.InHand(0, []), [], {0}, E.Empty), map[], 2, [Unclaimed(true)], [Free], [], [Off], {}, {0})
  {
    hide IsRun;
    ss, acts := Copied();
    ss, acts := Then(ss, acts, Cancel(0, 1));
    ss, acts := Then(ss, acts, Go(0));
    assert ss[|acts|].w == Scene(E.InHand(0, []), [], {0}, E.Dropping(5, 0));
    ss, acts := Then(ss, acts, Go(0));
    assert ss[|acts|].w == Scene(E.InHand(0, []), [], {0}, E.Empty);
    ss, acts := Then(ss, acts, Go(0));
  }

  /** A Future that `cancel` has closed becomes Ready when the callback had been copied before. */
  lemma CancelledYetReady(o: F.Outcome) returns (ss: seq<State>, acts: seq<Action>)
    ensures IsRun(ss, acts) && |ss| == |acts| + 1
    ensures ss[|acts|].cancelled == {0} && ss[|acts|].cells == [F.Cell(F.Ready, true, F.Holds(o))]
  {
    hide IsRun;
    ss, acts := CancelledTooLate();
    ss, acts := Then(ss, acts, Loop);
    ss, acts := Then(ss, acts, Pick(0, o));
    assert ss[|acts|].cells == [Unclaimed(true)] && ss[|acts|].workers == [On(0, F.Claiming(o))]
        && ss[|acts|].cancelled == {0};
    ss, acts := Then(ss, acts, Work(0));
    ss, acts := Then(ss, acts, Work(0));
    ss, acts := Then(ss, acts, Work(0));
    ss, acts := Then(ss, acts, Work(0));
  }
}
