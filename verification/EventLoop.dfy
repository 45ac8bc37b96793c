/**
 The event loop of src/event/eventloop.cpp and the owning handles of src/event/handle.cpp, as a state machine:
 descriptors are numbers that the kernel hands out again after a close, a release is an unregistration
 followed by a close, and the loop copies a callback under the mutex and starts it outside.
 */
module EventLoop {
  type Fd = nat

  /** The identity of a trigger, timer or interval: of its descriptor, its registration and its callback. */
  type Reg = nat

  datatype Handle =
    | Empty                          // moved from, released, or not yet created
    | Made(fd: Fd, reg: Reg)         // eventloop.cpp:137, :157, :190: open, not yet registered
    | Held(fd: Fd, reg: Reg)         // registered
    | Dropping(fd: Fd, reg: Reg)     // handle.cpp:54: unregistered, not yet closed

  /** A descriptor that `epoll_wait` reported; `reg` remembers whose it was at that moment. */
  datatype Event = Event(fd: Fd, reg: Reg)

  datatype LoopPc =
    | Polling                             // :222
    | Batch(todo: seq<Event>)             // :233-243
    | InHand(reg: Reg, todo: seq<Event>)  // :244, holding a copy of the callback

  /**
   `open` is the kernel's table; `closed`, `starts`, `ready` (whoever was reported ready) and `strays` (closes
   of a descriptor that is not open) are history variables.
   */
  datatype Loop = Loop(events: map<Fd, Reg>, open: map<Fd, Reg>, next: Reg, pc: LoopPc,
                       closed: seq<Reg>, starts: seq<Reg>, ready: set<Reg>, strays: nat)

  datatype World = World(l: Loop, hs: seq<Handle>)

  /** `Take` is a move construction, or the second half of a move assignment after the release of the target. */
  datatype Action =
    | Open(i: nat, fd: Fd)
    | Register(i: nat)
    | Unregister(i: nat)
    | Close(i: nat)
    | Take(i: nat, from: nat)
    | Poll(fds: seq<Fd>)
    | Advance

  predicate Enabled(w: World, a: Action) {
    match a
    case Open(i, fd) => i < |w.hs| && w.hs[i].Empty? && fd !in w.l.open
    case Register(i) => i < |w.hs| && w.hs[i].Made?
    case Unregister(i) => i < |w.hs| && w.hs[i].Held?
    case Close(i) => i < |w.hs| && w.hs[i].Dropping?
    case Take(i, j) => i < |w.hs| && j < |w.hs| && i != j && w.hs[i].Empty? && (w.hs[j].Held? || w.hs[j].Empty?)
    case Poll(fds) => w.l.pc.Polling? && forall fd :: fd in fds ==> fd in w.l.events
    case Advance => !w.l.pc.Polling?
  }

  function Reported(l: Loop, fds: seq<Fd>): seq<Event>
    requires forall fd :: fd in fds ==> fd in l.events
  {
    seq(|fds|, k requires 0 <= k < |fds| => Event(fds[k], l.events[fds[k]]))
  }

  /** The loop goes on: look up the next descriptor, or start the callback in hand. */
  function LoopStep(l: Loop): Loop {
    match l.pc
    case Polling => l
    case Batch(todo) =>
      if todo == [] then l.(pc := Polling)
      else if todo[0].fd in l.events then l.(pc := InHand(l.events[todo[0].fd], todo[1..]))
      else l.(pc := Batch(todo[1..]))
    case InHand(reg, todo) => l.(pc := Batch(todo), starts := l.starts + [reg])
  }

  function CloseFd(l: Loop, fd: Fd): Loop {
    if fd in l.open then l.(open := l.open - {fd}, closed := l.closed + [l.open[fd]])
    else l.(strays := l.strays + 1)
  }

  function Do(w: World, a: Action): World
    requires Enabled(w, a)
  {
    match a
    case Open(i, fd) =>
      World(w.l.(open := w.l.open[fd := w.l.next], next := w.l.next + 1), w.hs[i := Made(fd, w.l.next)])
    case Register(i) =>
      World(w.l.(events := w.l.events[w.hs[i].fd := w.hs[i].reg]), w.hs[i := Held(w.hs[i].fd, w.hs[i].reg)])
    case Unregister(i) =>
      World(w.l.(events := w.l.events - {w.hs[i].fd}), w.hs[i := Dropping(w.hs[i].fd, w.hs[i].reg)])
    case Close(i) => World(CloseFd(w.l, w.hs[i].fd), w.hs[i := Empty])
    case Take(i, j) => w.(hs := w.hs[i := w.hs[j]][j := Empty])
    case Poll(fds) => w.(l := w.l.(pc := Batch(Reported(w.l, fds)),
        ready := w.l.ready + (set fd | fd in fds :: w.l.events[fd])))
    case Advance => w.(l := LoopStep(w.l))
  }

  ghost predicate Init(w: World) {
    && w.l == Loop(map[], map[], 0, Polling, [], [], {}, 0)
    && forall i :: 0 <= i < |w.hs| ==> w.hs[i].Empty?
  }

  // ---- The invariant ----

  /** A handle that is not empty has its own open descriptor, and a registration exactly while it is Held. */
  predicate HandleOk(l: Loop, h: Handle) {
    !h.Empty? ==>
      && h.fd in l.open && l.open[h.fd] == h.reg && h.reg < l.next
      && (if h.Held? then h.fd in l.events && l.events[h.fd] == h.reg else h.fd !in l.events)
  }

  ghost predicate Owned(hs: seq<Handle>, fd: Fd, reg: Reg) {
    exists i :: 0 <= i < |hs| && !hs[i].Empty? && hs[i].fd == fd && hs[i].reg == reg
  }

  ghost predicate Distinct(hs: seq<Handle>) {
    forall i, j :: 0 <= i < j < |hs| && !hs[i].Empty? && !hs[j].Empty? ==>
      hs[i].reg != hs[j].reg && hs[i].fd != hs[j].fd
  }

  /** Each descriptor ever opened is open, under one number, or was closed once. */
  ghost predicate KernelOk(l: Loop) {
    && (forall fd :: fd in l.open ==> l.open[fd] < l.next && l.open[fd] !in l.closed)
    && (forall f, g :: f in l.open && g in l.open && f != g ==> l.open[f] != l.open[g])
    && (forall a, b :: 0 <= a < b < |l.closed| ==> l.closed[a] != l.closed[b])
    && (forall r: Reg :: r < l.next ==> r in l.closed || r in l.open.Values)
    && (forall r :: r in l.closed ==> r < l.next)
    && (forall fd :: fd in l.events ==> fd in l.open && l.open[fd] == l.events[fd])
    && l.strays == 0
  }

  predicate EventOk(l: Loop, e: Event) {
    e.reg < l.next && (e.reg in l.closed || (e.fd in l.open && l.open[e.fd] == e.reg))
  }

  function Todo(pc: LoopPc): seq<Event> {
    if pc.Polling? then [] else pc.todo
  }

  ghost predicate BatchOk(l: Loop) {
    && (l.pc.InHand? ==> l.pc.reg < l.next)
    && (forall r :: r in l.starts ==> r < l.next)
    && (forall k :: 0 <= k < |Todo(l.pc)| ==> EventOk(l, Todo(l.pc)[k]))
  }

  ghost predicate HandlesOk(l: Loop, hs: seq<Handle>) {
    && Distinct(hs)
    && (forall i :: 0 <= i < |hs| ==> HandleOk(l, hs[i]))
    && (forall fd :: fd in l.open ==> Owned(hs, fd, l.open[fd]))
  }

  ghost predicate Inv(w: World) {
    KernelOk(w.l) && BatchOk(w.l) && HandlesOk(w.l, w.hs)
  }

  // ---- Each step keeps it ----

  /** Descriptors that are neither closed nor renamed keep the reported events right. */
  lemma BatchStable(l: Loop, l': Loop)
    requires BatchOk(l) && l'.pc == l.pc && l'.starts == l.starts && l.next <= l'.next
    requires forall r :: r in l.closed ==> r in l'.closed
    requires forall fd :: fd in l.open ==> l.open[fd] in l'.closed || (fd in l'.open && l'.open[fd] == l.open[fd])
    ensures BatchOk(l')
  {
  }

  function Opened(l: Loop, fd: Fd): Loop {
    l.(open := l.open[fd := l.next], next := l.next + 1)
  }

  lemma OpenKernel(l: Loop, fd: Fd)
    requires KernelOk(l) && fd !in l.open
    ensures KernelOk(Opened(l, fd))
  {
    var l' := Opened(l, fd);
    assert l'.open[fd] == l.next;
    forall r: Reg | r < l'.next ensures r in l'.closed || r in l'.open.Values {
      if r < l.next && r in l.open.Values {
        var f :| f in l.open && l.open[f] == r;
        assert l'.open[f] == r;
      }
    }
  }

  lemma OpenHandles(l: Loop, hs: seq<Handle>, i: nat, fd: Fd)
    requires HandlesOk(l, hs) && i < |hs| && hs[i].Empty? && fd !in l.open && fd !in l.events
    ensures HandlesOk(Opened(l, fd), hs[i := Made(fd, l.next)])
  {
    var l', hs' := Opened(l, fd), hs[i := Made(fd, l.next)];
    forall f | f in l'.open ensures Owned(hs', f, l'.open[f]) {
      if f == fd {
        assert hs'[i].fd == fd;
      } else {
        OwnedElsewhere(hs, hs', i, f, l.open[f]);
      }
    }
    forall j | 0 <= j < |hs| ensures HandleOk(l', hs'[j]) { assert HandleOk(l, hs[j]); }
    hide Owned;
  }

  lemma OwnedElsewhere(hs: seq<Handle>, hs': seq<Handle>, i: nat, fd: Fd, reg: Reg)
    requires Owned(hs, fd, reg) && i < |hs| == |hs'| && (hs[i].Empty? || hs[i].fd != fd)
    requires forall j :: 0 <= j < |hs| && j != i ==> hs'[j] == hs[j]
    ensures Owned(hs', fd, reg)
  {
    var j :| 0 <= j < |hs| && !hs[j].Empty? && hs[j].fd == fd && hs[j].reg == reg;
    assert hs'[j] == hs[j];
  }

  lemma RegisterKernel(l: Loop, fd: Fd, reg: Reg)
    requires KernelOk(l) && fd in l.open && l.open[fd] == reg
    ensures KernelOk(l.(events := l.events[fd := reg])) && KernelOk(l.(events := l.events - {fd}))
  {
  }

  /** A handle keeps its descriptor when only its registration changes. */
  lemma StillOwned(hs: seq<Handle>, i: nat, h: Handle, fd: Fd, reg: Reg)
    requires i < |hs| && Owned(hs, fd, reg) && !hs[i].Empty? && !h.Empty? && h.fd == hs[i].fd && h.reg == hs[i].reg
    ensures Owned(hs[i := h], fd, reg)
  {
    var j :| 0 <= j < |hs| && !hs[j].Empty? && hs[j].fd == fd && hs[j].reg == reg;
    assert hs[i := h][j].fd == fd;
  }

  lemma RegisterHandles(l: Loop, hs: seq<Handle>, i: nat, h: Handle, events': map<Fd, Reg>)
    requires HandlesOk(l, hs) && i < |hs| && !hs[i].Empty? && !h.Empty? && h.fd == hs[i].fd && h.reg == hs[i].reg
    requires events' == if h.Held? then l.events[h.fd := h.reg] else l.events - {h.fd}
    ensures HandlesOk(l.(events := events'), hs[i := h])
  {
    var l', hs' := l.(events := events'), hs[i := h];
    forall f | f in l'.open ensures Owned(hs', f, l'.open[f]) {
      StillOwned(hs, i, h, f, l.open[f]);
    }
    hide Owned;
    forall j | 0 <= j < |hs| ensures HandleOk(l', hs'[j]) {
      assert HandleOk(l, hs[j]);
      if j != i && !hs[j].Empty? { assert hs[j].fd != h.fd by { Apart(hs, i, j); } }
    }
    assert Distinct(hs');
  }

  lemma Apart(hs: seq<Handle>, i: nat, j: nat)
    requires Distinct(hs) && i < |hs| && j < |hs| && i != j && !hs[i].Empty? && !hs[j].Empty?
    ensures hs[i].fd != hs[j].fd && hs[i].reg != hs[j].reg
  {
    if i < j { } else { assert hs[j].fd != hs[i].fd; }
  }

  lemma HandleAt(l: Loop, hs: seq<Handle>, i: nat)
    requires HandlesOk(l, hs) && i < |hs|
    ensures HandleOk(l, hs[i])
  {
  }

  lemma NotRegistered(l: Loop, fd: Fd)
    requires KernelOk(l) && fd !in l.open
    ensures fd !in l.events
  {
  }

  lemma RegistrationKeeps(w: World, i: nat, a: Action)
    requires Inv(w) && Enabled(w, a) && (a == Register(i) || a == Unregister(i))
    ensures Inv(Do(w, a))
  {
    hide KernelOk, HandlesOk, BatchOk;
    var w' := Do(w, a);
    HandleAt(w.l, w.hs, i);
    RegisterKernel(w.l, w.hs[i].fd, w.hs[i].reg);
    BatchStable(w.l, w'.l);
    RegisterHandles(w.l, w.hs, i, w'.hs[i], w'.l.events);
  }

  lemma OpenKeeps(w: World, i: nat, fd: Fd)
    requires Inv(w) && Enabled(w, Open(i, fd))
    ensures Inv(Do(w, Open(i, fd)))
  {
    hide KernelOk, HandlesOk, BatchOk;
    OpenKernel(w.l, fd);
    NotRegistered(w.l, fd);
    BatchStable(w.l, Opened(w.l, fd));
    OpenHandles(w.l, w.hs, i, fd);
  }

  lemma CloseKernel(l: Loop, fd: Fd, reg: Reg)
    requires KernelOk(l) && fd in l.open && l.open[fd] == reg && fd !in l.events
    ensures KernelOk(CloseFd(l, fd))
  {
    var l' := CloseFd(l, fd);
    assert l'.closed[|l.closed|] == reg;
    forall r: Reg | r < l.next ensures r in l'.closed || r in l'.open.Values {
      if r != reg && r in l.open.Values {
        var f :| f in l.open && l.open[f] == r;
        assert f in l'.open && l'.open[f] == r;
      }
    }
  }

  lemma CloseHandles(l: Loop, hs: seq<Handle>, i: nat)
    requires HandlesOk(l, hs) && i < |hs| && hs[i].Dropping?
    ensures HandlesOk(CloseFd(l, hs[i].fd), hs[i := Empty])
  {
    var l', hs' := CloseFd(l, hs[i].fd), hs[i := Empty];
    forall f | f in l'.open ensures Owned(hs', f, l'.open[f]) {
      OwnedElsewhere(hs, hs', i, f, l.open[f]);
    }
    hide Owned;
    forall j | 0 <= j < |hs| ensures HandleOk(l', hs'[j]) {
      assert HandleOk(l, hs[j]);
      if j != i && !hs[j].Empty? { Apart(hs, i, j); }
    }
    assert Distinct(hs');
  }

  lemma CloseKeeps(w: World, i: nat)
    requires Inv(w) && Enabled(w, Close(i))
    ensures Inv(Do(w, Close(i)))
  {
    hide KernelOk, HandlesOk, BatchOk;
    HandleAt(w.l, w.hs, i);
    CloseKernel(w.l, w.hs[i].fd, w.hs[i].reg);
    BatchStable(w.l, CloseFd(w.l, w.hs[i].fd));
    CloseHandles(w.l, w.hs, i);
  }

  lemma TakeKeeps(w: World, i: nat, j: nat)
    requires Inv(w) && Enabled(w, Take(i, j))
    ensures Inv(Do(w, Take(i, j)))
  {
    hide KernelOk, BatchOk, HandleOk, Distinct;
    var w' := Do(w, Take(i, j));
    forall f | f in w'.l.open ensures Owned(w'.hs, f, w'.l.open[f]) {
      TakeOwned(w.hs, i, j, f, w.l.open[f]);
    }
    TakeDistinct(w.hs, i, j);
    forall k | 0 <= k < |w.hs| ensures HandleOk(w.l, w'.hs[k]) {
      assert HandleOk(w.l, Empty) by { EmptyOk(w.l); }
      assert HandleOk(w.l, w.hs[k]) && HandleOk(w.l, w.hs[j]);
    }
  }

  lemma EmptyOk(l: Loop)
    ensures HandleOk(l, Empty)
  {
  }

  lemma TakeOwned(hs: seq<Handle>, i: nat, j: nat, fd: Fd, reg: Reg)
    requires i < |hs| && j < |hs| && i != j && hs[i].Empty? && Owned(hs, fd, reg)
    ensures Owned(hs[i := hs[j]][j := Empty], fd, reg)
  {
    var k :| 0 <= k < |hs| && !hs[k].Empty? && hs[k].fd == fd && hs[k].reg == reg;
    assert hs[i := hs[j]][j := Empty][if k == j then i else k] == hs[k];
  }

  lemma TakeDistinct(hs: seq<Handle>, i: nat, j: nat)
    requires i < |hs| && j < |hs| && i != j && hs[i].Empty? && Distinct(hs)
    ensures Distinct(hs[i := hs[j]][j := Empty])
  {
    var hs' := hs[i := hs[j]][j := Empty];
    forall a, b | 0 <= a < b < |hs'| && !hs'[a].Empty? && !hs'[b].Empty?
      ensures hs'[a].reg != hs'[b].reg && hs'[a].fd != hs'[b].fd
    {
      Apart(hs, if a == i then j else a, if b == i then j else b);
    }
  }

  /** The loop only reads the table. */
  lemma LoopReads(l: Loop, l': Loop, hs: seq<Handle>)
    requires KernelOk(l) && HandlesOk(l, hs)
    requires l'.events == l.events && l'.open == l.open && l'.next == l.next && l'.closed == l.closed
    requires l'.strays == l.strays
    ensures KernelOk(l') && HandlesOk(l', hs)
  {
    hide Owned;
    forall i | 0 <= i < |hs| ensures HandleOk(l', hs[i]) { assert HandleOk(l, hs[i]); }
  }

  lemma LoopBatch(l: Loop)
    requires KernelOk(l) && BatchOk(l)
    ensures BatchOk(LoopStep(l))
  {
    var l' := LoopStep(l);
    forall k | 0 <= k < |Todo(l'.pc)| ensures EventOk(l', Todo(l'.pc)[k]) {
      assert EventOk(l, Todo(l.pc)[if l.pc.InHand? then k else k + 1]);
    }
  }

  lemma PollBatch(l: Loop, l': Loop, fds: seq<Fd>)
    requires KernelOk(l) && BatchOk(l) && forall fd :: fd in fds ==> fd in l.events
    requires l' == l.(pc := Batch(Reported(l, fds)), ready := l'.ready)
    ensures BatchOk(l')
  {
    forall k | 0 <= k < |fds| ensures EventOk(l', Todo(l'.pc)[k]) {
      assert fds[k] in fds;
    }
  }

  lemma LoopKeeps(w: World, a: Action)
    requires Inv(w) && Enabled(w, a) && (a.Poll? || a.Advance?)
    ensures Inv(Do(w, a))
  {
    hide KernelOk, BatchOk, HandlesOk;
    var w' := Do(w, a);
    LoopReads(w.l, w'.l, w.hs);
    if a.Poll? { PollBatch(w.l, w'.l, a.fds); } else { LoopBatch(w.l); }
  }

  lemma ActionKeepsInv(w: World, a: Action)
    requires Inv(w) && Enabled(w, a)
    ensures Inv(Do(w, a))
  {
    hide Inv, Enabled, Do;
    match a {
      case Open(i, fd) => OpenKeeps(w, i, fd);
      case Register(i) => RegistrationKeeps(w, i, a);
      case Unregister(i) => RegistrationKeeps(w, i, a);
      case Close(i) => CloseKeeps(w, i);
      case Take(i, j) => TakeKeeps(w, i, j);
      case Poll(_) => LoopKeeps(w, a);
      case Advance => LoopKeeps(w, a);
    }
  }

  // ---- Runs ----

  ghost predicate Leads(w: World, a: Action, w': World) {
    Enabled(w, a) && w' == Do(w, a)
  }

  ghost predicate IsRun(ws: seq<World>, acts: seq<Action>) {
    && |ws| == |acts| + 1 && Init(ws[0])
    && forall k :: 0 <= k < |acts| ==> Leads(ws[k], acts[k], ws[k + 1])
  }

  lemma {:induction false} RunKeepsInv(ws: seq<World>, acts: seq<Action>, k: nat)
    requires IsRun(ws, acts) && k < |ws|
    ensures Inv(ws[k])
  {
    hide Inv, Enabled, Do, Init;
    if k == 0 {
      InitHasInv(ws[0]);
    } else {
      RunKeepsInv(ws, acts, k - 1);
      assert Leads(ws[k - 1], acts[k - 1], ws[(k - 1) + 1]);
      ActionKeepsInv(ws[k - 1], acts[k - 1]);
    }
  }

  lemma InitHasInv(w: World)
    requires Init(w)
    ensures Inv(w)
  {
  }

  /**
   Live handles own distinct descriptors that are open and registered with their own callback; no close ever hits a
   stranger's.
   */
  lemma LiveHandlesOwnDistinctDescriptors(ws: seq<World>, acts: seq<Action>, k: nat, i: nat, j: nat)
    requires IsRun(ws, acts) && k < |ws| && i < |ws[k].hs| && j < |ws[k].hs| && i != j
    requires ws[k].hs[i].Held? && ws[k].hs[j].Held?
    ensures ws[k].hs[i].fd != ws[k].hs[j].fd
    ensures var h, l := ws[k].hs[i], ws[k].l;
            h.fd in l.open && l.open[h.fd] == h.reg && h.fd in l.events && l.events[h.fd] == h.reg && l.strays == 0
  {
    RunKeepsInv(ws, acts, k);
    assert HandleOk(ws[k].l, ws[k].hs[i]);
    if i < j { } else { assert ws[k].hs[j].fd != ws[k].hs[i].fd; }
  }

  /** Whether some handle still has the descriptor of `r`. */
  ghost predicate HasHandle(w: World, r: Reg) {
    exists i :: 0 <= i < |w.hs| && !w.hs[i].Empty? && w.hs[i].reg == r
  }

  lemma {:induction false} CountInDistinct(s: seq<Reg>, r: Reg)
    requires forall a, b :: 0 <= a < b < |s| ==> s[a] != s[b]
    ensures multiset(s)[r] == if r in s then 1 else 0
  {
    if s != [] {
      var n := |s| - 1;
      CountInDistinct(s[..n], r);
      assert s == s[..n] + [s[n]];
      if r == s[n] { assert r !in s[..n]; }
    }
  }

  /**
   Every descriptor ever opened belongs to a live handle, or was closed; and it was closed exactly once, never while a
   handle had it.
   */
  lemma EachDescriptorIsClosedOnce(ws: seq<World>, acts: seq<Action>, k: nat, r: Reg)
    requires IsRun(ws, acts) && k < |ws| && r < ws[k].l.next
    ensures multiset(ws[k].l.closed)[r] == if HasHandle(ws[k], r) then 0 else 1
  {
    RunKeepsInv(ws, acts, k);
    var w := ws[k];
    CountInDistinct(w.l.closed, r);
    if HasHandle(w, r) {
      var i :| 0 <= i < |w.hs| && !w.hs[i].Empty? && w.hs[i].reg == r;
      assert HandleOk(w.l, w.hs[i]);
    }
    if r in w.l.open.Values { OpenHasHandle(w, r); }
  }

  lemma OpenHasHandle(w: World, r: Reg)
    requires Inv(w) && r in w.l.open.Values
    ensures HasHandle(w, r)
  {
    var fd :| fd in w.l.open && w.l.open[fd] == r;
    assert Owned(w.hs, fd, r);
  }

  /**
   After a move the target stands for the descriptor and the source for nothing: only the target can be released, and
   its release unregisters and closes the descriptor that the source had.
   */
  lemma MoveThenRelease(w: World, i: nat, j: nat)
    requires Inv(w) && Enabled(w, Take(i, j)) && w.hs[j].Held?
    ensures var h, w1 := w.hs[j], Do(w, Take(i, j));
            && !Enabled(w1, Unregister(j)) && Enabled(w1, Unregister(i))
            && var w2 := Do(w1, Unregister(i));
               Enabled(w2, Close(i)) && Do(w2, Close(i)) ==
               World(w.l.(events := w.l.events - {h.fd}, open := w.l.open - {h.fd}, closed := w.l.closed + [h.reg]),
                     w.hs[j := Empty])
  {
    assert HandleOk(w.l, w.hs[j]);
    hide Inv;
    var w1 := Do(w, Take(i, j));
    assert w1.hs[i] == w.hs[j] && w1.hs[j] == Empty;
    var w2 := Do(w1, Unregister(i));
    assert w2.hs[i] == Dropping(w.hs[j].fd, w.hs[j].reg);
    var w3 := Do(w2, Close(i));
    assert w3.hs == w.hs[j := Empty];
  }

  // ---- After a release ----

  /** `r` was registered once and is so no more. */
  ghost predicate Released(w: World, r: Reg) {
    && r < w.l.next && r !in w.l.events.Values
    && forall i :: 0 <= i < |w.hs| ==> !(w.hs[i].Made? && w.hs[i].reg == r)
  }

  /** Starts of the callback of `r` so far, and one that can no longer be prevented. */
  function Starts(l: Loop, r: Reg): nat {
    multiset(l.starts)[r] + if l.pc.InHand? && l.pc.reg == r then 1 else 0
  }

  lemma ReleasedStays(w: World, a: Action, r: Reg)
    requires Inv(w) && Enabled(w, a) && Released(w, r)
    ensures Released(Do(w, a), r) && Starts(Do(w, a).l, r) == Starts(w.l, r)
  {
    hide Owned, KernelOk, Distinct, BatchOk, HandlesOk, Starts, Released;
    match a {
      case Advance => ReleasedLoop(w, r);
      case Poll(_) => ReleasedPoll(w, a, r);
      case _ => ReleasedHandles(w, a, r);
    }
  }

  lemma ReleasedLoop(w: World, r: Reg)
    requires Released(w, r) && Enabled(w, Advance)
    ensures Released(Do(w, Advance), r) && Starts(Do(w, Advance).l, r) == Starts(w.l, r)
  {
    if w.l.pc.Batch? && w.l.pc.todo != [] && w.l.pc.todo[0].fd in w.l.events {
      assert w.l.events[w.l.pc.todo[0].fd] in w.l.events.Values;
    }
  }

  lemma ReleasedPoll(w: World, a: Action, r: Reg)
    requires Released(w, r) && Enabled(w, a) && a.Poll?
    ensures Released(Do(w, a), r) && Starts(Do(w, a).l, r) == Starts(w.l, r)
  {
    hide Reported;
  }

  lemma ReleasedHandles(w: World, a: Action, r: Reg)
    requires Released(w, r) && Enabled(w, a) && !a.Advance? && !a.Poll?
    ensures Released(Do(w, a), r) && Starts(Do(w, a).l, r) == Starts(w.l, r)
  {
    var w' := Do(w, a);
    forall fd | fd in w'.l.events ensures w'.l.events[fd] != r {
      if fd in w.l.events { assert w.l.events[fd] in w.l.events.Values; }
    }
    hide Starts;
    assert w'.l.starts == w.l.starts && w'.l.pc == w.l.pc;
    StartsSame(w.l, w'.l, r);
  }

  lemma StartsSame(l: Loop, l': Loop, r: Reg)
    requires l'.starts == l.starts && l'.pc == l.pc
    ensures Starts(l', r) == Starts(l, r)
  {
  }

  lemma UnregisterReleases(w: World, i: nat)
    requires Inv(w) && Enabled(w, Unregister(i))
    ensures Released(Do(w, Unregister(i)), w.hs[i].reg)
    ensures Starts(Do(w, Unregister(i)).l, w.hs[i].reg) == Starts(w.l, w.hs[i].reg)
  {
    var w', r := Do(w, Unregister(i)), w.hs[i].reg;
    assert HandleOk(w.l, w.hs[i]);
    forall fd | fd in w'.l.events ensures w'.l.events[fd] != r { }
    forall j | 0 <= j < |w'.hs| && w'.hs[j].Made? ensures w'.hs[j].reg != r {
      if j < i { } else { assert j != i; }
    }
  }

  lemma {:induction false} StartsAreFixed(ws: seq<World>, acts: seq<Action>, a: nat, b: nat, i: nat)
    requires IsRun(ws, acts) && a < b < |ws| && acts[a] == Unregister(i) && Enabled(ws[a], acts[a])
    ensures Released(ws[b], ws[a].hs[i].reg) && Starts(ws[b].l, ws[a].hs[i].reg) == Starts(ws[a].l, ws[a].hs[i].reg)
  {
    hide Inv, Do, Init, Released, Starts;
    RunKeepsInv(ws, acts, b - 1);
    assert Leads(ws[b - 1], acts[b - 1], ws[(b - 1) + 1]);
    if a + 1 == b {
      UnregisterReleases(ws[a], i);
    } else {
      StartsAreFixed(ws, acts, a, b - 1, i);
      ReleasedStays(ws[b - 1], acts[b - 1], ws[a].hs[i].reg);
    }
  }

  /**
   After the release of a registration its callback starts at most once more: only if the loop had already
   copied it, and never otherwise, even when the descriptor's number is used again.
   */
  lemma AtMostOnceMore(ws: seq<World>, acts: seq<Action>, a: nat, b: nat, i: nat)
    requires IsRun(ws, acts) && a < b < |ws| && acts[a] == Unregister(i) && Enabled(ws[a], acts[a])
    ensures var r := ws[a].hs[i].reg;
            && multiset(ws[b].l.starts)[r] <= multiset(ws[a].l.starts)[r] + 1
            && (!(ws[a].l.pc.InHand? && ws[a].l.pc.reg == r) ==>
                 multiset(ws[b].l.starts)[r] == multiset(ws[a].l.starts)[r])
  {
    hide Inv, Do, Init, Released;
    StartsAreFixed(ws, acts, a, b, i);
    StartsGrow(ws, acts, a, b, ws[a].hs[i].reg);
  }

  lemma {:induction false} StartsGrow(ws: seq<World>, acts: seq<Action>, a: nat, b: nat, r: Reg)
    requires IsRun(ws, acts) && a <= b < |ws|
    ensures multiset(ws[a].l.starts)[r] <= multiset(ws[b].l.starts)[r]
  {
    if a < b {
      StartsGrow(ws, acts, a, b - 1, r);
      assert Leads(ws[b - 1], acts[b - 1], ws[(b - 1) + 1]);
    }
  }

  // ---- A callback can start on behalf of another descriptor ----

  /**
   The loop looks events up by number.  The callback it picks is that of the registration that became ready
   exactly when that registration has not been closed since; otherwise it is a stranger's,
       whose descriptor got the same number.
   */
  lemma PicksItsOwnIff(w: World)
    requires Inv(w) && w.l.pc.Batch? && w.l.pc.todo != [] && w.l.pc.todo[0].fd in w.l.events
    ensures Do(w, Advance).l.pc.InHand?
    ensures Do(w, Advance).l.pc.reg == w.l.pc.todo[0].reg <==> w.l.pc.todo[0].reg !in w.l.closed
  {
    assert EventOk(w.l, Todo(w.l.pc)[0]);
  }

  lemma Then(ws: seq<World>, acts: seq<Action>, a: Action) returns (ws': seq<World>, acts': seq<Action>)
    requires IsRun(ws, acts) && Enabled(ws[|acts|], a)
    ensures IsRun(ws', acts') && |ws'| == |acts'| + 1 && ws'[|acts'|] == Do(ws[|acts|], a)
  {
    hide Do, Enabled, Init;
    ws', acts' := ws + [Do(ws[|acts|], a)], acts + [a];
    forall k | 0 <= k < |acts'| ensures Leads(ws'[k], acts'[k], ws'[k + 1]) {
      if k < |acts| { assert Leads(ws[k], acts[k], ws[k + 1]); }
    }
  }

  lemma Initially()
    ensures IsRun([World(Loop(map[], map[], 0, Polling, [], [], {}, 0), [Empty, Empty])], [])
  {
  }

  lemma OneReady() returns (ws: seq<World>, acts: seq<Action>)
    ensures IsRun(ws, acts) && |ws| == |acts| + 1
    ensures ws[|acts|] ==
              World(Loop(map[5 := 0], map[5 := 0], 1, Batch([Event(5, 0)]), [], [], {0}, 0), [Held(5, 0), Empty])
  {
    hide IsRun;
    ws, acts := [World(Loop(map[], map[], 0, Polling, [], [], {}, 0), [Empty, Empty])], [];
    Initially();
    ws, acts := Then(ws, acts, Open(0, 5));
    ws, acts := Then(ws, acts, Register(0));
    ws, acts := Then(ws, acts, Poll([5]));
    assert Reported(Loop(map[5 := 0], map[5 := 0], 1, Polling, [], [], {}, 0), [5]) == [Event(5, 0)];
  }

  /**
   A callback can start although its own descriptor never became ready, only that of its predecessor under the same
   number.
   */
  lemma StartsWithoutBeingReady() returns (ws: seq<World>, acts: seq<Action>)
    ensures IsRun(ws, acts) && |ws| == |acts| + 1
    ensures 1 in ws[|acts|].l.starts && 1 !in ws[|acts|].l.ready
  {
    ws, acts := OneReady();
    hide IsRun;
    ws, acts := Then(ws, acts, Unregister(0));
    ws, acts := Then(ws, acts, Close(0));
    ws, acts := Then(ws, acts, Open(1, 5));
    ws, acts := Then(ws, acts, Register(1));
    ws, acts := Then(ws, acts, Advance);
    ws, acts := Then(ws, acts, Advance);
  }
}
