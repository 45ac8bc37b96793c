/** The loop works through everything that `epoll_wait` reported. */
module EventLoopDispatch {
  import opened EventLoop

  // ---- Alone ----

  /** After the loop has gone on alone for `n` steps, or until it polls again. */
  function Alone(w: World, n: nat): World
    decreases n
  {
    if n == 0 || !Enabled(w, Advance) then w else Alone(Do(w, Advance), n - 1)
  }

  /** The callbacks registered for the reported numbers, in the order of the report. */
  function Callbacks(events: map<Fd, Reg>, todo: seq<Event>): seq<Reg> {
    if todo == [] then []
    else (if todo[0].fd in events then [events[todo[0].fd]] else []) + Callbacks(events, todo[1..])
  }

  lemma {:induction false} BatchAlone(w: World)
    requires w.l.pc.Batch?
    ensures var todo := w.l.pc.todo;
            Alone(w, 2 * |todo| + 1) ==
            w.(l := w.l.(pc := Polling, starts := w.l.starts + Callbacks(w.l.events, todo)))
    decreases |w.l.pc.todo|
  {
    var l, todo := w.l, w.l.pc.todo;
    var w1 := Do(w, Advance);
    if todo == [] {
      assert l.starts + Callbacks(l.events, todo) == l.starts;
      assert Alone(w, 1) == Alone(w1, 0) == w1;
    } else {
      var n := 2 * |todo[1..]| + 1;
      if todo[0].fd in l.events {
        var w2 := Do(w1, Advance);
        assert Alone(w, n + 2) == Alone(w1, n + 1) == Alone(w2, n);
        BatchAlone(w2);
        assert l.starts + Callbacks(l.events, todo)
            == (l.starts + [l.events[todo[0].fd]]) + Callbacks(l.events, todo[1..]);
      } else {
        assert Alone(w, n + 2) == Alone(w1, n + 1);
        BatchAlone(w1);
        LongerAlone(w1, n);
        assert Callbacks(l.events, todo) == Callbacks(l.events, todo[1..]);
      }
    }
  }

  /** Once the loop polls again it has come to rest. */
  lemma {:induction false} LongerAlone(w: World, n: nat)
    requires Alone(w, n).l.pc.Polling?
    ensures Alone(w, n + 1) == Alone(w, n)
    decreases n
  {
    if n > 0 && Enabled(w, Advance) {
      LongerAlone(Do(w, Advance), n - 1);
    }
  }

  /** The callbacks of the numbers in `fds`. */
  function Those(events: map<Fd, Reg>, fds: seq<Fd>): (regs: seq<Reg>)
    requires forall fd :: fd in fds ==> fd in events
    ensures |regs| == |fds| && forall k :: 0 <= k < |fds| ==> regs[k] == events[fds[k]]
  {
    seq(|fds|, k requires 0 <= k < |fds| => events[fds[k]])
  }

  lemma {:induction false} AllRegistered(events: map<Fd, Reg>, todo: seq<Event>, regs: seq<Reg>)
    requires |todo| == |regs|
    requires forall k :: 0 <= k < |todo| ==> todo[k].fd in events && events[todo[k].fd] == regs[k]
    ensures Callbacks(events, todo) == regs
  {
    if todo != [] {
      AllRegistered(events, todo[1..], regs[1..]);
      assert regs == [regs[0]] + regs[1..];
    }
  }

  /**
   If nobody interferes, a poll is followed by a start of the callback of every reported descriptor, each once and in
   the order of the report, and the loop polls again.
   */
  lemma DispatchesAlone(w: World, fds: seq<Fd>)
    requires Enabled(w, Poll(fds))
    ensures var w' := Alone(Do(w, Poll(fds)), 2 * |fds| + 1);
            && w'.l.pc == Polling && w'.l.starts == w.l.starts + Those(w.l.events, fds)
            && w'.hs == w.hs && w'.l.events == w.l.events && w'.l.open == w.l.open && w'.l.closed == w.l.closed
  {
    var w1 := Do(w, Poll(fds));
    var todo := w1.l.pc.todo;
    forall k | 0 <= k < |todo| ensures todo[k].fd in w.l.events && w.l.events[todo[k].fd] == Those(w.l.events, fds)[k] {
      assert fds[k] in fds;
    }
    AllRegistered(w.l.events, todo, Those(w.l.events, fds));
    hide Alone, Do, Enabled;
    BatchAlone(w1);
  }

  // ---- Under interference ----

  /** The event that the step looks up, and the callback that it takes for it. */
  function LooksUp(w: World, a: Action): seq<Event> {
    if a.Advance? && w.l.pc.Batch? && w.l.pc.todo != [] then [w.l.pc.todo[0]] else []
  }

  function Picks(w: World, a: Action): seq<Reg> {
    if LooksUp(w, a) != [] && LooksUp(w, a)[0].fd in w.l.events then [w.l.events[LooksUp(w, a)[0].fd]] else []
  }

  /** All events looked up, and all callbacks picked, by the actions from `a` up to `b`. */
  ghost function LookedUp(ws: seq<World>, acts: seq<Action>, a: nat, b: nat): seq<Event>
    requires |ws| == |acts| + 1 && a <= b < |ws|
  {
    if a == b then [] else LookedUp(ws, acts, a, b - 1) + LooksUp(ws[b - 1], acts[b - 1])
  }

  ghost function Picked(ws: seq<World>, acts: seq<Action>, a: nat, b: nat): seq<Reg>
    requires |ws| == |acts| + 1 && a <= b < |ws|
  {
    if a == b then [] else Picked(ws, acts, a, b - 1) + Picks(ws[b - 1], acts[b - 1])
  }

  function Holding(pc: LoopPc): seq<Reg> {
    if pc.InHand? then [pc.reg] else []
  }

  /** One action moves an event from the batch to those looked up, and a callback through the hand to the starts. */
  lemma OneAction(w: World, a: Action)
    requires Enabled(w, a) && !a.Poll?
    ensures LooksUp(w, a) + Todo(Do(w, a).l.pc) == Todo(w.l.pc)
    ensures Do(w, a).l.starts + Holding(Do(w, a).l.pc) == w.l.starts + Holding(w.l.pc) + Picks(w, a)
  {
  }

  /**
   Whatever the clients do between one poll and the next, every reported event is looked up exactly once, in order,
   and the callbacks started are exactly those registered for its number at the moment of each look-up.
   */
  lemma {:induction false} EachEventIsDispatched(ws: seq<World>, acts: seq<Action>, a: nat, b: nat)
    requires IsRun(ws, acts) && a < b < |ws| && acts[a].Poll? && Enabled(ws[a], acts[a])
    requires forall x :: a < x < b ==> !acts[x].Poll?
    ensures LookedUp(ws, acts, a + 1, b) + Todo(ws[b].l.pc) == Reported(ws[a].l, acts[a].fds)
    ensures ws[b].l.starts + Holding(ws[b].l.pc) == ws[a].l.starts + Picked(ws, acts, a + 1, b)
    ensures ws[b].l.pc.Polling? ==>
              && LookedUp(ws, acts, a + 1, b) == Reported(ws[a].l, acts[a].fds)
              && ws[b].l.starts == ws[a].l.starts + Picked(ws, acts, a + 1, b)
    decreases b
  {
    hide Init, LooksUp, Picks, Reported, Do, Enabled, Holding, Todo;
    var w, c := ws[b - 1], acts[b - 1];
    assert Leads(w, c, ws[(b - 1) + 1]);
    if a + 1 < b {
      EachEventIsDispatched(ws, acts, a, b - 1);
      OneAction(w, c);
      assert LookedUp(ws, acts, a + 1, b - 1) + LooksUp(w, c) + Todo(ws[b].l.pc)
          == LookedUp(ws, acts, a + 1, b - 1) + (LooksUp(w, c) + Todo(ws[b].l.pc));
      assert ws[a].l.starts + Picked(ws, acts, a + 1, b - 1) + Picks(w, c)
          == ws[a].l.starts + (Picked(ws, acts, a + 1, b - 1) + Picks(w, c));
    } else {
      PollBegins(w, c);
    }
    NothingLeft(ws[b].l.pc, LookedUp(ws, acts, a + 1, b), ws[b].l.starts);
  }

  lemma PollBegins(w: World, a: Action)
    requires Enabled(w, a) && a.Poll?
    ensures Todo(Do(w, a).l.pc) == Reported(w.l, a.fds)
    ensures Do(w, a).l.starts + Holding(Do(w, a).l.pc) == w.l.starts
  {
  }

  lemma NothingLeft(pc: LoopPc, events: seq<Event>, regs: seq<Reg>)
    ensures pc.Polling? ==> events + Todo(pc) == events && regs + Holding(pc) == regs
  {
  }
}
