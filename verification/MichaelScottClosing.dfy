/**
 What `close` does and does not give.  `pop` returns nothing when it saw the queue empty and,
 later, closed; a producer that had already passed its own test of the flag may still link.
 */
module MichaelScottClosing {
  import opened MichaelScott
  import opened MichaelScottInvariant
  import opened MichaelScottTheorems

  /** A producer past line 116 that has not linked its node. */
  predicate Committed(pc: Pc) {
    pc.PushAlloc? || pc.PushLoadTail? || pc.PushProtect? || pc.PushRecheck? || pc.PushLoadNext? ||
    pc.PushHelp? || pc.PushLink? || pc.PushDrop?
  }

  ghost predicate NoneCommitted(s: Queue) {
    forall i :: 0 <= i < |s.threads| ==> !Committed(s.threads[i].pc)
  }

  predicate Drained(s: Queue) {
    s.g.closed && Contents(s.g) == []
  }

  /** The state after a schedule; actions that are not enabled are skipped. */
  function After(s: Queue, acts: seq<Action>): Queue
    decreases |acts|
  {
    if acts == [] then s
    else After(if Enabled(s, acts[0]) then Do(Ideal, s, acts[0]) else s, acts[1..])
  }

  ghost predicate DrainedForGood(s: Queue) {
    forall acts :: Drained(After(s, acts))
  }

  // ---- Without a committed producer, nothing is ever linked again ----

  lemma NothingLinks(g: Store, i: Tid, th: Thread)
    requires Chain(g) && Knows(g, i, th.pc) && g.closed && Contents(g) == [] && !Committed(th.pc)
    ensures var (g', th') := ThreadStep(Ideal, g, i, th);
            g'.closed && Contents(g') == [] && !Committed(th'.pc)
  {
    hide Chain, Private, Claimed, Follows;
    Ends(g);
  }

  lemma DrainedStays(s: Queue, a: Action)
    requires Inv(s) && Drained(s) && NoneCommitted(s) && Enabled(s, a)
    ensures var s' := Do(Ideal, s, a); Drained(s') && NoneCommitted(s')
  {
    if a.Run? {
      assert ThreadOk(s.g, a.i, s.threads[a.i]);
      NothingLinks(s.g, a.i, s.threads[a.i]);
      hide ThreadStep, Chain, Knows, Committed, Contents;
    } else if a.CallPush? {
      hide Chain;
    }
  }

  lemma {:induction false} DrainedAfter(s: Queue, acts: seq<Action>)
    requires Inv(s) && Drained(s) && NoneCommitted(s)
    ensures Drained(After(s, acts))
    decreases |acts|
  {
    hide Inv, Do, Drained, NoneCommitted;
    if acts != [] && Enabled(s, acts[0]) {
      ActionKeepsInv(s, acts[0]);
      DrainedStays(s, acts[0]);
      DrainedAfter(Do(Ideal, s, acts[0]), acts[1..]);
    } else if acts != [] {
      DrainedAfter(s, acts[1..]);
    }
  }

  // ---- A committed producer running alone links its node ----

  /** The current attempt works on a stale tail, or has been overtaken by another link. */
  ghost predicate Doomed(g: Store, pc: Pc) {
    match pc
    case PushProtect(_, _, t) => t != g.tail
    case PushRecheck(_, _, t) => t != g.tail
    case PushLoadNext(_, _, t) => t != g.tail
    case PushHelp(_, _, t, _) => t != g.tail
    case PushLink(_, _, t) => NextAt(Ideal, g, t) != Null
    case _ => false
  }

  function Weight(pc: Pc): nat {
    match pc
    case PushAlloc(_) => 9
    case PushDrop(_, _) => 8
    case PushLoadTail(_, _) => 7
    case PushProtect(_, _, _) => 6
    case PushRecheck(_, _, _) => 5
    case PushLoadNext(_, _, _) => 4
    case PushHelp(_, _, _, _) => 3
    case PushLink(_, _, _) => 2
    case _ => 0
  }

  /** Steps to the link, at most: a stale attempt first, then help for a lagging tail, then the attempt itself. */
  ghost function Distance(g: Store, pc: Pc): nat {
    (if Doomed(g, pc) then 40 else if |g.log| > g.swung then 20 else 0) + Weight(pc)
  }

  lemma Closer(g: Store, i: Tid, th: Thread)
    requires Chain(g) && Knows(g, i, th.pc) && Committed(th.pc)
    ensures var (g', th') := PushStep(Ideal, g, i, th);
            && g'.popped == g.popped && g'.closed == g.closed
            && (|g'.log| > |g.log| || (g'.log == g.log && Committed(th'.pc)
                 && Distance(g', th'.pc) < Distance(g, th.pc)))
  {
    hide Chain, Private;
    Ends(g);
    match th.pc {
      case PushLoadNext(_, _, t) => NextOf(g, t); NextOf(g, g.tail); StaleRank(g, t);
      case PushLink(_, _, t) => NextOf(g, t);
      case PushHelp(_, _, t, x) => LagAtMostOne(g); NextOf(g, x);
      case _ =>
    }
  }

  lemma StaleRank(g: Store, t: Node)
    requires Chain(g) && WasTail(g, t)
    ensures t == g.tail || g.rank[t] < g.swung
  {
    Ends(g);
    if g.rank[t] == g.swung { RankIsInjective(g, t, g.tail); }
  }

  lemma LagAtMostOne(g: Store)
    requires Chain(g)
    ensures |g.log| <= g.swung + 1
  {
  }

  /** Obstruction freedom of `emplace`: run alone from any point, it links within a bounded number of steps. */
  lemma {:induction false} AloneLinks(s: Queue, i: Tid) returns (acts: seq<Action>)
    requires Inv(s) && i < |s.threads| && Committed(s.threads[i].pc)
    ensures |acts| <= Distance(s.g, s.threads[i].pc)
    ensures forall k :: 0 <= k < |acts| ==> acts[k] == Run(i)
    ensures var s' := After(s, acts);
            && s'.g.popped == s.g.popped && |s'.g.log| > |s.g.log| && s'.g.closed == s.g.closed
            && |s'.threads| == |s.threads|
            && forall j :: 0 <= j < |s.threads| && j != i ==> s'.threads[j] == s.threads[j]
    decreases Distance(s.g, s.threads[i].pc)
  {
    hide Chain, Knows, Paced, PushStep, Distance, Evolves;
    assert ThreadOk(s.g, i, s.threads[i]);
    Closer(s.g, i, s.threads[i]);
    StepKeepsInv(s, i);
    var s' := Step(Ideal, s, i);
    assert Do(Ideal, s, Run(i)) == s';
    if |s'.g.log| > |s.g.log| {
      acts := [Run(i)];
      assert After(s, acts) == After(s', []);
      assert 1 <= Distance(s.g, s.threads[i].pc) by { DistancePositive(s.g, s.threads[i].pc); }
    } else {
      var rest := AloneLinks(s', i);
      acts := [Run(i)] + rest;
      assert acts[1..] == rest;
    }
  }

  lemma DistancePositive(g: Store, pc: Pc)
    requires Committed(pc)
    ensures 1 <= Distance(g, pc)
  {
  }

  /** "Closed and drained" is final exactly when no producer is between lines 116 and 144. */
  lemma DrainedForGoodIff(s: Queue)
    requires Inv(s) && Drained(s)
    ensures DrainedForGood(s) <==> NoneCommitted(s)
  {
    if NoneCommitted(s) {
      forall acts ensures Drained(After(s, acts)) { DrainedAfter(s, acts); }
    } else {
      var i :| 0 <= i < |s.threads| && Committed(s.threads[i].pc);
      var acts := AloneLinks(s, i);
      Ends(s.g);
      assert s.g.popped == |s.g.log|;
      assert !Drained(After(s, acts));
    }
  }

  // ---- A pop that returns nothing from a queue that is not empty ----

  lemma {:induction false} AfterConcat(s: Queue, a: seq<Action>, b: seq<Action>)
    ensures After(s, a + b) == After(After(s, a), b)
    decreases |a|
  {
    if a == [] {
      assert a + b == b;
    } else {
      assert (a + b)[1..] == a[1..] + b;
      AfterConcat(if Enabled(s, a[0]) then Do(Ideal, s, a[0]) else s, a[1..], b);
    }
  }

  lemma {:induction false} AfterKeepsInv(s: Queue, acts: seq<Action>)
    requires Inv(s)
    ensures Inv(After(s, acts))
    decreases |acts|
  {
    hide Inv, Do;
    if acts != [] && Enabled(s, acts[0]) {
      ActionKeepsInv(s, acts[0]);
      AfterKeepsInv(Do(Ideal, s, acts[0]), acts[1..]);
    } else if acts != [] {
      AfterKeepsInv(s, acts[1..]);
    }
  }

  /** One action after a schedule. */
  lemma Then(s: Queue, acts: seq<Action>, a: Action)
    requires Enabled(After(s, acts), a)
    ensures After(s, acts + [a]) == Do(Ideal, After(s, acts), a)
  {
    AfterConcat(s, acts, [a]);
    assert [a] + [] == [a];
    Unroll(After(s, acts), a, []);
  }

  lemma StartsToPop(s: Queue) returns (acts: seq<Action>)
    requires NewStore(s.g) && 0 < |s.threads| && s.threads[0].pc.Idle?
    ensures var s' := After(s, acts);
            && s'.g == s.g && |s'.threads| == |s.threads| && s'.threads[0].pc == PopRecheck(s.g.head)
            && forall j :: 0 < j < |s.threads| ==> s'.threads[j] == s.threads[j]
  {
    hide After, PushStep, FinishStep;
    acts := [CallPop(0, false)];
    assert [CallPop(0, false)] + [] == acts;
    Unroll(s, CallPop(0, false), []);
    AfterNone(Do(Ideal, s, CallPop(0, false)));
    Then(s, acts, Run(0)); acts := acts + [Run(0)];
    Then(s, acts, Run(0)); acts := acts + [Run(0)];
  }

  /** A consumer that runs alone on a new queue sees it empty and goes on to test the flag. */
  lemma SeesEmpty(s: Queue) returns (acts: seq<Action>)
    requires NewStore(s.g) && 0 < |s.threads| && s.threads[0].pc.Idle?
    ensures var s' := After(s, acts);
            && s'.g == s.g && |s'.threads| == |s.threads| && s'.threads[0].pc == PopCheckClosed
            && forall j :: 0 < j < |s.threads| ==> s'.threads[j] == s.threads[j]
  {
    hide After, PushStep, FinishStep;
    acts := StartsToPop(s);
    Then(s, acts, Run(0)); acts := acts + [Run(0)];
    Then(s, acts, Run(0)); acts := acts + [Run(0)];
    assert After(s, acts).threads[0].pc == PopDropEmpty;
    Then(s, acts, Run(0)); acts := acts + [Run(0)];
  }

  lemma AfterNone(s: Queue)
    ensures After(s, []) == s
  {
  }

  /** The consumer sees the queue empty before the producer links, and the flag after `close`. */
  lemma Prelude(s: Queue, v: Value) returns (acts: seq<Action>)
    requires Init(s) && 2 <= |s.threads|
    ensures var s' := After(s, acts);
            && |s'.threads| == |s.threads| && s'.threads[0].pc == PopCheckClosed && s'.threads[1].pc == PushAlloc(v)
            && s'.g == s.g.(closed := true)
  {
    hide After;
    AfterNone(s);
    Then(s, [], CallPush(1, v));
    assert [] + [CallPush(1, v)] == [CallPush(1, v)];
    var a1 := [CallPush(1, v), Run(1)];
    Then(s, [CallPush(1, v)], Run(1));
    assert [CallPush(1, v)] + [Run(1)] == a1;
    var s1 := After(s, a1);
    var a2 := SeesEmpty(s1);
    AfterConcat(s, a1, a2);
    Then(s, a1 + a2, Close(0));
    acts := a1 + a2 + [Close(0)];
  }

  lemma Unroll(s: Queue, a: Action, rest: seq<Action>)
    requires Enabled(s, a)
    ensures After(s, [a] + rest) == After(Do(Ideal, s, a), rest)
  {
    assert ([a] + rest)[1..] == rest;
  }

  /** `pop` returning nothing does not mean that the queue is drained. */
  lemma NothingWithAValueInside(s: Queue, v: Value)
    requires Init(s) && 2 <= |s.threads|
    ensures exists acts :: var s' := After(s, acts);
              |s'.threads| == |s.threads| && s'.threads[0].pc == Idle(Nothing) && Contents(s'.g) != []
  {
    var before := Prelude(s, v);
    var s1 := After(s, before);
    InitHasInv(s);
    AfterKeepsInv(s, before);
    assert Committed(s1.threads[1].pc);
    var link := AloneLinks(s1, 1);
    var s2 := After(s1, link);
    AfterKeepsInv(s1, link);
    Ends(s2.g);
    var s3 := Do(Ideal, s2, Run(0));
    Unroll(s2, Run(0), []);
    assert [Run(0)] + [] == [Run(0)];
    AfterConcat(s, before, link + [Run(0)]);
    AfterConcat(s1, link, [Run(0)]);
    var acts := before + (link + [Run(0)]);
    assert After(s, acts) == s3;
    assert s3.threads[0].pc == Idle(Nothing) && Contents(s3.g) != [];
  }

  // ---- When the nullopt of `pop` is true ----

  /** Thread `i` takes no step. */
  ghost predicate StandsStill(acts: seq<Action>, i: Tid) {
    forall k :: 0 <= k < |acts| ==> acts[k].i != i
  }

  /**
   Thread `i` has seen the queue empty and is about to test the flag: whatever the others do before it does, if it then
   finds the flag set and returns nothing, the queue is drained.
   */
  ghost predicate NothingIsTrue(s: Queue, i: Tid) {
    forall acts :: StandsStill(acts, i) ==> (After(s, acts).g.closed ==> Contents(After(s, acts).g) == [])
  }

  /** A committed producer links, another thread closes. */
  lemma LinksThenCloses(s: Queue, i: Tid, c: Tid, d: Tid) returns (acts: seq<Action>)
    requires Inv(s) && c < |s.threads| && d < |s.threads| && c != i && d != i && Committed(s.threads[c].pc)
    ensures StandsStill(acts, i) && After(s, acts).g.closed && Contents(After(s, acts).g) != []
  {
    var links := AloneLinks(s, c);
    Then(s, links, Close(d));
    acts := links + [Close(d)];
    Ends(s.g);
  }

  /** An idle thread begins a push on an open queue, and is committed. */
  lemma Commits(s: Queue, d: Tid, v: Value)
    requires d < |s.threads| && s.threads[d].pc.Idle? && !s.g.closed
    ensures var s' := After(s, [CallPush(d, v), Run(d)]);
            |s'.threads| == |s.threads| && s'.threads[d].pc == PushAlloc(v)
  {
    var s1 := Do(Ideal, s, CallPush(d, v));
    var s2 := Do(Ideal, s1, Run(d));
    assert [CallPush(d, v), Run(d)][1..] == [Run(d)] && [Run(d)][1..] == [];
    assert After(s2, []) == s2;
    assert After(s1, [Run(d)]) == s2;
  }

  lemma NothingCanBeFalse(s: Queue, i: Tid, d: Tid, v: Value)
    requires Inv(s) && i < |s.threads| && d < |s.threads| && d != i && s.threads[i].pc.PopCheckClosed?
    requires s.threads[d].pc.Idle? && !(Drained(s) && NoneCommitted(s))
    ensures !NothingIsTrue(s, i)
  {
    hide Inv, Do;
    if c :| 0 <= c < |s.threads| && Committed(s.threads[c].pc) {
      var acts := LinksThenCloses(s, i, c, d);
    } else if Contents(s.g) != [] {
      Closes(s, d);
      assert StandsStill([Close(d)], i);
    } else {
      var start := [CallPush(d, v), Run(d)];
      Commits(s, d, v);
      AfterKeepsInv(s, start);
      var s' := After(s, start);
      var rest := LinksThenCloses(s', i, d, d);
      AfterConcat(s, start, rest);
      assert StandsStill(start + rest, i);
    }
  }

  lemma Closes(s: Queue, d: Tid)
    requires d < |s.threads|
    ensures After(s, [Close(d)]) == s.(g := s.g.(closed := true))
  {
    assert [Close(d)][1..] == [];
    assert After(s.(g := s.g.(closed := true)), []) == s.(g := s.g.(closed := true));
  }

  /**
   A consumer that has seen the queue empty is sure to return nothing only from a drained queue exactly when the queue
   is already closed and empty and no producer is between lines 116 and 144 (given another thread to act).
   */
  lemma NothingIsTrueIff(s: Queue, i: Tid, d: Tid, v: Value)
    requires Inv(s) && i < |s.threads| && d < |s.threads| && d != i && s.threads[i].pc.PopCheckClosed?
    requires s.threads[d].pc.Idle?
    ensures NothingIsTrue(s, i) <==> Drained(s) && NoneCommitted(s)
  {
    hide Inv;
    if Drained(s) && NoneCommitted(s) {
      forall acts ensures Drained(After(s, acts)) { DrainedAfter(s, acts); }
    } else {
      NothingCanBeFalse(s, i, d, v);
    }
  }

  /** What `pop` returns at that point: nothing, if and only if it finds the flag set. */
  lemma ReturnsNothingIff(s: Queue, i: Tid)
    requires i < |s.threads| && s.threads[i].pc.PopCheckClosed?
    ensures Enabled(s, Run(i))
    ensures Do(Ideal, s, Run(i)).threads[i].pc == Idle(Nothing) <==> s.g.closed
    ensures Do(Ideal, s, Run(i)).g == s.g
  {
  }
}
