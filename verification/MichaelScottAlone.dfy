/**
 Obstruction freedom: from every reachable state, a thread that is left alone in the middle of a call comes back from
 it, with the result that the contents call for.
 */
module MichaelScottAlone {
  import opened MichaelScott
  import opened MichaelScottInvariant
  import opened MichaelScottTheorems
  import opened MichaelScottClosing

  /** Inside `pop` before the CAS on head succeeds. */
  predicate PopAttempt(pc: Pc) {
    pc.PopLoadHead? || pc.PopProtect? || pc.PopRecheck? || pc.PopDrop? || pc.PopLoadNext? || pc.PopDropEmpty? ||
    pc.PopCheckClosed? || pc.PopProtectNext? || pc.PopRecheckNext? || pc.PopLoadTail? || pc.PopHelp? ||
    pc.PopDetach? || pc.PopDropHead? || pc.PopDropNext?
  }

  /** The consumer has found the queue empty and has not yet tested the flag. */
  predicate SawEmpty(pc: Pc) {
    pc.PopDropEmpty? || pc.PopCheckClosed?
  }

  /** A pop on an empty and open queue waits for others; any other call can be completed alone. */
  predicate CanFinish(g: Store, pc: Pc) {
    PopAttempt(pc) ==> Contents(g) != [] || g.closed
  }

  /** What the call will return, and the contents it will leave, if nobody interferes. */
  function Promise(g: Store, pc: Pc): (Result, seq<Value>) {
    var q := Contents(g);
    if pc.Idle? then (pc.result, q)
    else if pc.PushCheck? && g.closed then (Pushed(false), q)
    else if pc.PushCheck? || Committed(pc) then (Pushed(true), q + [pc.v])
    else if InPush(pc) then (Pushed(true), q)
    else if pc.PopTake? && pc.x in g.rank && 0 < g.rank[pc.x] <= |g.log| then (Popped(g.log[g.rank[pc.x] - 1]), q)
    else if InFinish(pc) && !pc.PopTake? then (Popped(pc.v), q)
    else if q != [] && !(g.closed && SawEmpty(pc)) then (Popped(q[0]), q[1..])
    else (Nothing, q)
  }

  // ---- Pushing ----

  function PushRank(pc: Pc): nat {
    match pc
    case PushRelease(_, _) => 3
    case PushSwing(_, _) => 2
    case PushCount => 1
    case _ => 0
  }

  lemma CommitsOrRefuses(g: Store, i: Tid, th: Thread)
    requires Chain(g) && th.pc.PushCheck?
    ensures var (g', th') := PushStep(Ideal, g, i, th);
            Promise(g', th'.pc) == Promise(g, th.pc) && g' == g
                && (th'.pc.Idle? || (Committed(th'.pc) && Distance(g', th'.pc) < 60))
  {
    hide Chain;
  }

  lemma LinkGoesOn(g: Store, i: Tid, th: Thread)
    requires Chain(g) && Knows(g, i, th.pc) && Committed(th.pc)
    ensures var (g', th') := PushStep(Ideal, g, i, th);
            && Promise(g', th'.pc) == Promise(g, th.pc)
            && (th'.pc.PushRelease? || (Committed(th'.pc) && Distance(g', th'.pc) < Distance(g, th.pc)))
  {
    Ends(g);
    Closer(g, i, th);
    hide Chain, Knows, Distance;
    if th.pc.PushLink? && NextAt(Ideal, g, th.pc.t) == Null {
      assert (g.log + [th.pc.v])[g.popped..] == g.log[g.popped..] + [th.pc.v];
    }
  }

  lemma PushEnds(g: Store, i: Tid, th: Thread)
    requires th.pc.PushRelease? || th.pc.PushSwing? || th.pc.PushCount?
    ensures var (g', th') := PushStep(Ideal, g, i, th);
            Promise(g', th'.pc) == Promise(g, th.pc) && PushRank(th'.pc) < PushRank(th.pc)
                && (th'.pc.Idle? || th'.pc.PushSwing? || th'.pc.PushCount?)
  {
  }

  // ---- Popping ----

  /** The attempt works on a head that has moved, or helps a tail that has moved. */
  predicate PopDoomed(g: Store, pc: Pc) {
    match pc
    case PopProtect(h) => h != g.head
    case PopRecheck(h) => h != g.head
    case PopLoadNext(h) => h != g.head
    case PopProtectNext(h, _) => h != g.head
    case PopRecheckNext(h, _) => h != g.head
    case PopLoadTail(h, _) => h != g.head
    case PopDetach(h, _) => h != g.head
    case PopHelp(h, _) => h != g.tail
    case _ => false
  }

  function PopWeight(pc: Pc, empty: bool): nat {
    match pc
    case PopDrop => 14
    case PopDropHead => 15
    case PopDropNext => 14
    case PopLoadHead => 13
    case PopProtect(_) => 12
    case PopRecheck(_) => 11
    case PopLoadNext(_) => 10
    case PopProtectNext(_, _) => 9
    case PopRecheckNext(_, _) => 8
    case PopLoadTail(_, _) => 7
    case PopHelp(_, _) => 6
    case PopDetach(_, _) => 5
    case PopDropEmpty => if empty then 4 else 15
    case PopCheckClosed => if empty then 3 else 14
    case _ => 0
  }

  function PopDistance(g: Store, pc: Pc): nat {
    (if PopDoomed(g, pc) then 40 else if |g.log| > g.swung then 20 else 0) + PopWeight(pc, Contents(g) == [])
  }

  /** What a lone consumer finds at its next access. */
  lemma HeadFacts(g: Store, i: Tid, pc: Pc)
    requires Chain(g) && Knows(g, i, pc) && PopAttempt(pc)
    ensures g.popped <= g.swung <= |g.log|
    ensures pc.PopLoadNext? ==>
              && (g.next[pc.h] == Null ==> pc.h == g.head && Contents(g) == [])
              && pc.h < |g.next|
    ensures pc.PopProtectNext? || pc.PopRecheckNext? || pc.PopLoadTail? || pc.PopDetach? ==>
              pc.h == g.head ==> Contents(g) != []
    ensures pc.PopHelp? && pc.h == g.tail ==> |g.log| > g.swung
    ensures pc.PopLoadTail? && pc.h == g.tail ==> |g.log| > g.swung
  {
    Ends(g);
    if pc.PopLoadNext? {
      NextOf(g, pc.h);
      if g.next[pc.h] == Null { RankIsInjective(g, pc.h, g.head); }
    }
    if pc.PopProtectNext? || pc.PopRecheckNext? || pc.PopLoadTail? || pc.PopDetach? || pc.PopHelp? {
      FollowerIsLinked(g, pc.h, pc.x);
    }
    hide Chain;
  }

  lemma FollowerIsLinked(g: Store, h: Node, x: Node)
    requires Chain(g) && Follows(g, h, x)
    ensures g.rank[h] < |g.log|
  {
  }

  /** A lone consumer's attempt touches the tail only. */
  lemma AttemptShape(g: Store, i: Tid, th: Thread)
    requires PopAttempt(th.pc) && !th.pc.PopDetach?
    ensures var (g', th') := PopStep(Ideal, g, i, th);
            && g'.log == g.log && g'.popped == g.popped && g'.closed == g.closed && g'.head == g.head
            && (PopAttempt(th'.pc) || (th'.pc == Idle(Nothing) && g.closed && th.pc.PopCheckClosed?))
            && (SawEmpty(th'.pc) ==> th.pc.PopDropEmpty? || (th.pc.PopLoadNext? && NextAt(Ideal, g, th.pc.h) == Null))
            && (th.pc.PopDropEmpty? ==> th'.pc.PopCheckClosed?)
            && (th.pc.PopCheckClosed? ==> if g.closed then th'.pc.Idle? else th'.pc.PopLoadHead?)
  {
  }

  lemma PromiseOfAttempt(g: Store, pc: Pc)
    requires PopAttempt(pc)
    ensures Promise(g, pc) == if Contents(g) != [] && !(g.closed && SawEmpty(pc))
                              then (Popped(Contents(g)[0]), Contents(g)[1..]) else (Nothing, Contents(g))
  {
  }

  lemma AttemptKeepsPromise(g: Store, i: Tid, th: Thread)
    requires Chain(g) && Knows(g, i, th.pc) && PopAttempt(th.pc) && !th.pc.PopDetach? && CanFinish(g, th.pc)
    ensures var (g', th') := PopStep(Ideal, g, i, th);
            && Promise(g', th'.pc) == Promise(g, th.pc) && CanFinish(g', th'.pc)
            && (th'.pc.Idle? || PopAttempt(th'.pc))
  {
    HeadFacts(g, i, th.pc);
    AttemptShape(g, i, th);
    var (g', th') := PopStep(Ideal, g, i, th);
    PromiseOfAttempt(g, th.pc);
    if th'.pc.Idle? {
      assert SawEmpty(th.pc) && Promise(g', th'.pc) == (Nothing, Contents(g'));
    } else {
      PromiseOfAttempt(g', th'.pc);
    }
    hide Chain, Knows, PopStep, Promise, PopAttempt;
  }

  /** It comes nearer to its CAS, or to the test of the flag. */
  ghost predicate Descends(g: Store, i: Tid, th: Thread) {
    var (g', th') := PopStep(Ideal, g, i, th);
    th'.pc.Idle? || PopDistance(g', th'.pc) < PopDistance(g, th.pc)
    || (th.pc.PopCheckClosed? && !g.closed && Contents(g) == [])
  }

  lemma AttemptDescends(g: Store, i: Tid, th: Thread)
    requires Chain(g) && Knows(g, i, th.pc) && PopAttempt(th.pc) && !th.pc.PopDetach?
    ensures Descends(g, i, th)
  {
    if th.pc.PopLoadNext? || th.pc.PopProtectNext? || th.pc.PopRecheckNext? || th.pc.PopLoadTail? || th.pc.PopHelp? {
      LateDescends(g, i, th);
    } else {
      EarlyDescends(g, i, th);
    }
    hide Chain, Knows, Descends, PopAttempt;
  }

  lemma EarlyDescends(g: Store, i: Tid, th: Thread)
    requires th.pc.PopLoadHead? || th.pc.PopProtect? || th.pc.PopRecheck? || th.pc.PopDrop? || th.pc.PopDropHead? ||
             th.pc.PopDropNext? || SawEmpty(th.pc)
    ensures Descends(g, i, th)
  {
    hide Contents;
  }

  lemma LateDescends(g: Store, i: Tid, th: Thread)
    requires Chain(g) && Knows(g, i, th.pc)
    requires th.pc.PopLoadNext? || th.pc.PopProtectNext? || th.pc.PopRecheckNext? || th.pc.PopLoadTail? ||
             th.pc.PopHelp?
    ensures Descends(g, i, th)
  {
    HeadFacts(g, i, th.pc);
    LagAtMostOne(g);
    hide Chain, Knows, Descends, Contents;
    if th.pc.PopLoadNext? { LoadNextDescends(g, i, th); }
    else if th.pc.PopHelp? { HelpDescends(g, i, th); }
    else { CheckDescends(g, i, th); }
  }

  lemma LoadNextDescends(g: Store, i: Tid, th: Thread)
    requires th.pc.PopLoadNext? && th.pc.h < |g.next|
    requires g.next[th.pc.h] == Null ==> th.pc.h == g.head && Contents(g) == []
    ensures Descends(g, i, th)
  {
    hide Contents;
  }

  lemma CheckDescends(g: Store, i: Tid, th: Thread)
    requires th.pc.PopProtectNext? || th.pc.PopRecheckNext? || th.pc.PopLoadTail?
    requires th.pc.PopLoadTail? && th.pc.h == g.tail ==> |g.log| > g.swung
    ensures Descends(g, i, th)
  {
    hide Contents;
  }

  lemma HelpDescends(g: Store, i: Tid, th: Thread)
    requires th.pc.PopHelp? && g.swung <= |g.log| <= g.swung + 1 && (th.pc.h == g.tail ==> |g.log| > g.swung)
    ensures Descends(g, i, th)
  {
    hide Contents;
  }

  /** The CAS on head succeeds: the value that was promised is now the consumer's own. */
  lemma DetachTakes(g: Store, i: Tid, th: Thread)
    requires Chain(g) && Knows(g, i, th.pc) && th.pc.PopDetach? && th.pc.h == g.head
    ensures var (g', th') := PopStep(Ideal, g, i, th);
            th'.pc == PopTake(th.pc.h, th.pc.x) && Promise(g', th'.pc) == Promise(g, th.pc)
  {
    Ends(g);
    FollowerIsLinked(g, th.pc.h, th.pc.x);
    PromiseOfAttempt(g, th.pc);
    hide Chain, PopAttempt, SawEmpty;
    var x := th.pc.x;
    assert g.rank[x] == g.popped + 1 && g.popped < |g.log|;
    assert g.log[g.popped..][1..] == g.log[g.popped + 1..];
  }

  lemma DetachFails(g: Store, i: Tid, th: Thread)
    requires th.pc.PopDetach? && th.pc.h != g.head && CanFinish(g, th.pc)
    ensures var (g', th') := PopStep(Ideal, g, i, th);
            && Promise(g', th'.pc) == Promise(g, th.pc) && PopAttempt(th'.pc) && CanFinish(g', th'.pc)
            && PopDistance(g', th'.pc) < PopDistance(g, th.pc)
  {
    PromiseOfAttempt(g, th.pc);
    PromiseOfAttempt(g, PopDropHead);
    hide Promise, Contents;
  }

  lemma DetachGoesOn(g: Store, i: Tid, th: Thread)
    requires Chain(g) && Knows(g, i, th.pc) && th.pc.PopDetach? && CanFinish(g, th.pc)
    ensures var (g', th') := PopStep(Ideal, g, i, th);
            && Promise(g', th'.pc) == Promise(g, th.pc)
            && (th'.pc.PopTake? || (PopAttempt(th'.pc) && CanFinish(g', th'.pc)
                   && PopDistance(g', th'.pc) < PopDistance(g, th.pc)))
  {
    hide Chain, Knows, Promise, PopStep, PopDistance, CanFinish, PopAttempt;
    if th.pc.h == g.head { DetachTakes(g, i, th); } else { DetachFails(g, i, th); }
  }

  function FinishRank(pc: Pc): nat {
    match pc
    case PopTake(_, _) => 6
    case PopCount(_, _) => 5
    case PopRelease(_, _) => 4
    case PopReleaseNext(_, _) => 3
    case PopRetire(_, _) => 2
    case PopScan(_) => 1
    case _ => 0
  }

  lemma PromiseOfFinish(g: Store, pc: Pc)
    requires InFinish(pc)
    ensures pc.PopTake? && pc.x in g.rank && 0 < g.rank[pc.x] <= |g.log| ==>
              Promise(g, pc) == (Popped(g.log[g.rank[pc.x] - 1]), Contents(g))
    ensures !pc.PopTake? ==> Promise(g, pc) == (Popped(pc.v), Contents(g))
  {
  }

  lemma FinishGoesOn(g: Store, i: Tid, th: Thread)
    requires Knows(g, i, th.pc) && InFinish(th.pc)
    ensures var (g', th') := FinishStep(Ideal, g, i, th);
            && Promise(g', th'.pc) == Promise(g, th.pc) && FinishRank(th'.pc) < FinishRank(th.pc)
            && (th'.pc.Idle? || (InFinish(th'.pc) && !th'.pc.PopTake?))
  {
    var (g', th') := FinishStep(Ideal, g, i, th);
    PromiseOfFinish(g, th.pc);
    if th'.pc.Idle? {
      assert Promise(g', th'.pc) == (th'.pc.result, Contents(g'));
    } else {
      PromiseOfFinish(g', th'.pc);
    }
    hide Promise;
  }

  // ---- All calls ----

  /** An upper bound on the steps of a call that nobody disturbs. */
  ghost function StepsLeft(g: Store, pc: Pc): nat {
    if pc.PushCheck? then 64
    else if Committed(pc) then Distance(g, pc) + 4
    else if InPush(pc) then PushRank(pc)
    else if InFinish(pc) then FinishRank(pc)
    else if PopAttempt(pc) then PopDistance(g, pc) + 7
    else 0
  }

  lemma PushGoesOn(g: Store, i: Tid, th: Thread)
    requires Chain(g) && Knows(g, i, th.pc) && InPush(th.pc)
    ensures var (g', th') := PushStep(Ideal, g, i, th);
            && Promise(g', th'.pc) == Promise(g, th.pc) && CanFinish(g', th'.pc)
            && StepsLeft(g', th'.pc) < StepsLeft(g, th.pc)
  {
    hide Chain, Knows, Promise, Distance, PushStep;
    if th.pc.PushCheck? {
      CommitsOrRefuses(g, i, th);
    } else if Committed(th.pc) {
      LinkGoesOn(g, i, th);
    } else {
      PushEnds(g, i, th);
    }
  }

  lemma PopGoesOn(g: Store, i: Tid, th: Thread)
    requires Chain(g) && Knows(g, i, th.pc) && PopAttempt(th.pc) && CanFinish(g, th.pc)
    ensures var (g', th') := PopStep(Ideal, g, i, th);
            && Promise(g', th'.pc) == Promise(g, th.pc) && CanFinish(g', th'.pc)
            && StepsLeft(g', th'.pc) < StepsLeft(g, th.pc)
  {
    hide Chain, Knows, Promise, PopDistance, PopStep, Contents, Distance;
    if th.pc.PopDetach? {
      DetachGoesOn(g, i, th);
    } else {
      AttemptKeepsPromise(g, i, th);
      AttemptDescends(g, i, th);
    }
  }

  lemma FinishDescends(g: Store, i: Tid, th: Thread)
    requires Knows(g, i, th.pc) && InFinish(th.pc)
    ensures var (g', th') := FinishStep(Ideal, g, i, th);
            && Promise(g', th'.pc) == Promise(g, th.pc) && CanFinish(g', th'.pc)
            && StepsLeft(g', th'.pc) < StepsLeft(g, th.pc)
  {
    hide Knows, Promise, FinishStep;
    FinishGoesOn(g, i, th);
  }

  lemma GoesOn(g: Store, i: Tid, th: Thread)
    requires Chain(g) && Knows(g, i, th.pc) && !th.pc.Idle? && CanFinish(g, th.pc)
    ensures var (g', th') := ThreadStep(Ideal, g, i, th);
            && Promise(g', th'.pc) == Promise(g, th.pc) && CanFinish(g', th'.pc)
            && StepsLeft(g', th'.pc) < StepsLeft(g, th.pc)
  {
    assert !th.pc.Broken?;
    hide Chain, Knows, Promise, PushStep, PopStep, FinishStep, StepsLeft, CanFinish;
    if InPush(th.pc) {
      PushGoesOn(g, i, th);
    } else if InFinish(th.pc) {
      FinishDescends(g, i, th);
    } else {
      PopGoesOn(g, i, th);
    }
  }

  /**
   From every reachable state a thread left alone in any call, unless it pops from an empty and open queue, comes back
   within a bounded number of steps.  A push has then put its value behind the others, or was refused because the queue
   was closed; a pop returns the oldest value and takes just it out, or returns nothing from a closed queue that it
   finds, or had found, empty.
   */
  lemma {:induction false} ReturnsAlone(s: Queue, i: Tid) returns (acts: seq<Action>)
    requires Inv(s) && i < |s.threads| && CanFinish(s.g, s.threads[i].pc)
    ensures |acts| <= StepsLeft(s.g, s.threads[i].pc) && forall k :: 0 <= k < |acts| ==> acts[k] == Run(i)
    ensures var s' := After(s, acts);
            && i < |s'.threads| && s'.threads[i].pc.Idle?
            && (s'.threads[i].pc.result, Contents(s'.g)) == Promise(s.g, s.threads[i].pc)
    decreases StepsLeft(s.g, s.threads[i].pc)
  {
    acts := [];
    if !s.threads[i].pc.Idle? {
      assert ThreadOk(s.g, i, s.threads[i]);
      GoesOn(s.g, i, s.threads[i]);
      StepKeepsInv(s, i);
      hide Inv, StepsLeft, Promise, CanFinish, ThreadStep;
      var rest := ReturnsAlone(Do(Ideal, s, Run(i)), i);
      Unroll(s, Run(i), rest);
      acts := [Run(i)] + rest;
    }
  }
}
