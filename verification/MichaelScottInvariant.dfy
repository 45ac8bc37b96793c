/**
 The invariant of the lock-free queue over memory in which nodes are not reused, and the
 rely/guarantee argument that every step keeps it: a step of one thread `Evolves` the
 shared state, and what the other threads know survives any such evolution.
 */
module MichaelScottInvariant {
  import opened MichaelScott

  /** The nodes from the first dummy on form one list; head, tail and the values lie on it. */
  ghost predicate Chain(g: Store) {
    && |g.cell| == |g.next| == |g.owner|
    && |g.order| == |g.log| + 1
    && g.popped <= g.swung <= |g.log| <= g.swung + 1
    && (forall k :: 0 <= k < |g.order| ==> g.order[k] in g.rank && g.rank[g.order[k]] == k)
    && (forall n :: n in g.rank ==> n < |g.next| && g.rank[n] < |g.order| && g.order[g.rank[n]] == n)
    && g.head == g.order[g.popped] && g.tail == g.order[g.swung]
    && (forall n {:trigger g.next[n]} :: n in g.rank ==>
          g.next[n] == if g.rank[n] < |g.log| then To(g.order[g.rank[n] + 1]) else Null)
    && (forall n {:trigger g.cell[n]} :: n in g.rank && g.popped < g.rank[n] ==>
          g.cell[n] == Full(g.log[g.rank[n] - 1]))
    && (forall n :: n in g.claim ==> n in g.rank && g.rank[n] <= g.popped)
  }

  /** Thread `i` allocated `n` for value `v` and has not linked it. */
  ghost predicate Private(g: Store, i: Tid, n: Node, v: Value) {
    && n < |g.next| && n < |g.cell| && n < |g.owner|
    && n !in g.rank && g.owner[n] == i && g.next[n] == Null && g.cell[n] == Full(v)
  }

  ghost predicate WasTail(g: Store, t: Node) {
    t in g.rank && g.rank[t] <= g.swung
  }

  ghost predicate WasHead(g: Store, h: Node) {
    h in g.rank && g.rank[h] <= g.popped
  }

  ghost predicate Follows(g: Store, a: Node, b: Node) {
    a in g.rank && b in g.rank && g.rank[b] == g.rank[a] + 1
  }

  /** `x` was detached by thread `i`, and its value has not been moved out. */
  ghost predicate Claimed(g: Store, i: Tid, x: Node) {
    && x in g.rank && 0 < g.rank[x] <= |g.log| && x < |g.cell|
    && x in g.claim && g.claim[x] == i && g.cell[x] == Full(g.log[g.rank[x] - 1])
  }

  /** What a thread knows of the shared state at each program point. */
  ghost predicate Knows(g: Store, i: Tid, pc: Pc) {
    match pc
    case PushLoadTail(n, v) => Private(g, i, n, v)
    case PushProtect(n, v, t) => Private(g, i, n, v) && WasTail(g, t)
    case PushRecheck(n, v, t) => Private(g, i, n, v) && WasTail(g, t)
    case PushLoadNext(n, v, t) => Private(g, i, n, v) && WasTail(g, t)
    case PushHelp(n, v, t, x) => Private(g, i, n, v) && WasTail(g, t) && Follows(g, t, x)
    case PushLink(n, v, t) => Private(g, i, n, v) && WasTail(g, t)
    case PushDrop(n, v) => Private(g, i, n, v)
    case PushRelease(n, t) => Follows(g, t, n) && WasTail(g, t)
    case PushSwing(n, t) => Follows(g, t, n) && WasTail(g, t)
    case PopProtect(h) => WasHead(g, h)
    case PopRecheck(h) => WasHead(g, h)
    case PopLoadNext(h) => WasHead(g, h)
    case PopProtectNext(h, x) => WasHead(g, h) && Follows(g, h, x)
    case PopRecheckNext(h, x) => WasHead(g, h) && Follows(g, h, x)
    case PopLoadTail(h, x) => WasHead(g, h) && Follows(g, h, x)
    case PopHelp(h, x) => WasHead(g, h) && Follows(g, h, x)
    case PopDetach(h, x) => WasHead(g, h) && Follows(g, h, x) && g.rank[h] < g.swung
    case PopTake(h, x) => WasHead(g, h) && Follows(g, h, x) && g.rank[h] < g.popped && Claimed(g, i, x)
    case PopCount(h, _) => WasHead(g, h) && g.rank[h] < g.popped
    case PopRelease(h, _) => WasHead(g, h) && g.rank[h] < g.popped
    case PopReleaseNext(h, _) => WasHead(g, h) && g.rank[h] < g.popped
    case PopRetire(h, _) => WasHead(g, h) && g.rank[h] < g.popped
    case Broken => false
    case _ => true
  }

  /** The current attempt has failed, or will, because of a CAS that succeeded after it began. */
  ghost predicate Overtaken(g: Store, pc: Pc) {
    match pc
    case PushProtect(_, _, t) => t in g.rank && g.rank[t] < g.swung
    case PushRecheck(_, _, t) => t in g.rank && g.rank[t] < g.swung
    case PushLoadNext(_, _, t) => t in g.rank && g.rank[t] < g.swung
    case PushHelp(_, _, t, _) => t in g.rank && g.rank[t] < g.swung
    case PushLink(_, _, t) => t in g.rank && g.rank[t] < |g.log|
    case PopProtect(h) => h in g.rank && g.rank[h] < g.popped
    case PopRecheck(h) => h in g.rank && g.rank[h] < g.popped
    case PopLoadNext(h) => h in g.rank && g.rank[h] < g.popped
    case PopProtectNext(h, _) => h in g.rank && g.rank[h] < g.popped
    case PopRecheckNext(h, _) => h in g.rank && g.rank[h] < g.popped
    case PopLoadTail(h, _) => h in g.rank && g.rank[h] < g.popped
    case PopHelp(h, _) => h in g.rank && g.rank[h] < g.swung
    case PopDetach(h, _) => h in g.rank && g.rank[h] < g.popped
    case PushDrop(_, _) => true
    case PopDrop => true
    case PopDropHead => true
    case _ => false
  }

  predicate InAttempt(pc: Pc) {
    pc.PushProtect? || pc.PushRecheck? || pc.PushLoadNext? || pc.PushHelp? || pc.PushLink? ||
    pc.PopProtect? || pc.PopRecheck? || pc.PopLoadNext? || pc.PopProtectNext? ||
    pc.PopRecheckNext? || pc.PopLoadTail? || pc.PopHelp? || pc.PopDetach?
  }

  ghost predicate Paced(g: Store, th: Thread) {
    && th.fails <= Work(g)
    && (InAttempt(th.pc) ==> th.fails <= th.start <= Work(g))
    && (Overtaken(g, th.pc) ==> th.start < Work(g))
  }

  ghost predicate ThreadOk(g: Store, i: Tid, th: Thread) {
    Knows(g, i, th.pc) && Paced(g, th)
  }

  ghost predicate Inv(s: Queue) {
    Chain(s.g) && forall i :: 0 <= i < |s.threads| ==> ThreadOk(s.g, i, s.threads[i])
  }

  /** The guarantee of thread `i`: how one of its steps may change what others can see. */
  ghost predicate Evolves(g: Store, g': Store, i: Tid) {
    && g.order <= g'.order && g.log <= g'.log && g.popped <= g'.popped && g.swung <= g'.swung
    && |g.next| <= |g'.next| && |g.cell| <= |g'.cell| && g.owner <= g'.owner
    && (forall n :: n in g.rank ==> n in g'.rank && g'.rank[n] == g.rank[n])
    && (forall n :: n in g'.rank && n !in g.rank ==> n < |g.owner| && g.owner[n] == i)
    && (forall n {:trigger g'.next[n]} :: 0 <= n < |g.next| && n !in g.rank ==> g'.next[n] == g.next[n])
    && (forall n {:trigger g'.cell[n]} :: 0 <= n < |g.cell| ==>
          g'.cell[n] == g.cell[n] || (n in g.rank && n in g.claim && g.claim[n] == i))
    && (forall n :: n in g.claim ==> n in g'.claim && g'.claim[n] == g.claim[n])
  }

  lemma KnowsIsStable(g: Store, g': Store, i: Tid, j: Tid, pc: Pc)
    requires Evolves(g, g', i) && i != j && Knows(g, j, pc)
    ensures Knows(g', j, pc)
  {
  }

  lemma PacedIsStable(g: Store, g': Store, i: Tid, j: Tid, th: Thread)
    requires Evolves(g, g', i) && Knows(g, j, th.pc) && Paced(g, th)
    ensures Paced(g', th)
  {
  }

  lemma AllocateOk(g: Store, i: Tid, v: Value)
    requires Chain(g)
    ensures var g' := Allocate(g, i, v); Chain(g') && Evolves(g, g', i) && Private(g', i, |g.next|, v)
  {
    assert |g.next| !in g.rank;
  }

  lemma LinkKeepsOrder(g: Store, i: Tid, t: Node, n: Node, v: Value)
    requires Chain(g) && Private(g, i, n, v) && WasTail(g, t) && g.next[t] == Null
    ensures var g' := Link(g, t, n, v);
            && g.rank[t] == |g.log| == g.swung && |g'.order| == |g'.log| + 1
            && (forall k :: 0 <= k < |g'.order| ==> g'.order[k] in g'.rank && g'.rank[g'.order[k]] == k)
            && (forall a :: a in g'.rank ==> a < |g'.next| && g'.rank[a] < |g'.order| && g'.order[g'.rank[a]] == a)
  {
    assert g.rank[t] == |g.log| == g.swung;
  }

  lemma LinkKeepsNext(g: Store, i: Tid, t: Node, n: Node, v: Value)
    requires Chain(g) && Private(g, i, n, v) && WasTail(g, t) && g.next[t] == Null
    ensures var g' := Link(g, t, n, v);
            && |g'.next| == |g.next|
            && forall a {:trigger g'.next[a]} :: a in g'.rank ==>
                 a < |g'.next| && g'.rank[a] < |g'.order| &&
                 g'.next[a] == if g'.rank[a] < |g'.log| then To(g'.order[g'.rank[a] + 1]) else Null
  {
    var g' := Link(g, t, n, v);
    assert g.rank[t] == |g.log| == g.swung;
    forall a {:trigger g'.next[a]} | a in g'.rank
      ensures a < |g'.next| && g'.rank[a] < |g'.order|
      ensures g'.next[a] == if g'.rank[a] < |g'.log| then To(g'.order[g'.rank[a] + 1]) else Null
    {
      assert a == n || g.next[a] == if g.rank[a] < |g.log| then To(g.order[g.rank[a] + 1]) else Null;
    }
  }

  lemma LinkKeepsChain(g: Store, i: Tid, t: Node, n: Node, v: Value)
    requires Chain(g) && Private(g, i, n, v) && WasTail(g, t) && g.next[t] == Null
    ensures Chain(Link(g, t, n, v))
  {
    LinkKeepsOrder(g, i, t, n, v);
    LinkKeepsNext(g, i, t, n, v);
  }

  lemma LinkOk(g: Store, i: Tid, t: Node, n: Node, v: Value)
    requires Chain(g) && Private(g, i, n, v) && WasTail(g, t) && g.next[t] == Null
    ensures var g' := Link(g, t, n, v);
            Chain(g') && Evolves(g, g', i) && Follows(g', t, n) && WasTail(g', t)
  {
    LinkKeepsChain(g, i, t, n, v);
    assert g.rank[t] == |g.log| == g.swung;
  }

  lemma MoveTailOk(g: Store, i: Tid, x: Node)
    requires Chain(g) && Follows(g, g.tail, x)
    ensures var g' := MoveTail(g, x); Chain(g') && Evolves(g, g', i)
  {
  }

  lemma DetachOk(g: Store, i: Tid, x: Node)
    requires Chain(g) && Follows(g, g.head, x) && g.popped < g.swung
    ensures var g' := Detach(g, i, x); Chain(g') && Evolves(g, g', i) && Claimed(g', i, x)
  {
    DetachChain(g, i, x);
    DetachEvolves(g, i, x);
    hide Chain, Evolves, Claimed;
  }

  lemma DetachChain(g: Store, i: Tid, x: Node)
    requires Chain(g) && Follows(g, g.head, x) && g.popped < g.swung
    ensures var g' := Detach(g, i, x); Chain(g') && Claimed(g', i, x)
  {
  }

  lemma DetachEvolves(g: Store, i: Tid, x: Node)
    requires Chain(g) && Follows(g, g.head, x)
    ensures Evolves(g, Detach(g, i, x), i)
  {
    assert x !in g.claim;
  }

  lemma MoveOutOk(g: Store, i: Tid, x: Node)
    requires Chain(g) && Claimed(g, i, x)
    ensures var g' := MoveOut(g, x); Chain(g') && Evolves(g, g', i)
  {
    MoveOutEvolves(g, i, x);
    MoveOutChain(g, i, x);
    hide Chain, Evolves;
  }

  lemma MoveOutEvolves(g: Store, i: Tid, x: Node)
    requires |g.cell| == |g.next| && Claimed(g, i, x)
    ensures Evolves(g, MoveOut(g, x), i)
  {
  }

  lemma MoveOutChain(g: Store, i: Tid, x: Node)
    requires Chain(g) && Claimed(g, i, x)
    ensures Chain(MoveOut(g, x))
  {
    var g' := MoveOut(g, x);
    forall n {:trigger g'.cell[n]} | n in g'.rank && g'.popped < g'.rank[n]
      ensures g'.cell[n] == Full(g'.log[g'.rank[n] - 1])
    {
      assert n != x && g'.cell[n] == g.cell[n];
    }
  }

  lemma ResizeOk(g: Store, i: Tid, k: nat)
    requires Chain(g)
    ensures Chain(g.(size := k)) && Evolves(g, g.(size := k), i)
  {
  }

  lemma PushStore(g: Store, i: Tid, th: Thread)
    requires Chain(g) && Knows(g, i, th.pc) && InPush(th.pc)
    ensures var g' := PushStep(Ideal, g, i, th).0; Chain(g') && Evolves(g, g', i)
  {
    hide Chain, Evolves;
    ResizeOk(g, i, g.size);
    match th.pc {
      case PushAlloc(v) => AllocateOk(g, i, v);
      case PushHelp(n, v, t, x) => if g.tail == t { MoveTailOk(g, i, x); }
      case PushLink(n, v, t) => if g.next[t] == Null { LinkOk(g, i, t, n, v); }
      case PushSwing(n, t) => if g.tail == t { MoveTailOk(g, i, n); }
      case PushCount => ResizeOk(g, i, (g.size + 1) % WORD);
      case _ =>
    }
  }

  lemma Ends(g: Store)
    requires Chain(g)
    ensures WasTail(g, g.tail) && g.rank[g.tail] == g.swung
    ensures WasHead(g, g.head) && g.rank[g.head] == g.popped
    ensures g.popped <= g.swung <= |g.log|
  {
  }

  lemma NextOf(g: Store, a: Node)
    requires Chain(g) && a in g.rank
    ensures a < |g.next| && g.rank[a] <= |g.log|
    ensures g.next[a] == Null <==> g.rank[a] == |g.log|
    ensures g.next[a].To? ==> Follows(g, a, g.next[a].node)
  {
  }

  /** Two nodes of the list with the same rank are the same node. */
  lemma RankIsInjective(g: Store, a: Node, b: Node)
    requires Chain(g) && a in g.rank && b in g.rank && g.rank[a] == g.rank[b]
    ensures a == b
  {
    assert g.order[g.rank[a]] == a;
  }

  lemma PushKnows(g: Store, i: Tid, th: Thread)
    requires Chain(g) && Knows(g, i, th.pc) && InPush(th.pc)
    ensures var (g', th') := PushStep(Ideal, g, i, th); Knows(g', i, th'.pc)
  {
    hide Chain, Evolves;
    Ends(g);
    match th.pc {
      case PushAlloc(v) => AllocateOk(g, i, v);
      case PushLoadNext(n, v, t) => NextOf(g, t);
      case PushLink(n, v, t) => NextOf(g, t); if g.next[t] == Null { LinkOk(g, i, t, n, v); }
      case _ =>
    }
  }

  lemma PushPaced(g: Store, i: Tid, th: Thread)
    requires Chain(g) && ThreadOk(g, i, th) && InPush(th.pc)
    ensures var (g', th') := PushStep(Ideal, g, i, th); Paced(g', th')
  {
    hide Chain, Paced, Knows, PushStep;
    if th.pc.PushRecheck? || th.pc.PushLoadNext? || th.pc.PushHelp? || th.pc.PushLink? { AttemptPaced(g, i, th); }
    else { QuietPaced(g, i, th); }
  }

  lemma AttemptPaced(g: Store, i: Tid, th: Thread)
    requires Chain(g) && ThreadOk(g, i, th)
    requires (th.pc.PushRecheck? || th.pc.PushLoadNext? || th.pc.PushHelp? || th.pc.PushLink?)
    ensures var (g', th') := PushStep(Ideal, g, i, th); Paced(g', th')
  {
    hide Chain, Evolves;
    Ends(g);
    var t := th.pc.t;
    NextOf(g, t);
    if g.rank[t] == g.swung { RankIsInjective(g, t, g.tail); }
  }

  lemma QuietPaced(g: Store, i: Tid, th: Thread)
    requires Chain(g) && ThreadOk(g, i, th) && InPush(th.pc)
    requires !th.pc.PushRecheck? && !th.pc.PushLoadNext? && !th.pc.PushHelp? && !th.pc.PushLink?
    ensures var (g', th') := PushStep(Ideal, g, i, th); Paced(g', th')
  {
    hide Chain, Evolves;
    Ends(g);
  }

  lemma PopStore(g: Store, i: Tid, th: Thread)
    requires Chain(g) && Knows(g, i, th.pc) && !InPush(th.pc) && !InFinish(th.pc)
    ensures var g' := PopStep(Ideal, g, i, th).0; Chain(g') && Evolves(g, g', i)
  {
    hide Chain, Evolves;
    ResizeOk(g, i, g.size);
    match th.pc {
      case PopHelp(h, x) => if g.tail == h { MoveTailOk(g, i, x); }
      case PopDetach(h, x) => if g.head == h { DetachOk(g, i, x); }
      case _ =>
    }
  }

  lemma FinishStore(g: Store, i: Tid, th: Thread)
    requires Chain(g) && Knows(g, i, th.pc) && InFinish(th.pc)
    ensures var g' := FinishStep(Ideal, g, i, th).0; Chain(g') && Evolves(g, g', i)
  {
    hide Chain, Evolves;
    ResizeOk(g, i, g.size);
    match th.pc {
      case PopTake(h, x) => MoveOutOk(g, i, x);
      case PopCount(h, v) => ResizeOk(g, i, (g.size + WORD - 1) % WORD);
      case _ =>
    }
  }

  lemma FinishThread(g: Store, i: Tid, th: Thread)
    requires ThreadOk(g, i, th) && InFinish(th.pc)
    ensures var (g', th') := FinishStep(Ideal, g, i, th); ThreadOk(g', i, th')
  {
    hide Chain, Evolves;
  }

  lemma PopKnows(g: Store, i: Tid, th: Thread)
    requires Chain(g) && Knows(g, i, th.pc) && !InPush(th.pc) && !InFinish(th.pc)
    ensures var (g', th') := PopStep(Ideal, g, i, th); Knows(g', i, th'.pc)
  {
    hide Chain, Evolves;
    Ends(g);
    match th.pc {
      case PopLoadNext(h) => NextOf(g, h);
      case PopLoadTail(h, x) => if g.rank[h] == g.swung { RankIsInjective(g, h, g.tail); }
      case PopDetach(h, x) => if g.head == h { DetachOk(g, i, x); }
      case _ =>
    }
  }

  lemma PopPaced(g: Store, i: Tid, th: Thread)
    requires Chain(g) && ThreadOk(g, i, th) && !InPush(th.pc) && !InFinish(th.pc)
    ensures var (g', th') := PopStep(Ideal, g, i, th); Paced(g', th')
  {
    hide Chain, Evolves;
    Ends(g);
    match th.pc {
      case PopRecheck(h) => if g.rank[h] == g.popped { RankIsInjective(g, h, g.head); }
      case PopRecheckNext(h, x) => if g.rank[h] == g.popped { RankIsInjective(g, h, g.head); }
      case PopHelp(h, x) => if g.rank[h] == g.swung { RankIsInjective(g, h, g.tail); }
      case PopDetach(h, x) => if g.rank[h] == g.popped { RankIsInjective(g, h, g.head); }
      case _ =>
    }
  }

  lemma StepKeepsInv(s: Queue, i: Tid)
    requires Inv(s) && i < |s.threads|
    ensures Inv(Step(Ideal, s, i)) && Evolves(s.g, Step(Ideal, s, i).g, i)
  {
    hide Chain, Evolves, Knows, Paced, PushStep, PopStep, FinishStep;
    var s' := Step(Ideal, s, i);
    var th := s.threads[i];
    if InPush(th.pc) { PushStore(s.g, i, th); PushKnows(s.g, i, th); PushPaced(s.g, i, th); }
    else if InFinish(th.pc) { FinishStore(s.g, i, th); FinishThread(s.g, i, th); }
    else { PopStore(s.g, i, th); PopKnows(s.g, i, th); PopPaced(s.g, i, th); }
    forall j | 0 <= j < |s'.threads| && j != i ensures ThreadOk(s'.g, j, s'.threads[j]) {
      assert s'.threads[j] == s.threads[j];
      KnowsIsStable(s.g, s'.g, i, j, s.threads[j].pc);
      PacedIsStable(s.g, s'.g, i, j, s.threads[j]);
    }
  }
}
