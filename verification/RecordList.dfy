/**
 The list of announcement records of include/miniruntime/task/hazardpointers.h: threads publish
 their record with the CAS loop of `initRecord` while others walk the list in `isProtected`.
 One step is one shared access.
 */
module RecordList {
  type Rec = nat

  datatype Ref = Null | To(r: Rec)

  /** `base` is the number of records published when `expected` was read, `fails` counts failed CASes. */
  datatype Publisher =
    | Loading                                                          // :224
    | Storing(rec: Rec, expected: Ref, base: nat, fails: nat)          // :226
    | Swapping(rec: Rec, expected: Ref, base: nat, fails: nat)         // :227
    | Published(rec: Rec)

  /** `start` is the number of records published when the walk began, `seen` what it has visited. */
  datatype Walker = Resting | Walking(at: Ref, start: nat, seen: seq<Rec>)

  /**
   `next` is the link of each record created so far.  `order`, the records as published, and `owner`, who created each,
   are history variables.
   */
  datatype Store = Store(next: seq<Ref>, head: Ref, order: seq<Rec>, owner: seq<nat>)

  datatype State = State(g: Store, pubs: seq<Publisher>, walks: seq<Walker>)

  datatype Action = Publish(i: nat) | Begin(i: nat) | Advance(i: nat)

  predicate Enabled(s: State, a: Action) {
    match a
    case Publish(i) => i < |s.pubs| && !s.pubs[i].Published?
    case Begin(i) => i < |s.walks|
    case Advance(i) => i < |s.walks| && s.walks[i].Walking? && s.walks[i].at != Null
  }

  function NextOf(g: Store, r: Rec): Ref {
    if r < |g.next| then g.next[r] else Null
  }

  /** One access of `initRecord`; a failed CAS leaves the head it found in `expected`. */
  function PublishStore(g: Store, i: nat, p: Publisher): Store {
    match p
    case Loading => g.(next := g.next + [Null], owner := g.owner + [i])
    case Storing(rec, expected, _, _) => if rec < |g.next| then g.(next := g.next[rec := expected]) else g
    case Swapping(rec, expected, _, _) =>
      if g.head == expected then g.(head := To(rec), order := g.order + [rec]) else g
    case Published(_) => g
  }

  function PublishStep(g: Store, p: Publisher): Publisher {
    match p
    case Loading => Storing(|g.next|, g.head, |g.order|, 0)
    case Storing(rec, expected, base, fails) => Swapping(rec, expected, base, fails)
    case Swapping(rec, expected, base, fails) =>
      if g.head == expected then Published(rec) else Storing(rec, g.head, |g.order|, fails + 1)
    case Published(_) => p
  }

  function Do(s: State, a: Action): State
    requires Enabled(s, a)
  {
    match a
    case Publish(i) => s.(g := PublishStore(s.g, i, s.pubs[i]), pubs := s.pubs[i := PublishStep(s.g, s.pubs[i])])
    case Begin(i) => s.(walks := s.walks[i := Walking(s.g.head, |s.g.order|, [])])
    case Advance(i) =>
      var w := s.walks[i];
      s.(walks := s.walks[i := w.(at := NextOf(s.g, w.at.r), seen := w.seen + [w.at.r])])
  }

  ghost predicate Init(s: State) {
    && s.g == Store([], Null, [], [])
    && (forall i :: 0 <= i < |s.pubs| ==> s.pubs[i] == Loading)
    && (forall i :: 0 <= i < |s.walks| ==> s.walks[i] == Resting)
  }

  // ---- The invariant ----

  /** The newest of the first `k` records. */
  function Newest(order: seq<Rec>, k: nat): Ref {
    if 0 < k <= |order| then To(order[k - 1]) else Null
  }

  function Reversed(s: seq<Rec>): seq<Rec> {
    if s == [] then [] else [s[|s| - 1]] + Reversed(s[..|s| - 1])
  }

  predicate Mine(p: Publisher, r: Rec) {
    !p.Loading? && p.rec == r
  }

  /** Each published record leads to the one published before it. */
  ghost predicate ListOk(g: Store) {
    && |g.owner| == |g.next| && g.head == Newest(g.order, |g.order|)
    && (forall k :: 0 <= k < |g.order| ==> g.order[k] < |g.next| && g.next[g.order[k]] == Newest(g.order, k))
    && (forall a, b :: 0 <= a < b < |g.order| ==> g.order[a] != g.order[b])
  }

  ghost predicate PublisherOk(g: Store, p: Publisher) {
    && (p.Storing? || p.Swapping? ==>
          && p.rec < |g.next| && p.rec !in g.order
          && p.fails <= p.base <= |g.order| && p.expected == Newest(g.order, p.base))
    && (p.Swapping? ==> g.next[p.rec] == p.expected)
    && (p.Published? ==> p.rec in g.order)
  }

  /** A walk has visited the newest records of those published when it began, and goes on with the next. */
  ghost predicate WalkerOk(g: Store, w: Walker) {
    w.Walking? ==>
      && |w.seen| <= w.start <= |g.order|
      && w.at == Newest(g.order, w.start - |w.seen|)
      && w.seen == Reversed(g.order[w.start - |w.seen|..w.start])
  }

  ghost predicate Inv(s: State) {
    && ListOk(s.g)
    && (forall i :: 0 <= i < |s.pubs| ==> PublisherOk(s.g, s.pubs[i]))
    && (forall i :: 0 <= i < |s.walks| ==> WalkerOk(s.g, s.walks[i]))
    && (forall i, j, r: Rec :: 0 <= i < j < |s.pubs| && Mine(s.pubs[i], r) ==> !Mine(s.pubs[j], r))
    && (forall i :: 0 <= i < |s.pubs| && !s.pubs[i].Loading? ==>
          s.pubs[i].rec < |s.g.next| && s.pubs[i].rec < |s.g.owner| && s.g.owner[s.pubs[i].rec] == i)
  }

  /** What one publisher may do under the others: publish its own record, link its own private record. */
  ghost predicate Evolves(g: Store, g': Store, r: Rec) {
    && |g.next| <= |g'.next| && g.owner <= g'.owner
    && (forall x: Rec :: x < |g.next| && x != r ==> g'.next[x] == g.next[x])
    && (g'.order == g.order || g'.order == g.order + [r])
  }

  function Touched(g: Store, p: Publisher): Rec {
    if p.Loading? then |g.next| else p.rec
  }

  lemma PublishEvolves(g: Store, i: nat, p: Publisher)
    requires ListOk(g) && PublisherOk(g, p)
    ensures Evolves(g, PublishStore(g, i, p), Touched(g, p))
    ensures ListOk(PublishStore(g, i, p))
    ensures PublisherOk(PublishStore(g, i, p), PublishStep(g, p))
  {
    var g' := PublishStore(g, i, p);
    if p.Swapping? && g.head == p.expected {
      HeadIsFresh(g, p.base);
      assert g'.order[|g.order|] == p.rec;
    }
    if p.Swapping? && g.head != p.expected { assert p.base != |g.order|; }
  }

  /** Records are never freed, so a head that compares equal has not changed. */
  lemma HeadIsFresh(g: Store, base: nat)
    requires ListOk(g) && base <= |g.order| && g.head == Newest(g.order, base)
    ensures base == |g.order|
  {
  }

  lemma OtherPublisher(g: Store, g': Store, r: Rec, p: Publisher)
    requires PublisherOk(g, p) && Evolves(g, g', r) && !Mine(p, r)
    ensures PublisherOk(g', p)
  {
  }

  lemma OtherWalker(g: Store, g': Store, r: Rec, w: Walker)
    requires WalkerOk(g, w) && Evolves(g, g', r)
    ensures WalkerOk(g', w)
  {
    if w.Walking? {
      assert g'.order[w.start - |w.seen|..w.start] == g.order[w.start - |w.seen|..w.start];
    }
  }

  lemma {:induction false} ReversedAppend(s: seq<Rec>, x: Rec)
    ensures Reversed([x] + s) == Reversed(s) + [x]
  {
    if s == [] {
      assert ([x] + s)[..0] == [];
    } else {
      assert ([x] + s)[..|s|] == [x] + s[..|s| - 1];
      ReversedAppend(s[..|s| - 1], x);
    }
  }

  lemma WalkerAt(g: Store, w: Walker)
    requires ListOk(g) && WalkerOk(g, w) && w.Walking? && w.at != Null
    ensures |w.seen| < w.start <= |g.order| && w.seen == Reversed(g.order[w.start - |w.seen|..w.start])
    ensures w.at == To(g.order[w.start - |w.seen| - 1])
    ensures NextOf(g, w.at.r) == Newest(g.order, w.start - |w.seen| - 1)
  {
    hide Reversed;
  }

  lemma AdvanceWalker(g: Store, w: Walker)
    requires ListOk(g) && WalkerOk(g, w) && w.Walking? && w.at != Null
    ensures WalkerOk(g, w.(at := NextOf(g, w.at.r), seen := w.seen + [w.at.r]))
    ensures |w.seen| < w.start
  {
    hide Reversed, ListOk, Newest, NextOf;
    WalkerAt(g, w);
    var k := w.start - |w.seen|;
    ReversedAppend(g.order[k..w.start], g.order[k - 1]);
    assert g.order[k - 1..w.start] == [g.order[k - 1]] + g.order[k..w.start];
  }

  lemma ActionKeepsInv(s: State, a: Action)
    requires Inv(s) && Enabled(s, a)
    ensures Inv(Do(s, a))
  {
    hide ListOk, PublisherOk, WalkerOk, Evolves, PublishStore;
    var s' := Do(s, a);
    match a {
      case Publish(i) =>
        var p, r := s.pubs[i], Touched(s.g, s.pubs[i]);
        PublishEvolves(s.g, i, p);
        OnlyGrows(s.g, s'.g, r);
        forall j | 0 <= j < |s.pubs| && j != i ensures PublisherOk(s'.g, s.pubs[j]) {
          assert !Mine(s.pubs[j], r);
          OtherPublisher(s.g, s'.g, r, s.pubs[j]);
        }
        forall j | 0 <= j < |s.walks| ensures WalkerOk(s'.g, s.walks[j]) {
          OtherWalker(s.g, s'.g, r, s.walks[j]);
        }
        StillMine(s.g, i, p);
        OneOwnerEach(s.g);
      case Begin(i) =>
        assert WalkerOk(s.g, s'.walks[i]) by { BeginWalker(s.g); }
      case Advance(i) =>
        AdvanceWalker(s.g, s.walks[i]);
    }
  }

  lemma BeginWalker(g: Store)
    requires ListOk(g)
    ensures WalkerOk(g, Walking(g.head, |g.order|, []))
  {
  }

  lemma OnlyGrows(g: Store, g': Store, r: Rec)
    requires Evolves(g, g', r)
    ensures |g.next| <= |g'.next| && g.owner <= g'.owner
  {
  }

  lemma OneOwnerEach(g: Store)
    requires ListOk(g)
    ensures |g.owner| == |g.next|
  {
  }

  lemma StillMine(g: Store, i: nat, p: Publisher)
    ensures var p' := PublishStep(g, p); p'.rec == Touched(g, p) && !p'.Loading?
    ensures p.Loading? ==> |g.next| < |PublishStore(g, i, p).next| && PublishStore(g, i, p).owner == g.owner + [i]
  {
  }

  // ---- Runs ----

  ghost predicate IsRun(ss: seq<State>, acts: seq<Action>) {
    && |ss| == |acts| + 1 && Init(ss[0])
    && forall k :: 0 <= k < |acts| ==> Leads(ss[k], acts[k], ss[k + 1])
  }

  ghost predicate Leads(s: State, a: Action, s': State) {
    Enabled(s, a) && s' == Do(s, a)
  }

  lemma {:induction false} RunKeepsInv(ss: seq<State>, acts: seq<Action>, k: nat)
    requires IsRun(ss, acts) && k < |ss|
    ensures Inv(ss[k])
  {
    hide Do, Enabled;
    if k > 0 {
      RunKeepsInv(ss, acts, k - 1);
      hide Inv;
      assert Leads(ss[k - 1], acts[k - 1], ss[(k - 1) + 1]);
      ActionKeepsInv(ss[k - 1], acts[k - 1]);
    }
  }

  lemma {:induction false} OnlyGrowsAtTheHead(ss: seq<State>, acts: seq<Action>, a: nat, b: nat)
    requires IsRun(ss, acts) && a <= b < |ss|
    ensures ss[a].g.order <= ss[b].g.order
  {
    hide Inv;
    if a < b {
      OnlyGrowsAtTheHead(ss, acts, a, b - 1);
      assert Leads(ss[b - 1], acts[b - 1], ss[(b - 1) + 1]);
    }
  }

  /** The records met by following the links from `at`, at most `n` of them. */
  function Follow(g: Store, at: Ref, n: nat): seq<Rec>
    decreases n
  {
    if at == Null || n == 0 then [] else [at.r] + Follow(g, NextOf(g, at.r), n - 1)
  }

  lemma NewestOfNone(order: seq<Rec>)
    ensures Newest(order, 0) == Null
  {
  }

  lemma LinkAt(g: Store, k: nat)
    requires ListOk(g) && 0 < k <= |g.order|
    ensures Newest(g.order, k) == To(g.order[k - 1]) && NextOf(g, g.order[k - 1]) == Newest(g.order, k - 1)
  {
  }

  lemma {:induction false} FollowIsReversed(g: Store, k: nat, n: nat)
    requires ListOk(g) && k <= |g.order| && k <= n
    ensures Follow(g, Newest(g.order, k), n) == Reversed(g.order[..k])
  {
    hide ListOk, Newest, NextOf;
    if k == 0 {
      assert Newest(g.order, k) == Null by { NewestOfNone(g.order); }
    } else {
      LinkAt(g, k);
      FollowIsReversed(g, k - 1, n - 1);
      assert g.order[..k][..k - 1] == g.order[..k - 1];
    }
  }

  /** However far one follows the links, one meets the published records once each, newest first: there is no cycle. */
  lemma ListIsAcyclic(ss: seq<State>, acts: seq<Action>, k: nat, n: nat)
    requires IsRun(ss, acts) && k < |ss| && |ss[k].g.order| <= n
    ensures Follow(ss[k].g, ss[k].g.head, n) == Reversed(ss[k].g.order)
  {
    RunKeepsInv(ss, acts, k);
    var g := ss[k].g;
    FollowIsReversed(g, |g.order|, n);
    assert g.order[..|g.order|] == g.order;
  }

  /** `i` is walking between `a` and `b`, and the walk began at `a`. */
  ghost predicate SameWalk(ss: seq<State>, acts: seq<Action>, i: nat, a: nat, b: nat)
    requires |ss| == |acts| + 1
  {
    && a < b < |ss| && acts[a] == Begin(i)
    && forall k :: a < k < b ==> acts[k] != Begin(i)
  }

  lemma {:induction false} WalkRemembersItsStart(ss: seq<State>, acts: seq<Action>, i: nat, a: nat, b: nat)
    requires IsRun(ss, acts) && SameWalk(ss, acts, i, a, b)
    ensures i < |ss[b].walks| && ss[b].walks[i].Walking? && ss[b].walks[i].start == |ss[a].g.order|
  {
    if a + 1 < b { WalkRemembersItsStart(ss, acts, i, a, b - 1); }
    assert Leads(ss[b - 1], acts[b - 1], ss[(b - 1) + 1]);
  }

  /**
   A walk terminates: it takes at most as many steps as there were records when it began, whatever is
   published meanwhile.  When it has come to its end it has visited exactly those records, newest first.
   */
  lemma WalkVisitsEveryOlderRecord(ss: seq<State>, acts: seq<Action>, i: nat, a: nat, b: nat)
    requires IsRun(ss, acts) && SameWalk(ss, acts, i, a, b)
    ensures i < |ss[b].walks| && ss[b].walks[i].Walking?
    ensures var w := ss[b].walks[i];
            && |w.seen| <= |ss[a].g.order|
            && (w.at == Null <==> |w.seen| == |ss[a].g.order|)
            && (w.at == Null ==> w.seen == Reversed(ss[a].g.order))
  {
    WalkRemembersItsStart(ss, acts, i, a, b);
    OnlyGrowsAtTheHead(ss, acts, a, b);
    RunKeepsInv(ss, acts, b);
    var w, g := ss[b].walks[i], ss[b].g;
    assert WalkerOk(g, w);
    assert g.order[..w.start] == ss[a].g.order;
  }

  /**
   Nobody retries more often than records have been published: each failed CAS is due to a success of another thread.
   */
  lemma FailuresAreBounded(ss: seq<State>, acts: seq<Action>, k: nat, i: nat)
    requires IsRun(ss, acts) && k < |ss| && i < |ss[k].pubs| && (ss[k].pubs[i].Storing? || ss[k].pubs[i].Swapping?)
    ensures ss[k].pubs[i].fails <= |ss[k].g.order|
  {
    RunKeepsInv(ss, acts, k);
    assert PublisherOk(ss[k].g, ss[k].pubs[i]);
  }

  // ---- A publisher left alone ----

  /** After publisher `i` has run alone for `n` steps, or until its record is published. */
  function Alone(s: State, i: nat, n: nat): State
    decreases n
  {
    if n == 0 || !Enabled(s, Publish(i)) then s else Alone(Do(s, Publish(i)), i, n - 1)
  }

  /** From reading the head: the link is stored, and the CAS finds the head as it was read. */
  lemma SwapsAlone(s: State, i: nat, n: nat)
    requires i < |s.pubs| && s.pubs[i].Swapping? && s.pubs[i].expected == s.g.head && n >= 1
    ensures Alone(s, i, n) == s.(pubs := s.pubs[i := Published(s.pubs[i].rec)],
                                 g := s.g.(head := To(s.pubs[i].rec), order := s.g.order + [s.pubs[i].rec]))
  {
    var s' := Do(s, Publish(i));
    assert Alone(s, i, n) == Alone(s', i, n - 1) == s';
  }

  lemma StoreStep(s: State, i: nat)
    requires Inv(s) && i < |s.pubs| && s.pubs[i].Storing?
    ensures Enabled(s, Publish(i)) && s.pubs[i].rec < |s.g.next|
    ensures var p := s.pubs[i];
            Do(s, Publish(i)) == s.(pubs := s.pubs[i := Swapping(p.rec, p.expected, p.base, p.fails)],
                                    g := s.g.(next := s.g.next[p.rec := p.expected]))
  {
    assert PublisherOk(s.g, s.pubs[i]);
  }

  lemma StoresAlone(s: State, i: nat, n: nat)
    requires Inv(s) && i < |s.pubs| && s.pubs[i].Storing? && s.pubs[i].expected == s.g.head && n >= 2
    ensures var r := s.pubs[i].rec;
            && r < |s.g.next|
            && Alone(s, i, n) == s.(pubs := s.pubs[i := Published(r)],
                 g := s.g.(next := s.g.next[r := s.g.head], head := To(r), order := s.g.order + [r]))
  {
    StoreStep(s, i);
    hide Inv, Do, Enabled;
    var s' := Do(s, Publish(i));
    SwapsAlone(s', i, n - 1);
    assert s'.pubs[i := Published(s.pubs[i].rec)] == s.pubs[i := Published(s.pubs[i].rec)];
  }

  lemma FailsAlone(s: State, i: nat, n: nat)
    requires Inv(s) && i < |s.pubs| && s.pubs[i].Swapping? && n >= 3
    ensures var r := s.pubs[i].rec;
            && r < |s.g.next|
            && Alone(s, i, n) == s.(pubs := s.pubs[i := Published(r)],
                 g := s.g.(next := s.g.next[r := s.g.head], head := To(r), order := s.g.order + [r]))
  {
    var r := s.pubs[i].rec;
    assert PublisherOk(s.g, s.pubs[i]);
    if s.pubs[i].expected == s.g.head {
      SwapsAlone(s, i, n);
      assert s.g.next[r := s.g.head] == s.g.next;
    } else {
      var s' := Do(s, Publish(i));
      ActionKeepsInv(s, Publish(i));
      StoresAlone(s', i, n - 1);
      assert s'.pubs[i := Published(r)] == s.pubs[i := Published(r)];
    }
  }

  /**
   A publisher that is left alone publishes its record within five steps, wherever it is: the record becomes the newest
   and leads to the one that was newest before, and no other link changes.
   */
  lemma PublishesAlone(s: State, i: nat)
    requires Inv(s) && i < |s.pubs| && !s.pubs[i].Published?
    ensures var r, s' := if s.pubs[i].Loading? then |s.g.next| else s.pubs[i].rec, Alone(s, i, 5);
            && s'.pubs == s.pubs[i := Published(r)] && s'.walks == s.walks
            && s'.g.head == To(r) && s'.g.order == s.g.order + [r] && r < |s'.g.next|
            && s'.g.next == (if s.pubs[i].Loading? then s.g.next + [s.g.head] else s.g.next[r := s.g.head])
  {
    var s1, p := Do(s, Publish(i)), s.pubs[i];
    ActionKeepsInv(s, Publish(i));
    if p.Loading? {
      StoresAlone(s1, i, 4);
      assert (s.g.next + [Null])[|s.g.next| := s.g.head] == s.g.next + [s.g.head];
    } else if p.Storing? {
      FailsAlone(s1, i, 4);
      assert PublisherOk(s.g, p);
      assert s.g.next[p.rec := p.expected][p.rec := s.g.head] == s.g.next[p.rec := s.g.head];
    } else {
      FailsAlone(s, i, 5);
    }
  }

  /** After walker `i` has gone on alone for `n` steps, or to its end. */
  function Onward(s: State, i: nat, n: nat): State
    decreases n
  {
    if n == 0 || !Enabled(s, Advance(i)) then s else Onward(Do(s, Advance(i)), i, n - 1)
  }

  /** A walk that is left alone comes to its end, having visited all records that were there when it began. */
  lemma {:induction false} WalksAlone(s: State, i: nat)
    requires Inv(s) && i < |s.walks| && s.walks[i].Walking?
    ensures var w := s.walks[i];
            && |w.seen| <= w.start <= |s.g.order|
            && Onward(s, i, w.start - |w.seen|) ==
               s.(walks := s.walks[i := w.(at := Null, seen := Reversed(s.g.order[..w.start]))])
    decreases if s.walks[i].start < |s.walks[i].seen| then 0 else s.walks[i].start - |s.walks[i].seen|
  {
    hide Inv, WalkerOk, ListOk, Reversed, Newest, NextOf;
    var w := s.walks[i];
    if w.at == Null {
      WalkIsOver(s, i);
    } else {
      OneOnward(s, i);
      WalksAlone(Do(s, Advance(i)), i);
      var end := w.(at := Null, seen := Reversed(s.g.order[..w.start]));
      assert Do(s, Advance(i)).walks[i := end] == s.walks[i := end];
    }
  }

  lemma WalkIsOver(s: State, i: nat)
    requires Inv(s) && i < |s.walks| && s.walks[i].Walking? && s.walks[i].at == Null
    ensures var w := s.walks[i];
            && |w.seen| == w.start <= |s.g.order| && w.seen == Reversed(s.g.order[..w.start])
            && s.walks[i := w.(at := Null, seen := Reversed(s.g.order[..w.start]))] == s.walks
  {
    var w := s.walks[i];
    assert WalkerOk(s.g, w);
    assert s.g.order[0..w.start] == s.g.order[..w.start];
    hide Reversed;
  }

  lemma OneOnward(s: State, i: nat)
    requires Inv(s) && i < |s.walks| && s.walks[i].Walking? && s.walks[i].at != Null
    ensures Enabled(s, Advance(i)) && Inv(Do(s, Advance(i)))
    ensures var s', w := Do(s, Advance(i)), s.walks[i];
            && s' == s.(walks := s.walks[i := s'.walks[i]])
            && s'.walks[i] == w.(at := s'.walks[i].at, seen := s'.walks[i].seen)
            && |w.seen| + 1 == |s'.walks[i].seen| <= w.start <= |s.g.order|
  {
    assert WalkerOk(s.g, s.walks[i]);
    ActionKeepsInv(s, Advance(i));
    hide Inv, Reversed;
    WalkerAt(s.g, s.walks[i]);
  }
}
