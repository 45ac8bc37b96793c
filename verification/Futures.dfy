/**
 The state shared by a Promise and its Futures (include/miniruntime/asyncresult): any number of threads race
 through `setValue`, `setException`, `close` and `get`, one shared access at a time.
 */
module Futures {
  /** What a task delivers: a value or an exception. */
  type Outcome(==, !new)

  datatype Status = Pending | Ready | Closed

  /** The variant: untouched, in the middle of `emplace`, or holding an outcome. */
  datatype Storage = Untouched | Torn | Holds(o: Outcome)

  datatype Cell = Cell(status: Status, blocked: bool, result: Storage)

  datatype Pc =
    | Idle
    | Claiming(o: Outcome)     // future.h:88, detail/future.h:102
    | Emplacing(o: Outcome)    // future.h:92, detail/future.h:106
    | Filling(o: Outcome)      // still inside `emplace`
    | Publishing(o: Outcome)   // future.h:93, detail/future.h:107
    | Closing                  // detail/future.h:120
    | Waiting                  // future.h:32
    | Checking                 // future.h:34
    | Reading                  // future.h:37-41

  /** What a call of `get` came back with; `Garbage` stands for reading a variant that holds no outcome. */
  datatype Answer = Nothing | Got(o: Outcome) | Garbage

  /** `claims` and `answers` are history variables: who won the one-shot flag, what the calls of `get` returned. */
  datatype State = State(cell: Cell, threads: seq<Pc>, claims: seq<Outcome>, answers: seq<Answer>)

  const Fresh := Cell(Pending, false, Untouched)

  function CellStep(c: Cell, pc: Pc): Cell {
    match pc
    case Claiming(_) => c.(blocked := true)
    case Emplacing(_) => c.(result := Torn)
    case Filling(o) => c.(result := Holds(o))
    case Publishing(_) => c.(status := Ready)
    case Closing => c.(status := Closed)
    case _ => c
  }

  function PcStep(c: Cell, pc: Pc): Pc {
    match pc
    case Idle => Idle
    case Claiming(o) => if c.blocked then Idle else Emplacing(o)
    case Emplacing(o) => Filling(o)
    case Filling(o) => Publishing(o)
    case Publishing(_) => Idle
    case Closing => Idle
    case Waiting => if c.status == Pending then Waiting else Checking
    case Checking => if c.status == Closed then Idle else Reading
    case Reading => Idle
  }

  function Wins(c: Cell, pc: Pc): seq<Outcome> {
    if pc.Claiming? && !c.blocked then [pc.o] else []
  }

  function Answers(c: Cell, pc: Pc): seq<Answer> {
    if pc.Checking? && c.status == Closed then [Nothing]
    else if pc.Reading? then [if c.result.Holds? then Got(c.result.o) else Garbage]
    else []
  }

  datatype Action = Set(i: nat, o: Outcome) | Close(i: nat) | Get(i: nat) | Run(i: nat)

  predicate Enabled(s: State, a: Action) {
    a.i < |s.threads| && (a.Run? <==> s.threads[a.i] != Idle)
  }

  function Do(s: State, a: Action): State
    requires Enabled(s, a)
  {
    match a
    case Set(i, o) => s.(threads := s.threads[i := Claiming(o)])
    case Close(i) => s.(threads := s.threads[i := Closing])
    case Get(i) => s.(threads := s.threads[i := Waiting])
    case Run(i) =>
      var pc := s.threads[i];
      State(CellStep(s.cell, pc), s.threads[i := PcStep(s.cell, pc)],
            s.claims + Wins(s.cell, pc), s.answers + Answers(s.cell, pc))
  }

  ghost predicate Init(s: State) {
    && s.cell == Fresh && s.claims == [] && s.answers == []
    && forall i :: 0 <= i < |s.threads| ==> s.threads[i] == Idle
  }

  // ---- The invariant ----

  predicate Delivers(pc: Pc) {
    pc.Emplacing? || pc.Filling? || pc.Publishing?
  }

  /** `result` is complete whenever `status` has ever been Ready: it holds what the only claimer brought. */
  ghost predicate CellOk(s: State) {
    && |s.claims| <= 1 && (s.cell.blocked <==> |s.claims| == 1)
    && (!s.cell.blocked ==> s.cell.result == Untouched)
    && (s.cell.result.Holds? ==> s.cell.blocked && s.cell.result.o == s.claims[0])
    && (s.cell.status == Ready ==> s.cell.result.Holds?)
    && (forall a :: a in s.answers ==> a == Nothing || (s.cell.result.Holds? && a == Got(s.cell.result.o)))
  }

  ghost predicate ThreadOk(s: State, pc: Pc) {
    && (Delivers(pc) ==> s.cell.blocked && |s.claims| == 1 && pc.o == s.claims[0])
    && (pc.Emplacing? ==> s.cell.result == Untouched)
    && (pc.Filling? ==> s.cell.result == Torn)
    && (pc.Publishing? ==> s.cell.result.Holds?)
    && (pc.Checking? ==> s.cell.status != Pending)
    && (pc.Reading? ==> s.cell.result.Holds?)
  }

  ghost predicate Inv(s: State) {
    && CellOk(s)
    && (forall i :: 0 <= i < |s.threads| ==> ThreadOk(s, s.threads[i]))
    && (forall i, j :: 0 <= i < j < |s.threads| && Delivers(s.threads[i]) ==> !Delivers(s.threads[j]))
  }

  /** What the step of a thread can do to the others: a cell that is being filled is touched by its claimer only. */
  lemma OthersKeep(s: State, i: nat, j: nat)
    requires Inv(s) && i < |s.threads| && j < |s.threads| && i != j && Enabled(s, Run(i))
    ensures ThreadOk(Do(s, Run(i)), s.threads[j])
  {
    assert ThreadOk(s, s.threads[i]) && ThreadOk(s, s.threads[j]);
    assert Delivers(s.threads[i]) ==> !Delivers(s.threads[j]) by {
      if i < j { } else { assert Delivers(s.threads[j]) ==> !Delivers(s.threads[i]); }
    }
  }

  lemma ActionKeepsInv(s: State, a: Action)
    requires Inv(s) && Enabled(s, a)
    ensures Inv(Do(s, a))
  {
    var s', i := Do(s, a), a.i;
    assert ThreadOk(s, s.threads[i]);
    forall j | 0 <= j < |s.threads| && j != i ensures ThreadOk(s', s.threads[j]) {
      if a.Run? { OthersKeep(s, i, j); }
    }
    assert ThreadOk(s', s'.threads[i]);
    if a.Run? && s.threads[i].Claiming? && !s.cell.blocked {
      forall j | 0 <= j < |s.threads| ensures !Delivers(s.threads[j]) { assert ThreadOk(s, s.threads[j]); }
    }
  }

  ghost predicate Leads(s: State, a: Action, s': State) {
    Enabled(s, a) && s' == Do(s, a)
  }

  /** A run from any state. */
  ghost predicate IsPath(ss: seq<State>, acts: seq<Action>) {
    && |ss| == |acts| + 1
    && forall k :: 0 <= k < |acts| ==> Leads(ss[k], acts[k], ss[k + 1])
  }

  ghost predicate IsRun(ss: seq<State>, acts: seq<Action>) {
    IsPath(ss, acts) && Init(ss[0])
  }

  lemma {:induction false} PathKeepsInv(ss: seq<State>, acts: seq<Action>, k: nat)
    requires IsPath(ss, acts) && Inv(ss[0]) && k < |ss|
    ensures Inv(ss[k])
  {
    hide Inv, Enabled, Do;
    if k > 0 {
      PathKeepsInv(ss, acts, k - 1);
      assert Leads(ss[k - 1], acts[k - 1], ss[(k - 1) + 1]);
      ActionKeepsInv(ss[k - 1], acts[k - 1]);
    }
  }

  lemma RunKeepsInv(ss: seq<State>, acts: seq<Action>, k: nat)
    requires IsRun(ss, acts) && k < |ss|
    ensures Inv(ss[k])
  {
    hide Enabled, Do;
    assert Inv(ss[0]);
    PathKeepsInv(ss, acts, k);
  }

  // ---- Agreement ----

  /**
   Between two moments of a run: the status does not return to Pending, the claim stands, and a complete result is not
   rewritten.
   */
  ghost predicate Settles(s: State, s': State) {
    && (s.cell.status != Pending ==> s'.cell.status != Pending)
    && s.claims <= s'.claims && s.answers <= s'.answers
    && (s.cell.result.Holds? ==> s'.cell.result == s.cell.result)
  }

  lemma StepSettles(s: State, a: Action)
    requires Inv(s) && Enabled(s, a)
    ensures Settles(s, Do(s, a))
  {
    assert ThreadOk(s, s.threads[a.i]);
  }

  lemma {:induction false} RunSettles(ss: seq<State>, acts: seq<Action>, a: nat, b: nat)
    requires IsRun(ss, acts) && a <= b < |ss|
    ensures Settles(ss[a], ss[b])
  {
    hide Inv, Enabled, Do;
    if a < b {
      RunSettles(ss, acts, a, b - 1);
      RunKeepsInv(ss, acts, b - 1);
      assert Leads(ss[b - 1], acts[b - 1], ss[(b - 1) + 1]);
      StepSettles(ss[b - 1], acts[b - 1]);
    }
  }

  /** A Ready status shows a complete result: the single claimer's, and the same one ever after. */
  lemma ReadyIsFinalResult(ss: seq<State>, acts: seq<Action>, a: nat, b: nat)
    requires IsRun(ss, acts) && a <= b < |ss| && ss[a].cell.status == Ready
    ensures |ss[a].claims| == 1 && ss[b].claims == ss[a].claims
    ensures ss[a].cell.result == Holds(ss[a].claims[0]) && ss[b].cell.result == ss[a].cell.result
  {
    RunKeepsInv(ss, acts, a);
    RunKeepsInv(ss, acts, b);
    RunSettles(ss, acts, a, b);
  }

  /** All calls of `get`, whenever they return, that come back with an outcome come back with the claimer's. */
  lemma AnswersAgree(ss: seq<State>, acts: seq<Action>, k: nat, x: nat)
    requires IsRun(ss, acts) && k < |ss| && x < |ss[k].answers|
    ensures ss[k].answers[x] == Nothing || (|ss[k].claims| == 1 && ss[k].answers[x] == Got(ss[k].claims[0]))
  {
    RunKeepsInv(ss, acts, k);
    assert ss[k].answers[x] in ss[k].answers;
  }

  // ---- Ready and Closed can replace each other ----

  /** Without a `close` on its way or to come, Ready stays Ready. */
  lemma {:induction false} ReadyStays(ss: seq<State>, acts: seq<Action>, k: nat)
    requires IsPath(ss, acts) && k < |ss| && ss[0].cell.status == Ready
    requires (forall i :: 0 <= i < |ss[0].threads| ==> !ss[0].threads[i].Closing?) && forall x :: 0 <= x < k ==>
        !acts[x].Close?
    ensures ss[k].cell.status == Ready && forall i :: 0 <= i < |ss[k].threads| ==> !ss[k].threads[i].Closing?
  {
    if k > 0 {
      ReadyStays(ss, acts, k - 1);
      assert Leads(ss[k - 1], acts[k - 1], ss[(k - 1) + 1]);
    }
  }

  /** The state is Ready and remains so as long as nobody new calls `close`. */
  ghost predicate ReadyForGood(s: State) {
    forall ss: seq<State>, acts: seq<Action> ::
      IsPath(ss, acts) && ss[0] == s && (forall x :: 0 <= x < |acts| ==> !acts[x].Close?) ==>
          ss[|acts|].cell.status == Ready
  }

  /** Ready is final, short of new calls of `close`, exactly when no thread is already inside `close`. */
  lemma ReadyForGoodIff(s: State)
    requires s.cell.status == Ready
    ensures ReadyForGood(s) <==> forall i :: 0 <= i < |s.threads| ==> !s.threads[i].Closing?
  {
    if i :| 0 <= i < |s.threads| && s.threads[i].Closing? {
      var ss, acts := [s, Do(s, Run(i))], [Run(i)];
      assert Leads(ss[0], acts[0], ss[0 + 1]);
      assert IsPath(ss, acts) && ss[|acts|].cell.status == Closed;
    } else {
      forall ss: seq<State>, acts: seq<Action> |
        IsPath(ss, acts) && ss[0] == s && (forall x :: 0 <= x < |acts| ==> !acts[x].Close?)
        ensures ss[|acts|].cell.status == Ready
      {
        ReadyStays(ss, acts, |acts|);
      }
    }
  }

  /** The claimer has come out of its call: nobody will publish any more. */
  ghost predicate Delivered(s: State) {
    s.cell.blocked && forall i :: 0 <= i < |s.threads| ==> !Delivers(s.threads[i])
  }

  /** The state is Closed and remains so whatever happens. */
  ghost predicate ClosedForGood(s: State) {
    forall ss: seq<State>, acts: seq<Action> :: IsPath(ss, acts) && ss[0] == s ==> ss[|acts|].cell.status == Closed
  }

  lemma {:induction false} DeliveredStaysClosed(ss: seq<State>, acts: seq<Action>, k: nat)
    requires IsPath(ss, acts) && k < |ss| && ss[0].cell.status == Closed && Delivered(ss[0])
    ensures ss[k].cell.status == Closed && Delivered(ss[k])
  {
    if k > 0 {
      DeliveredStaysClosed(ss, acts, k - 1);
      assert Leads(ss[k - 1], acts[k - 1], ss[(k - 1) + 1]);
    }
  }

  /** How many steps thread `i` needs to publish. */
  function ToPublish(pc: Pc): nat {
    match pc
    case Claiming(_) => 4
    case Emplacing(_) => 3
    case Filling(_) => 2
    case Publishing(_) => 1
    case _ => 0
  }

  /** Left alone, a thread with an unbeaten claim publishes. */
  lemma {:induction false} PublishesAlone(s: State, i: nat) returns (ss: seq<State>, acts: seq<Action>)
    requires i < |s.threads| && ToPublish(s.threads[i]) > 0 && (s.threads[i].Claiming? ==> !s.cell.blocked)
    ensures IsPath(ss, acts) && ss[0] == s && ss[|acts|].cell.status == Ready
    decreases ToPublish(s.threads[i])
  {
    var s' := Do(s, Run(i));
    if s.threads[i].Publishing? {
      ss, acts := [s, s'], [Run(i)];
    } else {
      var rest, more := PublishesAlone(s', i);
      ss, acts := PrependStep(s, Run(i), rest, more);
    }
  }

  lemma PrependStep(s: State, a: Action, rest: seq<State>, more: seq<Action>) returns (ss: seq<State>,
      acts: seq<Action>)
    requires Enabled(s, a) && IsPath(rest, more) && rest[0] == Do(s, a)
    ensures IsPath(ss, acts) && ss[0] == s && ss[|acts|] == rest[|more|]
  {
    hide Do, Enabled;
    ss, acts := [s] + rest, [a] + more;
    assert Leads(s, a, rest[0]);
    forall k | 0 <= k < |acts| ensures Leads(ss[k], acts[k], ss[k + 1]) {
      if k > 0 { assert Leads(rest[k - 1], more[k - 1], rest[(k - 1) + 1]); }
    }
  }

  /**
   A Closed future can still become Ready, unless the claimer has come and gone.  So a Closed answer is final
   exactly when the result was delivered before (given that a thread is there to call `setValue`, and an outcome
   for it to bring).
   */
  lemma ClosedForGoodIff(s: State, i: nat, o: Outcome)
    requires Inv(s) && s.cell.status == Closed && i < |s.threads| && s.threads[i].Idle?
    ensures ClosedForGood(s) <==> Delivered(s)
  {
    hide Inv, Enabled, Do;
    if Delivered(s) {
      forall ss: seq<State>, acts: seq<Action> | IsPath(ss, acts)
          && ss[0] == s ensures ss[|acts|].cell.status == Closed {
        DeliveredStaysClosed(ss, acts, |acts|);
      }
    } else {
      BecomesReady(s, i, o);
    }
  }

  lemma BecomesReady(s: State, i: nat, o: Outcome)
    requires Inv(s) && i < |s.threads| && s.threads[i].Idle? && !Delivered(s)
    ensures !ClosedForGood(s)
  {
    hide IsPath;
    if j :| 0 <= j < |s.threads| && Delivers(s.threads[j]) {
      var ss, acts := PublishesAlone(s, j);
      NotForGood(s, ss, acts);
    } else {
      var rest, more := PublishesAlone(Do(s, Set(i, o)), i);
      var ss, acts := PrependStep(s, Set(i, o), rest, more);
      NotForGood(s, ss, acts);
    }
  }

  lemma NotForGood(s: State, ss: seq<State>, acts: seq<Action>)
    requires IsPath(ss, acts) && ss[0] == s && ss[|acts|].cell.status != Closed
    ensures !ClosedForGood(s)
  {
  }

  // ---- Every call comes back with what it should ----

  /** After thread `i` has run alone for `n` steps, or until it is back from its call. */
  function Alone(s: State, i: nat, n: nat): State
    decreases n
  {
    if n == 0 || !Enabled(s, Run(i)) then s else Alone(Do(s, Run(i)), i, n - 1)
  }

  lemma ThreeSteps(s: State, i: nat)
    requires i < |s.threads| && s.threads[i] == Waiting && s.cell.status != Pending
    ensures var s2 := s.(threads := s.threads[i := if s.cell.status == Closed then Idle else Reading]);
            Alone(s, i, 3) == Alone(if s.cell.status == Closed then s2.(answers := s.answers + [Nothing]) else s2, i, 1)
  {
    var s1 := Do(s, Run(i));
    assert s1 == s.(threads := s.threads[i := Checking]);
    var s2 := Do(s1, Run(i));
    assert s.threads[i := Checking][i := s2.threads[i]] == s.threads[i := s2.threads[i]];
    assert Alone(s, i, 3) == Alone(s1, i, 2) == Alone(s2, i, 1);
  }

  /**
   A `get` that finds the future decided comes back within three steps, whoever decided it: empty-handed if the
   future is Closed, claimed or not, and with what the claimer brought if it is Ready.
   */
  lemma GetReturns(s: State, i: nat)
    requires Inv(s) && i < |s.threads| && s.threads[i] == Waiting && s.cell.status != Pending
    ensures s.cell.status == Ready ==> |s.claims| == 1
    ensures Alone(s, i, 3) == State(s.cell, s.threads[i := Idle], s.claims,
              s.answers + [if s.cell.status == Closed then Nothing else Got(s.claims[0])])
  {
    ThreeSteps(s, i);
    var s2 := s.(threads := s.threads[i := Reading]);
    if s.cell.status == Ready {
      assert s2.threads[i := Idle] == s.threads[i := Idle];
      assert Alone(s2, i, 1) == Do(s2, Run(i));
    }
  }

  lemma {:induction false} WaitsAlone(s: State, i: nat, n: nat)
    requires i < |s.threads| && s.threads[i] == Waiting && s.cell.status == Pending
    ensures Alone(s, i, n) == s
  {
    if n > 0 {
      assert s.threads[i := Waiting] == s.threads;
      assert s.claims + [] == s.claims && s.answers + [] == s.answers;
      assert Do(s, Run(i)) == s;
      WaitsAlone(s, i, n - 1);
    }
  }

  /** A waiting `get` can come back without the help of others exactly when the future is decided. */
  lemma GetReturnsIff(s: State, i: nat)
    requires Inv(s) && i < |s.threads| && s.threads[i] == Waiting
    ensures (exists n :: i < |Alone(s, i, n).threads| && Alone(s, i, n).threads[i] == Idle) <==>
            s.cell.status != Pending
  {
    if s.cell.status == Pending {
      forall n ensures Alone(s, i, n) == s { WaitsAlone(s, i, n); }
    } else {
      GetReturns(s, i);
      assert Alone(s, i, 3).threads[i] == Idle;
    }
  }

  /** A lone `setValue` or `setException` that is the first publishes its outcome; a later one changes nothing. */
  lemma SetsAlone(s: State, i: nat, o: Outcome)
    requires i < |s.threads| && s.threads[i] == Claiming(o)
    ensures Alone(s, i, 4) ==
            if s.cell.blocked then s.(threads := s.threads[i := Idle])
            else State(Cell(Ready, true, Holds(o)), s.threads[i := Idle], s.claims + [o], s.answers)
  {
    var s1 := Do(s, Run(i));
    assert s.answers + [] == s.answers && s.claims + [] == s.claims;
    if s.cell.blocked {
      assert Alone(s1, i, 3) == s1;
    } else {
      var t2 := State(s1.cell.(result := Torn), s.threads[i := Filling(o)], s1.claims, s.answers);
      assert Do(s1, Run(i)) == t2 by { SetsNext(s, s1, i); }
      var t3 := t2.(cell := s1.cell.(result := Holds(o)), threads := s.threads[i := Publishing(o)]);
      assert Do(t2, Run(i)) == t3 by { SetsNext(s, t2, i); }
      assert Do(t3, Run(i)) == t3.(cell := Cell(Ready, true, Holds(o)), threads := s.threads[i := Idle]) by {
        SetsNext(s, t3, i);
      }
      assert Alone(s1, i, 3) == Alone(t2, i, 2) == Alone(t3, i, 1) == Alone(Do(t3, Run(i)), i, 0);
    }
  }

  lemma SetsNext(s: State, t: State, i: nat)
    requires i < |s.threads| == |t.threads| && t.threads == s.threads[i := t.threads[i]] && Delivers(t.threads[i])
    ensures Do(t, Run(i)) ==
            State(CellStep(t.cell, t.threads[i]), s.threads[i := PcStep(t.cell, t.threads[i])], t.claims, t.answers)
  {
    assert t.claims + [] == t.claims && t.answers + [] == t.answers;
    var pc := PcStep(t.cell, t.threads[i]);
    assert t.threads[i := pc] == s.threads[i := pc];
  }

  /** A lone `close` closes the future, whatever was there before, and touches nothing else. */
  lemma ClosesAlone(s: State, i: nat)
    requires i < |s.threads| && s.threads[i] == Closing
    ensures Alone(s, i, 1) == s.(cell := s.cell.(status := Closed), threads := s.threads[i := Idle])
  {
    assert s.claims + [] == s.claims && s.answers + [] == s.answers;
    assert Alone(s, i, 1) == Alone(Do(s, Run(i)), i, 0);
  }

  lemma Then(ss: seq<State>, acts: seq<Action>, a: Action) returns (ss': seq<State>, acts': seq<Action>)
    requires IsRun(ss, acts) && Enabled(ss[|acts|], a)
    ensures IsRun(ss', acts') && |ss'| == |acts'| + 1 && ss'[|acts'|] == Do(ss[|acts|], a)
  {
    hide Do, Enabled;
    ss', acts' := ss + [Do(ss[|acts|], a)], acts + [a];
    forall k | 0 <= k < |acts'| ensures Leads(ss'[k], acts'[k], ss'[k + 1]) {
      if k < |acts| { assert Leads(ss[k], acts[k], ss[k + 1]); }
    }
  }

  /** A thread delivers `o`, and another reads it. */
  lemma DeliverAndRead(o: Outcome) returns (ss: seq<State>, acts: seq<Action>)
    ensures IsRun(ss, acts) && ss[|acts|] == State(Cell(Ready, true, Holds(o)), [Idle, Idle], [o], [Got(o)])
  {
    hide IsRun;
    ss, acts := [State(Fresh, [Idle, Idle], [], [])], [];
    assert IsRun(ss, acts) by { Initially(); }
    ss, acts := Then(ss, acts, Set(0, o));
    ss, acts := Then(ss, acts, Run(0));
    ss, acts := Then(ss, acts, Run(0));
    ss, acts := Then(ss, acts, Run(0));
    ss, acts := Then(ss, acts, Run(0));
    assert ss[|acts|] == State(Cell(Ready, true, Holds(o)), [Idle, Idle], [o], []);
    ss, acts := Then(ss, acts, Get(1));
    ss, acts := Then(ss, acts, Run(1));
    ss, acts := Then(ss, acts, Run(1));
    ss, acts := Then(ss, acts, Run(1));
  }

  lemma Initially()
    ensures IsRun([State(Fresh, [Idle, Idle], [], [])], [])
  {
  }

  /** Ready does not last: a reader may be told Nothing after another was given the value. */
  lemma ClosedReplacesReady(o: Outcome) returns (ss: seq<State>, acts: seq<Action>)
    ensures IsRun(ss, acts) && ss[|acts|].answers == [Got(o), Nothing] && ss[|acts|].cell.status == Closed
  {
    ss, acts := DeliverAndRead(o);
    hide IsRun;
    ss, acts := Then(ss, acts, Close(0));
    ss, acts := Then(ss, acts, Run(0));
    ss, acts := Then(ss, acts, Get(1));
    ss, acts := Then(ss, acts, Run(1));
    ss, acts := Then(ss, acts, Run(1));
  }
}
