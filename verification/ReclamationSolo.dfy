/** A thread that runs alone in the queue with recycled nodes: its push links, its pop detaches, its scan ends. */
module ReclamationSolo {
  import opened MichaelScott
  import opened MichaelScottInvariant
  import C = MichaelScottClosing
  import opened Reclamation
  import opened ReclamationInvariant
  import opened ReclamationProof
  import opened ReclamationSystem
  import T = ReclamationTheorems

  // ---- Running alone ----

  predicate CanRun(s: System, i: Tid) {
    i < |s.q.threads| == |s.hz| && !s.q.threads[i].pc.Idle? && !s.hz[i].exited
  }

  /** Thread `i` takes `n` steps, none of which allocates, and nobody else moves. */
  ghost predicate Goes(s: System, i: Tid, n: nat, t: System)
    decreases n
  {
    if n == 0 then s == t
    else CanRun(s, i) && !s.q.threads[i].pc.PushAlloc? && Goes(SystemStep(s, i), i, n - 1, t)
  }

  ghost predicate Runs(s: System, i: Tid, t: System) {
    exists n: nat :: Goes(s, i, n, t)
  }

  lemma RunsOne(s: System, i: Tid)
    requires CanRun(s, i) && !s.q.threads[i].pc.PushAlloc?
    ensures Runs(s, i, SystemStep(s, i))
  {
    hide SystemStep;
    assert Goes(SystemStep(s, i), i, 0, SystemStep(s, i));
    assert Goes(s, i, 1, SystemStep(s, i));
  }

  lemma RunsNone(s: System, i: Tid)
    ensures Runs(s, i, s)
  {
    assert Goes(s, i, 0, s);
  }

  lemma {:induction false} GoesOn(s: System, i: Tid, a: nat, t: System, b: nat, u: System)
    requires Goes(s, i, a, t) && Goes(t, i, b, u)
    ensures Goes(s, i, a + b, u)
    decreases a
  {
    hide SystemStep;
    if a > 0 { GoesOn(SystemStep(s, i), i, a - 1, t, b, u); }
  }

  lemma RunsOn(s: System, i: Tid, t: System, u: System)
    requires Runs(s, i, t) && Runs(t, i, u)
    ensures Runs(s, i, u)
  {
    var a: nat :| Goes(s, i, a, t);
    var b: nat :| Goes(t, i, b, u);
    GoesOn(s, i, a, t, b, u);
  }

  /** What a thread that runs alone leaves as it is, unless it allocates. */
  ghost predicate Beside(s: System, t: System, i: Tid) {
    && SameButFor(s, t, i) && i < |s.hz|
    && t.orphans == s.orphans && t.lock == s.lock && t.limit == s.limit
    && t.m.addr == s.m.addr && t.m.cur == s.m.cur && t.q.g.closed == s.q.g.closed
    && t.hz[i].exited == s.hz[i].exited
  }

  /** What it also leaves as it is, unless it retires or scans. */
  ghost predicate Aside(s: System, t: System, i: Tid) {
    && Beside(s, t, i)
    && t.pool == s.pool && t.hz[i].retired == s.hz[i].retired && t.hz[i].scan == s.hz[i].scan
  }

  // ---- One step ----

  lemma NeverClosed(mem: Memory, g: Store, i: Tid, th: Thread)
    ensures ThreadStep(mem, g, i, th).0.closed == g.closed
  {
  }

  lemma PlaceOnly(g: Store, m: Mem, i: Tid, pc: Pc)
    ensures var m' := PlaceEffect(g, m, i, pc); m'.addr == m.addr && m'.cur == m.cur
  {
  }

  lemma SlotsOnly(m: Mem, pc: Pc, h: Hazard)
    ensures var h' := SlotEffect(m, pc, h);
            h'.retired == h.retired && h'.scan == h.scan && h'.exited == h.exited && h'.published == h.published
  {
  }

  lemma PlainAside(s: System, i: Tid)
    requires SysInv(s) && i < |s.hz| && IsPlain(s, i)
    ensures Aside(s, SystemStep(s, i), i) && SystemStep(s, i).hz[i].published == s.hz[i].published
  {
    hide SystemStep, SysInv, Chain, ThreadOk, ThreadStep, Rebind, PlaceEffect, SlotEffect, Evolves, Inv;
    PlainIs(s, i);
    QueueStepKeepsInv(s, i);
    Sizes(s);
    var th, pc := Rebind(Memory2(s.m), s.q.g, s.q.threads[i]), s.q.threads[i].pc;
    NeverClosed(Ideal, s.q.g, i, th);
    PlaceOnly(s.q.g, s.m, i, pc);
    SlotsOnly(s.m, pc, s.hz[i]);
  }

  /** A plain step is a step of the ideal queue. */
  lemma PlainQueue(s: System, i: Tid)
    requires SysInv(s) && i < |s.hz| && IsPlain(s, i)
    ensures var th, s' := Rebind(Memory2(s.m), s.q.g, s.q.threads[i]), SystemStep(s, i);
            && ThreadOk(s.q.g, i, th) && Chain(s.q.g) && Chain(s'.q.g)
            && |s'.q.threads| == |s.q.threads|
            && (s'.q.g, s'.q.threads[i]) == ThreadStep(Ideal, s.q.g, i, th)
            && SysInv(s') && Aside(s, s', i) && s'.hz[i].published == s.hz[i].published
  {
    hide SystemStep, SysInv, Chain, ThreadOk, ThreadStep, Rebind, PlaceEffect, SlotEffect, MemEvolves, Evolves, Aside;
    PlainStep(s, i);
    PlainIs(s, i);
    QueueStepKeepsInv(s, i);
    Sizes(s);
    PlainAside(s, i);
  }

  lemma PublishOnly(s: System, i: Tid)
    requires SysInv(s) && i < |s.hz| && !Scans(s.hz[i]) && Protects(s.q.threads[i].pc) && !s.hz[i].published
    ensures var s' := SystemStep(s, i);
            SysInv(s') && Aside(s, s', i) && s'.q == s.q && s'.hz[i].published
  {
    hide SysInv, MemEvolves, Retire, NewNode, QueueStep, PlaceEffect, SlotEffect;
    PublishStep(s, i);
    Sizes(s);
  }

  lemma NoScanAt(s: System, i: Tid)
    requires SysInv(s) && i < |s.hz| && !s.q.threads[i].pc.PopScan?
    ensures !Scans(s.hz[i]) && |s.hz| == |s.q.threads|
  {
    hide Inv, Wired, Placed, Accounted, RecordsOk, Listed, Keeps, WalkOk;
    assert SlotsOk(s.m, s.q.threads[i].pc, s.hz[i]);
  }

  lemma BesideOn(s: System, t: System, u: System, i: Tid)
    requires Beside(s, t, i) && Beside(t, u, i)
    ensures Beside(s, u, i)
  {
  }

  lemma AsideOn(s: System, t: System, u: System, i: Tid)
    requires Aside(s, t, i) && Aside(t, u, i)
    ensures Aside(s, u, i)
  {
  }

  // ---- A push ----

  /** How far a push that has its node is from linking it. */
  ghost function PushLeft(s: System, i: Tid): nat
    requires i < |s.hz| == |s.q.threads|
  {
    C.Distance(s.q.g, s.q.threads[i].pc) + if s.hz[i].published then 0 else 1
  }

  predicate Linking(pc: Pc) {
    C.Committed(pc) && !pc.PushAlloc?
  }

  lemma RebindIsCloser(mem: Memory, g: Store, th: Thread)
    requires Linking(th.pc)
    ensures var th' := Rebind(mem, g, th);
            && Linking(th'.pc) && C.Distance(g, th'.pc) <= C.Distance(g, th.pc)
                 && UnlinkedNode(th'.pc) == UnlinkedNode(th.pc)
  {
  }

  /** A step of a push either links its node or goes on with the same one. */
  lemma LinkShape(g: Store, i: Tid, th: Thread)
    requires Linking(th.pc)
    ensures var (g', th') := ThreadStep(Ideal, g, i, th);
            && g'.popped == g.popped && g'.head == g.head
            && (if |g'.log| > |g.log|
                then g'.order == g.order + [UnlinkedNode(th.pc).node] && |g'.log| == |g.log| + 1 && th'.pc.PushRelease?
                     && To(th'.pc.n) == UnlinkedNode(th.pc)
                else g'.order == g.order && !th'.pc.PushAlloc?
                     && (C.Committed(th'.pc) ==> UnlinkedNode(th'.pc) == UnlinkedNode(th.pc)))
  {
  }

  lemma PushOne(s: System, i: Tid)
    requires SysInv(s) && CanRun(s, i) && Linking(s.q.threads[i].pc)
    ensures var s', n := SystemStep(s, i), UnlinkedNode(s.q.threads[i].pc);
            && SysInv(s') && Aside(s, s', i) && s'.q.g.popped == s.q.g.popped && s'.q.g.head == s.q.g.head && n.To?
            && var pc' := s'.q.threads[i].pc;
               || (pc'.PushRelease? && To(pc'.n) == n && s'.q.g.order == s.q.g.order + [n.node])
               || (Linking(pc') && UnlinkedNode(pc') == n && s'.q.g.order == s.q.g.order
                    && PushLeft(s', i) < PushLeft(s, i))
  {
    NoScanAt(s, i);
    var pc := s.q.threads[i].pc;
    if Protects(pc) && !s.hz[i].published {
      PublishOnly(s, i);
      hide SystemStep, SysInv;
    } else {
      PlainQueue(s, i);
      hide SystemStep, SysInv, Chain, ThreadStep, Rebind, Aside, UnlinkedNode, C.Distance, C.Committed;
      var th := Rebind(Memory2(s.m), s.q.g, s.q.threads[i]);
      RebindIsCloser(Memory2(s.m), s.q.g, s.q.threads[i]);
      PushCloser(s.q.g, i, th);
      LinkShape(s.q.g, i, th);
      NodeAtHand(pc);
    }
  }

  lemma NodeAtHand(pc: Pc)
    requires Linking(pc)
    ensures UnlinkedNode(pc).To?
  {
  }

  lemma PushCloser(g: Store, i: Tid, th: Thread)
    requires Chain(g) && ThreadOk(g, i, th) && Linking(th.pc)
    ensures var (g', th') := ThreadStep(Ideal, g, i, th);
            || |g'.log| > |g.log|
            || (|g'.log| == |g.log| && C.Committed(th'.pc) && C.Distance(g', th'.pc) < C.Distance(g, th.pc))
  {
    C.Closer(g, i, th);
  }

  /** Run alone, a push links its node. */
  lemma {:induction false} LinksAlone(s: System, i: Tid) returns (t: System)
    requires SysInv(s) && CanRun(s, i) && Linking(s.q.threads[i].pc)
    ensures Runs(s, i, t) && SysInv(t) && Aside(s, t, i) && CanRun(t, i)
    ensures var n, pc := UnlinkedNode(s.q.threads[i].pc), t.q.threads[i].pc;
            && n.To? && pc.PushRelease? && pc.n == n.node && t.q.g.order == s.q.g.order + [n.node]
            && t.q.g.popped == s.q.g.popped && t.q.g.head == s.q.g.head
    decreases PushLeft(s, i)
  {
    hide SysInv, SystemStep, Runs, C.Distance, UnlinkedNode;
    PushOne(s, i);
    RunsOne(s, i);
    var s' := SystemStep(s, i);
    if s'.q.threads[i].pc.PushRelease? {
      t := s';
    } else {
      t := LinksAlone(s', i);
      RunsOn(s, i, s', t);
      AsideOn(s, s', t, i);
    }
  }

  /** One plain step further, to a program point that is known. */
  lemma PlainOne(s: System, i: Tid, g: Store, th: Thread)
    requires SysInv(s) && CanRun(s, i) && IsPlain(s, i) && !s.q.threads[i].pc.PushRecheck?
    requires !s.q.threads[i].pc.PopRecheck?
    requires ThreadStep(Ideal, s.q.g, i, s.q.threads[i]) == (g, th)
    ensures var s' := SystemStep(s, i);
            Runs(s, i, s') && SysInv(s') && Aside(s, s', i) && s'.q.g == g && s'.q.threads[i] == th
  {
    PlainQueue(s, i);
    RunsOne(s, i);
    hide SystemStep, SysInv, ThreadStep, Aside, Runs;
  }

  lemma StopTurn(g: Store, i: Tid, th: Thread)
    requires th.pc.PushRelease?
    ensures ThreadStep(Ideal, g, i, th) == (g, th.(pc := PushSwing(th.pc.n, th.pc.t)))
  {
  }

  /** Run alone, a push links its node and comes to its CAS on tail. */
  lemma PausesAlone(s: System, i: Tid) returns (t: System)
    requires SysInv(s) && CanRun(s, i) && Linking(s.q.threads[i].pc)
    ensures Runs(s, i, t) && SysInv(t) && Aside(s, t, i) && CanRun(t, i)
    ensures var n, pc := UnlinkedNode(s.q.threads[i].pc), t.q.threads[i].pc;
            && n.To? && pc.PushSwing? && pc.n == n.node && t.q.g.order == s.q.g.order + [n.node]
            && t.q.g.popped == s.q.g.popped && t.q.g.head == s.q.g.head
  {
    hide SysInv, SystemStep, Runs, UnlinkedNode, ThreadStep;
    var u := LinksAlone(s, i);
    NoScanAt(u, i);
    StopTurn(u.q.g, i, u.q.threads[i]);
    PlainOne(u, i, u.q.g, u.q.threads[i].(pc := PushSwing(u.q.threads[i].pc.n, u.q.threads[i].pc.t)));
    t := SystemStep(u, i);
    RunsOn(s, i, u, t);
    AsideOn(s, u, t, i);
  }

  /** After the CAS on tail, whether or not it succeeds, tail is the node just linked, if it is still the last. */
  lemma SwingTurn(g: Store, i: Tid, th: Thread)
    requires Chain(g) && ThreadOk(g, i, th) && th.pc.PushSwing? && g.order[|g.order| - 1] == th.pc.n
    ensures var (g', th') := ThreadStep(Ideal, g, i, th);
            && g'.tail == th.pc.n && g'.order == g.order && g'.popped == g.popped && g'.head == g.head
                 && th' == th.(pc := PushCount)
  {
    var n, t := th.pc.n, th.pc.t;
    assert g.rank[n] == |g.order| - 1;
    if g.rank[t] == g.swung { RankIsInjective(g, t, g.tail); }
  }

  lemma CountTurn(g: Store, i: Tid, th: Thread)
    requires th.pc.PushCount?
    ensures ThreadStep(Ideal, g, i, th) == (g.(size := (g.size + 1) % WORD), th.(pc := Idle(Pushed(true))))
  {
  }

  lemma ThreadAt(s: System, i: Tid)
    requires SysInv(s) && i < |s.hz|
    ensures |s.hz| == |s.q.threads| && Chain(s.q.g) && ThreadOk(s.q.g, i, s.q.threads[i])
  {
    hide Chain, ThreadOk, Wired, Placed, Accounted, RecordsOk, Listed, Keeps, SlotsOk, WalkOk;
  }

  lemma OrderNotEmpty(g: Store)
    requires Chain(g)
    ensures |g.order| == |g.log| + 1 && g.popped < |g.order| && g.head == g.order[g.popped]
  {
  }

  /** Run alone, a push ends with its node at the end of the list and tail on it. */
  lemma PushesAlone(s: System, i: Tid) returns (t: System)
    requires SysInv(s) && CanRun(s, i) && Linking(s.q.threads[i].pc)
    ensures Runs(s, i, t) && SysInv(t) && Aside(s, t, i) && t.q.threads[i].pc.Idle?
    ensures var n := UnlinkedNode(s.q.threads[i].pc);
            && n.To? && t.q.g.order == s.q.g.order + [n.node] && t.q.g.tail == n.node
            && t.q.g.popped == s.q.g.popped && t.q.g.head == s.q.g.head
  {
    hide SysInv, SystemStep, Runs, UnlinkedNode, ThreadStep, Chain, ThreadOk;
    var u := PausesAlone(s, i);
    var th := u.q.threads[i];
    NoScanAt(u, i);
    ThreadAt(u, i);
    SwingTurn(u.q.g, i, th);
    PlainOne(u, i, ThreadStep(Ideal, u.q.g, i, th).0, th.(pc := PushCount));
    var w := SystemStep(u, i);
    NoScanAt(w, i);
    CountTurn(w.q.g, i, w.q.threads[i]);
    PlainOne(w, i, w.q.g.(size := (w.q.g.size + 1) % WORD), th.(pc := Idle(Pushed(true))));
    t := SystemStep(w, i);
    RunsOn(s, i, u, w);
    RunsOn(s, i, w, t);
    AsideOn(s, u, w, i);
    AsideOn(s, w, t, i);
  }

  // ---- A pop ----

  /** A pop that began alone: what it has read is still so. */
  ghost predicate Undisturbed(g: Store, pc: Pc) {
    match pc
    case PopLoadHead => true
    case PopProtect(h) => h == g.head
    case PopRecheck(h) => h == g.head
    case PopLoadNext(h) => h == g.head
    case PopProtectNext(h, x) => h == g.head && Follows(g, h, x)
    case PopRecheckNext(h, x) => h == g.head && Follows(g, h, x)
    case PopLoadTail(h, x) => h == g.head && Follows(g, h, x)
    case PopHelp(h, x) => h == g.head == g.tail && Follows(g, h, x)
    case PopDropHead => g.head != g.tail
    case PopDropNext => g.head != g.tail
    case PopDetach(h, x) => h == g.head && Follows(g, h, x) && g.head != g.tail
    case _ => false
  }

  function PopWeight(pc: Pc): nat {
    match pc
    case PopDropHead => 10
    case PopDropNext => 9
    case PopLoadHead => 8
    case PopProtect(_) => 7
    case PopRecheck(_) => 6
    case PopLoadNext(_) => 5
    case PopProtectNext(_, _) => 4
    case PopRecheckNext(_, _) => 3
    case PopLoadTail(_, _) => 2
    case _ => 1
  }

  function PopLeft(s: System, i: Tid): nat
    requires i < |s.hz| == |s.q.threads|
  {
    (if s.q.g.head == s.q.g.tail then 20 else 0) + PopWeight(s.q.threads[i].pc) + if s.hz[i].published then 0 else 1
  }

  /** A step of a pop that is alone: it detaches head, or comes closer to it. */
  lemma PopCloser(g: Store, i: Tid, th: Thread)
    requires Chain(g) && ThreadOk(g, i, th) && g.popped < |g.log| && Undisturbed(g, th.pc)
    ensures var (g', th') := ThreadStep(Ideal, g, i, th);
            && g'.order == g.order && g'.log == g.log
            && (if th'.pc.PopTake? then th'.pc.h == g.head && g'.popped == g.popped + 1 && g'.tail == g.tail
                else (Undisturbed(g', th'.pc) && g'.popped == g.popped && g'.head == g.head
                    && (g'.tail == g.tail || g.head == g.tail)
                    && (if g'.head == g'.tail then 20 else 0) + PopWeight(th'.pc)
                       < (if g.head == g.tail then 20 else 0) + PopWeight(th.pc)))
  {
    hide Chain, Paced, PushStep, FinishStep;
    Ends(g);
    NextOf(g, g.head);
  }

  lemma NotRebound(mem: Memory, g: Store, th: Thread)
    requires Undisturbed(g, th.pc)
    ensures Rebind(mem, g, th) == th
  {
  }

  lemma PopOne(s: System, i: Tid)
    requires SysInv(s) && CanRun(s, i) && Undisturbed(s.q.g, s.q.threads[i].pc) && s.q.g.popped < |s.q.g.log|
    ensures var s' := SystemStep(s, i);
            && SysInv(s') && Aside(s, s', i) && s'.q.g.order == s.q.g.order && s'.q.g.log == s.q.g.log
            && var g, g', pc' := s.q.g, s'.q.g, s'.q.threads[i].pc;
               if pc'.PopTake? then pc'.h == g.head && g'.popped == g.popped + 1 && g'.tail == g.tail
               else (Undisturbed(g', pc') && g'.popped == g.popped && g'.head == g.head
                   && (g'.tail == g.tail || g.head == g.tail)
                   && PopLeft(s', i) < PopLeft(s, i))
  {
    NoScanAt(s, i);
    var pc := s.q.threads[i].pc;
    if Protects(pc) && !s.hz[i].published {
      PublishOnly(s, i);
      hide SystemStep, SysInv, PopWeight, Undisturbed;
    } else {
      PlainQueue(s, i);
      NotRebound(Memory2(s.m), s.q.g, s.q.threads[i]);
      PopCloser(s.q.g, i, s.q.threads[i]);
      hide SystemStep, SysInv, Chain, ThreadStep, Rebind, PopWeight, Undisturbed, Aside;
    }
  }

  lemma Busy(g: Store, pc: Pc)
    requires Undisturbed(g, pc)
    ensures !pc.Idle? && !pc.PushAlloc?
  {
  }

  /** Run alone, a pop moves head on by one; tail moves only if it was where head was. */
  lemma {:induction false} DetachesAlone(s: System, i: Tid) returns (t: System)
    requires SysInv(s) && CanRun(s, i) && Undisturbed(s.q.g, s.q.threads[i].pc) && s.q.g.popped < |s.q.g.log|
    ensures Runs(s, i, t) && SysInv(t) && Aside(s, t, i) && CanRun(t, i)
    ensures t.q.g.order == s.q.g.order && t.q.g.log == s.q.g.log && t.q.g.popped == s.q.g.popped + 1
    ensures t.q.threads[i].pc.PopTake? && t.q.threads[i].pc.h == s.q.g.head
    ensures s.q.g.tail != s.q.g.head ==> t.q.g.tail == s.q.g.tail
    decreases PopLeft(s, i)
  {
    hide SysInv, SystemStep, Runs, Undisturbed, PopWeight;
    PopOne(s, i);
    Busy(s.q.g, s.q.threads[i].pc);
    RunsOne(s, i);
    var s' := SystemStep(s, i);
    if s'.q.threads[i].pc.PopTake? {
      t := s';
    } else {
      Busy(s'.q.g, s'.q.threads[i].pc);
      t := DetachesAlone(s', i);
      RunsOn(s, i, s', t);
      AsideOn(s, s', t, i);
    }
  }

  lemma TakeTurn(g: Store, i: Tid, th: Thread)
    requires Chain(g) && ThreadOk(g, i, th)
    requires (th.pc.PopTake? || th.pc.PopCount? || th.pc.PopRelease? || th.pc.PopReleaseNext?)
    ensures var (g', th') := ThreadStep(Ideal, g, i, th);
            && g'.order == g.order && g'.log == g.log && g'.popped == g.popped && g'.head == g.head && g'.tail == g.tail
            && (match th.pc
                case PopTake(h, _) => th'.pc.PopCount? && th'.pc.h == h
                case PopCount(h, _) => th'.pc.PopRelease? && th'.pc.h == h
                case PopRelease(h, _) => th'.pc.PopReleaseNext? && th'.pc.h == h
                case PopReleaseNext(h, _) => th'.pc.PopRetire? && th'.pc.h == h
                case _ => true)
  {
    hide Chain, Paced, PushStep, PopStep;
  }

  lemma FinishOne(s: System, i: Tid)
    requires SysInv(s) && CanRun(s, i)
    requires var pc := s.q.threads[i].pc; pc.PopTake? || pc.PopCount? || pc.PopRelease? || pc.PopReleaseNext?
    ensures var s', pc := SystemStep(s, i), s.q.threads[i].pc;
            && Runs(s, i, s') && SysInv(s') && Aside(s, s', i) && CanRun(s', i)
            && s'.q.g.order == s.q.g.order && s'.q.g.log == s.q.g.log && s'.q.g.popped == s.q.g.popped
            && s'.q.g.head == s.q.g.head && s'.q.g.tail == s.q.g.tail
            && var pc' := s'.q.threads[i].pc;
               match pc
               case PopTake(h, _) => pc'.PopCount? && pc'.h == h
               case PopCount(h, _) => pc'.PopRelease? && pc'.h == h
               case PopRelease(h, _) => pc'.PopReleaseNext? && pc'.h == h
               case PopReleaseNext(h, _) => pc'.PopRetire? && pc'.h == h
               case _ => true
  {
    hide SysInv, SystemStep, Runs, ThreadStep, Chain, ThreadOk;
    NoScanAt(s, i);
    ThreadAt(s, i);
    TakeTurn(s.q.g, i, s.q.threads[i]);
    var (g', th') := ThreadStep(Ideal, s.q.g, i, s.q.threads[i]);
    PlainOne(s, i, g', th');
  }

  /** What a thread that has detached head leaves as it is on its way to retire it. */
  ghost predicate SameQueue(g: Store, g': Store) {
    g'.order == g.order && g'.log == g.log && g'.popped == g.popped && g'.head == g.head && g'.tail == g.tail
  }

  /** Run alone, a pop that has detached head comes to retire it. */
  lemma ComesToRetire(s: System, i: Tid) returns (t: System)
    requires SysInv(s) && CanRun(s, i) && s.q.threads[i].pc.PopTake?
    ensures Runs(s, i, t) && SysInv(t) && Aside(s, t, i) && CanRun(t, i) && SameQueue(s.q.g, t.q.g)
    ensures t.q.threads[i].pc.PopRetire? && t.q.threads[i].pc.h == s.q.threads[i].pc.h
  {
    hide SysInv, SystemStep, Runs;
    FinishOne(s, i);
    var s1 := SystemStep(s, i);
    FinishOne(s1, i);
    var s2 := SystemStep(s1, i);
    FinishOne(s2, i);
    var s3 := SystemStep(s2, i);
    FinishOne(s3, i);
    t := SystemStep(s3, i);
    RunsOn(s, i, s1, s2);
    RunsOn(s, i, s2, s3);
    RunsOn(s, i, s3, t);
    AsideOn(s, s1, s2, i);
    AsideOn(s, s2, s3, i);
    AsideOn(s, s3, t, i);
  }

  /** A pop by a thread that runs alone, up to the point where it retires the old head. */
  lemma PopsToRetire(s: System, i: Tid) returns (t: System)
    requires SysInv(s) && CanRun(s, i) && s.q.threads[i].pc == PopLoadHead && s.q.g.popped + 1 < |s.q.g.order|
    ensures Runs(s, i, t) && SysInv(t) && Aside(s, t, i) && CanRun(t, i)
    ensures t.q.threads[i].pc.PopRetire? && t.q.threads[i].pc.h == s.q.g.head
    ensures t.q.g.order == s.q.g.order && t.q.g.popped == s.q.g.popped + 1
    ensures s.q.g.tail != s.q.g.head ==> t.q.g.tail == s.q.g.tail
  {
    hide SysInv, Runs;
    ThreadAt(s, i);
    OrderNotEmpty(s.q.g);
    var u := DetachesAlone(s, i);
    t := ComesToRetire(u, i);
    RunsOn(s, i, u, t);
    AsideOn(s, u, t, i);
  }

  // ---- Retiring ----

  /** What retiring one node makes of the system. */
  lemma RetireOne(s: System, i: Tid)
    requires SysInv(s) && CanRun(s, i) && s.q.threads[i].pc.PopRetire?
    ensures var s', pc, a := SystemStep(s, i), s.q.threads[i].pc, AddressOf(s.m, s.q.threads[i].pc.h);
            && Runs(s, i, s') && SysInv(s') && Beside(s, s', i) && CanRun(s', i) && s'.q.g == s.q.g && s'.pool == s.pool
            && s'.q.threads[i].pc == PopScan(pc.v) && s'.hz[i] == Retire(s.limit, s.hz[i], a)
  {
    hide SysInv, MemEvolves, QueueStep, AddressOf;
    NoScanAt(s, i);
    RetireStep(s, i);
    RetireIs(s, i);
    RunsOne(s, i);
    hide SystemStep, Runs;
  }

  lemma ScanTurn(g: Store, i: Tid, th: Thread)
    requires th.pc.PopScan?
    ensures ThreadStep(Ideal, g, i, th) == (g, th.(pc := Idle(Popped(th.pc.v))))
  {
  }

  lemma ScanEnds(s: System, i: Tid)
    requires SysInv(s) && CanRun(s, i) && s.q.threads[i].pc.PopScan? && s.hz[i].scan == NoScan
    ensures var s' := SystemStep(s, i);
            Runs(s, i, s') && SysInv(s') && Aside(s, s', i) && s'.q.g == s.q.g && s'.q.threads[i].pc.Idle?
  {
    hide SysInv, SystemStep, Runs, ThreadStep, Aside;
    ScanTurn(s.q.g, i, s.q.threads[i]);
    PlainOne(s, i, s.q.g, s.q.threads[i].(pc := Idle(Popped(s.q.threads[i].pc.v))));
  }

  /** With room on its list, a thread that retires a node keeps it there. */
  lemma RetiresAlone(s: System, i: Tid) returns (t: System)
    requires SysInv(s) && CanRun(s, i) && s.q.threads[i].pc.PopRetire? && |s.hz[i].retired| < s.limit
    ensures Runs(s, i, t) && SysInv(t) && Beside(s, t, i) && t.q.g == s.q.g && t.pool == s.pool
    ensures t.q.threads[i].pc.Idle?
    ensures |t.hz[i].retired| == |s.hz[i].retired| + 1
  {
    hide SysInv, SystemStep, Runs, AddressOf;
    NoScanAt(s, i);
    RetireOne(s, i);
    var u := SystemStep(s, i);
    ScanEnds(u, i);
    t := SystemStep(u, i);
    RunsOn(s, i, u, t);
    BesideOn(s, u, t, i);
  }

  // ---- Scanning ----

  /** Nobody announces anything. */
  ghost predicate Bare(s: System) {
    forall j, k :: 0 <= j < |s.hz| && 0 <= k < |s.hz[j].slots| ==> s.hz[j].slots[k] == Free
  }

  function WithScan(s: System, i: Tid, scan: Scan): System
    requires i < |s.hz|
  {
    s.(hz := s.hz[i := s.hz[i].(scan := scan)])
  }

  lemma ScanOne(s: System, i: Tid)
    requires SysInv(s) && CanRun(s, i) && Scans(s.hz[i])
    ensures Runs(s, i, ScanStep(s, i)) && SysInv(ScanStep(s, i))
  {
    hide SysInv, ScanStep, MemEvolves;
    assert SystemStep(s, i) == ScanStep(s, i);
    ScanKeepsInv(s, i);
    NotAllocating(s, i);
    RunsOne(s, i);
    hide SystemStep, Runs;
  }

  lemma NotAllocating(s: System, i: Tid)
    requires SysInv(s) && CanRun(s, i) && Scans(s.hz[i])
    ensures s.q.threads[i].pc.PopScan?
  {
    hide Inv, Wired, Placed, Accounted, RecordsOk, Listed, Keeps, WalkOk;
    assert SlotsOk(s.m, s.q.threads[i].pc, s.hz[i]);
  }

  lemma NothingAnnounced(s: System, j: Tid, k: nat)
    requires Bare(s)
    ensures SlotOf(s, j, k) == Free
  {
  }

  function SlotsLeft(walk: Walk): nat {
    if walk.Reading? && walk.slot < SLOTS_COUNT then SLOTS_COUNT - walk.slot else 0
  }

  /** A walk that meets only free slots comes to the end of the records. */
  lemma {:induction false} WalksAlone(s: System, i: Tid) returns (t: System)
    requires SysInv(s) && CanRun(s, i) && Bare(s)
    requires s.hz[i].scan.Scanning? && s.hz[i].scan.todo != [] && s.hz[i].scan.walk.Reading?
    ensures Runs(s, i, t) && SysInv(t)
    ensures |t.hz| == |s.hz| && t.hz[i].scan.Scanning? && t.hz[i].scan.walk.Reading? && t.hz[i].scan.walk.rec == 0
    ensures t == WithScan(s, i, s.hz[i].scan.(walk := t.hz[i].scan.walk))
    decreases s.hz[i].scan.walk.rec, SlotsLeft(s.hz[i].scan.walk)
  {
    hide SysInv, Runs, SlotOf, Bare;
    var sc := s.hz[i].scan;
    if sc.walk.rec == 0 {
      t := s;
      RunsNone(s, i);
      assert s.hz[i := s.hz[i].(scan := sc)] == s.hz;
    } else {
      WalkBound(s, i);
      NothingAnnounced(s, s.records[sc.walk.rec - 1], sc.walk.slot);
      ScanOne(s, i);
      var u := ScanStep(s, i);
      BareStill(s, u, i);
      t := WalksAlone(u, i);
      RunsOn(s, i, u, t);
      assert u.hz[i := t.hz[i]] == s.hz[i := t.hz[i]];
    }
  }

  lemma BareStill(s: System, t: System, i: Tid)
    requires Bare(s) && i < |s.hz| == |t.hz| && t.hz[i].slots == s.hz[i].slots
    requires forall j :: 0 <= j < |s.hz| && j != i ==> t.hz[j] == s.hz[j]
    ensures Bare(t)
  {
  }

  /** The node that the scan examines goes to the pool. */
  lemma FreesOne(s: System, i: Tid) returns (t: System)
    requires SysInv(s) && CanRun(s, i) && Bare(s)
    requires s.hz[i].scan.Scanning? && s.hz[i].scan.todo != [] && s.hz[i].scan.walk == Ready
    ensures var sc := s.hz[i].scan;
            && Runs(s, i, t) && SysInv(t)
            && t == WithScan(s, i, sc.(todo := sc.todo[1..])).(pool := s.pool + [sc.todo[0]],
                 m := Put(s.m, sc.todo[0], Pooled))
  {
    hide SysInv, Runs, Bare, Put;
    ScanOne(s, i);
    var u := ScanStep(s, i);
    BareStill(s, u, i);
    var w := WalksAlone(u, i);
    ScanOne(w, i);
    t := ScanStep(w, i);
    RunsOn(s, i, u, w);
    RunsOn(s, i, w, t);
    assert u.hz[i := w.hz[i]][i := t.hz[i]] == s.hz[i := t.hz[i]];
  }

  lemma PutOnly(m: Mem, a: Address, p: Place)
    ensures Put(m, a, p).addr == m.addr && Put(m, a, p).cur == m.cur
  {
  }

  /** With nothing announced, everything on the list goes to the pool, in its order. */
  lemma {:induction false} FreesAll(s: System, i: Tid) returns (t: System)
    requires SysInv(s) && CanRun(s, i) && Bare(s) && s.hz[i].scan.Scanning? && s.hz[i].scan.walk == Ready
    ensures Runs(s, i, t) && SysInv(t) && Bare(t) && Beside(s, t, i) && t.q == s.q && CanRun(t, i)
    ensures t.pool == s.pool + s.hz[i].scan.todo && t.hz[i] == s.hz[i].(scan := s.hz[i].scan.(todo := []))
    decreases |s.hz[i].scan.todo|
  {
    hide SysInv, Runs, Bare, Put;
    var todo := s.hz[i].scan.todo;
    if todo == [] {
      t := s;
      RunsNone(s, i);
    } else {
      var u := FreesOne(s, i);
      PutOnly(s.m, todo[0], Pooled);
      BareStill(s, u, i);
      t := FreesAll(u, i);
      RunsOn(s, i, u, t);
      BesideOn(s, u, t, i);
      assert todo == [todo[0]] + todo[1..];
    }
  }

  /** The end of a scan that has no orphans to examine. */
  lemma NoOrphans(s: System, i: Tid) returns (t: System)
    requires SysInv(s) && CanRun(s, i) && s.hz[i].scan == Scanning(false, [], [], Ready) && s.lock == {}
    requires s.orphans == []
    ensures Runs(s, i, t) && SysInv(t) && CanRun(t, i)
    ensures t == s.(hz := s.hz[i := s.hz[i].(retired := [], scan := NoScan)])
  {
    hide SysInv, Runs;
    ScanOne(s, i);
    var u := ScanStep(s, i);
    ScanOne(u, i);
    var w := ScanStep(u, i);
    ScanOne(w, i);
    t := ScanStep(w, i);
    RunsOn(s, i, u, w);
    RunsOn(s, i, w, t);
    assert u.hz[i := w.hz[i]][i := t.hz[i]] == s.hz[i := t.hz[i]];
  }

  /** Run alone, with nothing announced and no orphans, a scan puts the whole list into the pool and returns. */
  lemma ScansAlone(s: System, i: Tid) returns (t: System)
    requires SysInv(s) && CanRun(s, i) && Bare(s) && s.lock == {} && s.orphans == []
    requires s.hz[i].scan.Scanning? && !s.hz[i].scan.orphan && s.hz[i].scan.kept == [] && s.hz[i].scan.walk == Ready
    ensures Runs(s, i, t) && SysInv(t) && Beside(s, t, i) && t.q.g == s.q.g && t.q.threads[i].pc.Idle?
    ensures t.pool == s.pool + s.hz[i].scan.todo && t.hz[i].retired == []
  {
    hide SysInv, Runs, Bare, SystemStep;
    var u := FreesAll(s, i);
    var w := NoOrphans(u, i);
    NotAllocating(u, i);
    ScanEnds(w, i);
    t := SystemStep(w, i);
    RunsOn(s, i, u, w);
    RunsOn(s, i, w, t);
    BesideOn(s, u, w, i);
    BesideOn(s, w, t, i);
  }

  /**
   Run alone, a thread whose list is full retires a node, scans, and puts everything into the pool, that node last.
   */
  lemma RetiresAndFrees(s: System, i: Tid) returns (t: System)
    requires SysInv(s) && CanRun(s, i) && s.q.threads[i].pc.PopRetire? && |s.hz[i].retired| == s.limit
    requires Bare(s) && s.lock == {} && s.orphans == []
    ensures Runs(s, i, t) && SysInv(t) && Beside(s, t, i) && t.q.g == s.q.g && t.q.threads[i].pc.Idle?
    ensures t.pool == s.pool + (s.hz[i].retired + [AddressOf(s.m, s.q.threads[i].pc.h)]) && t.hz[i].retired == []
  {
    hide SysInv, Runs, Bare, SystemStep, AddressOf;
    RetireOne(s, i);
    var u := SystemStep(s, i);
    BareStill(s, u, i);
    t := ScansAlone(u, i);
    RunsOn(s, i, u, t);
    BesideOn(s, u, t, i);
  }
}
