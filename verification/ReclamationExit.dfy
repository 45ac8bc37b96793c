/** What becomes of the retired nodes of a thread that ends, and of all of them when the queue is drained. */
module ReclamationExit {
  import opened MichaelScott
  import opened MichaelScottInvariant
  import opened Reclamation
  import opened ReclamationInvariant
  import opened ReclamationTheorems

  // ---- Thread exit ----

  ghost predicate KeepsNothing(pc: Pc, h: Hazard) {
    h.exited ==> pc.Idle? && h.retired == [] && h.scan == NoScan
  }

  ghost predicate ExitedOk(s: System) {
    |s.hz| == |s.q.threads| && forall i :: 0 <= i < |s.hz| ==> KeepsNothing(s.q.threads[i].pc, s.hz[i])
  }

  /** A thread's own step leaves the others' records alone, and does not end it. */
  lemma OwnStep(s: System, i: Tid)
    requires i < |s.q.threads| == |s.hz|
    ensures var s' := SystemStep(s, i);
            && |s'.hz| == |s.hz| && |s'.q.threads| == |s.q.threads| && s'.hz[i].exited == s.hz[i].exited
            && forall j :: 0 <= j < |s.hz| && j != i ==> s'.hz[j] == s.hz[j] && s'.q.threads[j] == s.q.threads[j]
  {
    hide ThreadStep;
  }

  lemma ExitedStaysOk(s: System, mv: Move)
    requires SysInv(s) && ExitedOk(s) && Allowed(s, mv)
    ensures ExitedOk(Next(s, mv))
  {
    if mv.Leave? { IdleDoesNotScan(s, mv.i); }
    hide SysInv, SystemStep;
    var s' := Next(s, mv);
    if mv.Act? && mv.a.Run? { OwnStep(s, mv.a.i); }
    forall j | 0 <= j < |s'.hz| ensures KeepsNothing(s'.q.threads[j].pc, s'.hz[j]) {
      assert KeepsNothing(s.q.threads[j].pc, s.hz[j]);
    }
  }

  lemma IdleDoesNotScan(s: System, i: Tid)
    requires SysInv(s) && i < |s.hz| && s.q.threads[i].pc.Idle?
    ensures s.hz[i].scan == NoScan
  {
    assert SlotsOk(s.m, s.q.threads[i].pc, s.hz[i]);
  }

  lemma {:induction false} RunKeepsExitedOk(ss: seq<System>, mvs: seq<Move>, k: nat)
    requires IsSystemRun(ss, mvs) && k < |ss|
    ensures ExitedOk(ss[k])
  {
    hide SysInv, Next, Allowed, RespectsH;
    if k > 0 {
      RunKeepsExitedOk(ss, mvs, k - 1);
      SystemRunKeepsInv(ss, mvs, k - 1);
      ExitedStaysOk(ss[k - 1], mvs[k - 1]);
      assert ss[(k - 1) + 1] == Next(ss[k - 1], mvs[k - 1]);
    }
  }

  /** In every run, a thread that has ended has no node on its retired list, and no node waits for its scan. */
  lemma ExitedKeepsNothing(ss: seq<System>, mvs: seq<Move>, k: nat, i: Tid, a: Address)
    requires IsSystemRun(ss, mvs) && k < |ss| && i < |ss[k].hz| && ss[k].hz[i].exited && a < |ss[k].m.place|
    ensures !OnRetiredList(ss[k], i, a) && ss[k].m.place[a] != Retired(i)
  {
    RunKeepsExitedOk(ss, mvs, k);
    SystemRunKeepsInv(ss, mvs, k);
    EachNodeIsInOnePlace(ss[k], a);
    hide SysInv;
    assert KeepsNothing(ss[k].q.threads[i].pc, ss[k].hz[i]);
  }

  /** When a thread ends, exactly its retired nodes join the orphans; every other node stays where it is. */
  lemma ExitOrphans(s: System, i: Tid, a: Address)
    requires SysInv(s) && Allowed(s, Leave(i)) && a < |s.m.place|
    ensures var s' := Next(s, Leave(i));
            && SysInv(s') && (OnOrphanList(s', a) <==> OnOrphanList(s, a) || OnRetiredList(s, i, a))
            && (a in s'.pool <==> a in s.pool) && !OnRetiredList(s', i, a)
            && forall j: Tid :: j < |s.hz| && j != i ==> (OnRetiredList(s', j, a) <==> OnRetiredList(s, j, a))
  {
    hide SysInv, OnOrphanList, OnRetiredList, WithProducer, WithConsumer, InChain, RespectsH;
    assert RespectsH(s, Leave(i)) by { NoAllocation(s, i); }
    MoveKeeps(s, Leave(i));
    EachNodeIsInOnePlace(s, a);
    EachNodeIsInOnePlace(Next(s, Leave(i)), a);
  }

  lemma NoAllocation(s: System, i: Tid)
    ensures RespectsH(s, Leave(i)) && RespectsH(s, Destroy(i))
  {
  }

  // ---- Drain ----

  /**
   After a drain, exactly the nodes that were in the pool, orphaned or on the caller's retired list are in the pool, and
   no node is orphaned or on the caller's list.
   */
  lemma DrainReclaims(s: System, i: Tid, a: Address)
    requires SysInv(s) && Allowed(s, Destroy(i)) && a < |s.m.place|
    ensures var s' := Next(s, Destroy(i));
            && SysInv(s') && (a in s'.pool <==> a in s.pool || OnOrphanList(s, a) || OnRetiredList(s, i, a))
            && !OnOrphanList(s', a) && !OnRetiredList(s', i, a)
            && forall j: Tid :: j < |s.hz| && j != i ==> (OnRetiredList(s', j, a) <==> OnRetiredList(s, j, a))
  {
    hide SysInv, OnOrphanList, OnRetiredList, WithProducer, WithConsumer, InChain, RespectsH;
    assert RespectsH(s, Destroy(i)) by { NoAllocation(s, i); }
    MoveKeeps(s, Destroy(i));
    EachNodeIsInOnePlace(s, a);
    EachNodeIsInOnePlace(Next(s, Destroy(i)), a);
  }
}
