/**
 The announcement list of module `RecordList` behind the records of module `Reclamation`: a successful CAS of
 `initRecord` is the one step in which the system publishes a record, and a walk along the links visits the records as
 the scans of the system do.
 */
module RecordRefinement {
  import L = RecordList
  import opened Reclamation
  import opened ReclamationInvariant
  import opened ReclamationSystem

  /** The owners of the published records, oldest first. */
  function Owners(g: L.Store): (r: seq<nat>)
    requires forall k :: 0 <= k < |g.order| ==> g.order[k] < |g.owner|
    ensures |r| == |g.order| && forall k :: 0 <= k < |r| ==> r[k] == g.owner[g.order[k]]
  {
    seq(|g.order|, k requires 0 <= k < |g.order| => g.owner[g.order[k]])
  }

  lemma OwnersExist(g: L.Store)
    requires L.ListOk(g)
    ensures forall k :: 0 <= k < |g.order| ==> g.order[k] < |g.owner|
  {
  }

  /** The list and the system agree on who has published, and in which order. */
  ghost predicate Agree(r: L.State, s: System) {
    && L.Inv(r) && (forall k :: 0 <= k < |r.g.order| ==> r.g.order[k] < |r.g.owner|)
    && Owners(r.g) == s.records && |r.pubs| == |s.hz| == |s.q.threads|
    && forall i :: 0 <= i < |r.pubs| ==> (r.pubs[i].Published? <==> s.hz[i].published)
  }

  /** The CAS that publishes the record of thread `i`. */
  predicate Succeeds(r: L.State, i: nat) {
    i < |r.pubs| && r.pubs[i].Swapping? && r.g.head == r.pubs[i].expected
  }

  lemma OwnersStep(g: L.Store, i: nat, p: L.Publisher)
    requires L.ListOk(g) && L.PublisherOk(g, p) && L.ListOk(L.PublishStore(g, i, p))
    requires p.Swapping? ==> p.rec < |g.owner| && g.owner[p.rec] == i
    ensures var g' := L.PublishStore(g, i, p);
            && (forall k :: 0 <= k < |g.order| ==> g.order[k] < |g.owner|)
            && (forall k :: 0 <= k < |g'.order| ==> g'.order[k] < |g'.owner|)
            && Owners(g') == if p.Swapping? && g.head == p.expected then Owners(g) + [i] else Owners(g)
  {
    OwnersExist(g);
    OwnersExist(L.PublishStore(g, i, p));
    hide L.ListOk, L.PublisherOk;
    assert p.Swapping? && g.head == p.expected ==> Owners(L.PublishStore(g, i, p)) == Owners(g) + [i];
  }

  lemma PublishIs(s: System, i: nat)
    requires i < |s.hz| == |s.q.threads| && !Scans(s.hz[i]) && Protects(s.q.threads[i].pc) && !s.hz[i].published
    ensures var s' := SystemStep(s, i);
            && s'.records == s.records + [i] && s'.q == s.q && |s'.hz| == |s.hz|
            && forall k :: 0 <= k < |s.hz| ==> s'.hz[k].published == (k == i || s.hz[k].published)
  {
    hide QueueStep, NewNode, Retire, PlaceEffect, SlotEffect, FirstFree, ScanStep;
  }

  lemma PublisherAt(r: L.State, i: nat)
    requires L.Inv(r) && i < |r.pubs|
    ensures L.ListOk(r.g) && L.PublisherOk(r.g, r.pubs[i])
    ensures !r.pubs[i].Loading? ==> r.pubs[i].rec < |r.g.owner| && r.g.owner[r.pubs[i].rec] == i
  {
  }

  /** At that CAS the system takes its publishing step; all other accesses of `initRecord` it does not see. */
  lemma PublicationRefines(r: L.State, s: System, i: nat)
    requires Agree(r, s) && SysInv(s) && L.Enabled(r, L.Publish(i)) && Protects(s.q.threads[i].pc)
    ensures !s.hz[i].published && !Scans(s.hz[i])
    ensures Agree(L.Do(r, L.Publish(i)), if Succeeds(r, i) then SystemStep(s, i) else s)
  {
    hide SysInv, L.Inv, L.ListOk, L.PublisherOk, SystemStep, L.PublishStore, Protects, Owners;
    NoScan(s, i);
    L.ActionKeepsInv(r, L.Publish(i));
    var r' := L.Do(r, L.Publish(i));
    PublisherAt(r, i);
    PublisherAt(r', i);
    OwnersStep(r.g, i, r.pubs[i]);
    if Succeeds(r, i) { PublishIs(s, i); }
  }

  lemma NoScan(s: System, i: nat)
    requires SysInv(s) && i < |s.hz| && Protects(s.q.threads[i].pc)
    ensures !Scans(s.hz[i])
  {
    hide Wired, Placed, Accounted, RecordsOk, Listed, Keeps, WalkOk;
    assert SlotsOk(s.m, s.q.threads[i].pc, s.hz[i]);
  }

  /** Where a walk along the links is, counted as the scans count: how many records are still to be visited. */
  function Position(w: L.Walker): int
    requires w.Walking?
  {
    w.start - |w.seen|
  }

  /** A walk begins before the newest record of the system. */
  lemma WalkBegins(r: L.State, s: System, j: nat)
    requires Agree(r, s) && L.Enabled(r, L.Begin(j))
    ensures var w := L.Do(r, L.Begin(j)).walks[j]; w.Walking? && Position(w) == |s.records|
    ensures Agree(L.Do(r, L.Begin(j)), s)
  {
    L.ActionKeepsInv(r, L.Begin(j));
  }

  /** It goes on to the record before the one that a scan at the same position reads, and visits that one's owner. */
  lemma WalkRefines(r: L.State, s: System, j: nat)
    requires Agree(r, s) && L.Enabled(r, L.Advance(j))
    ensures var w, w' := r.walks[j], L.Do(r, L.Advance(j)).walks[j];
            && 0 < Position(w) <= |s.records| && Position(w') == Position(w) - 1
            && w.at.r < |r.g.owner| && r.g.owner[w.at.r] == s.records[Position(w) - 1]
    ensures Agree(L.Do(r, L.Advance(j)), s)
  {
    hide L.Inv, L.ListOk, L.WalkerOk, Owners;
    L.ActionKeepsInv(r, L.Advance(j));
    WalkerIsOk(r, j);
    L.WalkerAt(r.g, r.walks[j]);
    var k := Position(r.walks[j]) - 1;
    OwnerAt(r.g, k);
  }

  lemma OwnerAt(g: L.Store, k: nat)
    requires (forall x :: 0 <= x < |g.order| ==> g.order[x] < |g.owner|) && k < |g.order|
    ensures |Owners(g)| == |g.order| && Owners(g)[k] == g.owner[g.order[k]]
  {
  }

  lemma WalkerIsOk(r: L.State, j: nat)
    requires L.Inv(r) && j < |r.walks|
    ensures L.ListOk(r.g) && L.WalkerOk(r.g, r.walks[j])
  {
  }

  /** It ends where a scan has no record left. */
  lemma WalkEnds(r: L.State, s: System, j: nat)
    requires Agree(r, s) && j < |r.walks| && r.walks[j].Walking?
    ensures r.walks[j].at == L.Null <==> Position(r.walks[j]) == 0
  {
    assert L.WalkerOk(r.g, r.walks[j]);
  }
}
