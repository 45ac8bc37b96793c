/**
 The sequential code of include/miniruntime/task/hazardpointers.h, run by one thread while the
 slots of all threads stand still: `isProtected`, `scan`, `scanOrphaned`, `retire`, `drain`,
 `allocate`, `deallocate` and the end of a thread, on the lists that they change in place.
 */
module RetiredList {
  import opened Counting
  import MichaelScott
  import opened Reclamation

  type Pointer = MichaelScott.Address

  /** The four slots of one announcement record. */
  type Record = r: seq<Slot> | |r| == SLOTS_COUNT witness [Free, Free, Free, Free]

  ghost predicate Protected(records: seq<Record>, p: Pointer) {
    exists r, k :: 0 <= r < |records| && 0 <= k < SLOTS_COUNT && records[r][k] == Holds(p)
  }

  /** The pointers of a list that are protected, or those that are not, in their order. */
  ghost function Those(records: seq<Record>, list: seq<Pointer>, kept: bool): seq<Pointer> {
    if list == [] then []
    else
      var n := |list| - 1;
      Those(records, list[..n], kept) + (if Protected(records, list[n]) == kept then [list[n]] else [])
  }

  ghost predicate NoDuplicates(list: seq<Pointer>) {
    forall a, b :: 0 <= a < b < |list| ==> list[a] != list[b]
  }

  // ---- Splitting a list ----

  lemma {:induction false} ThoseAre(records: seq<Record>, list: seq<Pointer>, kept: bool)
    ensures forall p :: p in Those(records, list, kept) <==> p in list && Protected(records, p) == kept
    ensures |Those(records, list, kept)| <= |list|
  {
    if list != [] {
      var n := |list| - 1;
      ThoseAre(records, list[..n], kept);
      assert list == list[..n] + [list[n]];
      hide Protected;
    }
  }

  lemma {:induction false} ThoseHaveNoDuplicates(records: seq<Record>, list: seq<Pointer>, kept: bool)
    requires NoDuplicates(list)
    ensures NoDuplicates(Those(records, list, kept))
  {
    if list != [] {
      var n := |list| - 1;
      ThoseHaveNoDuplicates(records, list[..n], kept);
      ThoseAre(records, list[..n], kept);
      hide Protected;
      forall p | p in Those(records, list[..n], kept) ensures p != list[n] {
        var k :| 0 <= k < n && list[..n][k] == p;
      }
    }
  }

  lemma AddOne(a: seq<Pointer>, b: seq<Pointer>, list: seq<Pointer>, x: Pointer)
    requires multiset(a) + multiset(b) == multiset(list)
    ensures multiset(a + [x]) + multiset(b) == multiset(list + [x]) == multiset(a) + multiset(b + [x])
  {
  }

  lemma Extended(records: seq<Record>, list: seq<Pointer>, x: Pointer, kept: bool)
    ensures Those(records, list + [x], kept) == if Protected(records, x) == kept then Those(records, list,
        kept) + [x] else Those(records, list, kept)
  {
    assert (list + [x])[..|list|] == list;
  }

  /** A scan splits a list: nothing is lost and nothing invented. */
  lemma {:induction false} SplitConserves(records: seq<Record>, list: seq<Pointer>)
    ensures multiset(Those(records, list, true)) + multiset(Those(records, list, false)) == multiset(list)
  {
    if list != [] {
      var init, x := list[..|list| - 1], list[|list| - 1];
      SplitConserves(records, init);
      hide Protected, Those;
      assert list == init + [x];
      Extended(records, init, x, true);
      Extended(records, init, x, false);
      AddOne(Those(records, init, true), Those(records, init, false), init, x);
    }
  }

  // ---- The garbage bound ----

  function Flat(records: seq<Record>): (s: seq<Slot>)
    ensures |s| == SLOTS_COUNT * |records|
  {
    if records == [] then [] else Flat(records[..|records| - 1]) + records[|records| - 1]
  }

  lemma {:induction false} FlatHas(records: seq<Record>, r: nat, k: nat)
    requires r < |records| && k < SLOTS_COUNT
    ensures records[r][k] in Flat(records)
  {
    var n := |records| - 1;
    if r < n {
      FlatHas(records[..n], r, k);
    } else {
      assert Flat(records)[|Flat(records[..n])| + k] == records[r][k];
    }
  }

  /** Pigeonhole: distinct pointers that each sit in some slot are no more than the slots. */
  lemma {:induction false} Pigeonhole(list: seq<Pointer>, slots: seq<Slot>)
    requires NoDuplicates(list) && forall p :: p in list ==> Holds(p) in slots
    ensures |list| <= |slots|
  {
    if list != [] {
      var n := |list| - 1;
      assert list[n] in list;
      var k :| 0 <= k < |slots| && slots[k] == Holds(list[n]);
      var rest := slots[..k] + slots[k + 1..];
      forall p | p in list[..n] ensures Holds(p) in rest {
        var a :| 0 <= a < n && list[..n][a] == p;
        assert list[a] in list;
        var b :| 0 <= b < |slots| && slots[b] == Holds(p);
        assert b != k;
        assert rest[if b < k then b else b - 1] == Holds(p);
      }
      Pigeonhole(list[..n], rest);
    }
  }

  /** A duplicate-free list has at most four survivors for each announcement record. */
  lemma SurvivorsAreBounded(records: seq<Record>, list: seq<Pointer>)
    requires NoDuplicates(list)
    ensures |Those(records, list, true)| <= SLOTS_COUNT * |records|
  {
    ThoseAre(records, list, true);
    ThoseHaveNoDuplicates(records, list, true);
    var kept := Those(records, list, true);
    forall p | p in kept ensures Holds(p) in Flat(records) {
      assert Protected(records, p);
      var r, k :| 0 <= r < |records| && 0 <= k < SLOTS_COUNT && records[r][k] == Holds(p);
      FlatHas(records, r, k);
    }
    hide Those;
    Pigeonhole(kept, Flat(records));
  }

  /** The list that `retire` leaves behind. */
  ghost function AfterRetire(records: seq<Record>, list: seq<Pointer>, p: Pointer): seq<Pointer> {
    if |list| + 1 > 1024 then Those(records, list + [p], true) else list + [p]
  }

  /**
   After every `retire` of a fresh node the list is no longer than the threshold or four times the number of records.
   */
  lemma GarbageIsBounded(records: seq<Record>, list: seq<Pointer>, p: Pointer)
    requires NoDuplicates(list + [p])
    ensures |AfterRetire(records, list, p)| <= Max(1024, 4 * |records|)
  {
    SurvivorsAreBounded(records, list + [p]);
  }

  /** The list after retiring `ps` one by one; `views[k]` are the records that the `k`-th retire sees. */
  ghost function AfterRetires(views: seq<seq<Record>>, ps: seq<Pointer>): seq<Pointer>
    requires |views| == |ps|
  {
    if ps == [] then []
    else
      var n := |ps| - 1;
      AfterRetire(views[n], AfterRetires(views[..n], ps[..n]), ps[n])
  }

  /** No node is retired while it is still on the list. */
  ghost predicate NeverTwice(views: seq<seq<Record>>, ps: seq<Pointer>)
    requires |views| == |ps|
  {
    ps == [] ||
    var n := |ps| - 1;
    NeverTwice(views[..n], ps[..n]) && ps[n] !in AfterRetires(views[..n], ps[..n])
  }

  /**
   However often one retires, recycled nodes included, and however the slots change in between: as long as no
   node is retired while it is still on the list, the list has no duplicates and the bound holds for the
   largest number of records.
   */
  lemma {:induction false} GarbageStaysBounded(views: seq<seq<Record>>, ps: seq<Pointer>, most: nat)
    requires |views| == |ps| && (forall v :: v in views ==> |v| <= most) && NeverTwice(views, ps)
    ensures NoDuplicates(AfterRetires(views, ps))
    ensures |AfterRetires(views, ps)| <= Max(1024, 4 * most)
  {
    hide Those;
    if ps != [] {
      var n := |ps| - 1;
      GarbageStaysBounded(views[..n], ps[..n], most);
      var list := AfterRetires(views[..n], ps[..n]);
      assert views[n] in views;
      GarbageIsBounded(views[n], list, ps[n]);
      ThoseHaveNoDuplicates(views[n], list + [ps[n]], true);
    }
  }

  // ---- The code ----

  class Reclaimer {
    const records: seq<Record>
    var list: seq<Pointer>       // the retired list of the calling thread
    var orphans: seq<Pointer>
    var pool: seq<Pointer>

    constructor (records: seq<Record>)
      ensures this.records == records && list == [] && orphans == [] && pool == []
    {
      this.records := records;
      list, orphans, pool := [], [], [];
    }

    /** Every node the reclaimer is answerable for. */
    ghost function All(): multiset<Pointer>
      reads this
    {
      multiset(list) + multiset(orphans) + multiset(pool)
    }

    method IsProtected(p: Pointer) returns (found: bool)
      ensures found <==> Protected(records, p)
    {
      var r := 0;
      while r < |records|
        invariant 0 <= r <= |records|
        invariant forall a, k :: 0 <= a < r && 0 <= k < SLOTS_COUNT ==> records[a][k] != Holds(p)
      {
        for k := 0 to SLOTS_COUNT
          invariant forall b :: 0 <= b < k ==> records[r][b] != Holds(p)
        {
          if records[r][k] == Holds(p) {
            return true;
          }
        }
        r := r + 1;
      }
      return false;
    }

    method Deallocate(p: Pointer)
      modifies this`pool
      ensures pool == old(pool) + [p]
    {
      pool := pool + [p];
    }

    /** The node that was deallocated last, or null (`Free`) if there is none. */
    method Allocate() returns (p: Slot)
      modifies this`pool
      ensures p == Free <==> old(pool) == []
      ensures old(pool) == pool + (if p == Free then [] else [p.a])
    {
      p := Free;
      if pool != [] {
        p := Holds(pool[|pool| - 1]);
        pool := pool[..|pool| - 1];
      }
    }

    /** The loop of `scan` and of `scanOrphaned`: what is not protected goes to the pool, the rest survives. */
    method Sift(from: seq<Pointer>) returns (survivors: seq<Pointer>)
      modifies this`pool
      ensures survivors == Those(records, from, true)
      ensures pool == old(pool) + Those(records, from, false)
    {
      survivors := [];
      for i := 0 to |from|
        invariant survivors == Those(records, from[..i], true)
        invariant pool == old(pool) + Those(records, from[..i], false)
      {
        assert from[..i + 1][..i] == from[..i];
        var found := IsProtected(from[i]);
        if found {
          survivors := survivors + [from[i]];
        } else {
          Deallocate(from[i]);
        }
      }
      assert from[..|from|] == from;
    }

    method ScanOrphaned()
      modifies this`orphans, this`pool
      ensures orphans == Those(records, old(orphans), true)
      ensures pool == old(pool) + Those(records, old(orphans), false)
      ensures All() == old(All())
    {
      SplitConserves(records, orphans);
      orphans := Sift(orphans);
    }

    /** A scan gives the pool exactly the unprotected nodes and only moves nodes. */
    method Scan()
      modifies this
      ensures list == Those(records, old(list), true)
      ensures orphans == Those(records, old(orphans), true)
      ensures pool == old(pool) + Those(records, old(list), false) + Those(records, old(orphans), false)
      ensures All() == old(All())
    {
      SplitConserves(records, list);
      list := Sift(list);
      ScanOrphaned();
    }

    method Retire(p: Pointer)
      modifies this
      ensures list == AfterRetire(records, old(list), p)
      ensures All() == old(All()) + multiset{p}
      ensures NoDuplicates(old(list) + [p]) ==> |list| <= Max(1024, 4 * |records|)
    {
      if NoDuplicates(list + [p]) { GarbageIsBounded(records, list, p); }
      list := list + [p];
      if |list| > RETIRE_THRESHOLD {
        Scan();
      }
    }

    method DeallocateAll()
      modifies this`list, this`pool
      ensures list == [] && pool == old(pool) + old(list)
    {
      for i := 0 to |list|
        invariant list == old(list)
        invariant pool == old(pool) + list[..i]
      {
        assert list[..i] + [list[i]] == list[..i + 1];
        Deallocate(list[i]);
      }
      list := [];
    }

    /** `drain` empties the calling thread's list whether or not its nodes are protected; orphans are still examined. */
    method Drain()
      modifies this
      ensures list == [] && orphans == Those(records, old(orphans), true)
      ensures pool == old(pool) + old(list) + Those(records, old(orphans), false)
      ensures All() == old(All())
    {
      hide Those;
      DeallocateAll();
      ScanOrphaned();
    }

    /** The end of the thread: its nodes are handed to the orphan list. */
    method EndThread()
      modifies this`list, this`orphans
      ensures list == [] && orphans == old(orphans) + old(list)
      ensures All() == old(All())
    {
      if list != [] {
        orphans := orphans + list;
      }
      list := [];
    }
  }
}
