/** The device-pointer allocation cache (cache.cpp): records ordered by base, with a
    running count of overlapping neighbours that lets a lookup stop after one
    probe while it is zero. */
module AllocationCache {
  import opened Options

  const WORD: nat := 0x1_0000_0000_0000_0000

  datatype Entry = Entry(base: nat, size: nat, route: int, context: nat)

  predicate Holds(e: Entry, p: nat) { e.base <= p < e.base + e.size }

  /** Ordered as std::map keeps them; no record is empty or based at zero. */
  ghost predicate Ordered(es: seq<Entry>) {
    && (forall i :: 0 <= i < |es| ==> EntryOk(es[i]))
    && (forall i, j :: 0 <= i < j < |es| ==> es[i].base < es[j].base)
  }

  predicate EntryOk(e: Entry) { 0 < e.base < WORD && 0 < e.size < WORD }

  // ----- The neighbour count -----

  /** overlaps(first, second) for neighbours in order. */
  predicate Overlap(a: Entry, b: Entry) { b.base - a.base < a.size }

  /** The same for iterators, either of which may be end(). */
  function OverlapAt(es: seq<Entry>, i: int, j: int): nat {
    if 0 <= i < |es| && 0 <= j < |es| && Overlap(es[i], es[j]) then 1 else 0
  }

  /** How many records overlap their successor. */
  function Neighbours(es: seq<Entry>): nat {
    if |es| < 2 then 0 else Neighbours(es[..|es| - 1]) + OverlapAt(es, |es| - 2, |es| - 1)
  }

  function Junction(a: seq<Entry>, b: seq<Entry>): nat {
    if a != [] && b != [] && Overlap(a[|a| - 1], b[0]) then 1 else 0
  }

  lemma {:induction false} NeighboursConcat(a: seq<Entry>, b: seq<Entry>)
    ensures Neighbours(a + b) == Neighbours(a) + Neighbours(b) + Junction(a, b)
  {
    if b == [] {
      assert a + b == a;
    } else {
      var front := b[..|b| - 1];
      assert (a + b)[..|a + b| - 1] == a + front;
      NeighboursConcat(a, front);
      if |b| == 1 {
        assert a + front == a;
      }
    }
  }

  /** A record in the middle contributes its two junctions. */
  lemma NeighboursSplit(a: seq<Entry>, x: Entry, b: seq<Entry>)
    ensures Neighbours(a + [x] + b) == Neighbours(a) + Junction(a, [x]) + Junction([x], b) + Neighbours(b)
  {
    NeighboursConcat(a + [x], b);
    NeighboursConcat(a, [x]);
  }

  lemma {:induction false} NoneMeansApart(es: seq<Entry>, i: nat)
    requires Neighbours(es) == 0 && i + 1 < |es|
    ensures !Overlap(es[i], es[i + 1])
  {
    if i + 2 < |es| {
      NoneMeansApart(es[..|es| - 1], i);
    }
  }

  /** A count of zero means that all records are pairwise disjoint. */
  lemma {:induction false} NoneMeansDisjoint(es: seq<Entry>, i: nat, j: nat)
    requires Ordered(es) && Neighbours(es) == 0 && i < j < |es|
    ensures es[i].base + es[i].size <= es[j].base
    decreases j
  {
    NoneMeansApart(es, j - 1);
    if i < j - 1 {
      NoneMeansDisjoint(es, i, j - 1);
    }
  }

  /** And a positive count means that two records do overlap. */
  lemma {:induction false} SomeMeansOverlap(es: seq<Entry>) returns (i: nat)
    requires Ordered(es) && Neighbours(es) > 0
    ensures i + 1 < |es| && es[i + 1].base < es[i].base + es[i].size
  {
    if OverlapAt(es, |es| - 2, |es| - 1) == 1 {
      i := |es| - 2;
    } else {
      i := SomeMeansOverlap(es[..|es| - 1]);
    }
  }

  // ----- One record more or less -----

  function Without(es: seq<Entry>, k: nat): seq<Entry>
    requires k < |es|
  {
    es[..k] + es[k + 1..]
  }

  function With(es: seq<Entry>, k: nat, e: Entry): seq<Entry>
    requires k <= |es|
  {
    es[..k] + [e] + es[k..]
  }

  /** The junctions around a record are overlaps of neighbours. */
  lemma JunctionsAt(es: seq<Entry>, k: nat)
    requires k < |es|
    ensures es == es[..k] + [es[k]] + es[k + 1..]
    ensures Junction(es[..k], [es[k]]) == OverlapAt(es, k - 1, k)
    ensures Junction([es[k]], es[k + 1..]) == OverlapAt(es, k, k + 1)
    ensures Junction(es[..k], es[k + 1..]) == OverlapAt(es, k - 1, k + 1)
  {
  }

  lemma WithoutCount(es: seq<Entry>, k: nat)
    requires k < |es|
    ensures Neighbours(es) >= OverlapAt(es, k - 1, k) + OverlapAt(es, k, k + 1)
    ensures Neighbours(Without(es, k)) ==
            Neighbours(es) - OverlapAt(es, k - 1, k) - OverlapAt(es, k, k + 1) + OverlapAt(es, k - 1, k + 1)
  {
    JunctionsAt(es, k);
    NeighboursSplit(es[..k], es[k], es[k + 1..]);
    NeighboursConcat(es[..k], es[k + 1..]);
  }

  lemma WithCount(es: seq<Entry>, k: nat, e: Entry)
    requires k <= |es|
    ensures Neighbours(es) >= OverlapAt(es, k - 1, k)
    ensures var n := With(es, k, e);
            Neighbours(n) == Neighbours(es) - OverlapAt(es, k - 1, k) + OverlapAt(n, k - 1, k) + OverlapAt(n, k, k + 1)
  {
    var n := With(es, k, e);
    assert n[..k] == es[..k] && n[k + 1..] == es[k..];
    assert Without(n, k) == es;
    WithoutCount(n, k);
    assert (k > 0 ==> n[k - 1] == es[k - 1]) && (k < |es| ==> n[k + 1] == es[k]);
  }

  lemma WithoutOrdered(es: seq<Entry>, k: nat)
    requires Ordered(es) && k < |es|
    ensures Ordered(Without(es, k))
    ensures forall x :: x in Without(es, k) <==> x in es && x.base != es[k].base
  {
    var n := Without(es, k);
    assert forall i :: 0 <= i < |n| ==> n[i] == if i < k then es[i] else es[i + 1];
    forall x | x in es && x.base != es[k].base
      ensures x in n
    {
      var i :| 0 <= i < |es| && es[i] == x;
      assert n[if i < k then i else i - 1] == x;
    }
  }

  predicate FitsAt(es: seq<Entry>, k: nat, e: Entry)
    requires k <= |es|
  {
    EntryOk(e) && (k > 0 ==> es[k - 1].base < e.base) && (k < |es| ==> e.base < es[k].base)
  }

  lemma WithElement(es: seq<Entry>, k: nat, e: Entry, i: nat)
    requires k <= |es| && i <= |es|
    ensures With(es, k, e)[i] == if i < k then es[i] else if i == k then e else es[i - 1]
  {
  }

  lemma WithOrdered(es: seq<Entry>, k: nat, e: Entry)
    requires Ordered(es) && k <= |es| && FitsAt(es, k, e)
    ensures Ordered(With(es, k, e))
    ensures forall x :: x in With(es, k, e) <==> x in es || x == e
  {
    var n := With(es, k, e);
    forall i | 0 <= i < |n|
      ensures EntryOk(n[i]) && (i < k ==> n[i].base < e.base) && (k < i ==> e.base < n[i].base)
    {
      WithElement(es, k, e, i);
    }
    forall i, j | 0 <= i < j < |n|
      ensures n[i].base < n[j].base
    {
      WithElement(es, k, e, i);
      WithElement(es, k, e, j);
    }
  }

  // ----- Bounds -----

  /** std::map::lower_bound and upper_bound, as positions. */
  function LowerBound(es: seq<Entry>, p: nat): (k: nat)
    requires Ordered(es)
    ensures k <= |es| && (forall i :: 0 <= i < |es| ==> (es[i].base < p <==> i < k))
  {
    if es == [] || es[|es| - 1].base < p then |es| else LowerBound(es[..|es| - 1], p)
  }

  function UpperBound(es: seq<Entry>, p: nat): (k: nat)
    requires Ordered(es)
    ensures k <= |es| && (forall i :: 0 <= i < |es| ==> (es[i].base <= p <==> i < k))
  {
    LowerBound(es, p + 1)
  }

  lemma FitsInPlace(es: seq<Entry>, e: Entry)
    requires Ordered(es) && EntryOk(e)
    ensures var k := LowerBound(es, e.base);
            if k < |es| && es[k].base == e.base then FitsAt(Without(es, k), k, e)
            else FitsAt(es, k, e) && forall x :: x in es ==> x.base != e.base
  {
    var k := LowerBound(es, e.base);
    if k < |es| && es[k].base == e.base {
      assert k + 1 < |es| ==> Without(es, k)[k] == es[k + 1];
      assert k > 0 ==> Without(es, k)[k - 1] == es[k - 1];
    }
  }

  // ----- The reference answers -----

  /** The containing record with the greatest base. */
  ghost predicate Innermost(es: seq<Entry>, p: nat, e: Entry) {
    e in es && Holds(e, p) && forall f :: f in es && Holds(f, p) ==> f.base <= e.base
  }

  /** A record and the range [base, base + size) share an address. */
  ghost predicate Meets(e: Entry, base: nat, size: nat) {
    exists p :: base <= p < base + size && Holds(e, p)
  }

  ghost predicate MeetsOtherRoute(es: seq<Entry>, base: nat, size: nat, route: int) {
    exists e :: e in es && e.route != route && Meets(e, base, size)
  }

  /** What lupine_deviceptr_allocation_cache_overlaps_other_route looks for, whatever
      base and size are; the end of the range is a machine word. */
  predicate Reached(es: seq<Entry>, base: nat, size: nat, route: int, e: Entry) {
    e in es && e.route != route && e.base < (base + size) % WORD && (base <= e.base || base - e.base < e.size)
  }

  class Cache {
    var entries: seq<Entry>
    var overlapping: nat

    ghost predicate Valid()
      reads this
    {
      Ordered(entries) && overlapping == Neighbours(entries)
    }

    constructor ()
      ensures Valid() && entries == []
    {
      entries, overlapping := [], 0;
    }

    /** Take the record at `k` out and account for its neighbours. */
    method RemoveAt(k: nat)
      requires Valid() && k < |entries|
      modifies this
      ensures Valid() && entries == Without(old(entries), k)
    {
      WithoutCount(entries, k);
      WithoutOrdered(entries, k);
      overlapping := overlapping - OverlapAt(entries, k - 1, k);
      overlapping := overlapping - OverlapAt(entries, k, k + 1);
      overlapping := overlapping + OverlapAt(entries, k - 1, k + 1);
      entries := Without(entries, k);
    }

    /** Put a record in at `k` and account for its neighbours. */
    method AddAt(k: nat, e: Entry)
      requires Valid() && k <= |entries| && FitsAt(entries, k, e)
      modifies this
      ensures Valid() && entries == With(old(entries), k, e)
    {
      WithCount(entries, k, e);
      WithOrdered(entries, k, e);
      overlapping := overlapping - OverlapAt(entries, k - 1, k);
      entries := With(entries, k, e);
      overlapping := overlapping + OverlapAt(entries, k - 1, k);
      overlapping := overlapping + OverlapAt(entries, k, k + 1);
    }

    /** lupine_deviceptr_allocation_cache_erase. */
    method Erase(base: nat)
      requires Valid()
      modifies this
      ensures Valid()
      ensures forall e :: e in entries <==> e in old(entries) && e.base != base
    {
      var k := LowerBound(entries, base);
      if k == |entries| || entries[k].base != base {
        return;
      }
      WithoutOrdered(entries, k);
      RemoveAt(k);
    }

    /** lupine_deviceptr_allocation_cache_insert. */
    method Insert(base: nat, size: nat, route: int, context: nat)
      requires Valid() && base < WORD && size < WORD
      modifies this
      ensures Valid()
      ensures forall e :: e in entries <==>
                (e in old(entries) && e.base != base)
                || (base != 0 && size != 0 && e == Entry(base, size, route, context))
    {
      if base == 0 || size == 0 {
        Erase(base);
        return;
      }
      var next, e := LowerBound(entries, base), Entry(base, size, route, context);
      FitsInPlace(entries, e);
      if next < |entries| && entries[next].base == base {
        WithoutOrdered(entries, next);
        RemoveAt(next);
      }
      WithOrdered(entries, next, e);
      AddAt(next, e);
    }

    /** lupine_deviceptr_allocation_cache_lookup: refines the scan over all records. */
    method Lookup(p: nat) returns (r: Option<Entry>)
      requires Valid()
      ensures match r
              case Some(e) => Innermost(entries, p, e)
              case None => forall e :: e in entries ==> !Holds(e, p)
    {
      var k := UpperBound(entries, p);
      while k != 0
        invariant 0 <= k <= UpperBound(entries, p)
        invariant forall i :: k <= i < |entries| ==> !Holds(entries[i], p)
      {
        k := k - 1;
        if p - entries[k].base < entries[k].size {
          return Some(entries[k]);
        }
        if overlapping == 0 {
          forall i | 0 <= i < k
            ensures !Holds(entries[i], p)
          {
            NoneMeansDisjoint(entries, i, k);
          }
          break;
        }
      }
      r := None;
    }

    /** lupine_deviceptr_allocation_cache_overlaps_other_route. */
    method OverlapsOtherRoute(base: nat, size: nat, route: int) returns (r: bool)
      requires Valid() && base < WORD && size < WORD
      ensures r <==> exists e :: Reached(entries, base, size, route, e)
    {
      var k := LowerBound(entries, (base + size) % WORD);
      while k != 0
        invariant 0 <= k <= LowerBound(entries, (base + size) % WORD)
        invariant forall i :: k <= i < |entries| ==> !Reached(entries, base, size, route, entries[i])
      {
        k := k - 1;
        var e := entries[k];
        if (e.base >= base || base - e.base < e.size) && e.route != route {
          assert Reached(entries, base, size, route, e);
          return true;
        }
        if e.base < base && overlapping == 0 {
          forall i | 0 <= i < k
            ensures !Reached(entries, base, size, route, entries[i])
          {
            NoneMeansDisjoint(entries, i, k);
          }
          break;
        }
      }
      r := false;
    }
  }

  // ----- When the route test is the interval test -----

  /** The answer is the interval test for every cache. */
  ghost predicate IsIntervalTest(base: nat, size: nat, route: int) {
    forall es :: Ordered(es) ==>
      ((exists e :: Reached(es, base, size, route, e)) <==> MeetsOtherRoute(es, base, size, route))
  }

  /** It is exactly when the range neither wraps nor is empty above address one. */
  lemma IntervalTestCondition(base: nat, size: nat, route: int)
    requires base < WORD && size < WORD
    ensures IsIntervalTest(base, size, route) <==> base + size < WORD && (size > 0 || base <= 1)
  {
    if base + size < WORD && (size > 0 || base <= 1) {
      forall es | Ordered(es)
        ensures (exists e :: Reached(es, base, size, route, e)) <==> MeetsOtherRoute(es, base, size, route)
      {
        SameAnswers(es, base, size, route);
      }
    } else if base + size >= WORD {
      WrapMisses(base, size, route);
    } else {
      EmptyRangeReaches(base, route);
    }
  }

  lemma MeetsWhen(e: Entry, base: nat, size: nat)
    ensures Meets(e, base, size) <==> 0 < size && 0 < e.size && e.base < base + size && base < e.base + e.size
  {
    if 0 < size && 0 < e.size && e.base < base + size && base < e.base + e.size {
      assert Holds(e, if e.base < base then base else e.base);
    }
  }

  lemma SameAnswers(es: seq<Entry>, base: nat, size: nat, route: int)
    requires Ordered(es) && base + size < WORD && (size > 0 || base <= 1)
    ensures (exists e :: Reached(es, base, size, route, e)) <==> MeetsOtherRoute(es, base, size, route)
  {
    forall e | e in es
      ensures Reached(es, base, size, route, e) <==> e.route != route && Meets(e, base, size)
    {
      MeetsWhen(e, base, size);
      assert EntryOk(e);
    }
  }

  lemma WrapMisses(base: nat, size: nat, route: int)
    requires base < WORD && size < WORD && base + size >= WORD
    ensures !IsIntervalTest(base, size, route)
  {
    var e := Entry(base, 1, route + 1, 0);
    var es := [e];
    MeetsWhen(e, base, size);
    assert Ordered(es) && e in es;
    assert MeetsOtherRoute(es, base, size, route);
    assert !exists f :: Reached(es, base, size, route, f);
  }

  lemma EmptyRangeReaches(base: nat, route: int)
    requires 1 < base < WORD
    ensures !IsIntervalTest(base, 0, route)
  {
    var e := Entry(base - 1, 2, route + 1, 0);
    var es := [e];
    assert Ordered(es) && e in es;
    assert Reached(es, base, 0, route, e);
    assert !MeetsOtherRoute(es, base, 0, route);
  }
}
