/** The ordering of drivers in the older engine (backend/app/main.bak.py):
    Python's `sorted(..., key=impact, reverse=True)`, which is stable, written
    as an insertion sort that places each driver behind every driver of equal
    or higher impact. */
module ImpactSort {

  /** A named factor and its percentage impact. */
  datatype Driver = Driver(name: string, impact: int)

  predicate ImpactNonIncreasing(ds: seq<Driver>)
  {
    forall i, j :: 0 <= i < j < |ds| ==> ds[i].impact >= ds[j].impact
  }

  /** The drivers of ds with the given impact, in their order in ds. */
  function WithImpact(ds: seq<Driver>, k: int): seq<Driver>
  {
    if ds == [] then []
    else (if ds[0].impact == k then [ds[0]] else []) + WithImpact(ds[1..], k)
  }

  /** Places d after every driver of s whose impact is at least d's. */
  function Insert(d: Driver, s: seq<Driver>): seq<Driver>
  {
    if s == [] then [d]
    else if s[0].impact >= d.impact then [s[0]] + Insert(d, s[1..])
    else [d] + s
  }

  /** `sorted(drivers, key=impact, reverse=True)`: insertion sort that
      inserts each driver behind those of equal impact. */
  function SortByImpact(ds: seq<Driver>): seq<Driver>
  {
    if ds == [] then [] else Insert(ds[|ds| - 1], SortByImpact(ds[..|ds| - 1]))
  }

  lemma {:induction false} WithImpactAppend(a: seq<Driver>, b: seq<Driver>, k: int)
    ensures WithImpact(a + b, k) == WithImpact(a, k) + WithImpact(b, k)
    decreases |a|
  {
    if a == [] {
      assert a + b == b;
    } else {
      var c := a + b;
      assert c[0] == a[0] && c[1..] == a[1..] + b;
      WithImpactAppend(a[1..], b, k);
      var x := if a[0].impact == k then [a[0]] else [];
      assert WithImpact(c, k) == x + (WithImpact(a[1..], k) + WithImpact(b, k));
      assert WithImpact(a, k) == x + WithImpact(a[1..], k);
    }
  }

  lemma {:induction false} WithImpactNone(s: seq<Driver>, k: int)
    requires forall i :: 0 <= i < |s| ==> s[i].impact != k
    ensures WithImpact(s, k) == []
    decreases |s|
  {
    if s != [] {
      WithImpactNone(s[1..], k);
    }
  }

  /** Where Insert puts d: before the first driver of lower impact. */
  lemma {:induction false} InsertAt(d: Driver, s: seq<Driver>, j: int)
    requires 0 <= j <= |s|
    requires forall m :: 0 <= m < j ==> s[m].impact >= d.impact
    requires j < |s| ==> s[j].impact < d.impact
    ensures Insert(d, s) == s[..j] + [d] + s[j..]
    decreases j
  {
    if j == 0 {
      assert s[j..] == s;
    } else {
      InsertAt(d, s[1..], j - 1);
      assert s[..j] == [s[0]] + s[1..][..j - 1];
      assert s[j..] == s[1..][j - 1..];
    }
  }

  /** The first position holding a driver of lower impact than d. */
  function InsertionPoint(d: Driver, s: seq<Driver>): (j: nat)
    ensures j <= |s|
    ensures forall m :: 0 <= m < j ==> s[m].impact >= d.impact
    ensures j < |s| ==> s[j].impact < d.impact
  {
    if s == [] || s[0].impact < d.impact then 0 else 1 + InsertionPoint(d, s[1..])
  }

  /** Insertion into a sorted list keeps it sorted. */
  lemma InsertSorted(d: Driver, s: seq<Driver>)
    requires ImpactNonIncreasing(s)
    ensures ImpactNonIncreasing(Insert(d, s))
  {
    var j := InsertionPoint(d, s);
    InsertAt(d, s, j);
    var r := Insert(d, s);
    forall a, b | 0 <= a < b < |r| ensures r[a].impact >= r[b].impact {
      var x := if a < j then s[a] else if a == j then d else s[a - 1];
      var y := if b < j then s[b] else if b == j then d else s[b - 1];
      assert r[a] == x && r[b] == y;
    }
  }

  /** Insertion adds d and nothing else. */
  lemma InsertPermutes(d: Driver, s: seq<Driver>)
    ensures multiset(Insert(d, s)) == multiset(s) + multiset{d}
  {
    var j := InsertionPoint(d, s);
    InsertAt(d, s, j);
    assert s == s[..j] + s[j..];
    calc {
      multiset(Insert(d, s));
      multiset(s[..j] + [d] + s[j..]);
      multiset(s[..j]) + multiset{d} + multiset(s[j..]);
    }
  }

  /** Insertion into a sorted list appends d to its own impact class and
      leaves the other classes alone. */
  lemma InsertKeepsClasses(d: Driver, s: seq<Driver>, k: int)
    requires ImpactNonIncreasing(s)
    ensures WithImpact(Insert(d, s), k) ==
      (if k == d.impact then WithImpact(s, k) + [d] else WithImpact(s, k))
  {
    var j := InsertionPoint(d, s);
    InsertAt(d, s, j);
    var front, back := s[..j], s[j..];
    assert s == front + back;
    WithImpactAppend(front + [d], back, k);
    WithImpactAppend(front, [d], k);
    WithImpactAppend(front, back, k);
    var wf, wd, wb := WithImpact(front, k), WithImpact([d], k), WithImpact(back, k);
    assert WithImpact(Insert(d, s), k) == wf + wd + wb;
    assert WithImpact(s, k) == wf + wb;
    assert wd == if k == d.impact then [d] else [] by {
      assert [d][1..] == [];
    }
    if k == d.impact {
      BelowInsertionPoint(d, s, j);
      WithImpactNone(back, k);
      assert wb == [];
    } else {
      assert wd == [];
    }
  }

  /** Behind the insertion point of d in a sorted list, every impact is
      below d's. */
  lemma BelowInsertionPoint(d: Driver, s: seq<Driver>, j: int)
    requires ImpactNonIncreasing(s)
    requires 0 <= j <= |s| && (j < |s| ==> s[j].impact < d.impact)
    ensures forall i :: 0 <= i < |s[j..]| ==> s[j..][i].impact != d.impact
  {
    forall i | 0 <= i < |s[j..]| ensures s[j..][i].impact != d.impact {
      assert s[j..][i] == s[j + i];
    }
  }

  /** The functional sort orders the drivers by impact, highest first. */
  lemma {:induction false} SortByImpactSorted(ds: seq<Driver>)
    ensures ImpactNonIncreasing(SortByImpact(ds))
    decreases |ds|
  {
    if ds != [] {
      SortByImpactSorted(ds[..|ds| - 1]);
      InsertSorted(ds[|ds| - 1], SortByImpact(ds[..|ds| - 1]));
    }
  }

  /** The functional sort holds exactly the input drivers. */
  lemma {:induction false} SortByImpactPermutes(ds: seq<Driver>)
    ensures multiset(SortByImpact(ds)) == multiset(ds)
    decreases |ds|
  {
    if ds != [] {
      var init, last := ds[..|ds| - 1], ds[|ds| - 1];
      SortByImpactPermutes(init);
      InsertPermutes(last, SortByImpact(init));
      assert ds == init + [last];
    }
  }

  /** The functional sort is stable: the drivers of each impact keep their
      input order. */
  lemma {:induction false} SortByImpactStable(ds: seq<Driver>, k: int)
    ensures WithImpact(SortByImpact(ds), k) == WithImpact(ds, k)
    decreases |ds|
  {
    if ds != [] {
      var init, last := ds[..|ds| - 1], ds[|ds| - 1];
      SortByImpactStable(init, k);
      SortByImpactSorted(init);
      InsertKeepsClasses(last, SortByImpact(init), k);
      assert ds == init + [last];
      WithImpactAppend(init, [last], k);
      assert WithImpact([last], k) == if last.impact == k then [last] else [] by {
        assert [last][1..] == [];
      }
    }
  }

  /** `sorted(drivers, key=lambda d: d.impact, reverse=True)`: builds a new
      list, inserting each driver behind those of equal or higher impact. */
  method SortByImpactDescending(ds: seq<Driver>) returns (sorted: seq<Driver>)
    ensures sorted == SortByImpact(ds)
  {
    sorted := [];
    var i := 0;
    while i < |ds|
      invariant 0 <= i <= |ds|
      invariant sorted == SortByImpact(ds[..i])
      invariant ImpactNonIncreasing(sorted)
    {
      var d := ds[i];
      var j := 0;
      while j < |sorted| && sorted[j].impact >= d.impact
        invariant 0 <= j <= |sorted|
        invariant forall m :: 0 <= m < j ==> sorted[m].impact >= d.impact
      {
        j := j + 1;
      }
      InsertAt(d, sorted, j);
      InsertSorted(d, sorted);
      assert ds[..i + 1][..i] == ds[..i] && ds[..i + 1][i] == d;
      sorted := sorted[..j] + [d] + sorted[j..];
      i := i + 1;
    }
    assert ds[..i] == ds;
  }
}
