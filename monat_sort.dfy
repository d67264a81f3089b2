/**
 * The sort of the filtered records by ascending Monat: in place and stable, on the
 * freshly filtered array. MonatSort is the sort as a function; SortByMonatInPlace is the
 * array algorithm, proved to compute it.
 */
module MonatSorting {
  import opened WasserRecords

  /** Ascending Monat, any two positions compared. */
  predicate MonatAscending(s: seq<Record>) {
    forall i, j :: 0 <= i < j < |s| ==> s[i].monat <= s[j].monat
  }

  /** Puts x behind the last element of t whose Monat is not larger than x's. */
  function InsertBack(t: seq<Record>, x: Record): seq<Record> {
    if t == [] || t[|t| - 1].monat <= x.monat then t + [x]
    else InsertBack(t[..|t| - 1], x) + [t[|t| - 1]]
  }

  /** Stable insertion sort by Monat. */
  function MonatSort(s: seq<Record>): seq<Record> {
    if s == [] then [] else InsertBack(MonatSort(s[..|s| - 1]), s[|s| - 1])
  }

  lemma {:induction false} InsertBackCount(t: seq<Record>, x: Record)
    ensures multiset(InsertBack(t, x)) == multiset(t) + multiset{x}
  {
    if !(t == [] || t[|t| - 1].monat <= x.monat) {
      var n := |t|;
      InsertBackCount(t[..n - 1], x);
      assert t == t[..n - 1] + [t[n - 1]];
    }
  }

  lemma {:induction false} InsertBackAscending(t: seq<Record>, x: Record)
    requires MonatAscending(t)
    ensures MonatAscending(InsertBack(t, x))
  {
    if !(t == [] || t[|t| - 1].monat <= x.monat) {
      var n := |t|;
      var last := t[n - 1];
      var front := InsertBack(t[..n - 1], x);
      InsertBackAscending(t[..n - 1], x);
      InsertBackCount(t[..n - 1], x);
      forall k | 0 <= k < |front| ensures front[k].monat <= last.monat {
        assert front[k] in multiset(front);
        assert front[k] in multiset(t[..n - 1]) || front[k] == x;
        if front[k] != x {
          var k' :| 0 <= k' < n - 1 && t[..n - 1][k'] == front[k];
        }
      }
    }
  }

  /** Inserting x keeps every other record's position relative to the records of its month. */
  lemma {:induction false} InsertBackFilter(t: seq<Record>, x: Record, m: int)
    ensures FilterMonat(InsertBack(t, x), m)
            == FilterMonat(t, m) + (if x.monat == m then [x] else [])
  {
    var n := |t|;
    if t == [] || t[n - 1].monat <= x.monat {
      assert (t + [x])[..n] == t;
    } else {
      var front := InsertBack(t[..n - 1], x);
      InsertBackFilter(t[..n - 1], x, m);
      assert (front + [t[n - 1]])[..|front|] == front;
    }
  }

  lemma {:induction false} InsertBackTotal(t: seq<Record>, x: Record, q: Quantity)
    ensures Total(InsertBack(t, x), q) == Total(t, q) + Amount(x, q)
  {
    var n := |t|;
    if t == [] || t[n - 1].monat <= x.monat {
      TotalSnoc(t, x, q);
    } else {
      var front := InsertBack(t[..n - 1], x);
      InsertBackTotal(t[..n - 1], x, q);
      TotalSnoc(front, t[n - 1], q);
      TotalSnoc(t[..n - 1], t[n - 1], q);
      assert t[..n - 1] + [t[n - 1]] == t;
    }
  }

  /** Where InsertBack puts x: at the position j the backwards scan of the array algorithm stops at. */
  lemma {:induction false} InsertBackAt(t: seq<Record>, x: Record, j: nat)
    requires j <= |t|
    requires forall k :: j <= k < |t| ==> t[k].monat > x.monat
    requires j == 0 || t[j - 1].monat <= x.monat
    ensures InsertBack(t, x) == t[..j] + [x] + t[j..]
  {
    var n := |t|;
    if j < n {
      InsertBackAt(t[..n - 1], x, j);
      assert t[..n - 1][..j] == t[..j];
      assert t[..n - 1][j..] + [t[n - 1]] == t[j..];
    } else {
      assert t[..j] == t;
    }
  }

  lemma {:induction false} MonatSortAscending(s: seq<Record>)
    ensures MonatAscending(MonatSort(s))
  {
    if s != [] {
      MonatSortAscending(s[..|s| - 1]);
      InsertBackAscending(MonatSort(s[..|s| - 1]), s[|s| - 1]);
    }
  }

  lemma {:induction false} MonatSortPermutes(s: seq<Record>)
    ensures multiset(MonatSort(s)) == multiset(s)
  {
    if s != [] {
      var n := |s|;
      MonatSortPermutes(s[..n - 1]);
      InsertBackCount(MonatSort(s[..n - 1]), s[n - 1]);
      assert s == s[..n - 1] + [s[n - 1]];
    }
  }

  /** Stability: the records of any one month keep their input order. */
  lemma {:induction false} MonatSortStable(s: seq<Record>, m: int)
    ensures FilterMonat(MonatSort(s), m) == FilterMonat(s, m)
  {
    if s != [] {
      var n := |s|;
      MonatSortStable(s[..n - 1], m);
      InsertBackFilter(MonatSort(s[..n - 1]), s[n - 1], m);
    }
  }

  lemma {:induction false} MonatSortTotal(s: seq<Record>, q: Quantity)
    ensures Total(MonatSort(s), q) == Total(s, q)
  {
    if s != [] {
      var n := |s|;
      MonatSortTotal(s[..n - 1], q);
      InsertBackTotal(MonatSort(s[..n - 1]), s[n - 1], q);
    }
  }

  /** One step of the insertion sort: a[i] moves left past the records before it with a larger Monat. */
  method InsertInPlace(a: array<Record>, i: nat)
    requires i < a.Length
    modifies a
    ensures a[..i + 1] == InsertBack(old(a[..i]), old(a[i]))
    ensures a[i + 1..] == old(a[i + 1..])
  {
    ghost var t := a[..i];
    var key := a[i];
    var j := i;
    while j > 0 && a[j - 1].monat > key.monat
      invariant 0 <= j <= i
      invariant forall k :: 0 <= k < j ==> a[k] == t[k]
      invariant forall k :: j < k <= i ==> a[k] == t[k - 1]
      invariant forall k :: i < k < a.Length ==> a[k] == old(a[k])
      invariant forall k :: j <= k < i ==> t[k].monat > key.monat
    {
      a[j] := a[j - 1];
      j := j - 1;
    }
    a[j] := key;
    InsertBackAt(t, key, j);
    assert a[..i + 1] == t[..j] + [key] + t[j..];
  }

  /** Insertion sort in place, as the stable sort of the source's runtime. */
  method SortByMonatInPlace(a: array<Record>)
    modifies a
    ensures a[..] == MonatSort(old(a[..]))
  {
    ghost var input := a[..];
    var i := 0;
    while i < a.Length
      invariant 0 <= i <= a.Length
      invariant a[..i] == MonatSort(input[..i])
      invariant a[i..] == input[i..]
    {
      InsertInPlace(a, i);
      assert input[..i + 1] == input[..i] + [input[i]];
      assert input[i + 1..] == input[i..][1..];
      i := i + 1;
    }
    assert input[..a.Length] == input;
    assert a[..a.Length] == a[..];
  }
}
