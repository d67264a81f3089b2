/**
 * The drop-down options: the distinct Jahr values and the distinct Monat values, each put
 * through a `Set` and sorted, and the default year, their `Math.max`. A `sort()` without comparator
 * orders numbers by their decimal strings, so months come out as 1, 10, 11, 12, 2, ...
 */
module Selectors {
  import opened Wrappers
  import opened WasserRecords

  function DigitChar(d: int): char
    requires 0 <= d < 10
  {
    "0123456789"[d]
  }

  function NatString(n: nat): string
    decreases n
  {
    if n < 10 then [DigitChar(n)] else NatString(n / 10) + [DigitChar(n % 10)]
  }

  /** `String(n)` for an integer. */
  function DecimalString(n: int): string {
    if n < 0 then "-" + NatString(-n) else NatString(n)
  }

  /** Code-unit lexicographic order of strings, as `<` compares them (and equal strings). */
  predicate StrLe(a: string, b: string) {
    a == [] || (b != [] && (a[0] < b[0] || (a[0] == b[0] && StrLe(a[1..], b[1..]))))
  }

  lemma {:induction false} StrLeTotal(a: string, b: string)
    ensures StrLe(a, b) || StrLe(b, a)
  {
    if a != [] && b != [] && a[0] == b[0] {
      StrLeTotal(a[1..], b[1..]);
    }
  }

  lemma {:induction false} StrLeTrans(a: string, b: string, c: string)
    requires StrLe(a, b) && StrLe(b, c)
    ensures StrLe(a, c)
  {
    if a != [] && b != [] && c != [] && a[0] == b[0] && b[0] == c[0] {
      StrLeTrans(a[1..], b[1..], c[1..]);
    }
  }

  /** The comparison of the default `sort()`: by decimal string. */
  predicate JsLe(x: int, y: int) {
    StrLe(DecimalString(x), DecimalString(y))
  }

  predicate JsAscending(s: seq<int>) {
    forall i, j :: 0 <= i < j < |s| ==> JsLe(s[i], s[j])
  }

  function InsertJs(t: seq<int>, x: int): seq<int> {
    if t == [] || JsLe(t[|t| - 1], x) then t + [x]
    else InsertJs(t[..|t| - 1], x) + [t[|t| - 1]]
  }

  /** `sort()` with no comparator. */
  function JsSort(s: seq<int>): seq<int> {
    if s == [] then [] else InsertJs(JsSort(s[..|s| - 1]), s[|s| - 1])
  }

  lemma {:induction false} InsertJsCount(t: seq<int>, x: int)
    ensures multiset(InsertJs(t, x)) == multiset(t) + multiset{x}
  {
    if !(t == [] || JsLe(t[|t| - 1], x)) {
      var n := |t|;
      InsertJsCount(t[..n - 1], x);
      assert t == t[..n - 1] + [t[n - 1]];
    }
  }

  /** Appending x behind a last element not larger than x keeps the order. */
  lemma AppendJsAscending(t: seq<int>, x: int)
    requires JsAscending(t)
    requires t == [] || JsLe(t[|t| - 1], x)
    ensures JsAscending(t + [x])
  {
    var n := |t|;
    forall i | 0 <= i < n ensures JsLe(t[i], x) {
      if i < n - 1 {
        StrLeTrans(DecimalString(t[i]), DecimalString(t[n - 1]), DecimalString(x));
      }
    }
  }

  lemma {:induction false} InsertJsAscending(t: seq<int>, x: int)
    requires JsAscending(t)
    ensures JsAscending(InsertJs(t, x))
  {
    var n := |t|;
    if t == [] || JsLe(t[n - 1], x) {
      AppendJsAscending(t, x);
    } else {
      var last := t[n - 1];
      var front := InsertJs(t[..n - 1], x);
      InsertJsAscending(t[..n - 1], x);
      InsertJsCount(t[..n - 1], x);
      StrLeTotal(DecimalString(last), DecimalString(x));
      forall k | 0 <= k < |front| ensures JsLe(front[k], last) {
        assert front[k] in multiset(front);
        if front[k] != x {
          assert front[k] in multiset(t[..n - 1]);
          var k' :| 0 <= k' < n - 1 && t[..n - 1][k'] == front[k];
          assert t[k'] == front[k];
        }
      }
      AppendJsAscending(front, last);
    }
  }

  lemma {:induction false} JsSortPermutes(s: seq<int>)
    ensures multiset(JsSort(s)) == multiset(s)
  {
    if s != [] {
      var n := |s|;
      JsSortPermutes(s[..n - 1]);
      InsertJsCount(JsSort(s[..n - 1]), s[n - 1]);
      assert s == s[..n - 1] + [s[n - 1]];
    }
  }

  lemma {:induction false} JsSortAscending(s: seq<int>)
    ensures JsAscending(JsSort(s))
  {
    if s != [] {
      JsSortAscending(s[..|s| - 1]);
      InsertJsAscending(JsSort(s[..|s| - 1]), s[|s| - 1]);
    }
  }

  /** Spreading a `Set` of the values: each value once, at its first occurrence. */
  function Distinct(s: seq<int>): seq<int> {
    if s == [] then []
    else
      var d := Distinct(s[..|s| - 1]);
      if s[|s| - 1] in d then d else d + [s[|s| - 1]]
  }

  lemma {:induction false} DistinctCount(s: seq<int>)
    ensures forall x :: multiset(Distinct(s))[x] == if x in s then 1 else 0
  {
    if s != [] {
      var n := |s|;
      DistinctCount(s[..n - 1]);
      assert s == s[..n - 1] + [s[n - 1]];
      forall x ensures x in s <==> x in s[..n - 1] || x == s[n - 1] {
        assert x in s ==> x in s[..n - 1] + [s[n - 1]];
      }
    }
  }

  /** The Jahr of every record, in order. */
  function Jahre(data: seq<Record>): seq<int> {
    seq(|data|, i requires 0 <= i < |data| => data[i].jahr)
  }

  /** The Monat of every record, in order. */
  function Monate(data: seq<Record>): seq<int> {
    seq(|data|, i requires 0 <= i < |data| => data[i].monat)
  }

  function UniqueYears(data: seq<Record>): seq<int> {
    JsSort(Distinct(Jahre(data)))
  }

  function UniqueMonths(data: seq<Record>): seq<int> {
    JsSort(Distinct(Monate(data)))
  }

  /** `Math.max` of the years; None stands for the `-Infinity` of an empty list. */
  function MaxYear(years: seq<int>): (r: Option<int>)
    ensures r.None? <==> years == []
    ensures r.Some? ==> r.value in years && forall i :: 0 <= i < |years| ==> years[i] <= r.value
  {
    if years == [] then None
    else
      var n := |years|;
      var front := MaxYear(years[..n - 1]);
      if front.Some? && years[n - 1] <= front.value then front else Some(years[n - 1])
  }

  /** The distinct values in JS string order: each value of the input exactly once, nothing else. */
  lemma UniqueValues(values: seq<int>)
    ensures forall x :: multiset(JsSort(Distinct(values)))[x] == if x in values then 1 else 0
    ensures JsAscending(JsSort(Distinct(values)))
  {
    DistinctCount(values);
    JsSortPermutes(Distinct(values));
    JsSortAscending(Distinct(values));
  }

  /** The year options: every Jahr of the data exactly once, in string order. */
  lemma UniqueYearsSpec(data: seq<Record>)
    ensures forall y :: multiset(UniqueYears(data))[y]
                        == if exists i :: 0 <= i < |data| && data[i].jahr == y then 1 else 0
    ensures JsAscending(UniqueYears(data))
  {
    UniqueValues(Jahre(data));
    forall y ensures y in Jahre(data) <==> exists i :: 0 <= i < |data| && data[i].jahr == y {
      if y in Jahre(data) {
        var i :| 0 <= i < |data| && Jahre(data)[i] == y;
      }
      if exists i :: 0 <= i < |data| && data[i].jahr == y {
        var i :| 0 <= i < |data| && data[i].jahr == y;
        assert Jahre(data)[i] == y;
      }
    }
  }

  /** The month options: every Monat of the data exactly once, in string order. */
  lemma UniqueMonthsSpec(data: seq<Record>)
    ensures forall m :: multiset(UniqueMonths(data))[m]
                        == if exists i :: 0 <= i < |data| && data[i].monat == m then 1 else 0
    ensures JsAscending(UniqueMonths(data))
  {
    UniqueValues(Monate(data));
    forall m ensures m in Monate(data) <==> exists i :: 0 <= i < |data| && data[i].monat == m {
      if m in Monate(data) {
        var i :| 0 <= i < |data| && Monate(data)[i] == m;
      }
      if exists i :: 0 <= i < |data| && data[i].monat == m {
        var i :| 0 <= i < |data| && data[i].monat == m;
        assert Monate(data)[i] == m;
      }
    }
  }

  /** The default year is the largest Jahr of the data, and there is one exactly when there is data. */
  lemma LatestYear(data: seq<Record>)
    ensures MaxYear(UniqueYears(data)).None? <==> data == []
    ensures MaxYear(UniqueYears(data)).Some? ==>
      (exists i :: 0 <= i < |data| && data[i].jahr == MaxYear(UniqueYears(data)).value)
      && forall i :: 0 <= i < |data| ==> data[i].jahr <= MaxYear(UniqueYears(data)).value
  {
    var ys := UniqueYears(data);
    UniqueYearsSpec(data);
    if data != [] {
      assert multiset(ys)[data[0].jahr] == 1;
    }
    if MaxYear(ys).Some? {
      var m := MaxYear(ys).value;
      assert multiset(ys)[m] > 0;
      forall i | 0 <= i < |data| ensures data[i].jahr <= m {
        assert multiset(ys)[data[i].jahr] == 1;
        var k :| 0 <= k < |ys| && ys[k] == data[i].jahr;
      }
    }
  }

  /** The default sort puts month 10 between 1 and 2. */
  lemma MonthsSortAsStrings()
    ensures JsSort([2, 10, 1]) == [1, 10, 2]
  {
    assert DecimalString(1) == "1" && DecimalString(2) == "2";
    assert DecimalString(10) == "10";
    assert !JsLe(2, 10) && !JsLe(2, 1) && !JsLe(10, 1);
    assert [2, 10, 1][..2] == [2, 10];
    assert [2, 10][..1] == [2];
    assert JsSort([2]) == [2];
    assert JsSort([2, 10]) == InsertJs([2], 10) == [10, 2];
    assert [10, 2][..1] == [10];
    assert InsertJs([10], 1) == [1, 10];
    assert InsertJs([10, 2], 1) == [1, 10, 2];
  }
}
