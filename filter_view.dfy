/**
 * The table view of `filterData`: the records of one Jahr (and of one Monat when the
 * month is truthy), sorted by Monat, followed by one "Summe" row holding the totals.
 */
module FilterView {
  import opened Wrappers
  import opened WasserRecords
  import opened MonatSorting

  /** JavaScript truthiness of the month argument: `null`, `undefined` and 0 are falsy. */
  predicate Truthy(month: Option<int>) {
    month.Some? && month.value != 0
  }

  /** The record passes the filter of `filterData` for these arguments. */
  predicate Matches(r: Record, year: Option<int>, month: Option<int>) {
    year == Some(r.jahr) && (Truthy(month) ==> r.monat == month.value)
  }

  /** The two `filter` calls, in the source's order. */
  function Matching(all: seq<Record>, year: Option<int>, month: Option<int>): seq<Record> {
    var yearData := FilterJahr(all, year);
    if Truthy(month) then FilterMonat(yearData, month.value) else yearData
  }

  /** Reference for the totals: the quantity summed over the matching records of the input. */
  function MatchingTotal(all: seq<Record>, year: Option<int>, month: Option<int>, q: Quantity): int {
    if all == [] then 0
    else MatchingTotal(all[..|all| - 1], year, month, q)
         + (if Matches(all[|all| - 1], year, month) then Amount(all[|all| - 1], q) else 0)
  }

  /** The literal summary row: key "sum", Jahr "Summe", empty Monat and Monatname. */
  function SumRowOf(s: seq<Record>): Row {
    SumRow("sum", "Summe", "", "", Total(s, Zaehlerstand), Total(s, Verbrauch))
  }

  /** The view: the sorted matching records, then the summary row. */
  function FilterData(all: seq<Record>, year: Option<int>, month: Option<int>): seq<Row> {
    var yearData := MonatSort(Matching(all, year, month));
    DataRows(yearData) + [SumRowOf(yearData)]
  }

  /** Filtering one more record: it is appended exactly when it matches. */
  lemma MatchingSnoc(all: seq<Record>, x: Record, year: Option<int>, month: Option<int>)
    ensures Matching(all + [x], year, month)
            == Matching(all, year, month) + (if Matches(x, year, month) then [x] else [])
  {
    assert (all + [x])[..|all|] == all;
    var y := FilterJahr(all, year);
    if year == Some(x.jahr) {
      assert FilterJahr(all + [x], year) == y + [x];
      assert (y + [x])[..|y|] == y;
    } else {
      assert FilterJahr(all + [x], year) == y + [];
      assert y + [] == y;
    }
  }

  lemma {:induction false} MatchingCount(all: seq<Record>, year: Option<int>, month: Option<int>)
    ensures forall r :: multiset(Matching(all, year, month))[r]
                        == if Matches(r, year, month) then multiset(all)[r] else 0
  {
    if all != [] {
      var n := |all|;
      MatchingCount(all[..n - 1], year, month);
      MatchingSnoc(all[..n - 1], all[n - 1], year, month);
      assert all == all[..n - 1] + [all[n - 1]];
    }
  }

  lemma {:induction false} MatchingSound(all: seq<Record>, year: Option<int>, month: Option<int>)
    ensures forall i :: 0 <= i < |Matching(all, year, month)| ==> Matches(Matching(all, year, month)[i], year, month)
  {
    if all != [] {
      var n := |all|;
      MatchingSound(all[..n - 1], year, month);
      MatchingSnoc(all[..n - 1], all[n - 1], year, month);
      assert all == all[..n - 1] + [all[n - 1]];
    }
  }

  lemma {:induction false} MatchingTotals(all: seq<Record>, year: Option<int>, month: Option<int>, q: Quantity)
    ensures Total(Matching(all, year, month), q) == MatchingTotal(all, year, month, q)
  {
    if all != [] {
      var n := |all|;
      var front := Matching(all[..n - 1], year, month);
      MatchingTotals(all[..n - 1], year, month, q);
      MatchingSnoc(all[..n - 1], all[n - 1], year, month);
      assert all == all[..n - 1] + [all[n - 1]];
      if Matches(all[n - 1], year, month) {
        TotalSnoc(front, all[n - 1], q);
      } else {
        assert front + [] == front;
      }
    }
  }

  /** Every view ends in exactly one summary row, with the source's literal labels. */
  lemma ViewShape(all: seq<Record>, year: Option<int>, month: Option<int>)
    ensures var v := FilterData(all, year, month);
      |v| == |Matching(all, year, month)| + 1
      && (forall i :: 0 <= i < |v| - 1 ==> v[i].DataRow?)
      && v[|v| - 1].SumRow?
      && v[|v| - 1].key == "sum" && v[|v| - 1].jahrText == "Summe"
      && v[|v| - 1].monatText == "" && v[|v| - 1].monatnameText == ""
  {
    MonatSortPermutes(Matching(all, year, month));
    assert |multiset(MonatSort(Matching(all, year, month)))| == |multiset(Matching(all, year, month))|;
  }

  /** Soundness: each data row has the selected Jahr, and the selected Monat when the month is truthy. */
  lemma ViewSound(all: seq<Record>, year: Option<int>, month: Option<int>)
    ensures var v := FilterData(all, year, month);
      forall i :: 0 <= i < |v| - 1 ==>
        v[i].DataRow? && year == Some(v[i].record.jahr)
        && (Truthy(month) ==> v[i].record.monat == month.value)
  {
    var m := Matching(all, year, month);
    var sorted := MonatSort(m);
    MatchingSound(all, year, month);
    MonatSortPermutes(m);
    forall i | 0 <= i < |sorted| ensures Matches(sorted[i], year, month) {
      assert sorted[i] in multiset(m);
      var k :| 0 <= k < |m| && m[k] == sorted[i];
    }
  }

  /** Completeness: the data rows are exactly the matching input records, each as often as in the input. */
  lemma ViewComplete(all: seq<Record>, year: Option<int>, month: Option<int>)
    ensures var v := FilterData(all, year, month);
      forall r :: multiset(RecordsOf(v))[r] == if Matches(r, year, month) then multiset(all)[r] else 0
  {
    var sorted := MonatSort(Matching(all, year, month));
    RecordsOfWithSummary(sorted, SumRowOf(sorted));
    MonatSortPermutes(Matching(all, year, month));
    MatchingCount(all, year, month);
  }

  /** The data rows are in ascending Monat order. */
  lemma ViewAscending(all: seq<Record>, year: Option<int>, month: Option<int>)
    ensures var v := FilterData(all, year, month);
      forall i, j :: 0 <= i < j < |v| - 1 ==> v[i].record.monat <= v[j].record.monat
  {
    MonatSortAscending(Matching(all, year, month));
  }

  /** Records that share a Monat appear in the view in their input order. */
  lemma ViewStable(all: seq<Record>, year: Option<int>, month: Option<int>, m: int)
    ensures FilterMonat(RecordsOf(FilterData(all, year, month)), m)
            == FilterMonat(Matching(all, year, month), m)
  {
    var sorted := MonatSort(Matching(all, year, month));
    RecordsOfWithSummary(sorted, SumRowOf(sorted));
    MonatSortStable(Matching(all, year, month), m);
  }

  /** The summary totals are the sums over the matching input records, and over the rows shown. */
  lemma ViewTotals(all: seq<Record>, year: Option<int>, month: Option<int>)
    ensures var v := FilterData(all, year, month);
      v[|v| - 1].SumRow?
      && v[|v| - 1].zaehlerstandTotal == MatchingTotal(all, year, month, Zaehlerstand)
      && v[|v| - 1].verbrauchTotal == MatchingTotal(all, year, month, Verbrauch)
      && v[|v| - 1].zaehlerstandTotal == Total(RecordsOf(v), Zaehlerstand)
      && v[|v| - 1].verbrauchTotal == Total(RecordsOf(v), Verbrauch)
  {
    var m := Matching(all, year, month);
    var sorted := MonatSort(m);
    RecordsOfWithSummary(sorted, SumRowOf(sorted));
    MonatSortTotal(m, Zaehlerstand);
    MonatSortTotal(m, Verbrauch);
    MatchingTotals(all, year, month, Zaehlerstand);
    MatchingTotals(all, year, month, Verbrauch);
  }

  /** No matching record (an unknown year included) leaves the summary row alone, with zero totals. */
  lemma ViewEmpty(all: seq<Record>, year: Option<int>, month: Option<int>)
    ensures (forall i :: 0 <= i < |all| ==> !Matches(all[i], year, month))
            <==> FilterData(all, year, month) == [SumRow("sum", "Summe", "", "", 0, 0)]
  {
    var m := Matching(all, year, month);
    MatchingCount(all, year, month);
    MonatSortPermutes(m);
    if !forall i :: 0 <= i < |all| ==> !Matches(all[i], year, month) {
      var i :| 0 <= i < |all| && Matches(all[i], year, month);
      assert multiset(m)[all[i]] > 0;
      assert |MonatSort(m)| > 0;
    }
  }

  /** The body of `filterData` step by step: filter, sort a fresh array in place, sum, append. */
  method ComputeView(allData: seq<Record>, year: Option<int>, month: Option<int>) returns (view: seq<Row>)
    ensures view == FilterData(allData, year, month)
  {
    var yearData := FilterJahr(allData, year);
    if Truthy(month) {
      yearData := FilterMonat(yearData, month.value);
    }
    var a := new Record[|yearData|](i requires 0 <= i < |yearData| => yearData[i]);
    assert a[..] == yearData;
    SortByMonatInPlace(a);
    var sorted := a[..];
    view := DataRows(sorted) + [SumRowOf(sorted)];
  }
}
