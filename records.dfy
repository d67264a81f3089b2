/**
 * The rows of the WasserMonat table as the frontend receives them, the rows of the
 * table view built from them, and the two helpers every view property is stated with:
 * filtering by Jahr or Monat, and totalling a quantity.
 */
module WasserRecords {
  import opened Wrappers

  /** One monthly reading. `id` is WasserMonatID; the two quantities may be missing. */
  datatype Record = Record(
    id: int,
    jahr: int,
    monat: int,
    monatname: string,
    zaehlerstand: Option<int>,
    verbrauch: Option<int>)

  /** A row of the table view: a record, or the synthetic summary row. */
  datatype Row =
    | DataRow(record: Record)
    | SumRow(key: string, jahrText: string, monatText: string, monatnameText: string,
             zaehlerstandTotal: int, verbrauchTotal: int)

  /** The two summed columns, "Wasser-Zählerstand" and "Wasserverbrauch". */
  datatype Quantity = Zaehlerstand | Verbrauch

  /** A quantity with the `|| 0` default: a missing value counts as 0, and so does a present 0. */
  function Amount(r: Record, q: Quantity): int {
    (if q == Zaehlerstand then r.zaehlerstand else r.verbrauch).GetOr(0)
  }

  /** The `reduce` that totals a quantity, left to right, starting at 0. */
  function Total(s: seq<Record>, q: Quantity): int {
    if s == [] then 0 else Total(s[..|s| - 1], q) + Amount(s[|s| - 1], q)
  }

  lemma TotalSnoc(s: seq<Record>, x: Record, q: Quantity)
    ensures Total(s + [x], q) == Total(s, q) + Amount(x, q)
  {
  }

  /** The records whose Jahr is strictly equal to `year`; a year that is no number (None) matches nothing. */
  function FilterJahr(s: seq<Record>, year: Option<int>): seq<Record> {
    if s == [] then []
    else FilterJahr(s[..|s| - 1], year) + (if year == Some(s[|s| - 1].jahr) then [s[|s| - 1]] else [])
  }

  /** The records whose Monat is strictly equal to `month`. */
  function FilterMonat(s: seq<Record>, month: int): seq<Record> {
    if s == [] then []
    else FilterMonat(s[..|s| - 1], month) + (if s[|s| - 1].monat == month then [s[|s| - 1]] else [])
  }

  /** One data row per record, in order. */
  function DataRows(s: seq<Record>): seq<Row> {
    seq(|s|, i requires 0 <= i < |s| => DataRow(s[i]))
  }

  /** The records shown by the data rows of a view, in order; summary rows contribute nothing. */
  function RecordsOf(rows: seq<Row>): seq<Record> {
    if rows == [] then []
    else RecordsOf(rows[..|rows| - 1])
         + (if rows[|rows| - 1].DataRow? then [rows[|rows| - 1].record] else [])
  }

  lemma {:induction false} RecordsOfDataRows(s: seq<Record>)
    ensures RecordsOf(DataRows(s)) == s
  {
    if s != [] {
      var n := |s|;
      assert DataRows(s)[..n - 1] == DataRows(s[..n - 1]);
      RecordsOfDataRows(s[..n - 1]);
      assert s == s[..n - 1] + [s[n - 1]];
    }
  }

  /** A trailing summary row adds nothing to the records of a view. */
  lemma RecordsOfWithSummary(s: seq<Record>, sum: Row)
    requires sum.SumRow?
    ensures RecordsOf(DataRows(s) + [sum]) == s
  {
    assert (DataRows(s) + [sum])[..|s|] == DataRows(s);
    RecordsOfDataRows(s);
  }
}
