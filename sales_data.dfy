/**
 * The synthetic sales dataset: `rows` records, one every three days from
 * 2023-01-01, each with a category drawn from six fixed names, a sales amount in
 * [100, 1000) and a profit in [10, 300), then sorted by date.
 *
 * Dates are day offsets from 2023-01-01. The seeded random generator is an
 * abstract stream of raw draws, so the dataset is a function of `rows` and the stream.
 */
module SalesData {
  import opened Results

  /** One row of the dataset: its date (days after 2023-01-01), category, sales and profit. */
  datatype Record = Record(date: int, category: string, sales: int, profit: int)

  /** The categories a record can have, in the order the generator picks from. */
  const Categories: seq<string> := ["Electronics", "Clothing", "Home", "Garden", "Toys", "Sports"]

  /** Days between consecutive generated records. */
  const DateStep: int := 3

  /** Bounds of the generated sales and profit amounts: low inclusive, high exclusive. */
  const SalesLow: int := 100
  const SalesHigh: int := 1000
  const ProfitLow: int := 10
  const ProfitHigh: int := 300

  /** The random generator after seeding: the raw value of each successive draw. */
  type Stream = nat -> nat

  /** Why the generator refuses a row count: the script raises for a negative one (first when building the dates). */
  datatype GenerateError = NegativeRowCount

  /** The value of draw number `pos`, made uniform over [low, high) the way `randint(low, high)` is. */
  function Draw(stream: Stream, pos: nat, low: int, high: int): (v: int)
    requires low < high
    ensures low <= v < high
  {
    low + stream(pos) % (high - low)
  }

  /** A record as the generator may produce it. */
  predicate ValidRecord(r: Record)
  {
    && r.category in Categories
    && SalesLow <= r.sales < SalesHigh
    && ProfitLow <= r.profit < ProfitHigh
  }

  /** Dates never decrease along `rs`. */
  predicate DatesAscending(rs: seq<Record>)
  {
    forall i :: 0 < i < |rs| ==> rs[i - 1].date <= rs[i].date
  }

  /**
   * The columns before sorting: record `i` gets date `3 * i`, and its category,
   * sales and profit come from draws `i`, `rows + i` and `2 * rows + i`, because
   * numpy fills the whole Category column first, then Sales, then Profit.
   */
  function Columns(rows: nat, stream: Stream): (rs: seq<Record>)
    ensures |rs| == rows
    ensures forall i :: 0 <= i < rows ==> rs[i].date == DateStep * i && ValidRecord(rs[i])
  {
    seq(rows, i requires 0 <= i < rows => Row(rows, stream, i))
  }

  /** Record `i` of the unsorted columns. */
  function Row(rows: nat, stream: Stream, i: nat): (r: Record)
    ensures r.date == DateStep * i && ValidRecord(r)
  {
    var c := Draw(stream, i, 0, |Categories|);
    Record(DateStep * i, Categories[c], Draw(stream, rows + i, SalesLow, SalesHigh), Draw(stream, 2 * rows + i, ProfitLow, ProfitHigh))
  }

  /** Puts `x` before the first record of `rs` that is not earlier than it. */
  function InsertByDate(x: Record, rs: seq<Record>): (r: seq<Record>)
    ensures multiset(r) == multiset(rs) + multiset{x}
    ensures |r| == |rs| + 1
    ensures r[0] == x || (rs != [] && r[0] == rs[0])
  {
    if rs == [] || x.date <= rs[0].date then
      [x] + rs
    else
      var rest := InsertByDate(x, rs[1..]);
      assert rs == [rs[0]] + rs[1..];
      assert multiset([rs[0]] + rest) == multiset{rs[0]} + multiset(rest);
      [rs[0]] + rest
  }

  /** Inserting into records whose dates never decrease keeps them so. */
  lemma {:induction false} InsertKeepsAscending(x: Record, rs: seq<Record>)
    requires DatesAscending(rs)
    ensures DatesAscending(InsertByDate(x, rs))
  {
    if rs == [] || x.date <= rs[0].date {
      AscendingCons(x, rs);
    } else {
      InsertKeepsAscending(x, rs[1..]);
      AscendingCons(rs[0], InsertByDate(x, rs[1..]));
    }
  }

  /** Putting a record no later than the first in front keeps dates ascending. */
  lemma AscendingCons(x: Record, rs: seq<Record>)
    ensures DatesAscending(rs) && (rs != [] ==> x.date <= rs[0].date) ==> DatesAscending([x] + rs)
  {
  }

  /** `sort_values('Date')`: the records rearranged so that dates never decrease. */
  function SortByDate(rs: seq<Record>): (r: seq<Record>)
    ensures multiset(r) == multiset(rs)
    ensures |r| == |rs|
    ensures DatesAscending(r)
  {
    if rs == [] then
      []
    else
      assert rs == [rs[0]] + rs[1..];
      InsertKeepsAscending(rs[0], SortByDate(rs[1..]));
      InsertByDate(rs[0], SortByDate(rs[1..]))
  }

  /** Sorting records whose dates already never decrease leaves them where they are. */
  lemma {:induction false} SortKeepsAscending(rs: seq<Record>)
    requires DatesAscending(rs)
    ensures SortByDate(rs) == rs
  {
    if rs != [] {
      SortKeepsAscending(rs[1..]);
      assert [rs[0]] + rs[1..] == rs;
    }
  }

  /**
   * `generate_sales_data(rows)`: refused for a negative row count; otherwise `rows`
   * records, record `i` dated `3 * i` days after the start, every one valid, and
   * dates strictly increasing.
   */
  function GenerateSalesData(rows: int, stream: Stream): (r: Result<seq<Record>, GenerateError>)
    ensures r.Failure? <==> rows < 0
    ensures r.Success? ==> |r.value| == rows
    ensures r.Success? ==> forall i :: 0 <= i < rows ==> r.value[i].date == DateStep * i && ValidRecord(r.value[i])
    ensures r.Success? ==> forall i, j :: 0 <= i < j < |r.value| ==> r.value[i].date < r.value[j].date
  {
    if rows < 0 then
      Failure(NegativeRowCount)
    else
      var raw := Columns(rows, stream);
      SortKeepsAscending(raw);
      Success(SortByDate(raw))
  }

  /** The sort is a no-op on generated data: the dataset is the columns in generation order. */
  lemma GeneratedInGenerationOrder(rows: nat, stream: Stream)
    ensures GenerateSalesData(rows, stream) == Success(Columns(rows, stream))
  {
    SortKeepsAscending(Columns(rows, stream));
  }

  /**
   * The dataset depends on nothing but the row count and the first `3 * rows` draws:
   * the same seed, which fixes the draws, always yields the same dataset.
   */
  lemma GenerateDeterministic(rows: int, s1: Stream, s2: Stream)
    requires forall p: nat :: p < 3 * rows ==> s1(p) == s2(p)
    ensures GenerateSalesData(rows, s1) == GenerateSalesData(rows, s2)
  {
    if rows >= 0 {
      GeneratedInGenerationOrder(rows, s1);
      GeneratedInGenerationOrder(rows, s2);
      forall i | 0 <= i < rows ensures Row(rows, s1, i) == Row(rows, s2, i) {
        assert s1(i) == s2(i) && s1(rows + i) == s2(rows + i) && s1(2 * rows + i) == s2(2 * rows + i);
      }
      assert Columns(rows, s1) == Columns(rows, s2);
    }
  }
}
