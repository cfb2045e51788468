/**
 * The data side of the dashboard: the time-series chart binds the whole dataset,
 * and the bar chart binds the dataset grouped by category with Sales summed per
 * group (`groupby('Category')['Sales'].sum()`), its x-range being the grouped
 * categories in the order pandas returns them, which is ascending.
 */
module Dashboard {
  import opened PyStr
  import opened SalesData

  /** One row of the grouped frame: a category and the sum of its Sales. */
  datatype CategoryTotal = CategoryTotal(category: string, sales: int)

  /** Sum of Sales over all records. */
  function TotalSales(rs: seq<Record>): int
  {
    if rs == [] then 0 else rs[0].sales + TotalSales(rs[1..])
  }

  /** Sum of Sales over the records of category `c`. */
  function SalesOf(rs: seq<Record>, c: string): int
  {
    if rs == [] then 0 else (if rs[0].category == c then rs[0].sales else 0) + SalesOf(rs[1..], c)
  }

  /** The distinct categories occurring in `rs`. */
  function CategorySet(rs: seq<Record>): set<string>
  {
    if rs == [] then {} else {rs[0].category} + CategorySet(rs[1..])
  }

  /** The categories of the grouped rows, as a set. */
  function KeySet(g: seq<CategoryTotal>): set<string>
  {
    if g == [] then {} else {g[0].category} + KeySet(g[1..])
  }

  /** Sum of the grouped totals. */
  function Total(g: seq<CategoryTotal>): int
  {
    if g == [] then 0 else g[0].sales + Total(g[1..])
  }

  /** The total the grouped rows give category `c` (0 when it has no row). */
  function Lookup(g: seq<CategoryTotal>, c: string): int
  {
    if g == [] then 0 else if g[0].category == c then g[0].sales else Lookup(g[1..], c)
  }

  /** Each row's category is below the category of every later row. */
  predicate Ascending(g: seq<CategoryTotal>)
  {
    g != [] ==> (forall c :: c in KeySet(g[1..]) ==> Below(g[0].category, c)) && Ascending(g[1..])
  }

  /** A category without a row has total 0. */
  lemma {:induction false} LookupAbsent(g: seq<CategoryTotal>, c: string)
    requires c !in KeySet(g)
    ensures Lookup(g, c) == 0
  {
    if g != [] {
      LookupAbsent(g[1..], c);
    }
  }

  /**
   * Adds `amount` to the row of category `c`, inserting a new row in its place in
   * the order when `c` has none; the rows stay ascending.
   */
  function AddTo(g: seq<CategoryTotal>, c: string, amount: int): (r: seq<CategoryTotal>)
    requires Ascending(g)
    ensures Ascending(r)
    ensures KeySet(r) == KeySet(g) + {c}
    ensures forall k :: Lookup(r, k) == Lookup(g, k) + (if k == c then amount else 0)
    ensures Total(r) == Total(g) + amount
  {
    if g == [] then
      [CategoryTotal(c, amount)]
    else if g[0].category == c then
      [CategoryTotal(c, g[0].sales + amount)] + g[1..]
    else if Below(c, g[0].category) then
      var r := [CategoryTotal(c, amount)] + g;
      assert forall k :: k in KeySet(g) ==> Below(c, k) by {
        forall k | k in KeySet(g) ensures Below(c, k) {
          if k != g[0].category {
            BelowTransitive(c, g[0].category, k);
          }
        }
      }
      assert c !in KeySet(g) by {
        BelowIrreflexive(c);
      }
      LookupAbsent(g, c);
      assert r[1..] == g;
      r
    else
      var rest := AddTo(g[1..], c, amount);
      BelowTotal(c, g[0].category);
      var r := [g[0]] + rest;
      assert r[1..] == rest;
      r
  }

  /**
   * `groupby('Category')['Sales'].sum()`: one row per distinct category of `rs`, in
   * ascending order, each holding the sum of Sales over that category's records;
   * the totals add up to the Sales of the whole dataset.
   */
  function GroupSum(rs: seq<Record>): (g: seq<CategoryTotal>)
    ensures Ascending(g)
    ensures KeySet(g) == CategorySet(rs)
    ensures forall c :: Lookup(g, c) == SalesOf(rs, c)
    ensures Total(g) == TotalSales(rs)
  {
    if rs == [] then [] else AddTo(GroupSum(rs[1..]), rs[0].category, rs[0].sales)
  }

  /** The category of every row is among the grouped categories. */
  lemma {:induction false} KeySetHasRow(g: seq<CategoryTotal>, i: nat)
    requires i < |g|
    ensures g[i].category in KeySet(g)
  {
    if i > 0 {
      KeySetHasRow(g[1..], i - 1);
    }
  }

  /** In ascending rows, every earlier category is below every later one. */
  lemma {:induction false} AscendingPairwise(g: seq<CategoryTotal>, i: nat, j: nat)
    requires Ascending(g) && i < j < |g|
    ensures Below(g[i].category, g[j].category)
  {
    if i == 0 {
      KeySetHasRow(g[1..], j - 1);
    } else {
      AscendingPairwise(g[1..], i - 1, j - 1);
    }
  }

  /** In ascending rows, looking a row's category up finds that row. */
  lemma {:induction false} LookupFindsRow(g: seq<CategoryTotal>, i: nat)
    requires Ascending(g) && i < |g|
    ensures Lookup(g, g[i].category) == g[i].sales
  {
    if i > 0 {
      AscendingPairwise(g, 0, i);
      BelowIrreflexive(g[0].category);
      LookupFindsRow(g[1..], i - 1);
    }
  }

  /** Ascending rows have no category twice: there are as many rows as categories. */
  lemma {:induction false} AscendingDistinct(g: seq<CategoryTotal>)
    requires Ascending(g)
    ensures |KeySet(g)| == |g|
  {
    if g != [] {
      AscendingDistinct(g[1..]);
      BelowIrreflexive(g[0].category);
      assert g[0].category !in KeySet(g[1..]);
    }
  }

  /**
   * Every grouped row holds the sum of Sales over exactly the records of its category,
   * and there is one row per distinct category of the data.
   */
  lemma GroupRows(rs: seq<Record>)
    ensures |GroupSum(rs)| == |CategorySet(rs)|
    ensures forall i :: 0 <= i < |GroupSum(rs)| ==> GroupSum(rs)[i].sales == SalesOf(rs, GroupSum(rs)[i].category)
  {
    var g := GroupSum(rs);
    AscendingDistinct(g);
    forall i | 0 <= i < |g| ensures g[i].sales == SalesOf(rs, g[i].category) {
      LookupFindsRow(g, i);
    }
  }

  /**
   * Ascending rows are determined by their categories and totals: two tables that agree
   * on both are the same table.
   */
  lemma {:induction false} AscendingUnique(g1: seq<CategoryTotal>, g2: seq<CategoryTotal>)
    requires Ascending(g1) && Ascending(g2)
    requires KeySet(g1) == KeySet(g2)
    requires forall c :: Lookup(g1, c) == Lookup(g2, c)
    ensures g1 == g2
  {
    if g1 != [] && g2 != [] {
      var a, b := g1[0].category, g2[0].category;
      if a != b {
        assert b in KeySet(g1[1..]) && a in KeySet(g2[1..]);
        BelowTransitive(a, b, a);
        BelowIrreflexive(a);
        assert false;
      }
      BelowIrreflexive(a);
      assert a !in KeySet(g1[1..]) && a !in KeySet(g2[1..]);
      LookupAbsent(g1[1..], a);
      LookupAbsent(g2[1..], a);
      assert KeySet(g1[1..]) == KeySet(g1) - {a};
      assert KeySet(g2[1..]) == KeySet(g2) - {a};
      forall c ensures Lookup(g1[1..], c) == Lookup(g2[1..], c) {
        if c != a {
          assert Lookup(g1, c) == Lookup(g1[1..], c);
          assert Lookup(g2, c) == Lookup(g2[1..], c);
        }
      }
      AscendingUnique(g1[1..], g2[1..]);
      assert Lookup(g1, a) == Lookup(g2, a);
      assert g1 == [g1[0]] + g1[1..] && g2 == [g2[0]] + g2[1..];
    }
  }

  /** Per-category sums add up over concatenated data. */
  lemma {:induction false} SalesOfConcat(a: seq<Record>, b: seq<Record>, c: string)
    ensures SalesOf(a + b, c) == SalesOf(a, c) + SalesOf(b, c)
  {
    if a == [] {
      assert a + b == b;
    } else {
      assert (a + b)[1..] == a[1..] + b;
      SalesOfConcat(a[1..], b, c);
    }
  }

  /** Taking record `i` out of `b` takes its share out of the per-category sums. */
  lemma SalesOfRemove(b: seq<Record>, i: nat, c: string)
    requires i < |b|
    ensures multiset(b[..i] + b[i + 1..]) == multiset(b) - multiset{b[i]}
    ensures SalesOf(b, c) == SalesOf(b[..i] + b[i + 1..], c) + (if b[i].category == c then b[i].sales else 0)
  {
    assert b == b[..i] + [b[i]] + b[i + 1..];
    assert multiset(b) == multiset(b[..i]) + multiset{b[i]} + multiset(b[i + 1..]);
    SalesOfConcat(b[..i] + [b[i]], b[i + 1..], c);
    SalesOfConcat(b[..i], [b[i]], c);
    SalesOfConcat(b[..i], b[i + 1..], c);
  }

  /** The per-category sums do not depend on the order of the records. */
  lemma {:induction false} SalesOfPermutation(a: seq<Record>, b: seq<Record>, c: string)
    requires multiset(a) == multiset(b)
    ensures SalesOf(a, c) == SalesOf(b, c)
  {
    if a != [] {
      assert a[0] in multiset(b);
      var i :| 0 <= i < |b| && b[i] == a[0];
      SalesOfRemove(b, i, c);
      assert a == [a[0]] + a[1..];
      assert multiset(a[1..]) == multiset(a) - multiset{a[0]};
      SalesOfPermutation(a[1..], b[..i] + b[i + 1..], c);
    }
  }

  /** The categories occurring in `rs` are those of its elements. */
  lemma {:induction false} CategorySetOfElements(rs: seq<Record>)
    ensures CategorySet(rs) == set r | r in rs :: r.category
  {
    if rs != [] {
      CategorySetOfElements(rs[1..]);
      assert forall r :: r in rs <==> r == rs[0] || r in rs[1..];
    }
  }

  /**
   * Grouping does not depend on the order of the records: any rearrangement of the
   * data, such as the sort by date, gives the same grouped rows.
   */
  lemma GroupSumOrderIndependent(a: seq<Record>, b: seq<Record>)
    requires multiset(a) == multiset(b)
    ensures GroupSum(a) == GroupSum(b)
  {
    CategorySetOfElements(a);
    CategorySetOfElements(b);
    assert forall r :: r in a <==> r in b by {
      forall r ensures r in a <==> r in b {
        assert r in a <==> r in multiset(a);
        assert r in b <==> r in multiset(b);
      }
    }
    forall c ensures SalesOf(a, c) == SalesOf(b, c) {
      SalesOfPermutation(a, b, c);
    }
    AscendingUnique(GroupSum(a), GroupSum(b));
  }

  /** Sorting the dataset by date does not change what the bar chart shows. */
  lemma GroupSumIgnoresDateSort(rs: seq<Record>)
    ensures GroupSum(SortByDate(rs)) == GroupSum(rs)
  {
    GroupSumOrderIndependent(SortByDate(rs), rs);
  }

  /** `df_grouped['Category'].tolist()`: the grouped categories, in row order. */
  function CategoriesList(g: seq<CategoryTotal>): (xs: seq<string>)
    ensures |xs| == |g|
    ensures forall i :: 0 <= i < |g| ==> xs[i] == g[i].category
    ensures forall c :: c in xs <==> c in KeySet(g)
  {
    if g == [] then [] else [g[0].category] + CategoriesList(g[1..])
  }

  /** The bar chart: its categorical x-range and the grouped rows it draws one bar each for. */
  datatype BarChart = BarChart(xRange: seq<string>, bars: seq<CategoryTotal>)

  /**
   * The two charts stacked in a column: the time series binds the whole dataset
   * (Date on x, Sales on y), the bar chart the grouped rows.
   */
  datatype Layout = Layout(series: seq<Record>, bar: BarChart)

  /**
   * `create_dashboard(df)`, data bindings only. The series shows every record; the bar
   * chart has one bar per distinct category, bar `i` at category `xRange[i]` with height
   * the sum of Sales over that category; the x-range lists each category once, in
   * ascending order; the bar heights add up to the dataset's Sales.
   */
  function CreateDashboard(df: seq<Record>): (d: Layout)
    ensures d.series == df
    ensures |d.bar.xRange| == |d.bar.bars| == |CategorySet(df)|
    ensures forall c :: c in d.bar.xRange <==> c in CategorySet(df)
    ensures forall i, j :: 0 <= i < j < |d.bar.xRange| ==> Below(d.bar.xRange[i], d.bar.xRange[j])
    ensures forall i :: 0 <= i < |d.bar.bars| ==>
      d.bar.bars[i].category == d.bar.xRange[i] && d.bar.bars[i].sales == SalesOf(df, d.bar.xRange[i])
    ensures Total(d.bar.bars) == TotalSales(df)
  {
    var grouped := GroupSum(df);
    var categories := CategoriesList(grouped);
    GroupRows(df);
    forall i, j | 0 <= i < j < |categories| ensures Below(categories[i], categories[j]) {
      AscendingPairwise(grouped, i, j);
    }
    Layout(df, BarChart(categories, grouped))
  }

  /** With one category, it is the only one and its sum is the whole Sales sum. */
  lemma {:induction false} SingleCategorySums(rs: seq<Record>, c: string)
    requires rs != []
    requires forall i :: 0 <= i < |rs| ==> rs[i].category == c
    ensures CategorySet(rs) == {c}
    ensures SalesOf(rs, c) == TotalSales(rs)
  {
    if |rs| > 1 {
      SingleCategorySums(rs[1..], c);
    }
  }

  /**
   * Data with a single category gives a single bar, at that category, whose height
   * is the Sales of the whole dataset.
   */
  lemma SingleCategory(rs: seq<Record>, c: string)
    requires rs != []
    requires forall i :: 0 <= i < |rs| ==> rs[i].category == c
    ensures |GroupSum(rs)| == 1 && GroupSum(rs)[0] == CategoryTotal(c, TotalSales(rs))
    ensures CreateDashboard(rs).bar.xRange == [c]
  {
    SingleCategorySums(rs, c);
    var g := GroupSum(rs);
    GroupRows(rs);
    assert g[0].category in KeySet(g);
  }

  /** An empty dataset gives a bar chart with no categories and no bars. */
  lemma EmptyDashboard()
    ensures CreateDashboard([]).bar == BarChart([], [])
  {
  }

  /** A sequence has no more distinct values than elements. */
  lemma {:induction false} DistinctValuesBound(xs: seq<string>)
    ensures |set x | x in xs| <= |xs|
  {
    if xs != [] {
      DistinctValuesBound(xs[1..]);
      assert (set x | x in xs) == {xs[0]} + (set x | x in xs[1..]);
    }
  }

  /** Valid records only have categories from the fixed list. */
  lemma {:induction false} ValidCategories(rs: seq<Record>)
    requires forall i :: 0 <= i < |rs| ==> ValidRecord(rs[i])
    ensures CategorySet(rs) <= set x | x in Categories
  {
    if rs != [] {
      ValidCategories(rs[1..]);
    }
  }

  /** Valid records have Sales totalling between 100 and 999 per record. */
  lemma {:induction false} ValidSalesTotal(rs: seq<Record>)
    requires forall i :: 0 <= i < |rs| ==> ValidRecord(rs[i])
    ensures SalesLow * |rs| <= TotalSales(rs) <= (SalesHigh - 1) * |rs|
  {
    if rs != [] {
      ValidSalesTotal(rs[1..]);
    }
  }

  /**
   * The dashboard of a generated dataset: at most six bars, all at categories of the
   * fixed list, at least one bar when there is at least one row, and a Sales total
   * between 100 and 999 per row.
   */
  lemma GeneratedDashboard(rows: nat, stream: Stream)
    ensures var df := GenerateSalesData(rows, stream).value;
      var d := CreateDashboard(df);
      && (forall c :: c in d.bar.xRange ==> c in Categories)
      && |d.bar.xRange| <= |Categories|
      && (rows > 0 ==> |d.bar.xRange| > 0)
      && SalesLow * rows <= Total(d.bar.bars) <= (SalesHigh - 1) * rows
  {
    var df := GenerateSalesData(rows, stream).value;
    ValidCategories(df);
    ValidSalesTotal(df);
    DistinctValuesBound(Categories);
    var allowed := set x | x in Categories;
    assert allowed == CategorySet(df) + (allowed - CategorySet(df));
    assert |CategorySet(df)| <= |allowed|;
    if rows > 0 {
      assert df[0].category in CategorySet(df);
    }
  }
}
