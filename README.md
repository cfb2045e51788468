# Sales report generator: a Dafny model of its data pipeline

`Lab_12.py` asks for a file name, generates a synthetic sales dataset, builds a
two-chart Bokeh dashboard from it and saves the dashboard as an HTML report. This
project models the three parts of that script that are exact logic rather than
calls into pandas, numpy and Bokeh:

- **the report file name** (`main`): the typed text is stripped of surrounding
  whitespace, refused when nothing is left, and given `.html` unless it already ends
  with it (module `ReportName`, built on the Python string behaviour in `PyStr`);
- **the synthetic dataset** (`generate_sales_data`): `rows` records, one every three
  days from 2023-01-01, with a category from six fixed names, Sales in [100, 1000) and
  Profit in [10, 300), sorted by date (module `SalesData`);
- **the dashboard's data** (`create_dashboard`): the time series binds the whole
  dataset, and the bar chart binds `groupby('Category')['Sales'].sum()`, one row per
  distinct category in ascending order, with the same categories as its x-range
  (module `Dashboard`).

Everything is pure: datatypes, functions and lemmas. Dates are whole days after
2023-01-01. The seeded numpy generator is a `Stream` (a function from draw number to
raw value), so the dataset is a function of the row count and the stream, and the
same seed always gives the same dataset. The order in which numpy uses the stream is
kept: the whole Category column is drawn first, then Sales, then Profit. Exceptions
become `Result` values: an empty name gives `Failure(EmptyFileName)` (the
`ValueError` at line 97), and a negative row count gives `Failure(NegativeRowCount)`
(the exception the script raises for a negative row count, first at line 18).

`groupby` sorts its keys by default (`sort=True`), so the categories come out in
ascending string order, not in first-appearance order, and the x-range at line 62 is
taken from that result. The model orders them ascending, by Python's code-point
comparison (`PyStr.Below`).

## Model

| member | source | states |
|---|---|---|
| `PyStr.IsSpace` | Lab_12.py:94 | `str.isspace` on one character, the set `strip()` removes; the only printable ASCII character in it is the space |
| `PyStr.EndsWith` | Lab_12.py:99 | `str.endswith`: a string that ends with a suffix is its remaining prefix followed by that suffix |
| `PyStr.Below` | Lab_12.py:59 | Python's `<` on `str`, code-point lexicographic with a proper prefix first, which orders the `groupby` keys; a string is never below itself |
| `PyStr.SkipSpaceForward` | Lab_12.py:94 | the scan `strip()` starts with: the first non-whitespace index from a position on, with only whitespace skipped |
| `PyStr.SkipSpaceBackward` | Lab_12.py:94 | the scan `strip()` ends with: the end of the text once trailing whitespace is dropped, with only whitespace dropped |
| `PyStr.Strip` | Lab_12.py:94 | `strip()` is empty exactly when the input is all whitespace, and otherwise neither begins nor ends with whitespace |
| `PyStr.StripIsInfix` | Lab_12.py:94 | `strip()` returns an infix of its input, with only whitespace before and after it |
| `PyStr.StripFixed` | Lab_12.py:94 | a string with no whitespace at either end is left unchanged by `strip()` |
| `PyStr.StripIdempotent` | Lab_12.py:94 | stripping twice is stripping once |
| `PyStr.BelowIrreflexive` | Lab_12.py:59 | no string sorts before itself in the order `groupby` sorts keys by |
| `PyStr.BelowTransitive` | Lab_12.py:59 | that order is transitive |
| `PyStr.BelowTotal` | Lab_12.py:59 | any two different strings are ordered one way or the other |
| `ReportName.NormalizeFileName` | Lab_12.py:94-100 | the name is refused exactly when the input is empty or all whitespace; an accepted name ends with `.html` and starts with the stripped input |
| `ReportName.ExtensionAddedOnlyWhenMissing` | Lab_12.py:94-100 | a stripped name already ending with `.html` is kept as it is; any other gets `.html` appended |
| `ReportName.NormalizeIdempotent` | Lab_12.py:94-100 | normalising an accepted name again gives the same name |
| `ReportName.NormalizeExamples` | Lab_12.py:94-100 | `"report"` gives `"report.html"`, `"report.html"` is unchanged, `"  "` is refused |
| `SalesData.Draw` | Lab_12.py:19-21 | every draw of `randint(low, high)` or `choice` lies in [low, high) |
| `SalesData.Row` | Lab_12.py:18-21 | record `i` is dated `3 * i` days after the start, has a category from the six names, Sales in [100, 1000) and Profit in [10, 300) |
| `SalesData.Columns` | Lab_12.py:17-23 | the unsorted frame has exactly `rows` records, record `i` dated `3 * i` and valid |
| `SalesData.InsertByDate` | Lab_12.py:25 | one insertion step of the sort: the result holds the same records plus the new one |
| `SalesData.InsertKeepsAscending` | Lab_12.py:25 | inserting into records sorted by date keeps them sorted |
| `SalesData.SortByDate` | Lab_12.py:25 | `sort_values('Date')` returns a permutation of the records whose dates never decrease |
| `SalesData.SortKeepsAscending` | Lab_12.py:25 | sorting records already in date order leaves them unchanged |
| `SalesData.GenerateSalesData` | Lab_12.py:9-26 | refused exactly for a negative row count; otherwise `rows` valid records, record `i` dated `3 * i`, dates strictly increasing |
| `SalesData.GeneratedInGenerationOrder` | Lab_12.py:17-25 | the sort is a no-op on the generated data: the dataset is the columns in generation order |
| `SalesData.GenerateDeterministic` | Lab_12.py:14-21 | the dataset depends only on the row count and the first `3 * rows` draws, so a fixed seed fixes it |
| `Dashboard.AddTo` | Lab_12.py:59 | adding one record's Sales to the grouped rows keeps them ascending, adds its category, adds its amount to its category only and to the grand total |
| `Dashboard.GroupSum` | Lab_12.py:59 | the grouped rows are ascending, have exactly the data's categories, give each category the sum of its Sales, and add up to the total Sales |
| `Dashboard.AscendingPairwise` | Lab_12.py:59 | every grouped category sorts before every later one |
| `Dashboard.LookupFindsRow` | Lab_12.py:59 | in ascending rows, a row is the one found for its own category |
| `Dashboard.AscendingDistinct` | Lab_12.py:59 | ascending rows hold no category twice |
| `Dashboard.GroupRows` | Lab_12.py:59 | one grouped row per distinct category, each holding that category's Sales sum |
| `Dashboard.AscendingUnique` | Lab_12.py:59 | ascending rows are determined by their categories and totals |
| `Dashboard.SalesOfPermutation` | Lab_12.py:59 | a category's Sales sum does not depend on the order of the records |
| `Dashboard.GroupSumOrderIndependent` | Lab_12.py:59 | grouping gives the same rows for any rearrangement of the data |
| `Dashboard.GroupSumIgnoresDateSort` | Lab_12.py:25 | the date sort does not change the grouped rows |
| `Dashboard.CategoriesList` | Lab_12.py:62 | `tolist()` gives the grouped categories in row order, one per row |
| `Dashboard.CreateDashboard` | Lab_12.py:59-64 | the series shows every record; one bar per distinct category, at x-range entry `i` with the Sales sum of that category; x-range ascending without repeats; bar heights add up to the total Sales |
| `Dashboard.SingleCategory` | Lab_12.py:59-64 | data with one category gives one grouped row holding the whole Sales sum, and an x-range of that category alone |
| `Dashboard.EmptyDashboard` | Lab_12.py:59-64 | an empty dataset gives a bar chart with no categories and no bars |
| `Dashboard.ValidCategories` | Lab_12.py:15-19 | the categories of generated records all come from the six names |
| `Dashboard.ValidSalesTotal` | Lab_12.py:20 | the Sales of `n` generated records add up to between `100 * n` and `999 * n` |
| `Dashboard.GeneratedDashboard` | Lab_12.py:103-106 | the dashboard of a generated dataset has at most six bars, all at the six names, at least one when there are rows, and a total between `100 * rows` and `999 * rows` |

## Left out

- Bokeh figures and styling: titles, sizes, tooltips and their formatters, the line and scatter glyphs, axis labels, grid and toolbar settings, the `y_range` start and the `column` layout (Lab_12.py:34-56, 60, 64-76). These are calls into a rendering library; only the data each chart binds is modelled.
- `factor_cmap` colouring with the `Bright6` palette (Lab_12.py:69): its mapping lives in the rendering library.
- `save_report`, `output_file` and `save` (Lab_12.py:79-84): file output.
- The console dialogue of `main`: `input`, the `print` messages and the `ValueError`/`OSError`/`Exception` handlers (Lab_12.py:90-121). Only the file-name rule inside it is modelled.
- `np.random.seed(42)` and numpy's generator algorithm (Lab_12.py:14): replaced by the abstract `Stream`, so the concrete values of the seeded dataset are not modelled.
- `Draw`: reduces a raw value into [low, high) by a remainder, where numpy uses masked rejection sampling; which raw values map to which result is therefore not modelled, only the range and the draw order.
- pandas `Timestamp` and `date_range` calendar arithmetic (Lab_12.py:18): dates are whole-day offsets from 2023-01-01.
- The DataFrame index labels kept through `sort_values` and `reset_index`: only the row order and the column values are modelled.
- `SortByDate`: an insertion sort stands for pandas' default quicksort; both give the same result whenever dates are distinct, as in the generated data, but may order records of equal date differently.
- Sums of Sales are unbounded integers; numpy's 64-bit wrap-around cannot occur for the sizes the script uses and is not modelled.
- `main` always calls `generate_sales_data()` with its default of 100 rows; the model covers every row count.
