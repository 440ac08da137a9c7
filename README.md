# Production-cost ABC (Pareto) analysis — a verified model

The application reads monthly production sheets (one sheet per factory, columns A to S) and
aggregates them per product. The dashboard ranks products by production quantity, in an ABC
(Pareto) view with running shares. It also exports the cost table to a spreadsheet with a totals
footer. This project models that pipeline in Dafny and proves what each stage computes.

- **`/api/data` aggregation** (`DataRoute`, file `data_route.dfy`).
  - The factory label is cleaned from the range name. Rows are keyed `factory_code`.
  - Comma-formatted cells are parsed with a 0 fallback.
  - Rows fold into one accumulator per key. Descriptive fields are first-seen-wins, the thirteen figures are summed, rows are counted and dates collected.
  - The response has one row per key, in first-occurrence order, with a `first~last` date range.
  - `Aggregate` is the nested loop over value ranges and rows. It updates the accumulator map in place and is proved equal to a fold over the flattened rows. The properties are lemmas relating that fold to reference per-key counts, sums and date sets.
- **`/api/test-sheet` aggregation** (`TestSheetRoute`). This is the monthly variant.
  - The key is `sheet_month_code`, where the month is the text before `/` of the date.
  - The sheet name is not cleaned. There is no count and no date set.
  - `Number(...)` is not guarded, so one unreadable cell makes the group's figure NaN.
- **Shared layout** (`Sheet`): cell access with `row[i] || default`, the range-name prefix, and the thirteen numeric columns.
- **Numbers** (`JsNumber`):
  - JavaScript `Number` on trimmed decimal integer text (`None` is NaN).
  - `String(n)` of an integer.
  - `+` with NaN.
  - Digit extraction.
- **The ranking** (`Pareto`):
  - The comparator sort `b.q - a.q`, which is stable, as an in-place insertion sort on an `array`. It is proved equal to a stable descending sort function `SortByQ`.
  - That function is proved a permutation, sorted and stable. It is also proved the only stable descending arrangement.
  - The running pass that adds `cumulativeQ` and `cumulativeRatio`.
  - The 80 % core-item test.
- **The page** (`Dashboard`):
  - The filter state, as a class whose fields the handlers update.
  - The `'All'`-sentinel filters, the selection toggles and the header checkbox.
  - The selection popup and its totals.
  - The team and category drop-down options.
- **The export** (`Excel`):
  - Order counts read from text such as "96건 합산".
  - The column totals.
  - The 19-cell header, data rows and footer.

Figures are integers and the cumulative ratio is an exact `real`. `Object.values` lists keys in insertion order. That order is the order of the map's key list here, because every key contains `_` and so none is an array index.

## Model

| member | source | states |
|---|---|---|
| Sheet.SheetName | app/api/data/route.ts:63 | the name is the text before the first `!`, or "Unknown" when the range has no name or that text is empty; it never contains `!` |
| DataRoute.FactoryLabel | app/api/data/route.ts:63-64 | the label contains no quote, double quote, white space or `!` |
| DataRoute.FactoryLabelUnknown | app/api/data/route.ts:63-64 | a range without a name is labelled "Unknown" |
| DataRoute.FactoryLabelOfCleanName | app/api/data/route.ts:63-64 | a sheet name without quotes or white space is kept as is |
| DataRoute.FactoryLabelIdempotent | app/api/data/route.ts:64 | cleaning a label again changes nothing |
| Sheet.CellOr | app/api/data/route.ts:68 | a cell read with a default is the cell when it exists and is non-empty, otherwise the default (so a missing code is "CodeN/A") |
| Sheet.StripCommas | app/api/data/route.ts:75 | the result has no comma |
| Sheet.StripCommasJoin | app/api/data/route.ts:75 | removing the separator of two comma-free pieces joins them |
| JsNumber.ToNumber | app/api/data/route.ts:75 | `Number` gives a value exactly for an empty or decimal-integer text once trimmed, 0 for blank text, NaN otherwise |
| JsNumber.ParseIntToString | app/api/data/route.ts:75 | `Number(String(n))` is `n` |
| JsNumber.ToNumberOfPositive | app/api/data/route.ts:75 | a `+` before the digits keeps their value |
| JsNumber.ToNumberPadded | app/api/data/route.ts:75 | white space around the text is ignored, as `Number` trims first |
| DataRoute.ParseNumCases | app/api/data/route.ts:72-77 | an empty cell gives 0; a numeral gives its value; anything else gives 0 instead of NaN |
| DataRoute.ParseNumOfNumeral | app/api/data/route.ts:72-77 | a cell holding the decimal text of `n` parses to `n` |
| DataRoute.ParseNumThousands | app/api/data/route.ts:75 | a digits-comma-digits cell parses as the digits without the comma |
| DataRoute.RowAmounts | app/api/data/route.ts:92-104 | each figure is `parseNum` of its own column |
| Sheet.Column | app/api/data/route.ts:92-104 | quantities are read from column C and costs from H to S |
| Sheet.ColumnsDistinct | app/api/data/route.ts:92-104 | no two figures share a column, and none reads a code, name, date, order, team or category column |
| DataRoute.Tag | app/api/data/route.ts:61-67 | every row of a range is read under that range's cleaned label |
| DataRoute.FlattenParsed | app/api/data/route.ts:61-77 | every visited row carries the figures parsed from its own cells |
| DataRoute.KeyCollision | app/api/data/route.ts:68-69 | the keys of ("K1_A", "B") and ("K1", "A_B") coincide |
| DataRoute.CollidingRowsMerge | app/api/data/route.ts:68-124 | those two rows merge into one product with the first row's factory and code, count 2 and summed figures |
| DataRoute.Aggregate | app/api/data/route.ts:58-141 | the loop over ranges computes the finalised fold of all rows in visiting order |
| DataRoute.AddRange | app/api/data/route.ts:66-126 | the inner loop extends the table by every row of one range, in order |
| DataRoute.Insert | app/api/data/route.ts:79-124 | one row opens its key's accumulator or absorbs into it |
| DataRoute.Finalise | app/api/data/route.ts:131-141 | one response row per listed key, in list order, each the accumulator with its dates rendered |
| DataRoute.CountMatches | app/api/data/route.ts:79-109 | a key has an accumulator exactly when some row carries it, and its `orderCount` is the number of such rows |
| DataRoute.SumMatches | app/api/data/route.ts:92-123 | every figure of a key is the sum of that figure over its rows |
| DataRoute.FirstSeenWins | app/api/data/route.ts:79-105 | the first row of a key fixes factory, code, name, team and category for good |
| DataRoute.DatesCollected | app/api/data/route.ts:89-108 | the date set holds the first row's date, even an empty one, and every non-empty date of the key's rows, once each |
| DataRoute.DateRangeExtremes | app/api/data/route.ts:133-136 | "-" for no date, the date itself for one, otherwise least `~` greatest |
| DataRoute.EmptyFirstDateShows | app/api/data/route.ts:133-136 | an empty first date followed by "1/5" renders as "~1/5" |
| DataRoute.TableInvariant | app/api/data/route.ts:58-128 | the listed keys are exactly the accumulator keys, and each accumulator sits under its own factory and code |
| DataRoute.OrderIsFirstOccurrence | app/api/data/route.ts:131 | the keys are the distinct row keys in order of first occurrence |
| DataRoute.ResponseRows | app/api/data/route.ts:131-141 | row i is the i-th distinct key; its count is its number of rows (at least 1) and each figure is the sum over them |
| DataRoute.ResponseKeysUnique | app/api/data/route.ts:131-141 | no two response rows share a key, and every input key has a row |
| Text.SortStrings | app/api/data/route.ts:133 | `sort()` returns a sorted permutation of its input |
| TestSheetRoute.MonthOf | app/api/test-sheet/route.ts:73-77 | the month label is non-empty and has no `/` |
| TestSheetRoute.MonthOfCases | app/api/test-sheet/route.ts:73-77 | with a `/` the label is the text before it plus "월", otherwise "미상"; "1/2" gives "1월" |
| TestSheetRoute.ParseNum | app/api/test-sheet/route.ts:85 | the figure is NaN exactly when the comma-stripped cell is not a numeral; an empty or missing cell gives 0 |
| TestSheetRoute.ParseNumLikeDataRoute | app/api/test-sheet/route.ts:85 | the all-time route reads every cell the same way except that it maps NaN to 0 |
| JsNumber.Add | app/api/test-sheet/route.ts:117-129 | `+=` is NaN exactly when either side is NaN, and otherwise the sum |
| TestSheetRoute.RowAmounts | app/api/test-sheet/route.ts:100-112 | each figure is `parseNum` of its own column |
| TestSheetRoute.Tag | app/api/test-sheet/route.ts:68 | every row of a range is read under the uncleaned sheet name |
| TestSheetRoute.FlattenParsed | app/api/test-sheet/route.ts:71-85 | every visited row carries the month and figures computed from its own cells |
| TestSheetRoute.KeySeparatesMonths | app/api/test-sheet/route.ts:82 | rows of one sheet and one product share a group exactly when their months agree |
| TestSheetRoute.Aggregate | app/api/test-sheet/route.ts:63-137 | the loop over ranges computes the finalised fold of all rows in visiting order |
| TestSheetRoute.AddRange | app/api/test-sheet/route.ts:70-132 | the inner loop extends the table by every row of one range, in order |
| TestSheetRoute.Insert | app/api/test-sheet/route.ts:88-130 | one row opens its group or adds its figures to it |
| TestSheetRoute.Finalise | app/api/test-sheet/route.ts:137 | one response row per listed key, in list order |
| TestSheetRoute.KeyPresent | app/api/test-sheet/route.ts:88-113 | a group exists exactly when some row carries its key |
| TestSheetRoute.FirstSeenWins | app/api/test-sheet/route.ts:88-113 | the first row of a group fixes sheet, month, code, name, team and category |
| TestSheetRoute.SumMatches | app/api/test-sheet/route.ts:114-130 | each figure of a group is the running JavaScript sum over its rows |
| TestSheetRoute.NaNPoisons | app/api/test-sheet/route.ts:114-130 | a group's figure is NaN exactly when one of its rows has an unreadable cell |
| TestSheetRoute.FiniteSumMatches | app/api/test-sheet/route.ts:114-130 | without an unreadable cell the figure is the integer sum over the group's rows |
| TestSheetRoute.OrderIsFirstOccurrence | app/api/test-sheet/route.ts:137 | groups are listed in order of first occurrence, each once |
| TestSheetRoute.TableInvariant | app/api/test-sheet/route.ts:62-131 | the listed keys are exactly the group keys, and each group sits under its own sheet, month and code |
| TestSheetRoute.ResponseRows | app/api/test-sheet/route.ts:137 | row i has the i-th distinct key, and each of its figures is the running sum over that key's rows |
| TestSheetRoute.ResponseKeysUnique | app/api/test-sheet/route.ts:137 | no two response rows share a key, and every input key has a row |
| Dashboard.StageIsFilter | app/page.tsx:95-97 | one filter stage is the identity for "All" and an equality filter otherwise |
| Dashboard.FilterRowsIsConjunction | app/page.tsx:94-97 | the three stages keep, in input order, exactly the rows matching every non-"All" filter |
| Dashboard.NoFilterKeepsAll | app/page.tsx:94-97 | with every filter at "All" nothing is removed |
| Pareto.SortByQPermutes | app/page.tsx:99 | the sort keeps the length and the multiset of rows |
| Pareto.SortByQSorts | app/page.tsx:99 | the sort orders rows by quantity, largest first |
| Pareto.SortByQStable | app/page.tsx:99 | rows of equal quantity keep their input order |
| Pareto.StableSortIsSortByQ | app/page.tsx:99 | any descending arrangement that keeps equal quantities in input order is the sort's result |
| Pareto.SortByQInPlace | app/page.tsx:99 | sorting the array in place leaves it holding the stable descending sort of its old contents |
| Pareto.SortPreservesSums | app/page.tsx:99-101 | sorting changes no column sum, so `totalQ` is the sum of the unsorted rows |
| Pareto.Cumulate | app/page.tsx:101-111 | each output row is its input row with the prefix sum of quantities and its percentage of the total (0 when the total is 0) |
| Pareto.RatiosBoundedAndMonotone | app/page.tsx:101-111 | with non-negative quantities the shares lie in [0, 100] and never decrease |
| Pareto.LastIsTotal | app/page.tsx:101-111 | the last running quantity is the total, and its share is exactly 100 when the total is non-zero |
| Pareto.ZeroTotalZeroRatios | app/page.tsx:109 | a zero total makes every share 0 |
| Pareto.CoreItemsArePrefix | app/page.tsx:276 | with non-negative quantities the core items (share at most 80) form a prefix of the ranking |
| Dashboard.Toggled | app/page.tsx:73-78 | toggling flips the code's membership and no other code's |
| Dashboard.ToggledTwice | app/page.tsx:73-78 | toggling the same code twice restores the selection |
| Dashboard.ToggledAllEffect | app/page.tsx:80-90 | select-all removes every listed code from a fully selected list, otherwise selects them all, and leaves other codes alone |
| Dashboard.HeaderCheckboxFlips | app/page.tsx:246 | clicking the header checkbox of a non-empty list flips its checked state |
| Dashboard.Page.constructor | app/page.tsx:35-43 | the loaded state has every filter at "All", nothing selected and the popup closed |
| Dashboard.Page.HandleFactoryChange | app/page.tsx:66-71 | choosing a factory resets team and category to "All" and empties the selection |
| Dashboard.Page.ToggleSelect | app/page.tsx:73-78 | the selection becomes the toggled set, and nothing else changes |
| Dashboard.Page.ToggleSelectAll | app/page.tsx:80-90 | the loops over the list leave the selection as the select-all result, and nothing else changes |
| Dashboard.Page.ProcessedData | app/page.tsx:93-112 | the view is the filtered rows, stably sorted and cumulated; with no filter the page's own rows end up sorted in place, otherwise they are untouched |
| Dashboard.Page.ModalData | app/page.tsx:115-140 | closed: no rows and no totals; open: the rows whose code is selected (any factory), sorted and cumulated, with the totals the reduce as written gives (`ModalTotals`: Q total 0, the three cost totals summed) |
| Dashboard.ModalTotalsAsWritten | app/page.tsx:132-137 | as written the Q total is always 0, while the three cost totals are column sums |
| Dashboard.IntendedModalTotalsSums | app/page.tsx:132-137 | the corrected totals are the four column sums and differ from the written ones only in Q |
| Dashboard.ModalQTotalLost | app/page.tsx:133 | one selected product of quantity 5 totals Q 0 as written and 5 as intended |
| Dashboard.IntendedQIsLastCumulative | app/page.tsx:120-137 | the corrected Q total equals the last running quantity of the popup ranking |
| Text.SortStringsStrict | app/page.tsx:191 | sorting distinct strings gives a strictly ascending list |
| Dashboard.OptionsAscend | app/page.tsx:191-192 | the options start with "All" and then ascend strictly, so no value after "All" is listed twice |
| Dashboard.OptionsDistinct | app/page.tsx:191-192 | the options have no repeated entry exactly when no value is named "All"; a value "All" appears twice, once as the sentinel |
| Dashboard.OptionsMembers | app/page.tsx:191-192 | after "All" the options are exactly the non-empty values |
| Dashboard.TeamOptionsAscend | app/page.tsx:189-193 | the team options start with "All" and then ascend strictly |
| Dashboard.TeamOptionsMembers | app/page.tsx:189-193 | after "All" they are exactly the non-empty teams of rows in the chosen factory |
| Dashboard.CategoryOptionsAscend | app/page.tsx:195-200 | the category options start with "All" and then ascend strictly |
| Dashboard.CategoryOptionsMembers | app/page.tsx:195-200 | after "All" they are exactly the non-empty categories of rows in the chosen factory and team |
| Excel.OrderDigits | lib/excel.ts:11 | the extracted order-count text consists of digits only |
| Excel.OrderCountIsNumber | lib/excel.ts:11 | `Number` of the extracted digits is never NaN (0 when there are none) |
| Excel.DigitsThenText | lib/excel.ts:11 | digits followed by digit-free text extract to exactly those digits |
| Excel.OrderCountOfText | lib/excel.ts:10-11 | "96건 합산" counts 96 |
| Excel.OrderCountWithoutDigits | lib/excel.ts:11 | a text without digits counts 0 |
| Excel.OrderCountOfNumber | lib/excel.ts:11 | a numeric order count counts as its magnitude, because the minus sign is removed with the other non-digits |
| Excel.AccumulateAdds | lib/excel.ts:13-28 | each reduce step adds the current product's figure to every running total |
| Excel.TotalIsColumnSum | lib/excel.ts:8-35 | every total is the column sum of its figure (order counts as extracted), and an empty table totals 0 |
| Excel.MeasureColumn | lib/excel.ts:46-66 | figures sit in column 4 or 5, or in 8 to 19 (1-based) |
| Excel.DataRowLayout | lib/excel.ts:46-66 | a data row has 19 cells: rank `index + 1`, code, name, team and category in place, and the order digits followed by "회" |
| Excel.DataRowFigure | lib/excel.ts:46-66 | every other figure sits in its own column |
| Excel.FooterLayout | lib/excel.ts:70-90 | the footer has 19 cells: "" at 1, 2, 6 and 7, "TOTAL" at 3, and the order total followed by "회" at 5 |
| Excel.FooterFigure | lib/excel.ts:70-90 | every other total sits in its figure's column |
| Excel.FooterSumsItsColumn | lib/excel.ts:70-90 | each numeric footer cell is the sum of the cells above it in the data rows |
| Excel.MatrixShape | lib/excel.ts:93 | the sheet is the header line, one line per product, then the footer |
| Excel.MatrixLine | lib/excel.ts:93 | line i + 1 is the data row of product i |
| Excel.MatrixWidth | lib/excel.ts:39-90 | every line of the sheet is 19 cells wide, as wide as the header |

## Left out

- Google Sheets access, credentials, environment checks and the JSON responses are left out, because they are network I/O. The routes take the list of value ranges (an optional range name and rows of cell strings) as input.
- React hooks, `fetch`, JSX and `useMemo` caching are left out, as browser UI. `ProcessedData` and `ModalData` are recomputed on each call.
- The rank column of the page table (`index + 1` in the JSX) is rendering and is left out with it; the exported rank is stated by `Excel.DataRowLayout`.
  - The team and category drop-downs and the popup button set the `Page` fields directly from JSX. No handler functions exist for them, so they are plain field writes here.
- The CSV download on the page, `safeNumber` and locale formatting are left out: they format floats and write through the DOM.
- `components/CostAnalysisTable.tsx` is not part of this model. It is widget configuration whose footer repeats the export totals.
- The XLSX library calls, the column widths and the date-stamped file name are left out as foreign calls and the clock. `Excel.Matrix` is the array handed to the writer.
- IEEE-754 floats are not modelled: figures are unbounded integers and the ratio is an exact `real`.
  - Rounding, overflow beyond 2^53 and `toFixed` are not modelled.
- Pareto.Cumulate: states the exact share `cumulative / total * 100`, not its floating-point value, because floats are not modelled.
- The `Number` grammar is covered only for decimal integers, with an optional sign, after JavaScript white space is trimmed.
  - Fractions, exponents, hexadecimal and `Infinity` are read as NaN here. The `/api/data` route then gives 0 and the monthly route gives NaN, whereas JavaScript would give a number.
- DataRoute.ParseNumCases: does not cover the JavaScript value of a fractional or exponent cell, because only the integer grammar is modelled.
- TestSheetRoute.ParseNum: reads a fractional or exponent cell as NaN, for the same reason.
- String order compares characters (code points); `sort()` compares UTF-16 code units. The two agree outside surrogate pairs.
- Excel.OrderCountValue: a numeric `order_count` is an integer. For a fractional number, `String(3.5)` gives "35" after digit extraction, and that case is not modelled.
- The `id` field of an exported product is carried but unused, as in the export itself.
- NaN inside the page's sort comparator cannot arise. The rows come from `/api/data`, whose figures are never NaN.
- Where the description and the code disagree (whether an empty first date enters the date set), the model follows the code: it is added (`DataRoute.DatesCollected`, `DataRoute.EmptyFirstDateShows`).

## Findings

| source | as written | input that shows it | evidently intended | confidence | as-written member | corrected member |
|---|---|---|---|---|---|---|
| app/page.tsx:132-137 | the popup totals reduce carries `q: acc.q`, so the Q total stays at its initial 0 | one selected product with q = 5: the Q total is 0 | `q: acc.q + curr.q`, so the Q total is the sum of the selected quantities, as for the three cost totals | high, not executed | Dashboard.ModalQTotalLost | Dashboard.IntendedModalTotalsSums |

`Dashboard.ModalTotals` is the reduce as written and `Dashboard.ModalTotalsAsWritten` proves its Q total is always 0. `Dashboard.IntendedModalTotals` is the corrected reduce, and `Dashboard.IntendedModalTotalsSums` proves it gives the four column sums. `Dashboard.Page.ModalData` returns the totals as written, so that its contract matches the page; the corrected totals differ from them only in Q.
