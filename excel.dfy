/** The spreadsheet export of the cost-analysis table: the column totals of the exported rows,
    and the cell matrix handed to the sheet writer (a 19-column header, one line per product,
    and a footer of totals aligned under the columns they sum). */
module Excel {

  import opened Base
  import opened Text
  import opened JsNumber

  /** A field typed `string | number`. */
  datatype Scalar = Str(s: string) | Int(n: int)

  /** JavaScript `String(v)`. */
  function JsString(v: Scalar): string {
    match v
    case Str(s) => s
    case Int(n) => IntToString(n)
  }

  /** One product of the cost table, as the export receives it. */
  datatype CostData = CostData(
    id: Scalar, productCode: string, productName: string, productionQ: int,
    orderCount: Scalar, team: string, category: string,
    rawMaterial: int, subMaterial: int, packaging: int, consumable: int, materialTotal: int,
    depreciation: int, directLabor: int, indirectLabor: int, utility: int, otherExpense: int,
    processingTotal: int, totalCost: int)

  /** `String(order_count).replace(/[^0-9]/g, "")`: the digits of the order count, in order. */
  function OrderDigits(v: Scalar): (r: string)
    ensures AllDigits(r)
  {
    KeepDigits(JsString(v))
  }

  /** The count `Number(...)` reads from those digits (0 when there are none). */
  function OrderCountValue(v: Scalar): nat {
    DigitsValue(OrderDigits(v))
  }

  /** `Number` of the digits is never NaN and is exactly that count. */
  lemma OrderCountIsNumber(v: Scalar)
    ensures ToNumber(OrderDigits(v)) == Some(OrderCountValue(v))
  {
    DigitsAreNumber(OrderDigits(v));
  }

  /** `Number` of a string of digits, or of the empty string, is its value. */
  lemma DigitsAreNumber(d: string)
    requires AllDigits(d)
    ensures ToNumber(d) == Some(DigitsValue(d))
  {
    if d != "" {
      ToNumberOfDigits(d);
    }
  }

  /** A text order count such as "96건 합산" counts its digits: 96. */
  lemma OrderCountOfText()
    ensures OrderCountValue(Str("96건 합산")) == 96
  {
    KeptDigitsOfText();
    ValueOfNinetySix();
  }

  lemma KeptDigitsOfText()
    ensures KeepDigits("96건 합산") == "96"
  {
    var digits, rest := "96", "건 합산";
    assert "96건 합산" == digits + rest;
    DigitsThenText(digits, rest);
  }

  /** Digits followed by text without digits keep exactly the digits. */
  lemma DigitsThenText(digits: string, rest: string)
    requires AllDigits(digits)
    requires forall i :: 0 <= i < |rest| ==> !IsDigit(rest[i])
    ensures KeepDigits(digits + rest) == digits
  {
    KeepAppend(digits, rest, IsDigit);
    KeepUnchanged(digits, IsDigit);
    KeepNone(rest, IsDigit);
  }

  lemma ValueOfNinetySix()
    ensures DigitsValue("96") == 96
  {
    var nine := "96"[..1];
    assert nine == "9" && nine[..0] == "";
    assert DigitsValue(nine) == 9;
  }

  /** A numeric order count counts as its magnitude: a minus sign is stripped with the other non-digits. */
  lemma OrderCountOfNumber(n: int)
    ensures OrderCountValue(Int(n)) == if n < 0 then -n else n
  {
    DigitsValueOfIntToString(n);
  }

  /** A text order count without digits counts 0. */
  lemma OrderCountWithoutDigits(s: string)
    requires forall i :: 0 <= i < |s| ==> !IsDigit(s[i])
    ensures OrderCountValue(Str(s)) == 0
  {
    KeepNone(s, IsDigit);
  }

  // ----- totals -----

  /** The fourteen summed figures. */
  datatype Measure =
    | ProductionQ | OrderCount | RawMaterial | SubMaterial | Packaging | Consumable | MaterialTotal
    | Depreciation | DirectLabor | IndirectLabor | Utility | OtherExpense | ProcessingTotal | TotalCost

  /** The reduce accumulator: one total per figure. */
  datatype Totals = Totals(
    productionQ: int, orderCount: int, rawMaterial: int, subMaterial: int, packaging: int,
    consumable: int, materialTotal: int, depreciation: int, directLabor: int, indirectLabor: int,
    utility: int, otherExpense: int, processingTotal: int, totalCost: int)

  const Zero: Totals := Totals(0, 0, 0, 0, 0, 0, 0, 0, 0, 0, 0, 0, 0, 0)

  /** Figure m of a product; the order count is read from its digits. */
  function ValueOf(d: CostData, m: Measure): int {
    match m
    case ProductionQ => d.productionQ
    case OrderCount => OrderCountValue(d.orderCount)
    case RawMaterial => d.rawMaterial
    case SubMaterial => d.subMaterial
    case Packaging => d.packaging
    case Consumable => d.consumable
    case MaterialTotal => d.materialTotal
    case Depreciation => d.depreciation
    case DirectLabor => d.directLabor
    case IndirectLabor => d.indirectLabor
    case Utility => d.utility
    case OtherExpense => d.otherExpense
    case ProcessingTotal => d.processingTotal
    case TotalCost => d.totalCost
  }

  function TotalOf(t: Totals, m: Measure): int {
    match m
    case ProductionQ => t.productionQ
    case OrderCount => t.orderCount
    case RawMaterial => t.rawMaterial
    case SubMaterial => t.subMaterial
    case Packaging => t.packaging
    case Consumable => t.consumable
    case MaterialTotal => t.materialTotal
    case Depreciation => t.depreciation
    case DirectLabor => t.directLabor
    case IndirectLabor => t.indirectLabor
    case Utility => t.utility
    case OtherExpense => t.otherExpense
    case ProcessingTotal => t.processingTotal
    case TotalCost => t.totalCost
  }

  /** The reduce callback. */
  function Accumulate(acc: Totals, curr: CostData): Totals {
    Totals(
      acc.productionQ + curr.productionQ,
      acc.orderCount + OrderCountValue(curr.orderCount),
      acc.rawMaterial + curr.rawMaterial,
      acc.subMaterial + curr.subMaterial,
      acc.packaging + curr.packaging,
      acc.consumable + curr.consumable,
      acc.materialTotal + curr.materialTotal,
      acc.depreciation + curr.depreciation,
      acc.directLabor + curr.directLabor,
      acc.indirectLabor + curr.indirectLabor,
      acc.utility + curr.utility,
      acc.otherExpense + curr.otherExpense,
      acc.processingTotal + curr.processingTotal,
      acc.totalCost + curr.totalCost)
  }

  /** Each step adds the current product's figure to every running total. */
  lemma AccumulateAdds(acc: Totals, curr: CostData, m: Measure)
    ensures TotalOf(Accumulate(acc, curr), m) == TotalOf(acc, m) + ValueOf(curr, m)
  {
  }

  /** `data.reduce(Accumulate, Zero)`, left to right. */
  function Total(data: seq<CostData>): Totals {
    if data == [] then Zero else Accumulate(Total(data[..|data| - 1]), data[|data| - 1])
  }

  /** Reference sum of one figure, taken from the front. */
  function ColumnSum(data: seq<CostData>, m: Measure): int {
    if data == [] then 0 else ValueOf(data[0], m) + ColumnSum(data[1..], m)
  }

  lemma {:induction false} ColumnSumSnoc(data: seq<CostData>, m: Measure)
    requires data != []
    ensures ColumnSum(data, m) == ColumnSum(data[..|data| - 1], m) + ValueOf(data[|data| - 1], m)
  {
    if |data| > 1 {
      ColumnSumSnoc(data[1..], m);
      assert data[1..][..|data| - 2] == data[..|data| - 1][1..];
    }
  }

  /** Every total is the sum of its figure over all rows; an empty table totals zero everywhere. */
  lemma {:induction false} TotalIsColumnSum(data: seq<CostData>, m: Measure)
    ensures TotalOf(Total(data), m) == ColumnSum(data, m)
    ensures data == [] ==> TotalOf(Total(data), m) == 0
  {
    if data != [] {
      TotalIsColumnSum(data[..|data| - 1], m);
      ColumnSumSnoc(data, m);
      AccumulateAdds(Total(data[..|data| - 1]), data[|data| - 1], m);
    }
  }

  // ----- the cell matrix -----

  datatype Cell = NumCell(n: int) | TextCell(s: string)

  /** The title of column k (0-based); this order is the order of every line. */
  function HeaderName(k: nat): string {
    match k
    case 0 => "순위"
    case 1 => "제품코드"
    case 2 => "제품명"
    case 3 => "생산실적"
    case 4 => "총 생산횟수"
    case 5 => "팀"
    case 6 => "카테고리"
    case 7 => "원자재"
    case 8 => "부자재"
    case 9 => "포장재"
    case 10 => "자소소재"
    case 11 => "재료비합계"
    case 12 => "감가상각비"
    case 13 => "직접노무비"
    case 14 => "간접노무비"
    case 15 => "유틸리티"
    case 16 => "기타경비"
    case 17 => "가공비합계"
    case _ => "제조원가"
  }

  /** The header line (`headers`). */
  const Headers: seq<string> := seq(19, k requires 0 <= k < 19 => HeaderName(k))

  /** The 0-based column of each figure. */
  function MeasureColumn(m: Measure): (c: nat)
    ensures c == 3 || c == 4 || 7 <= c <= 18
  {
    match m
    case ProductionQ => 3
    case OrderCount => 4
    case RawMaterial => 7
    case SubMaterial => 8
    case Packaging => 9
    case Consumable => 10
    case MaterialTotal => 11
    case Depreciation => 12
    case DirectLabor => 13
    case IndirectLabor => 14
    case Utility => 15
    case OtherExpense => 16
    case ProcessingTotal => 17
    case TotalCost => 18
  }

  /** Cell k of the line of the product at (0-based) position index. */
  function DataCell(item: CostData, index: nat, k: nat): Cell {
    match k
    case 0 => NumCell(index + 1)
    case 1 => TextCell(item.productCode)
    case 2 => TextCell(item.productName)
    case 3 => NumCell(item.productionQ)
    case 4 => TextCell(OrderDigits(item.orderCount) + "회")
    case 5 => TextCell(item.team)
    case 6 => TextCell(item.category)
    case 7 => NumCell(item.rawMaterial)
    case 8 => NumCell(item.subMaterial)
    case 9 => NumCell(item.packaging)
    case 10 => NumCell(item.consumable)
    case 11 => NumCell(item.materialTotal)
    case 12 => NumCell(item.depreciation)
    case 13 => NumCell(item.directLabor)
    case 14 => NumCell(item.indirectLabor)
    case 15 => NumCell(item.utility)
    case 16 => NumCell(item.otherExpense)
    case 17 => NumCell(item.processingTotal)
    case _ => NumCell(item.totalCost)
  }

  /** The line of the product at (0-based) position index. */
  function DataRow(item: CostData, index: nat): seq<Cell> {
    seq(19, k requires 0 <= k < 19 => DataCell(item, index, k))
  }

  /** Cell k of the footer line. */
  function FooterCell(t: Totals, k: nat): Cell {
    match k
    case 0 => TextCell("")
    case 1 => TextCell("")
    case 2 => TextCell("TOTAL")
    case 3 => NumCell(t.productionQ)
    case 4 => TextCell(IntToString(t.orderCount) + "회")
    case 5 => TextCell("")
    case 6 => TextCell("")
    case 7 => NumCell(t.rawMaterial)
    case 8 => NumCell(t.subMaterial)
    case 9 => NumCell(t.packaging)
    case 10 => NumCell(t.consumable)
    case 11 => NumCell(t.materialTotal)
    case 12 => NumCell(t.depreciation)
    case 13 => NumCell(t.directLabor)
    case 14 => NumCell(t.indirectLabor)
    case 15 => NumCell(t.utility)
    case 16 => NumCell(t.otherExpense)
    case 17 => NumCell(t.processingTotal)
    case _ => NumCell(t.totalCost)
  }

  /** The footer line. */
  function FooterRow(t: Totals): seq<Cell> {
    seq(19, k requires 0 <= k < 19 => FooterCell(t, k))
  }

  /** A product's line has one cell per header: its rank, code, name, team and category, and
      the order count's digits followed by "회". */
  lemma DataRowLayout(item: CostData, index: nat)
    ensures |DataRow(item, index)| == 19
    ensures DataRow(item, index)[0] == NumCell(index + 1)
    ensures DataRow(item, index)[1] == TextCell(item.productCode)
    ensures DataRow(item, index)[2] == TextCell(item.productName)
    ensures DataRow(item, index)[5] == TextCell(item.team)
    ensures DataRow(item, index)[6] == TextCell(item.category)
    ensures DataRow(item, index)[MeasureColumn(OrderCount)] == TextCell(OrderDigits(item.orderCount) + "회")
  {
  }

  /** Every other figure of a product sits in its own column. */
  lemma DataRowFigure(item: CostData, index: nat, m: Measure)
    requires m != OrderCount
    ensures MeasureColumn(m) < |DataRow(item, index)|
    ensures DataRow(item, index)[MeasureColumn(m)] == NumCell(ValueOf(item, m))
  {
  }

  /** The footer has one cell per header: blanks under rank, code, team and category, "TOTAL"
      under the name, and the order total followed by "회". */
  lemma FooterLayout(t: Totals)
    ensures |FooterRow(t)| == 19
    ensures FooterRow(t)[0] == FooterRow(t)[1] == FooterRow(t)[5] == FooterRow(t)[6] == TextCell("")
    ensures FooterRow(t)[2] == TextCell("TOTAL")
    ensures FooterRow(t)[MeasureColumn(OrderCount)] == TextCell(IntToString(t.orderCount) + "회")
  {
  }

  /** Every other total sits in its figure's column. */
  lemma FooterFigure(t: Totals, m: Measure)
    requires m != OrderCount
    ensures MeasureColumn(m) < |FooterRow(t)|
    ensures FooterRow(t)[MeasureColumn(m)] == NumCell(TotalOf(t, m))
  {
  }

  /** The number in cell k of a line, 0 for text. */
  function NumberAt(line: seq<Cell>, k: nat): int {
    if k < |line| && line[k].NumCell? then line[k].n else 0
  }

  /** The numbers of column k over the product lines. */
  function DataColumnSum(data: seq<CostData>, k: nat): int {
    if data == [] then 0 else DataColumnSum(data[..|data| - 1], k) + NumberAt(DataRow(data[|data| - 1], |data| - 1), k)
  }

  /** Each numeric footer cell is the sum of the cells above it. */
  lemma {:induction false} FooterSumsItsColumn(data: seq<CostData>, m: Measure)
    requires m != OrderCount
    ensures FooterRow(Total(data))[MeasureColumn(m)] == NumCell(DataColumnSum(data, MeasureColumn(m)))
  {
    FooterFigure(Total(data), m);
    ColumnTotal(data, m);
  }

  lemma {:induction false} ColumnTotal(data: seq<CostData>, m: Measure)
    requires m != OrderCount
    ensures TotalOf(Total(data), m) == DataColumnSum(data, MeasureColumn(m))
  {
    if data != [] {
      ColumnTotal(data[..|data| - 1], m);
      DataRowFigure(data[|data| - 1], |data| - 1, m);
      AccumulateAdds(Total(data[..|data| - 1]), data[|data| - 1], m);
    }
  }

  /** `[headers, ...rows, footerRow]`. */
  function Matrix(data: seq<CostData>): seq<seq<Cell>> {
    [HeaderLine()] + DataLines(data) + [FooterRow(Total(data))]
  }

  function HeaderLine(): seq<Cell> {
    seq(|Headers|, k requires 0 <= k < |Headers| => TextCell(Headers[k]))
  }

  /** `data.map((item, index) => ...)`. */
  function DataLines(data: seq<CostData>): (r: seq<seq<Cell>>)
    ensures |r| == |data| && forall i :: 0 <= i < |data| ==> r[i] == DataRow(data[i], i)
  {
    seq(|data|, i requires 0 <= i < |data| => DataRow(data[i], i))
  }

  /** The matrix is the header, then one line per product, then the footer of totals. */
  lemma MatrixShape(data: seq<CostData>)
    ensures |Matrix(data)| == |data| + 2
    ensures Matrix(data)[0] == HeaderLine()
    ensures Matrix(data)[|data| + 1] == FooterRow(Total(data))
  {
  }

  /** Line i + 1 is the product at position i, ranked i + 1. */
  lemma MatrixLine(data: seq<CostData>, i: nat)
    requires i < |data|
    ensures i + 1 < |Matrix(data)| && Matrix(data)[i + 1] == DataRow(data[i], i)
  {
    BetweenIndex(HeaderLine(), DataLines(data), FooterRow(Total(data)), i);
  }

  lemma BetweenIndex<T>(h: T, d: seq<T>, f: T, i: nat)
    requires i < |d|
    ensures i + 1 < |[h] + d + [f]| && ([h] + d + [f])[i + 1] == d[i]
  {
  }

  /** Every line of the matrix is as wide as the header: 19 cells. */
  lemma MatrixWidth(data: seq<CostData>, i: nat)
    requires i < |Matrix(data)|
    ensures |Matrix(data)[i]| == |Headers| == 19
  {
    MatrixShape(data);
    if i == 0 {
    } else if i <= |data| {
      MatrixLine(data, i - 1);
      DataRowLayout(data[i - 1], i - 1);
    } else {
      FooterLayout(Total(data));
    }
  }
}
