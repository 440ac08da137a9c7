/** The spreadsheet layout both aggregation routes read: a value range as the Sheets API
    returns it, cell access with JavaScript's `row[i] || default`, the range-name prefix,
    and the thirteen numeric columns that are summed per product. */
module Sheet {

  import opened Base
  import opened Text
  import opened JsNumber

  /** One entry of `valueRanges`: the A1 range name (e.g. "K1!A2:S19") and its rows of cell strings.
      Rows as returned by the API may be shorter than the full width (trailing empty cells are omitted). */
  datatype ValueRange = ValueRange(range: Option<string>, values: seq<seq<string>>)

  /** `row[i] || ''`: a missing cell reads as the empty string. */
  function Cell(row: seq<string>, i: nat): string {
    if i < |row| then row[i] else ""
  }

  /** `row[i] || dflt`: a missing or empty cell reads as `dflt`. */
  function CellOr(row: seq<string>, i: nat, dflt: string): (r: string)
    ensures r == dflt || (i < |row| && r == row[i] && r != "")
    ensures i < |row| && row[i] != "" ==> r == row[i]
  {
    if Cell(row, i) == "" then dflt else Cell(row, i)
  }

  /** `row[0] || 'CodeN/A'`: the product code (column A). */
  function Code(row: seq<string>): string {
    CellOr(row, 0, "CodeN/A")
  }

  /** `row[3] || ''`: the production date (column D). */
  function DateOf(row: seq<string>): string {
    Cell(row, 3)
  }

  /** `range.range?.split('!')[0] || 'Unknown'`. */
  function SheetName(range: Option<string>): (r: string)
    ensures r != "" && '!' !in r
    ensures range.None? ==> r == "Unknown"
    ensures range.Some? && BeforeFirst(range.value, '!') != "" ==>
              r <= range.value && (|r| == |range.value| || range.value[|r|] == '!')
    ensures range.Some? && BeforeFirst(range.value, '!') == "" ==> r == "Unknown"
  {
    match range
    case None => "Unknown"
    case Some(name) => var head := BeforeFirst(name, '!'); if head == "" then "Unknown" else head
  }

  predicate NotComma(c: char) {
    c != ','
  }

  /** `s.replace(/,/g, '')`: thousands separators removed. */
  function StripCommas(s: string): (r: string)
    ensures ',' !in r
  {
    KeepMembers(s, NotComma, ',');
    Keep(s, NotComma)
  }

  /** Removing the separator of two comma-free pieces joins them. */
  lemma StripCommasJoin(a: string, b: string)
    requires ',' !in a && ',' !in b
    ensures StripCommas(a + "," + b) == a + b
  {
    var sep := ",";
    assert Keep(sep, NotComma) == [] by {
      assert sep[1..] == [];
    }
    KeepUnchanged(a, NotComma);
    KeepUnchanged(b, NotComma);
    KeepAppend(a, sep, NotComma);
    assert Keep(a + sep, NotComma) == a;
    KeepAppend(a + sep, b, NotComma);
  }

  /** The thirteen summed figures, named as the routes' `CostRow` names them. */
  datatype Field =
    | Q | MatRaw | MatSub | MatPack | MatSelf | MatTotal
    | Depreciation | LaborDirect | LaborIndirect | Utility | Etc | ProcessTotal | TotalCost

  /** Production quantity and the twelve cost components of one product. */
  datatype Amounts<T> = Amounts(
    q: T,
    matRaw: T, matSub: T, matPack: T, matSelf: T, matTotal: T,
    depreciation: T, laborDirect: T, laborIndirect: T, utility: T, etc: T, processTotal: T,
    totalCost: T)

  function Get<T>(a: Amounts<T>, f: Field): T {
    match f
    case Q => a.q
    case MatRaw => a.matRaw
    case MatSub => a.matSub
    case MatPack => a.matPack
    case MatSelf => a.matSelf
    case MatTotal => a.matTotal
    case Depreciation => a.depreciation
    case LaborDirect => a.laborDirect
    case LaborIndirect => a.laborIndirect
    case Utility => a.utility
    case Etc => a.etc
    case ProcessTotal => a.processTotal
    case TotalCost => a.totalCost
  }

  /** The column (A = 0) each figure is read from: C for the quantity, H to S for the costs. */
  function Column(f: Field): (c: nat)
    ensures c == 2 || 7 <= c <= 18
  {
    match f
    case Q => 2
    case MatRaw => 7
    case MatSub => 8
    case MatPack => 9
    case MatSelf => 10
    case MatTotal => 11
    case Depreciation => 12
    case LaborDirect => 13
    case LaborIndirect => 14
    case Utility => 15
    case Etc => 16
    case ProcessTotal => 17
    case TotalCost => 18
  }

  /** No two figures share a column, and no figure is read from the code, name, date, order,
      team or category columns (0, 1, 3, 4, 5, 6). */
  lemma ColumnsDistinct(f: Field, g: Field)
    ensures Column(f) == Column(g) ==> f == g
    ensures Column(f) !in {0, 1, 3, 4, 5, 6}
  {
  }

  /** The figures of one row, each parsed from its column by `parse`. */
  function FromColumns<T>(parse: nat -> T): (a: Amounts<T>)
    ensures forall f :: Get(a, f) == parse(Column(f))
  {
    Amounts(parse(2), parse(7), parse(8), parse(9), parse(10), parse(11),
            parse(12), parse(13), parse(14), parse(15), parse(16), parse(17), parse(18))
  }

  /** Field-by-field combination: `target.q += …` and its twelve siblings at once. */
  function Combine<T>(a: Amounts<T>, b: Amounts<T>, op: (T, T) -> T): (r: Amounts<T>)
    ensures forall f :: Get(r, f) == op(Get(a, f), Get(b, f))
  {
    Amounts(op(a.q, b.q),
            op(a.matRaw, b.matRaw), op(a.matSub, b.matSub), op(a.matPack, b.matPack),
            op(a.matSelf, b.matSelf), op(a.matTotal, b.matTotal),
            op(a.depreciation, b.depreciation), op(a.laborDirect, b.laborDirect),
            op(a.laborIndirect, b.laborIndirect), op(a.utility, b.utility), op(a.etc, b.etc),
            op(a.processTotal, b.processTotal),
            op(a.totalCost, b.totalCost))
  }
}
