/** The dashboard page: its filters (factory, team, category, each `'All'` for no filter), the
    ranked view they produce, the product selection with its header checkbox, the selection
    popup with its totals, and the option lists of the team and category drop-downs. */
module Dashboard {

  import opened Base
  import opened Text
  import opened Sheet
  import opened DataRoute
  import opened Pareto

  /** The sentinel of every drop-down that means "no filter". */
  const ALL: string := "All"

  // ----- filters -----

  function FactoryIs(f: string): CostRow -> bool {
    (row: CostRow) => row.factory == f
  }

  function TeamIs(t: string): CostRow -> bool {
    (row: CostRow) => row.team == t
  }

  function CategoryIs(c: string): CostRow -> bool {
    (row: CostRow) => row.category == c
  }

  /** `if (sel !== 'All') result = result.filter(p)`. */
  function Stage(s: seq<CostRow>, sel: string, p: CostRow -> bool): seq<CostRow> {
    if sel != ALL then Filter(s, p) else s
  }

  /** The three filters of `processedData`, applied one after the other. */
  function FilterRows(data: seq<CostRow>, f: string, t: string, c: string): seq<CostRow> {
    Stage(Stage(Stage(data, f, FactoryIs(f)), t, TeamIs(t)), c, CategoryIs(c))
  }

  /** A row passes when each filter is `'All'` or equals the row's value. */
  predicate Matches(row: CostRow, f: string, t: string, c: string) {
    && (f == ALL || row.factory == f)
    && (t == ALL || row.team == t)
    && (c == ALL || row.category == c)
  }

  function MatchesAll(f: string, t: string, c: string): CostRow -> bool {
    (row: CostRow) => Matches(row, f, t, c)
  }

  function Guard(sel: string, p: CostRow -> bool): CostRow -> bool {
    (row: CostRow) => sel == ALL || p(row)
  }

  lemma StageIsFilter(s: seq<CostRow>, sel: string, p: CostRow -> bool)
    ensures Stage(s, sel, p) == Filter(s, Guard(sel, p))
  {
    if sel == ALL {
      FilterAll(s, Guard(sel, p));
    } else {
      FilterExt(s, p, Guard(sel, p));
    }
  }

  /** The staged filters compose by AND: they keep, in their order, exactly the rows matching all three. */
  lemma FilterRowsIsConjunction(data: seq<CostRow>, f: string, t: string, c: string)
    ensures FilterRows(data, f, t, c) == Filter(data, MatchesAll(f, t, c))
    ensures forall row :: row in FilterRows(data, f, t, c) <==> row in data && Matches(row, f, t, c)
  {
    var g1, g2, g3 := Guard(f, FactoryIs(f)), Guard(t, TeamIs(t)), Guard(c, CategoryIs(c));
    var g12: CostRow -> bool := row => g1(row) && g2(row);
    var s1 := Stage(data, f, FactoryIs(f));
    var s2 := Stage(s1, t, TeamIs(t));
    StageIsFilter(data, f, FactoryIs(f));
    StageIsFilter(s1, t, TeamIs(t));
    StageIsFilter(s2, c, CategoryIs(c));
    FilterFilter(data, g1, g2, g12);
    FilterFilter(data, g12, g3, MatchesAll(f, t, c));
  }

  /** With every filter at `'All'` nothing is filtered out. */
  lemma NoFilterKeepsAll(data: seq<CostRow>)
    ensures FilterRows(data, ALL, ALL, ALL) == data
  {
  }

  // ----- selection -----

  /** `toggleSelect`: the code's membership flips and no other code's changes. */
  function Toggled(selected: set<string>, code: string): (r: set<string>)
    ensures code in r <==> code !in selected
    ensures forall x :: x != code ==> (x in r <==> x in selected)
  {
    if code in selected then selected - {code} else selected + {code}
  }

  /** Toggling the same code twice restores the selection. */
  lemma ToggledTwice(selected: set<string>, code: string)
    ensures Toggled(Toggled(selected, code), code) == selected
  {
  }

  /** The codes of the listed rows, gathered left to right. */
  function CodesOf(list: seq<ParetoRow>): set<string> {
    if list == [] then {} else CodesOf(list[..|list| - 1]) + {list[|list| - 1].row.code}
  }

  lemma {:induction false} CodesOfMembers(list: seq<ParetoRow>, x: string)
    ensures x in CodesOf(list) <==> exists i :: 0 <= i < |list| && list[i].row.code == x
  {
    if list != [] {
      var init := list[..|list| - 1];
      CodesOfMembers(init, x);
      if x in CodesOf(init) {
        var i :| 0 <= i < |init| && init[i].row.code == x;
        assert list[i] == init[i];
      }
      if exists i :: 0 <= i < |list| && list[i].row.code == x {
        var i :| 0 <= i < |list| && list[i].row.code == x;
        if i < |init| {
          assert init[i] == list[i];
        }
      }
    }
  }

  /** `filteredList.every(row => selectedCodes.has(row.code))`. */
  predicate AllSelected(selected: set<string>, list: seq<ParetoRow>) {
    forall i :: 0 <= i < |list| ==> list[i].row.code in selected
  }

  /** `toggleSelectAll`: when every listed row is selected, their codes are removed; otherwise
      they are all added. */
  function ToggledAll(selected: set<string>, list: seq<ParetoRow>): set<string> {
    if AllSelected(selected, list) then selected - CodesOf(list) else selected + CodesOf(list)
  }

  /** Select-all clears a fully selected list, selects every row of any other list, and leaves
      every code outside the list alone. */
  lemma ToggledAllEffect(selected: set<string>, list: seq<ParetoRow>)
    ensures AllSelected(selected, list) ==>
              forall i :: 0 <= i < |list| ==> list[i].row.code !in ToggledAll(selected, list)
    ensures !AllSelected(selected, list) ==> AllSelected(ToggledAll(selected, list), list)
    ensures forall x :: (forall i :: 0 <= i < |list| ==> list[i].row.code != x) ==>
              (x in ToggledAll(selected, list) <==> x in selected)
  {
    forall x {
      CodesOfMembers(list, x);
    }
  }

  /** The header checkbox: `processedData.length > 0 && processedData.every(...)`. */
  predicate HeaderChecked(selected: set<string>, list: seq<ParetoRow>) {
    |list| > 0 && AllSelected(selected, list)
  }

  /** Clicking the header checkbox of a non-empty list flips it. */
  lemma HeaderCheckboxFlips(selected: set<string>, list: seq<ParetoRow>)
    requires list != []
    ensures HeaderChecked(ToggledAll(selected, list), list) == !HeaderChecked(selected, list)
  {
    ToggledAllEffect(selected, list);
  }

  function CodeIn(selected: set<string>): CostRow -> bool {
    (row: CostRow) => row.code in selected
  }

  // ----- the popup totals -----

  /** The footer of the selection popup. */
  datatype Totals = Totals(q: int, matTotal: int, processTotal: int, totalCost: int)

  function RowsOf(rows: seq<ParetoRow>): (r: seq<CostRow>)
    ensures |r| == |rows| && forall i :: 0 <= i < |r| ==> r[i] == rows[i].row
  {
    seq(|rows|, i requires 0 <= i < |rows| => rows[i].row)
  }

  /** A ranked list's rows are the rows it ranked. */
  lemma RowsOfPareto(rs: seq<CostRow>, rows: seq<ParetoRow>)
    requires IsParetoOf(rs, rows)
    ensures RowsOf(rows) == rs
  {
  }

  /** The totals reduce as written: `q: acc.q` carries the initial 0 through every step. */
  function ModalTotals(rows: seq<ParetoRow>): Totals {
    if rows == [] then Totals(0, 0, 0, 0)
    else
      var acc, curr := ModalTotals(rows[..|rows| - 1]), rows[|rows| - 1].row.amounts;
      Totals(acc.q, acc.matTotal + curr.matTotal, acc.processTotal + curr.processTotal,
             acc.totalCost + curr.totalCost)
  }

  /** The totals reduce as intended: the quantity is summed like the three costs. */
  function IntendedModalTotals(rows: seq<ParetoRow>): Totals {
    if rows == [] then Totals(0, 0, 0, 0)
    else
      var acc, curr := IntendedModalTotals(rows[..|rows| - 1]), rows[|rows| - 1].row.amounts;
      Totals(acc.q + curr.q, acc.matTotal + curr.matTotal, acc.processTotal + curr.processTotal,
             acc.totalCost + curr.totalCost)
  }

  lemma {:induction false} RowsOfPrefix(rows: seq<ParetoRow>)
    requires rows != []
    ensures RowsOf(rows[..|rows| - 1]) == RowsOf(rows)[..|rows| - 1]
  {
  }

  /** As written, the popup's Q total is 0 whatever is selected; the three cost totals are sums. */
  lemma {:induction false} ModalTotalsAsWritten(rows: seq<ParetoRow>)
    ensures ModalTotals(rows).q == 0
    ensures ModalTotals(rows).matTotal == FieldSum(RowsOf(rows), MatTotal)
    ensures ModalTotals(rows).processTotal == FieldSum(RowsOf(rows), ProcessTotal)
    ensures ModalTotals(rows).totalCost == FieldSum(RowsOf(rows), TotalCost)
  {
    if rows != [] {
      ModalTotalsAsWritten(rows[..|rows| - 1]);
      RowsOfPrefix(rows);
    }
  }

  /** The intended totals are the four column sums; they differ from the written ones only in Q. */
  lemma {:induction false} IntendedModalTotalsSums(rows: seq<ParetoRow>)
    ensures IntendedModalTotals(rows) == Totals(FieldSum(RowsOf(rows), Q), FieldSum(RowsOf(rows), MatTotal),
                                                FieldSum(RowsOf(rows), ProcessTotal), FieldSum(RowsOf(rows), TotalCost))
    ensures IntendedModalTotals(rows) == ModalTotals(rows).(q := FieldSum(RowsOf(rows), Q))
  {
    if rows != [] {
      IntendedModalTotalsSums(rows[..|rows| - 1]);
      RowsOfPrefix(rows);
    }
    ModalTotalsAsWritten(rows);
  }

  /** One selected product of quantity 5 shows a Q total of 0 as written, 5 as intended. */
  lemma ModalQTotalLost(r: CostRow)
    requires r.amounts.q == 5
    ensures ModalTotals([ParetoRow(r, 5, 100.0)]).q == 0
    ensures IntendedModalTotals([ParetoRow(r, 5, 100.0)]).q == 5
  {
    assert [ParetoRow(r, 5, 100.0)][..0] == [];
  }

  /** The intended Q total of a ranked list is its last running quantity. */
  lemma IntendedQIsLastCumulative(rs: seq<CostRow>, rows: seq<ParetoRow>)
    requires IsParetoOf(rs, rows) && rows != []
    ensures IntendedModalTotals(rows).q == rows[|rows| - 1].cumulativeQ
  {
    IntendedModalTotalsSums(rows);
    RowsOfPareto(rs, rows);
    LastIsTotal(rs, rows);
  }

  // ----- drop-down options -----

  predicate NonEmpty(x: string) {
    x != ""
  }

  /** `['All', ...Array.from(new Set(values)).filter(Boolean).sort()]`. */
  function Options(values: seq<string>): seq<string> {
    [ALL] + SortStrings(Filter(Dedupe(values), NonEmpty))
  }

  /** The options start with `'All'` and then ascend strictly, so no value after `'All'` is
      listed twice (`'All'` itself can be, see `OptionsDistinct`). */
  lemma OptionsAscend(values: seq<string>)
    ensures |Options(values)| >= 1 && Options(values)[0] == ALL
    ensures StrictlyAscending(Options(values)[1..])
  {
    FilterNoDups(Dedupe(values), NonEmpty);
    SortStringsStrict(Filter(Dedupe(values), NonEmpty));
    assert Options(values)[1..] == SortStrings(Filter(Dedupe(values), NonEmpty));
  }

  /** After `'All'` the options are exactly the non-empty values. */
  lemma OptionsMembers(values: seq<string>, x: string)
    ensures x in Options(values)[1..] <==> x in values && x != ""
  {
    var distinct := Filter(Dedupe(values), NonEmpty);
    assert Options(values)[1..] == SortStrings(distinct);
    assert x in SortStrings(distinct) <==> x in multiset(SortStrings(distinct));
    assert x in distinct <==> x in multiset(distinct);
  }

  /** The options list no entry twice exactly when no value is itself named `'All'`; a value
      named `'All'` is listed once as the sentinel and once among the values. */
  lemma OptionsDistinct(values: seq<string>)
    ensures NoDups(Options(values)) <==> ALL !in values
  {
    var o := Options(values);
    OptionsAscend(values);
    OptionsMembers(values, ALL);
    if ALL in values {
      var j :| 0 <= j < |o[1..]| && o[1..][j] == ALL;
      assert o[0] == o[j + 1];
    } else {
      forall i, j | 0 <= i < j < |o| ensures o[i] != o[j] {
        assert o[j] == o[1..][j - 1];
        if i > 0 {
          assert o[i] == o[1..][i - 1];
          assert LexLess(o[i], o[j]);
          LexIrreflexive(o[i]);
        }
      }
    }
  }

  function InFactory(f: string): CostRow -> bool {
    (row: CostRow) => f == ALL || row.factory == f
  }

  function Teams(s: seq<CostRow>): seq<string> {
    seq(|s|, i requires 0 <= i < |s| => s[i].team)
  }

  function Categories(s: seq<CostRow>): seq<string> {
    seq(|s|, i requires 0 <= i < |s| => s[i].category)
  }

  function TeamOptions(data: seq<CostRow>, f: string): seq<string> {
    Options(Teams(Filter(data, InFactory(f))))
  }

  function CategoryOptions(data: seq<CostRow>, f: string, t: string): seq<string> {
    Options(Categories(Stage(Filter(data, InFactory(f)), t, TeamIs(t))))
  }

  /** The team drop-down offers `'All'` and then, once each and sorted, every non-empty team of
      the rows of the chosen factory. */
  lemma TeamOptionsAscend(data: seq<CostRow>, f: string)
    ensures TeamOptions(data, f)[0] == ALL
    ensures StrictlyAscending(TeamOptions(data, f)[1..])
  {
    OptionsAscend(Teams(Filter(data, InFactory(f))));
  }

  lemma TeamOptionsMembers(data: seq<CostRow>, f: string, x: string)
    ensures x in TeamOptions(data, f)[1..] <==>
              x != "" && exists row :: row in data && (f == ALL || row.factory == f) && row.team == x
  {
    var base := Filter(data, InFactory(f));
    OptionsMembers(Teams(base), x);
    TeamsMembers(base, x);
  }

  lemma TeamsMembers(base: seq<CostRow>, x: string)
    ensures x in Teams(base) <==> exists row :: row in base && row.team == x
  {
    if x in Teams(base) {
      var i :| 0 <= i < |base| && Teams(base)[i] == x;
      assert base[i] in base;
    }
    if exists row :: row in base && row.team == x {
      var row :| row in base && row.team == x;
      var i :| 0 <= i < |base| && base[i] == row;
      assert Teams(base)[i] == x;
    }
  }

  /** The category drop-down offers `'All'` and then, once each and sorted, every non-empty
      category of the rows of the chosen factory and team. */
  lemma CategoryOptionsAscend(data: seq<CostRow>, f: string, t: string)
    ensures CategoryOptions(data, f, t)[0] == ALL
    ensures StrictlyAscending(CategoryOptions(data, f, t)[1..])
  {
    OptionsAscend(Categories(Stage(Filter(data, InFactory(f)), t, TeamIs(t))));
  }

  lemma CategoryOptionsMembers(data: seq<CostRow>, f: string, t: string, x: string)
    ensures x in CategoryOptions(data, f, t)[1..] <==>
              x != "" && exists row :: row in data && (f == ALL || row.factory == f) && (t == ALL || row.team == t) && row.category == x
  {
    var base := Stage(Filter(data, InFactory(f)), t, TeamIs(t));
    OptionsMembers(Categories(base), x);
    CategoriesMembers(base, x);
    forall row ensures row in base <==> row in data && (f == ALL || row.factory == f) && (t == ALL || row.team == t) {
      CategoryBaseMembers(data, f, t, row);
    }
  }

  lemma CategoryBaseMembers(data: seq<CostRow>, f: string, t: string, row: CostRow)
    ensures row in Stage(Filter(data, InFactory(f)), t, TeamIs(t)) <==>
              row in data && (f == ALL || row.factory == f) && (t == ALL || row.team == t)
  {
  }

  lemma CategoriesMembers(base: seq<CostRow>, x: string)
    ensures x in Categories(base) <==> exists row :: row in base && row.category == x
  {
    if x in Categories(base) {
      var i :| 0 <= i < |base| && Categories(base)[i] == x;
      assert base[i] in base;
    }
    if exists row :: row in base && row.category == x {
      var row :| row in base && row.category == x;
      var i :| 0 <= i < |base| && base[i] == row;
      assert Categories(base)[i] == x;
    }
  }

  /** Copies a sequence into a fresh array (`filter` returns a new array). */
  method ToArray(s: seq<CostRow>) returns (a: array<CostRow>)
    ensures fresh(a) && a[..] == s
  {
    a := new CostRow[|s|](i requires 0 <= i < |s| => s[i]);
  }

  /** The page state: the loaded rows, the three filters, the selected codes and the popup flag. */
  class Page {
    var data: array<CostRow>
    var factory: string
    var team: string
    var category: string
    var selected: set<string>
    var modalOpen: bool

    /** The state once the rows are loaded: no filter, nothing selected, popup closed. */
    constructor (rows: seq<CostRow>)
      ensures fresh(data) && data[..] == rows
      ensures factory == ALL && team == ALL && category == ALL
      ensures selected == {} && !modalOpen
    {
      data := new CostRow[|rows|](i requires 0 <= i < |rows| => rows[i]);
      factory, team, category := ALL, ALL, ALL;
      selected, modalOpen := {}, false;
    }

    /** `handleFactoryChange`: a new factory resets team, category and selection. */
    method HandleFactoryChange(f: string)
      modifies this
      ensures factory == f && team == ALL && category == ALL && selected == {}
      ensures data == old(data) && modalOpen == old(modalOpen)
    {
      factory, team, category := f, ALL, ALL;
      selected := {};
    }

    method ToggleSelect(code: string)
      modifies this
      ensures selected == Toggled(old(selected), code)
      ensures data == old(data) && factory == old(factory) && team == old(team)
      ensures category == old(category) && modalOpen == old(modalOpen)
    {
      var newSet := selected;
      if code in newSet {
        newSet := newSet - {code};
      } else {
        newSet := newSet + {code};
      }
      selected := newSet;
    }

    /** `toggleSelectAll`, with its two `forEach` loops. */
    method ToggleSelectAll(list: seq<ParetoRow>)
      modifies this
      ensures selected == ToggledAll(old(selected), list)
      ensures data == old(data) && factory == old(factory) && team == old(team)
      ensures category == old(category) && modalOpen == old(modalOpen)
    {
      var newSet := selected;
      var clear := forall i :: 0 <= i < |list| ==> list[i].row.code in selected;
      var i := 0;
      while i < |list|
        invariant 0 <= i <= |list|
        invariant newSet == if clear then selected - CodesOf(list[..i]) else selected + CodesOf(list[..i])
      {
        assert list[..i + 1][..i] == list[..i];
        if clear {
          newSet := newSet - {list[i].row.code};
        } else {
          newSet := newSet + {list[i].row.code};
        }
        i := i + 1;
      }
      assert list[..i] == list;
      selected := newSet;
    }

    /** `processedData`: the filtered rows, sorted by quantity and ranked. With no filter set,
        `result` is `data` itself and the sort reorders the page's rows in place. */
    method ProcessedData() returns (out: seq<ParetoRow>)
      modifies data
      ensures IsParetoOf(SortByQ(FilterRows(old(data[..]), factory, team, category)), out)
      ensures factory == ALL && team == ALL && category == ALL ==> data[..] == SortByQ(old(data[..]))
      ensures !(factory == ALL && team == ALL && category == ALL) ==> data[..] == old(data[..])
    {
      if factory == ALL && team == ALL && category == ALL {
        NoFilterKeepsAll(data[..]);
        SortByQInPlace(data);
        out := Cumulate(data[..]);
      } else {
        var result := ToArray(FilterRows(data[..], factory, team, category));
        SortByQInPlace(result);
        out := Cumulate(result[..]);
      }
    }

    /** `modalData`: nothing while the popup is closed; otherwise the selected rows, sorted and
        ranked, with their totals as the reduce computes them: the quantity total stays 0
        (`ModalTotalsAsWritten`), the three cost totals are column sums. */
    method ModalData() returns (rows: seq<ParetoRow>, totals: Option<Totals>)
      ensures !modalOpen ==> rows == [] && totals == None
      ensures modalOpen ==> IsParetoOf(SortByQ(Filter(data[..], CodeIn(selected))), rows)
      ensures modalOpen ==> totals == Some(ModalTotals(rows))
    {
      if !modalOpen {
        return [], None;
      }
      var selectedRows := ToArray(Filter(data[..], CodeIn(selected)));
      SortByQInPlace(selectedRows);
      rows := Cumulate(selectedRows[..]);
      totals := Some(ModalTotals(rows));
    }
  }
}
