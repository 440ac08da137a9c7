/** The monthly aggregation of the `/api/test-sheet` route: rows are grouped per sheet, month
    and product code; descriptive fields come from the first row of a group and the thirteen
    figures are summed with JavaScript `+=`, so one unreadable cell turns the group's figure into
    NaN. There is no row count and no date set, and the sheet name is used uncleaned. */
module TestSheetRoute {

  import opened Base
  import opened Text
  import opened JsNumber
  import opened Sheet
  import DataRoute

  /** One group of the response. */
  datatype MonthRow = MonthRow(
    factory: string, month: string, code: string, name: string, team: string, category: string,
    amounts: Amounts<Num>)

  /** The month label: the text before the first "/" followed by "월" when the date has a "/",
      "미상" (unknown) otherwise. */
  function MonthOf(date: string): (m: string)
    ensures '/' !in m
    ensures m != ""
  {
    if '/' in date then BeforeFirst(date, '/') + "월" else "미상"
  }

  /** "1/2" is month "1월"; a date without "/" (also the empty one) is "미상". */
  lemma MonthOfCases(date: string)
    ensures '/' in date ==> MonthOf(date) == BeforeFirst(date, '/') + "월"
    ensures '/' !in date ==> MonthOf(date) == "미상"
    ensures MonthOf("1/2") == "1월"
  {
    assert '/' in "1/2";
    assert BeforeFirst("1/2", '/') == "1" by {
      assert "1/2"[1..] == "/2";
    }
  }

  /** `Number(row[idx]?.replace(/,/g, '') || 0)`: a missing cell or one that is empty once the
      commas are gone gives 0, a numeral its value, anything else NaN. */
  function ParseNum(row: seq<string>, idx: nat): (n: Num)
    ensures n.NaN? <==> !IsNumeral(Trim(StripCommas(Cell(row, idx))))
    ensures Cell(row, idx) == "" ==> n == Finite(0)
  {
    assert StripCommas("") == "";
    match ToNumber(StripCommas(Cell(row, idx)))
    case Some(v) => Finite(v)
    case None => NaN
  }

  /** The all-time route reads the same cells the same way, except that it maps NaN to 0. */
  lemma ParseNumLikeDataRoute(row: seq<string>, idx: nat)
    ensures DataRoute.ParseNum(row, idx) == match ParseNum(row, idx) case Finite(v) => v case NaN => 0
  {
    assert StripCommas("") == "";
  }

  /** The thirteen figures of one row. */
  function RowAmounts(row: seq<string>): (a: Amounts<Num>)
    ensures forall f :: Get(a, f) == ParseNum(row, Column(f))
  {
    FromColumns(i => ParseNum(row, i))
  }

  /** A sheet row with the (uncleaned) sheet name it came from, its month label and its parsed figures. */
  datatype Tagged = Tagged(sheet: string, row: seq<string>, month: string, amounts: Amounts<Num>)

  /** The row as the loop body sees it once `month` and `parseNum` are computed. */
  function Read(sheet: string, row: seq<string>): (t: Tagged)
    ensures t.sheet == sheet && t.row == row
    ensures t.month == MonthOf(DateOf(row)) && t.amounts == RowAmounts(row)
  {
    Tagged(sheet, row, MonthOf(DateOf(row)), RowAmounts(row))
  }

  /** `uniqueKey`: `${sheetName}_${month}_${code}`. */
  function Key(t: Tagged): string {
    t.sheet + "_" + t.month + "_" + Code(t.row)
  }

  /** Rows of one sheet and one product fall into different groups exactly when their months differ. */
  lemma KeySeparatesMonths(t: Tagged, u: Tagged)
    requires t.sheet == u.sheet && Code(t.row) == Code(u.row)
    ensures Key(t) == Key(u) <==> t.month == u.month
  {
    var p, c := t.sheet + "_", "_" + Code(t.row);
    var m, n := t.month, u.month;
    assert Key(t) == p + m + c && Key(u) == p + n + c;
    if Key(t) == Key(u) {
      assert |m| == |n|;
      assert m == (p + m + c)[|p|..|p| + |m|];
      assert n == (p + n + c)[|p|..|p| + |n|];
    }
  }

  // ----- the accumulation -----

  /** `aggregatedData[uniqueKey]`. */
  datatype Acc = Acc(
    factory: string, month: string, code: string, name: string, team: string, category: string,
    amounts: Amounts<Num>)

  function Open(t: Tagged): Acc {
    Acc(t.sheet, t.month, Code(t.row), Cell(t.row, 1), Cell(t.row, 5), Cell(t.row, 6),
        t.amounts)
  }

  /** `target.q += parseNum(2)` and its twelve siblings. */
  function Absorb(a: Acc, t: Tagged): Acc {
    a.(amounts := Combine(a.amounts, t.amounts, Add))
  }

  /** The accumulators and their keys in insertion order (the order of `Object.values`: no key is
      an array index, since every key contains "_"). */
  datatype Table = Table(entries: map<string, Acc>, order: seq<string>)

  predicate WellFormed(tb: Table) {
    forall k :: k in tb.order ==> k in tb.entries
  }

  function Step(tb: Table, t: Tagged): (r: Table)
    requires WellFormed(tb)
    ensures WellFormed(r)
  {
    var k := Key(t);
    if k !in tb.entries then
      Table(tb.entries[k := Open(t)], tb.order + [k])
    else
      Table(tb.entries[k := Absorb(tb.entries[k], t)], tb.order)
  }

  function Fold(ts: seq<Tagged>): (tb: Table)
    ensures WellFormed(tb)
  {
    if ts == [] then Table(map[], []) else Step(Fold(ts[..|ts| - 1]), ts[|ts| - 1])
  }

  lemma StepEntry(tb: Table, t: Tagged, k: string)
    requires WellFormed(tb)
    ensures k in Step(tb, t).entries <==> k in tb.entries || k == Key(t)
    ensures k != Key(t) && k in tb.entries ==> Step(tb, t).entries[k] == tb.entries[k]
    ensures k == Key(t) && k !in tb.entries ==> Step(tb, t).entries[k] == Open(t)
    ensures k == Key(t) && k in tb.entries ==> Step(tb, t).entries[k] == Absorb(tb.entries[k], t)
  {
  }

  /** The rows of one value range under its sheet name `range.range?.split('!')[0] || 'Unknown'`. */
  function Tag(vr: ValueRange): (ts: seq<Tagged>)
    ensures |ts| == |vr.values|
    ensures forall i :: 0 <= i < |ts| ==> ts[i] == Read(SheetName(vr.range), vr.values[i])
  {
    seq(|vr.values|, i requires 0 <= i < |vr.values| => Read(SheetName(vr.range), vr.values[i]))
  }

  function Flatten(vrs: seq<ValueRange>): seq<Tagged> {
    if vrs == [] then [] else Flatten(vrs[..|vrs| - 1]) + Tag(vrs[|vrs| - 1])
  }

  function ToRow(a: Acc): MonthRow {
    MonthRow(a.factory, a.month, a.code, a.name, a.team, a.category, a.amounts)
  }

  /** `Object.values(aggregatedData)`. */
  function Finalise(tb: Table): (rows: seq<MonthRow>)
    requires WellFormed(tb)
    ensures |rows| == |tb.order|
    ensures forall i :: 0 <= i < |rows| ==> rows[i] == ToRow(tb.entries[tb.order[i]])
  {
    seq(|tb.order|, i requires 0 <= i < |tb.order| => ToRow(tb.entries[tb.order[i]]))
  }

  lemma FoldExtend(done: seq<Tagged>, tags: seq<Tagged>, j: nat)
    requires j < |tags|
    ensures Fold(done + tags[..j + 1]) == Step(Fold(done + tags[..j]), tags[j])
  {
    assert done + tags[..j + 1] == (done + tags[..j]) + [tags[j]];
    assert (done + tags[..j + 1])[..|done + tags[..j]|] == done + tags[..j];
  }

  lemma FlattenSnoc(vrs: seq<ValueRange>, i: nat)
    requires i < |vrs|
    ensures Flatten(vrs[..i + 1]) == Flatten(vrs[..i]) + Tag(vrs[i])
  {
    assert vrs[..i + 1][..i] == vrs[..i];
  }

  /** The route's aggregation over all monthly sheets. */
  method Aggregate(vrs: seq<ValueRange>) returns (rows: seq<MonthRow>)
    ensures rows == Finalise(Fold(Flatten(vrs)))
  {
    var entries: map<string, Acc> := map[];
    var order: seq<string> := [];
    var i := 0;
    while i < |vrs|
      invariant 0 <= i <= |vrs|
      invariant Table(entries, order) == Fold(Flatten(vrs[..i]))
    {
      entries, order := AddRange(entries, order, vrs[i], Flatten(vrs[..i]));
      FlattenSnoc(vrs, i);
      i := i + 1;
    }
    assert vrs[..i] == vrs;
    rows := Finalise(Table(entries, order));
  }

  /** The inner `forEach` over the rows of one value range. */
  method AddRange(entries: map<string, Acc>, order: seq<string>, vr: ValueRange, ghost done: seq<Tagged>)
    returns (entries': map<string, Acc>, order': seq<string>)
    requires Table(entries, order) == Fold(done)
    ensures Table(entries', order') == Fold(done + Tag(vr))
  {
    var tags := Tag(vr);
    entries', order' := entries, order;
    assert done + tags[..0] == done;
    var j := 0;
    while j < |vr.values|
      invariant 0 <= j <= |vr.values|
      invariant Table(entries', order') == Fold(done + tags[..j])
    {
      var t := tags[j];
      FoldExtend(done, tags, j);
      entries', order' := Insert(entries', order', t);
      j := j + 1;
    }
    assert tags[..j] == tags;
  }

  /** The `forEach` body for one row: open the key's accumulator, or absorb the row into it. */
  method Insert(entries: map<string, Acc>, order: seq<string>, t: Tagged)
    returns (entries': map<string, Acc>, order': seq<string>)
    requires WellFormed(Table(entries, order))
    ensures Table(entries', order') == Step(Table(entries, order), t)
  {
    var key := Key(t);
    if key !in entries {
      entries' := entries[key := Open(t)];
      order' := order + [key];
    } else {
      entries' := entries[key := Absorb(entries[key], t)];
      order' := order;
    }
  }

  // ----- reference definitions -----

  function Keys(ts: seq<Tagged>): (ks: seq<string>)
    ensures |ks| == |ts|
    ensures forall i :: 0 <= i < |ts| ==> ks[i] == Key(ts[i])
  {
    seq(|ts|, i requires 0 <= i < |ts| => Key(ts[i]))
  }

  /** JavaScript's running `+=` of figure f over the rows carrying key k, starting from 0. */
  function KeySum(ts: seq<Tagged>, k: string, f: Field): Num {
    if ts == [] then Finite(0)
    else Add(KeySum(ts[..|ts| - 1], k, f),
             if Key(ts[|ts| - 1]) == k then Get(ts[|ts| - 1].amounts, f) else Finite(0))
  }

  /** The ordinary integer sum of the finite values of figure f over the rows carrying key k. */
  function FiniteSum(ts: seq<Tagged>, k: string, f: Field): int {
    if ts == [] then 0
    else FiniteSum(ts[..|ts| - 1], k, f)
         + (if Key(ts[|ts| - 1]) == k && Get(ts[|ts| - 1].amounts, f).Finite? then Get(ts[|ts| - 1].amounts, f).value else 0)
  }

  /** Row t belongs to group k and its figure f is unreadable. */
  predicate Poisons(t: Tagged, k: string, f: Field) {
    Key(t) == k && Get(t.amounts, f).NaN?
  }

  /** Some row of key k has an unreadable figure f. */
  predicate HasNaN(ts: seq<Tagged>, k: string, f: Field) {
    exists j :: 0 <= j < |ts| && Poisons(ts[j], k, f)
  }

  // ----- what the accumulation computes -----

  /** A group is present exactly when some row carries its key. */
  lemma {:induction false} KeyPresent(ts: seq<Tagged>, k: string)
    ensures (k in Fold(ts).entries) == (k in Keys(ts))
  {
    if ts != [] {
      var init, t := ts[..|ts| - 1], ts[|ts| - 1];
      KeyPresent(init, k);
      StepEntry(Fold(init), t, k);
      assert Fold(ts) == Step(Fold(init), t);
      var ks := Keys(ts);
      assert ks == Keys(init) + [Key(t)];
      assert k in ks <==> k in Keys(init) || k == Key(t);
    }
  }

  /** A group's figures are the running sums over its rows (an absent key sums to 0). */
  lemma {:induction false} SumMatches(ts: seq<Tagged>, k: string, f: Field)
    ensures k in Fold(ts).entries ==> Get(Fold(ts).entries[k].amounts, f) == KeySum(ts, k, f)
    ensures k !in Fold(ts).entries ==> KeySum(ts, k, f) == Finite(0)
  {
    if ts != [] {
      var init, t := ts[..|ts| - 1], ts[|ts| - 1];
      var tb := Fold(init);
      assert Fold(ts) == Step(tb, t);
      assert KeySum(ts, k, f) == Add(KeySum(init, k, f), if Key(t) == k then Get(t.amounts, f) else Finite(0));
      SumMatches(init, k, f);
      StepEntry(tb, t, k);
    }
  }

  /** NaN is contagious: a group's figure is NaN exactly when one of its rows' cells is unreadable. */
  lemma {:induction false} NaNPoisons(ts: seq<Tagged>, k: string, f: Field)
    ensures KeySum(ts, k, f).NaN? <==> HasNaN(ts, k, f)
  {
    if ts != [] {
      var init, t := ts[..|ts| - 1], ts[|ts| - 1];
      NaNPoisons(init, k, f);
      HasNaNSnoc(ts, k, f);
    }
  }

  lemma HasNaNSnoc(ts: seq<Tagged>, k: string, f: Field)
    requires ts != []
    ensures HasNaN(ts, k, f) <==> HasNaN(ts[..|ts| - 1], k, f) || Poisons(ts[|ts| - 1], k, f)
  {
    var init := ts[..|ts| - 1];
    if HasNaN(init, k, f) {
      var j :| 0 <= j < |init| && Poisons(init[j], k, f);
      assert ts[j] == init[j];
    }
    if HasNaN(ts, k, f) {
      var j :| 0 <= j < |ts| && Poisons(ts[j], k, f);
      if j < |init| {
        assert init[j] == ts[j];
      }
    }
  }

  /** Without an unreadable cell the group's figure is the integer sum of its rows' values. */
  lemma {:induction false} FiniteSumMatches(ts: seq<Tagged>, k: string, f: Field)
    ensures KeySum(ts, k, f).Finite? ==> KeySum(ts, k, f).value == FiniteSum(ts, k, f)
  {
    if ts != [] {
      FiniteSumMatches(ts[..|ts| - 1], k, f);
    }
  }

  /** The first row of a group fixes its sheet, month, code, name, team and category. */
  lemma {:induction false} FirstSeenWins(ts: seq<Tagged>, i: nat)
    requires i < |ts|
    requires forall j :: 0 <= j < i ==> Key(ts[j]) != Key(ts[i])
    ensures Key(ts[i]) in Fold(ts).entries
    ensures Fold(ts).entries[Key(ts[i])] == Open(ts[i]).(amounts := Fold(ts).entries[Key(ts[i])].amounts)
  {
    var k := Key(ts[i]);
    var init, t := ts[..|ts| - 1], ts[|ts| - 1];
    assert Fold(ts) == Step(Fold(init), t);
    if i == |ts| - 1 {
      NoEarlierKey(init, k);
    } else {
      FirstSeenWins(init, i);
    }
    StepEntry(Fold(init), t, k);
  }

  lemma {:induction false} NoEarlierKey(ts: seq<Tagged>, k: string)
    requires forall j :: 0 <= j < |ts| ==> Key(ts[j]) != k
    ensures k !in Fold(ts).entries
  {
    if ts != [] {
      var init, t := ts[..|ts| - 1], ts[|ts| - 1];
      NoEarlierKey(init, k);
      StepEntry(Fold(init), t, k);
    }
  }

  /** The groups are listed in the order their keys first occur, each once. */
  lemma {:induction false} OrderIsFirstOccurrence(ts: seq<Tagged>)
    ensures Fold(ts).order == Dedupe(Keys(ts))
  {
    if ts != [] {
      var init, t := ts[..|ts| - 1], ts[|ts| - 1];
      OrderIsFirstOccurrence(init);
      KeyPresent(init, Key(t));
      var ks := Keys(ts);
      assert ks[..|ts| - 1] == Keys(init);
      assert Dedupe(ks) == if Key(t) in Dedupe(Keys(init)) then Dedupe(Keys(init))
                           else Dedupe(Keys(init)) + [Key(t)];
      assert Fold(ts) == Step(Fold(init), t);
    }
  }

  /** Every flattened row carries the month and the figures read from its own cells. */
  lemma {:induction false} FlattenParsed(vrs: seq<ValueRange>)
    ensures forall t :: t in Flatten(vrs) ==> t == Read(t.sheet, t.row)
  {
    if vrs != [] {
      FlattenParsed(vrs[..|vrs| - 1]);
    }
  }

  /** The groups are exactly those of the listed keys, and each sits under the key made from its
      own sheet, month and code. */
  lemma {:induction false} TableInvariant(ts: seq<Tagged>)
    ensures var tb := Fold(ts);
      && (forall k :: k in tb.entries <==> k in tb.order)
      && (forall k :: k in tb.entries ==> tb.entries[k].factory + "_" + tb.entries[k].month + "_" + tb.entries[k].code == k)
  {
    if ts != [] {
      var init, t := ts[..|ts| - 1], ts[|ts| - 1];
      TableInvariant(init);
      assert Fold(ts) == Step(Fold(init), t);
      forall k ensures k in Fold(ts).entries <==> k in Fold(ts).order {
        StepEntry(Fold(init), t, k);
      }
      forall k | k in Fold(ts).entries
        ensures Fold(ts).entries[k].factory + "_" + Fold(ts).entries[k].month + "_" + Fold(ts).entries[k].code == k
      {
        StepEntry(Fold(init), t, k);
      }
    }
  }

  // ----- the response -----

  function RowKey(r: MonthRow): string {
    r.factory + "_" + r.month + "_" + r.code
  }

  /** The response: one group per distinct key in first-occurrence order, each figure the running
      sum over the group's rows. */
  lemma ResponseRows(vrs: seq<ValueRange>, i: nat, f: Field)
    requires i < |Finalise(Fold(Flatten(vrs)))|
    ensures var ts := Flatten(vrs); var rows := Finalise(Fold(ts));
      && |rows| == |Dedupe(Keys(ts))|
      && RowKey(rows[i]) == Dedupe(Keys(ts))[i]
      && Get(rows[i].amounts, f) == KeySum(ts, RowKey(rows[i]), f)
  {
    var ts := Flatten(vrs);
    OrderIsFirstOccurrence(ts);
    TableInvariant(ts);
    KeyPresent(ts, Fold(ts).order[i]);
    SumMatches(ts, Fold(ts).order[i], f);
  }

  /** No two groups of the response share a key, and every key of the input has a group. */
  lemma ResponseKeysUnique(vrs: seq<ValueRange>)
    ensures var ts := Flatten(vrs); var rows := Finalise(Fold(ts));
      && (forall i, j :: 0 <= i < j < |rows| ==> RowKey(rows[i]) != RowKey(rows[j]))
      && (forall k :: k in Keys(ts) <==> exists i :: 0 <= i < |rows| && RowKey(rows[i]) == k)
  {
    var ts := Flatten(vrs);
    var tb := Fold(ts);
    var rows := Finalise(tb);
    OrderIsFirstOccurrence(ts);
    TableInvariant(ts);
    assert forall i :: 0 <= i < |rows| ==> RowKey(rows[i]) == tb.order[i] by {
      forall i | 0 <= i < |rows| ensures RowKey(rows[i]) == tb.order[i] {
        assert tb.order[i] in tb.entries;
      }
    }
    forall k ensures k in Keys(ts) <==> exists i :: 0 <= i < |rows| && RowKey(rows[i]) == k {
      if k in Keys(ts) {
        assert k in tb.order;
        var i :| 0 <= i < |tb.order| && tb.order[i] == k;
        assert RowKey(rows[i]) == k;
      }
    }
  }
}
