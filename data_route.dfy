/** The all-time aggregation of the `/api/data` route: every row of every factory sheet is
    folded into one accumulator per `factory_code` key; descriptive fields come from the
    first row of a key, the thirteen figures are summed, rows are counted and their dates
    collected; the response lists one `CostRow` per key, in first-occurrence order, with the
    date set rendered as a `first~last` range. */
module DataRoute {

  import opened Base
  import opened Text
  import opened JsNumber
  import opened Sheet

  /** One product of the response: the accumulator with its date set replaced by `dateRange`. */
  datatype CostRow = CostRow(
    factory: string, code: string, name: string, team: string, category: string,
    dateRange: string, orderCount: int, amounts: Amounts<int>)

  // ----- factory label, key and cell parsing -----

  /** The characters `/['"\s]/g` removes from a sheet name. */
  predicate NotStripped(c: char) {
    c != '\'' && c != '"' && !IsJsSpace(c)
  }

  /** `cleanFactoryName`: the sheet name (text before the first `!`, or "Unknown") without quotes or white space. */
  function FactoryLabel(range: Option<string>): (r: string)
    ensures forall i :: 0 <= i < |r| ==> NotStripped(r[i])
    ensures '!' !in r
  {
    KeepMembers(SheetName(range), NotStripped, '!');
    Keep(SheetName(range), NotStripped)
  }

  /** Cleaning twice is cleaning once. */
  lemma FactoryLabelIdempotent(range: Option<string>)
    ensures Keep(FactoryLabel(range), NotStripped) == FactoryLabel(range)
  {
    KeepIdempotent(SheetName(range), NotStripped);
  }

  /** A range without a name is labelled "Unknown". */
  lemma FactoryLabelUnknown()
    ensures FactoryLabel(None) == "Unknown"
  {
    assert SheetName(None) == "Unknown";
    KeepUnchanged("Unknown", NotStripped);
  }

  /** A sheet name without quotes or white space is its own label. */
  lemma FactoryLabelOfCleanName(range: Option<string>)
    requires forall i :: 0 <= i < |SheetName(range)| ==> NotStripped(SheetName(range)[i])
    ensures FactoryLabel(range) == SheetName(range)
  {
    KeepUnchanged(SheetName(range), NotStripped);
  }

  /** `parseNum(idx)`: 0 for a missing or empty cell; otherwise `Number` of the text without
      commas, with NaN replaced by 0. */
  function ParseNum(row: seq<string>, idx: nat): int {
    var v := Cell(row, idx);
    if v == "" then 0
    else match ToNumber(StripCommas(v)) case Some(n) => n case None => 0
  }

  /** The three outcomes of `parseNum`: empty gives 0, a numeral gives its value, anything else 0. */
  lemma ParseNumCases(row: seq<string>, idx: nat)
    ensures Cell(row, idx) == "" ==> ParseNum(row, idx) == 0
    ensures IsNumeral(Trim(StripCommas(Cell(row, idx)))) ==>
              ToNumber(StripCommas(Cell(row, idx))) == Some(ParseNum(row, idx))
    ensures !IsNumeral(Trim(StripCommas(Cell(row, idx)))) ==> ParseNum(row, idx) == 0
  {
    if Cell(row, idx) == "" {
      assert StripCommas("") == "";
    }
  }

  /** A cell holding the decimal text of `n` parses back to `n`. */
  lemma ParseNumOfNumeral(row: seq<string>, idx: nat, n: int)
    requires idx < |row| && row[idx] == IntToString(n)
    ensures ParseNum(row, idx) == n
  {
    var s := IntToString(n);
    assert forall i :: 0 <= i < |s| ==> NotComma(s[i]) by {
      if n < 0 {
        assert s == "-" + NatToString(-n);
        forall i | 0 <= i < |s| ensures NotComma(s[i]) {
          if i > 0 { assert s[i] == NatToString(-n)[i - 1]; }
        }
      }
    }
    KeepUnchanged(s, NotComma);
    ParseIntToString(n);
  }

  /** Thousands separators are ignored: digits split by a comma ("1,234") parse as the digits alone. */
  lemma ParseNumThousands(row: seq<string>, idx: nat, a: string, b: string)
    requires idx < |row| && row[idx] == a + "," + b
    requires AllDigits(a) && AllDigits(b)
    ensures AllDigits(a + b) && ParseNum(row, idx) == DigitsValue(a + b)
  {
    assert ',' !in a && ',' !in b by {
      assert !IsDigit(',');
    }
    StripCommasJoin(a, b);
    assert AllDigits(a + b);
    if a + b != "" {
      ToNumberOfDigits(a + b);
    }
  }

  /** The thirteen figures of one row. */
  function RowAmounts(row: seq<string>): (a: Amounts<int>)
    ensures forall f :: Get(a, f) == ParseNum(row, Column(f))
  {
    FromColumns(i => ParseNum(row, i))
  }

  /** A sheet row paired with the cleaned label of the sheet it came from and its parsed figures. */
  datatype Tagged = Tagged(factory: string, row: seq<string>, amounts: Amounts<int>)

  /** The row as the loop body sees it once the `parseNum` calls are made. */
  function Read(factory: string, row: seq<string>): (t: Tagged)
    ensures t.factory == factory && t.row == row && t.amounts == RowAmounts(row)
  {
    Tagged(factory, row, RowAmounts(row))
  }

  /** `uniqueKey`: `${cleanFactoryName}_${code}`. */
  function Key(t: Tagged): string {
    t.factory + "_" + Code(t.row)
  }

  /** The key is a plain concatenation, so a factory ending in "_A" and a code starting with
      "A_" can meet: ("K1_A", "B") and ("K1", "A_B") share the key "K1_A_B". */
  lemma KeyCollision()
    ensures forall z :: Key(Tagged("K1_A", ["B"], z)) == Key(Tagged("K1", ["A_B"], z))
  {
    assert Code(["B"]) == "B";
    assert Code(["A_B"]) == "A_B";
    assert "K1_A" + "_" + "B" == "K1" + "_" + "A_B";
  }

  // ----- the accumulation -----

  /** `aggregatedData[uniqueKey]`: an accumulator; `dates` is the insertion-ordered `Set` of dates. */
  datatype Acc = Acc(
    factory: string, code: string, name: string, team: string, category: string,
    dates: seq<string>, orderCount: nat, amounts: Amounts<int>)

  /** The accumulator created by the first row of a key. */
  function Open(t: Tagged): Acc {
    Acc(t.factory, Code(t.row), Cell(t.row, 1), Cell(t.row, 5), Cell(t.row, 6),
        [DateOf(t.row)], 1, t.amounts)
  }

  /** A later row of the same key: a non-empty date joins the set, the count and figures grow. */
  function Absorb(a: Acc, t: Tagged): Acc {
    var d := DateOf(t.row);
    a.(dates := if d != "" && d !in a.dates then a.dates + [d] else a.dates,
       orderCount := a.orderCount + 1,
       amounts := Combine(a.amounts, t.amounts, (x: int, y: int) => x + y))
  }

  /** The accumulators and the order in which their keys were first inserted (the order
      `Object.values` yields them in: no key is an array index, since every key contains "_"). */
  datatype Table = Table(entries: map<string, Acc>, order: seq<string>)

  /** Every listed key has an accumulator (all `Finalise` needs; `TableInvariant` proves the rest). */
  predicate WellFormed(tb: Table) {
    forall k :: k in tb.order ==> k in tb.entries
  }

  /** One row of the `forEach`: create the key's accumulator or update it. */
  function Step(tb: Table, t: Tagged): (r: Table)
    requires WellFormed(tb)
    ensures WellFormed(r)
  {
    var k := Key(t);
    if k !in tb.entries then
      Table(tb.entries[k := Open(t)], tb.order + [k])
    else
      Table(tb.entries[k := Absorb(tb.entries[k], t)], tb.order)
  }

  /** The table after the given rows, in order, starting from `{}`. */
  function Fold(ts: seq<Tagged>): (tb: Table)
    ensures WellFormed(tb)
  {
    if ts == [] then Table(map[], []) else Step(Fold(ts[..|ts| - 1]), ts[|ts| - 1])
  }

  lemma FoldSnoc(ts: seq<Tagged>, t: Tagged)
    ensures Fold(ts + [t]) == Step(Fold(ts), t)
  {
    assert (ts + [t])[..|ts|] == ts;
  }

  /** The rows of one value range, each tagged with the range's factory label. */
  function Tag(vr: ValueRange): (ts: seq<Tagged>)
    ensures |ts| == |vr.values|
    ensures forall i :: 0 <= i < |ts| ==> ts[i] == Read(FactoryLabel(vr.range), vr.values[i])
  {
    seq(|vr.values|, i requires 0 <= i < |vr.values| => Read(FactoryLabel(vr.range), vr.values[i]))
  }

  /** All rows of all ranges, in the order the two nested `forEach` loops visit them. */
  function Flatten(vrs: seq<ValueRange>): seq<Tagged> {
    if vrs == [] then [] else Flatten(vrs[..|vrs| - 1]) + Tag(vrs[|vrs| - 1])
  }

  /** Every flattened row carries the figures parsed from its own cells. */
  lemma {:induction false} FlattenParsed(vrs: seq<ValueRange>)
    ensures forall t :: t in Flatten(vrs) ==> t == Read(t.factory, t.row)
  {
    if vrs != [] {
      FlattenParsed(vrs[..|vrs| - 1]);
    }
  }

  // ----- finalisation -----

  /** `dateDisplay`: the only date, or `first~last` of the sorted dates, or "-" for none. */
  function DateRange(dates: seq<string>): string {
    var sorted := SortStrings(dates);
    if |sorted| == 1 then sorted[0]
    else if |sorted| > 1 then sorted[0] + "~" + sorted[|sorted| - 1]
    else "-"
  }

  /** The rendered range names the least and the greatest date. */
  lemma DateRangeExtremes(dates: seq<string>)
    ensures dates == [] ==> DateRange(dates) == "-"
    ensures |dates| == 1 ==> DateRange(dates) == dates[0]
    ensures |dates| > 1 ==> DateRange(dates) == Least(dates) + "~" + Greatest(dates)
  {
    if |dates| == 1 {
      assert multiset(SortStrings(dates)) == multiset{dates[0]};
      assert SortStrings(dates)[0] in multiset(SortStrings(dates));
    }
    if |dates| > 1 {
      SortedEndsAreExtremes(dates);
    }
  }

  /** `{ ...rest, dateRange: dateDisplay }`. */
  function ToRow(a: Acc): CostRow {
    CostRow(a.factory, a.code, a.name, a.team, a.category, DateRange(a.dates), a.orderCount, a.amounts)
  }

  /** `Object.values(aggregatedData).map(...)`. */
  function Finalise(tb: Table): (rows: seq<CostRow>)
    requires WellFormed(tb)
    ensures |rows| == |tb.order|
    ensures forall i :: 0 <= i < |rows| ==> rows[i] == ToRow(tb.entries[tb.order[i]])
  {
    seq(|tb.order|, i requires 0 <= i < |tb.order| => ToRow(tb.entries[tb.order[i]]))
  }

  /** The route's aggregation: the loop over value ranges mutating the accumulator map, then
      the finalising map. */
  method Aggregate(vrs: seq<ValueRange>) returns (rows: seq<CostRow>)
    ensures rows == Finalise(Fold(Flatten(vrs)))
  {
    var entries: map<string, Acc> := map[];
    var order: seq<string> := [];
    var i := 0;
    while i < |vrs|
      invariant 0 <= i <= |vrs|
      invariant Table(entries, order) == Fold(Flatten(vrs[..i]))
    {
      entries, order := AddRange(entries, order, vrs[i], Flatten(vrs[..i]));
      FlattenSnoc(vrs, i);
      i := i + 1;
    }
    assert vrs[..i] == vrs;
    rows := Finalise(Table(entries, order));
  }

  /** The inner `forEach`: every row of one value range, under the range's factory label. */
  method AddRange(entries: map<string, Acc>, order: seq<string>, vr: ValueRange, ghost done: seq<Tagged>)
    returns (entries': map<string, Acc>, order': seq<string>)
    requires Table(entries, order) == Fold(done)
    ensures Table(entries', order') == Fold(done + Tag(vr))
  {
    var tags := Tag(vr);
    entries', order' := entries, order;
    assert done + tags[..0] == done;
    var j := 0;
    while j < |vr.values|
      invariant 0 <= j <= |vr.values|
      invariant Table(entries', order') == Fold(done + tags[..j])
    {
      var t := tags[j];
      FoldExtend(done, tags, j);
      entries', order' := Insert(entries', order', t);
      j := j + 1;
    }
    assert tags[..j] == tags;
  }

  /** The `forEach` body for one row: open the key's accumulator, or absorb the row into it. */
  method Insert(entries: map<string, Acc>, order: seq<string>, t: Tagged)
    returns (entries': map<string, Acc>, order': seq<string>)
    requires WellFormed(Table(entries, order))
    ensures Table(entries', order') == Step(Table(entries, order), t)
  {
    var key := Key(t);
    if key !in entries {
      entries' := entries[key := Open(t)];
      order' := order + [key];
    } else {
      entries' := entries[key := Absorb(entries[key], t)];
      order' := order;
    }
  }

  lemma FoldExtend(done: seq<Tagged>, tags: seq<Tagged>, j: nat)
    requires j < |tags|
    ensures Fold(done + tags[..j + 1]) == Step(Fold(done + tags[..j]), tags[j])
  {
    assert done + tags[..j + 1] == (done + tags[..j]) + [tags[j]];
    FoldSnoc(done + tags[..j], tags[j]);
  }

  lemma FlattenSnoc(vrs: seq<ValueRange>, i: nat)
    requires i < |vrs|
    ensures Flatten(vrs[..i + 1]) == Flatten(vrs[..i]) + Tag(vrs[i])
  {
    assert vrs[..i + 1][..i] == vrs[..i];
  }

  // ----- reference definitions, independent of the accumulator -----

  /** The key of every row, in input order. */
  function Keys(ts: seq<Tagged>): (ks: seq<string>)
    ensures |ks| == |ts|
    ensures forall i :: 0 <= i < |ts| ==> ks[i] == Key(ts[i])
  {
    seq(|ts|, i requires 0 <= i < |ts| => Key(ts[i]))
  }

  /** How many rows carry key k. */
  function KeyCount(ts: seq<Tagged>, k: string): nat {
    if ts == [] then 0
    else KeyCount(ts[..|ts| - 1], k) + (if Key(ts[|ts| - 1]) == k then 1 else 0)
  }

  /** The sum of figure f over the rows carrying key k. */
  function KeySum(ts: seq<Tagged>, k: string, f: Field): int {
    if ts == [] then 0
    else KeySum(ts[..|ts| - 1], k, f)
         + (if Key(ts[|ts| - 1]) == k then Get(ts[|ts| - 1].amounts, f) else 0)
  }

  /** The non-empty dates of the rows carrying key k. */
  function KeyDates(ts: seq<Tagged>, k: string): set<string> {
    if ts == [] then {}
    else
      var t := ts[|ts| - 1];
      KeyDates(ts[..|ts| - 1], k) + (if Key(t) == k && DateOf(t.row) != "" then {DateOf(t.row)} else {})
  }

  // ----- what the accumulation computes -----

  /** A key is present exactly when some row carries it, and its `orderCount` is the number of those rows. */
  lemma {:induction false} CountMatches(ts: seq<Tagged>, k: string)
    ensures (k in Fold(ts).entries) == (KeyCount(ts, k) > 0)
    ensures k in Fold(ts).entries ==> Fold(ts).entries[k].orderCount == KeyCount(ts, k)
  {
    if ts != [] {
      CountMatches(ts[..|ts| - 1], k);
    }
  }

  /** Every figure of a key is the sum of that figure over the key's rows (zero for an absent key). */
  lemma {:induction false} SumMatches(ts: seq<Tagged>, k: string, f: Field)
    ensures k in Fold(ts).entries ==> Get(Fold(ts).entries[k].amounts, f) == KeySum(ts, k, f)
    ensures k !in Fold(ts).entries ==> KeySum(ts, k, f) == 0
  {
    if ts != [] {
      var init, t := ts[..|ts| - 1], ts[|ts| - 1];
      var tb := Fold(init);
      assert Fold(ts) == Step(tb, t);
      var prev := KeySum(init, k, f);
      var own := if Key(t) == k then Get(t.amounts, f) else 0;
      assert KeySum(ts, k, f) == prev + own;
      SumMatches(init, k, f);
      StepEntry(tb, t, k);
      if k == Key(t) && k in tb.entries {
        AbsorbAmounts(tb.entries[k], t, f);
      }
    }
  }

  /** What one step does to the accumulator of key k. */
  lemma StepEntry(tb: Table, t: Tagged, k: string)
    requires WellFormed(tb)
    ensures k in Step(tb, t).entries <==> k in tb.entries || k == Key(t)
    ensures k != Key(t) && k in tb.entries ==> Step(tb, t).entries[k] == tb.entries[k]
    ensures k == Key(t) && k !in tb.entries ==> Step(tb, t).entries[k] == Open(t)
    ensures k == Key(t) && k in tb.entries ==> Step(tb, t).entries[k] == Absorb(tb.entries[k], t)
  {
  }

  /** Absorbing a row adds its figures to the accumulator's. */
  lemma AbsorbAmounts(a: Acc, t: Tagged, f: Field)
    ensures Get(Absorb(a, t).amounts, f) == Get(a.amounts, f) + Get(t.amounts, f)
  {
  }

  /** First seen wins: the first row of a key fixes factory, code, name, team and category for good. */
  lemma {:induction false} FirstSeenWins(ts: seq<Tagged>, i: nat)
    requires i < |ts|
    requires forall j :: 0 <= j < i ==> Key(ts[j]) != Key(ts[i])
    ensures Key(ts[i]) in Fold(ts).entries
    ensures var e := Fold(ts).entries[Key(ts[i])];
      && e.factory == ts[i].factory && e.code == Code(ts[i].row)
      && e.name == Cell(ts[i].row, 1) && e.team == Cell(ts[i].row, 5) && e.category == Cell(ts[i].row, 6)
  {
    var k := Key(ts[i]);
    var init, t := ts[..|ts| - 1], ts[|ts| - 1];
    assert Fold(ts) == Step(Fold(init), t);
    if i == |ts| - 1 {
      NoEarlierKey(init, k);
      CountMatches(init, k);
    } else {
      FirstSeenWins(init, i);
    }
    StepEntry(Fold(init), t, k);
  }

  /** The date set of a key holds the date of its first row (even an empty one) and the non-empty
      dates of all its rows, each once. */
  lemma {:induction false} DatesCollected(ts: seq<Tagged>, i: nat)
    requires i < |ts|
    requires forall j :: 0 <= j < i ==> Key(ts[j]) != Key(ts[i])
    ensures Key(ts[i]) in Fold(ts).entries
    ensures var e := Fold(ts).entries[Key(ts[i])];
      && NoDups(e.dates)
      && (forall d :: d in e.dates <==> d == DateOf(ts[i].row) || d in KeyDates(ts, Key(ts[i])))
  {
    var k := Key(ts[i]);
    var init, t := ts[..|ts| - 1], ts[|ts| - 1];
    var tb := Fold(init);
    assert Fold(ts) == Step(tb, t);
    StepEntry(tb, t, k);
    var here := if Key(t) == k && DateOf(t.row) != "" then {DateOf(t.row)} else {};
    assert KeyDates(ts, k) == KeyDates(init, k) + here;
    if i == |ts| - 1 {
      NoEarlierKey(init, k);
      CountMatches(init, k);
      NoDatesWithoutRows(init, k);
    } else {
      DatesCollected(init, i);
      if Key(t) == k {
        var old_dates := tb.entries[k].dates;
        var d := DateOf(t.row);
        assert Absorb(tb.entries[k], t).dates
            == if d != "" && d !in old_dates then old_dates + [d] else old_dates;
      }
    }
  }

  /** A key no row carries has no rows to count. */
  lemma {:induction false} NoEarlierKey(ts: seq<Tagged>, k: string)
    requires forall j :: 0 <= j < |ts| ==> Key(ts[j]) != k
    ensures KeyCount(ts, k) == 0
  {
    if ts != [] {
      NoEarlierKey(ts[..|ts| - 1], k);
    }
  }

  lemma {:induction false} NoDatesWithoutRows(ts: seq<Tagged>, k: string)
    requires KeyCount(ts, k) == 0
    ensures KeyDates(ts, k) == {}
  {
    if ts != [] {
      NoDatesWithoutRows(ts[..|ts| - 1], k);
    }
  }

  /** The table's keys are the distinct row keys in order of first occurrence. */
  lemma {:induction false} OrderIsFirstOccurrence(ts: seq<Tagged>)
    ensures Fold(ts).order == Dedupe(Keys(ts))
  {
    if ts != [] {
      var init, t := ts[..|ts| - 1], ts[|ts| - 1];
      OrderIsFirstOccurrence(init);
      TableInvariant(init);
      var ks := Keys(ts);
      assert ks[..|ts| - 1] == Keys(init);
      assert Dedupe(ks) == if Key(t) in Dedupe(Keys(init)) then Dedupe(Keys(init))
                           else Dedupe(Keys(init)) + [Key(t)];
      assert Fold(ts) == Step(Fold(init), t);
    }
  }

  /** The accumulators are exactly those of the listed keys, and each sits under the key made
      from its own factory and code. */
  lemma {:induction false} TableInvariant(ts: seq<Tagged>)
    ensures var tb := Fold(ts);
      && (forall k :: k in tb.entries <==> k in tb.order)
      && (forall k :: k in tb.entries ==> tb.entries[k].factory + "_" + tb.entries[k].code == k)
  {
    if ts != [] {
      var init, t := ts[..|ts| - 1], ts[|ts| - 1];
      TableInvariant(init);
      assert Fold(ts) == Step(Fold(init), t);
      forall k ensures k in Fold(ts).entries <==> k in Fold(ts).order {
        StepEntry(Fold(init), t, k);
      }
      forall k | k in Fold(ts).entries
        ensures Fold(ts).entries[k].factory + "_" + Fold(ts).entries[k].code == k
      {
        StepEntry(Fold(init), t, k);
      }
    }
  }

  // ----- the response -----

  function RowKey(r: CostRow): string {
    r.factory + "_" + r.code
  }

  /** The response has exactly one row per distinct key, in first-occurrence order; each row's
      count is its number of sheet rows and each figure the sum over them. */
  lemma {:induction false} ResponseRows(vrs: seq<ValueRange>, i: nat, f: Field)
    requires i < |Finalise(Fold(Flatten(vrs)))|
    ensures var ts := Flatten(vrs); var rows := Finalise(Fold(ts));
      && |rows| == |Dedupe(Keys(ts))|
      && RowKey(rows[i]) == Dedupe(Keys(ts))[i]
      && rows[i].orderCount == KeyCount(ts, RowKey(rows[i])) >= 1
      && Get(rows[i].amounts, f) == KeySum(ts, RowKey(rows[i]), f)
  {
    var ts := Flatten(vrs);
    var tb := Fold(ts);
    OrderIsFirstOccurrence(ts);
    TableInvariant(ts);
    var k := tb.order[i];
    CountMatches(ts, k);
    SumMatches(ts, k, f);
  }

  /** No two rows of the response share a key, and every key of the input has a row. */
  lemma ResponseKeysUnique(vrs: seq<ValueRange>)
    ensures var ts := Flatten(vrs); var rows := Finalise(Fold(ts));
      && (forall i, j :: 0 <= i < j < |rows| ==> RowKey(rows[i]) != RowKey(rows[j]))
      && (forall k :: k in Keys(ts) <==> exists i :: 0 <= i < |rows| && RowKey(rows[i]) == k)
  {
    var ts := Flatten(vrs);
    var tb := Fold(ts);
    var rows := Finalise(tb);
    OrderIsFirstOccurrence(ts);
    TableInvariant(ts);
    assert forall i :: 0 <= i < |rows| ==> RowKey(rows[i]) == tb.order[i] by {
      forall i | 0 <= i < |rows| ensures RowKey(rows[i]) == tb.order[i] {
        assert tb.order[i] in tb.entries;
      }
    }
    forall k ensures k in Keys(ts) <==> exists i :: 0 <= i < |rows| && RowKey(rows[i]) == k {
      if k in Keys(ts) {
        assert k in tb.order;
        var i :| 0 <= i < |tb.order| && tb.order[i] == k;
        assert RowKey(rows[i]) == k;
      }
    }
  }

  /** Two rows under the colliding key of `KeyCollision` merge into one product whose
      factory is the first row's. */
  lemma CollidingRowsMerge(a: Amounts<int>, b: Amounts<int>)
    ensures var ts := [Tagged("K1_A", ["B"], a), Tagged("K1", ["A_B"], b)];
      && Fold(ts).order == ["K1_A_B"]
      && Fold(ts).entries["K1_A_B"].factory == "K1_A"
      && Fold(ts).entries["K1_A_B"].code == "B"
      && Fold(ts).entries["K1_A_B"].orderCount == 2
      && Get(Fold(ts).entries["K1_A_B"].amounts, Q) == Get(a, Q) + Get(b, Q)
  {
    var ts := [Tagged("K1_A", ["B"], a), Tagged("K1", ["A_B"], b)];
    KeyCollision();
    assert Key(ts[0]) == "K1_A_B" == Key(ts[1]);
    assert ts[..1] == [ts[0]] && [ts[0]][..0] == [];
    assert Fold(ts) == Step(Fold([ts[0]]), ts[1]);
    AbsorbAmounts(Open(ts[0]), ts[1], Q);
  }

  /** The first row's date enters the set even when empty, so an empty first date followed by
      "1/5" renders as "~1/5". */
  lemma EmptyFirstDateShows()
    ensures DateRange(["", "1/5"]) == "~1/5"
  {
    assert LexLess("", "1/5");
    DateRangeExtremes(["", "1/5"]);
    assert Least(["", "1/5"]) == "";
    assert Greatest(["", "1/5"]) == "1/5";
  }
}
