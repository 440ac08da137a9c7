/** The Pareto (ABC) ranking of the dashboard: a stable sort by production quantity, largest
    first, and the running pass that attaches each row's cumulative quantity and its cumulative
    share of the total, in percent. Rows whose share is at most 80 % are the core items. */
module Pareto {

  import opened Base
  import opened Sheet
  import opened DataRoute

  function QOf(r: CostRow): int {
    r.amounts.q
  }

  /** Sum of figure f over the rows, accumulated left to right (`reduce((acc, curr) => acc + curr.f, 0)`). */
  function FieldSum(s: seq<CostRow>, f: Field): int {
    if s == [] then 0 else FieldSum(s[..|s| - 1], f) + Get(s[|s| - 1].amounts, f)
  }

  lemma {:induction false} FieldSumAppend(a: seq<CostRow>, b: seq<CostRow>, f: Field)
    ensures FieldSum(a + b, f) == FieldSum(a, f) + FieldSum(b, f)
  {
    if b == [] {
      assert a + b == a;
    } else {
      assert (a + b)[..|a + b| - 1] == a + b[..|b| - 1];
      FieldSumAppend(a, b[..|b| - 1], f);
    }
  }

  // ----- the sort: `result.sort((a, b) => b.q - a.q)` -----

  predicate SortedDesc(s: seq<CostRow>) {
    forall i, j :: 0 <= i < j < |s| ==> QOf(s[i]) >= QOf(s[j])
  }

  /** Places x after every element whose quantity is at least x's. */
  function InsertDesc(x: CostRow, s: seq<CostRow>): seq<CostRow> {
    if s == [] then [x]
    else if QOf(s[0]) < QOf(x) then [x] + s
    else [s[0]] + InsertDesc(x, s[1..])
  }

  /** Insertion adds x and keeps every other row. */
  lemma {:induction false} InsertDescPermutes(x: CostRow, s: seq<CostRow>)
    ensures |InsertDesc(x, s)| == |s| + 1
    ensures multiset(InsertDesc(x, s)) == multiset(s) + multiset{x}
  {
    if s != [] && QOf(s[0]) >= QOf(x) {
      InsertDescPermutes(x, s[1..]);
      assert s == [s[0]] + s[1..];
    }
  }

  lemma {:induction false} InsertDescSorted(x: CostRow, s: seq<CostRow>)
    requires SortedDesc(s)
    ensures SortedDesc(InsertDesc(x, s))
  {
    if s != [] && QOf(s[0]) >= QOf(x) {
      var rest := InsertDesc(x, s[1..]);
      InsertDescSorted(x, s[1..]);
      InsertDescPermutes(x, s[1..]);
      forall k | 0 <= k < |rest| ensures QOf(s[0]) >= QOf(rest[k]) {
        assert rest[k] in multiset(rest);
        if rest[k] != x {
          assert rest[k] in multiset(s[1..]);
          var m :| 0 <= m < |s[1..]| && s[1..][m] == rest[k];
          assert s[1 + m] == rest[k];
        }
      }
    }
  }

  /** The sort as JavaScript's stable `sort` performs it: stable insertion, one row at a time. */
  function SortByQ(s: seq<CostRow>): seq<CostRow> {
    if s == [] then [] else InsertDesc(s[|s| - 1], SortByQ(s[..|s| - 1]))
  }

  /** The result holds exactly the input rows. */
  lemma {:induction false} SortByQPermutes(s: seq<CostRow>)
    ensures |SortByQ(s)| == |s|
    ensures multiset(SortByQ(s)) == multiset(s)
  {
    if s != [] {
      SortByQPermutes(s[..|s| - 1]);
      InsertDescPermutes(s[|s| - 1], SortByQ(s[..|s| - 1]));
      assert s == s[..|s| - 1] + [s[|s| - 1]];
    }
  }

  /** The result is ordered by quantity, largest first. */
  lemma {:induction false} SortByQSorts(s: seq<CostRow>)
    ensures SortedDesc(SortByQ(s))
  {
    if s != [] {
      SortByQSorts(s[..|s| - 1]);
      InsertDescSorted(s[|s| - 1], SortByQ(s[..|s| - 1]));
    }
  }

  /** The rows of quantity v, in their order. */
  function WithQ(s: seq<CostRow>, v: int): seq<CostRow> {
    if s == [] then [] else (if QOf(s[0]) == v then [s[0]] else []) + WithQ(s[1..], v)
  }

  lemma {:induction false} WithQMembers(s: seq<CostRow>, v: int, x: CostRow)
    ensures x in WithQ(s, v) <==> x in s && QOf(x) == v
  {
    if s != [] {
      WithQMembers(s[1..], v, x);
      assert s == [s[0]] + s[1..];
    }
  }

  lemma {:induction false} WithQAppend(a: seq<CostRow>, b: seq<CostRow>, v: int)
    ensures WithQ(a + b, v) == WithQ(a, v) + WithQ(b, v)
  {
    if a == [] {
      assert a + b == b;
    } else {
      assert (a + b)[1..] == a[1..] + b;
      WithQAppend(a[1..], b, v);
    }
  }

  lemma {:induction false} WithQInsert(x: CostRow, t: seq<CostRow>, v: int)
    requires SortedDesc(t)
    ensures WithQ(InsertDesc(x, t), v) == WithQ(t, v) + (if QOf(x) == v then [x] else [])
  {
    if t == [] {
    } else if QOf(t[0]) < QOf(x) {
      WithQAppend([x], t, v);
      if QOf(x) == v {
        assert WithQ(t, v) == [] by {
          if WithQ(t, v) != [] {
            var y := WithQ(t, v)[0];
            WithQMembers(t, v, y);
            HeadIsLargest(t, y);
          }
        }
      }
    } else {
      WithQInsert(x, t[1..], v);
      WithQAppend([t[0]], InsertDesc(x, t[1..]), v);
      WithQAppend([t[0]], t[1..], v);
      assert [t[0]] + t[1..] == t;
    }
  }

  /** Stability: rows of equal quantity keep their input order. */
  lemma {:induction false} SortByQStable(s: seq<CostRow>, v: int)
    ensures WithQ(SortByQ(s), v) == WithQ(s, v)
  {
    if s != [] {
      var init, x := s[..|s| - 1], s[|s| - 1];
      SortByQStable(init, v);
      SortByQSorts(init);
      WithQInsert(x, SortByQ(init), v);
      WithQAppend(init, [x], v);
      assert s == init + [x];
    }
  }

  /** A stable descending sort is unique: any descending arrangement that keeps the order of
      every group of equal quantities is `SortByQ`, whichever algorithm produced it. */
  lemma StableSortIsSortByQ(s: seq<CostRow>, t: seq<CostRow>)
    requires SortedDesc(t)
    requires forall v :: WithQ(t, v) == WithQ(s, v)
    ensures t == SortByQ(s)
  {
    forall v ensures WithQ(t, v) == WithQ(SortByQ(s), v) {
      SortByQStable(s, v);
    }
    SortByQSorts(s);
    SortedStableUnique(t, SortByQ(s));
  }

  lemma {:induction false} SortedStableUnique(t: seq<CostRow>, u: seq<CostRow>)
    requires SortedDesc(t) && SortedDesc(u)
    requires forall v :: WithQ(t, v) == WithQ(u, v)
    ensures t == u
    decreases |t|
  {
    HeadHasGroup(t);
    HeadHasGroup(u);
    if t != [] && u != [] {
      HeadsAgree(t, u);
      forall v ensures WithQ(t[1..], v) == WithQ(u[1..], v) {
        TailsAgree(t, u, v);
      }
      TailSorted(t);
      TailSorted(u);
      SortedStableUnique(t[1..], u[1..]);
      assert t == [t[0]] + t[1..] && u == [u[0]] + u[1..];
    }
  }

  /** Two stable descending arrangements start with the same row. */
  lemma HeadsAgree(t: seq<CostRow>, u: seq<CostRow>)
    requires SortedDesc(t) && SortedDesc(u) && t != [] && u != []
    requires forall v :: WithQ(t, v) == WithQ(u, v)
    ensures t[0] == u[0]
  {
    var a, b := QOf(t[0]), QOf(u[0]);
    assert WithQ(t, a)[0] == t[0] && WithQ(u, b)[0] == u[0];
    WithQMembers(u, a, t[0]);
    WithQMembers(t, b, u[0]);
    HeadIsLargest(u, t[0]);
    HeadIsLargest(t, u[0]);
    assert WithQ(t, a) == WithQ(u, a);
  }

  lemma TailSorted(t: seq<CostRow>)
    requires SortedDesc(t) && t != []
    ensures SortedDesc(t[1..])
  {
    forall i, j | 0 <= i < j < |t[1..]| ensures QOf(t[1..][i]) >= QOf(t[1..][j]) {
      assert t[1..][i] == t[i + 1] && t[1..][j] == t[j + 1];
    }
  }

  lemma HeadHasGroup(s: seq<CostRow>)
    ensures s != [] ==> WithQ(s, QOf(s[0])) != []
  {
  }

  lemma TailsAgree(t: seq<CostRow>, u: seq<CostRow>, v: int)
    requires t != [] && u != [] && t[0] == u[0]
    requires WithQ(t, v) == WithQ(u, v)
    ensures WithQ(t[1..], v) == WithQ(u[1..], v)
  {
    if QOf(t[0]) == v {
      assert WithQ(t[1..], v) == WithQ(t, v)[1..];
      assert WithQ(u[1..], v) == WithQ(u, v)[1..];
    } else {
      assert WithQ(t[1..], v) == WithQ(t, v);
      assert WithQ(u[1..], v) == WithQ(u, v);
    }
  }

  lemma HeadIsLargest(s: seq<CostRow>, x: CostRow)
    requires SortedDesc(s) && x in s
    ensures QOf(s[0]) >= QOf(x)
  {
    var m :| 0 <= m < |s| && s[m] == x;
    if m > 0 {
      assert QOf(s[0]) >= QOf(s[m]);
    }
  }

  /** Sorting moves rows but changes no sum. */
  lemma {:induction false} SortPreservesSums(s: seq<CostRow>, f: Field)
    ensures FieldSum(SortByQ(s), f) == FieldSum(s, f)
  {
    if s != [] {
      var init, x := s[..|s| - 1], s[|s| - 1];
      SortPreservesSums(init, f);
      assert s == init + [x];
      InsertDescSum(x, SortByQ(init), f);
    }
  }

  lemma {:induction false} InsertDescSum(x: CostRow, t: seq<CostRow>, f: Field)
    ensures FieldSum(InsertDesc(x, t), f) == FieldSum(t, f) + Get(x.amounts, f)
  {
    if t == [] {
      assert [x][..0] == [];
    } else if QOf(t[0]) < QOf(x) {
      FieldSumAppend([x], t, f);
      assert [x][..0] == [];
    } else {
      InsertDescSum(x, t[1..], f);
      FieldSumAppend([t[0]], InsertDesc(x, t[1..]), f);
      FieldSumAppend([t[0]], t[1..], f);
      assert [t[0]] + t[1..] == t;
    }
  }

  /** Inserting at j, the first place whose predecessor is not smaller and whose successors all are. */
  lemma {:induction false} InsertDescAt(x: CostRow, s: seq<CostRow>, j: nat)
    requires SortedDesc(s) && j <= |s|
    requires j > 0 ==> QOf(s[j - 1]) >= QOf(x)
    requires forall k :: j <= k < |s| ==> QOf(s[k]) < QOf(x)
    ensures InsertDesc(x, s) == s[..j] + [x] + s[j..]
  {
    if j == 0 {
      assert s[j..] == s;
    } else {
      assert QOf(s[0]) >= QOf(s[j - 1]);
      InsertDescAt(x, s[1..], j - 1);
      assert s[1..][..j - 1] == s[1..j] && s[1..][j - 1..] == s[j..];
      calc {
        InsertDesc(x, s);
        [s[0]] + InsertDesc(x, s[1..]);
        [s[0]] + (s[1..j] + [x] + s[j..]);
        ([s[0]] + s[1..j]) + [x] + s[j..];
        { assert s[..j] == [s[0]] + s[1..j]; }
        s[..j] + [x] + s[j..];
      }
    }
  }

  /** `Array.prototype.sort` with comparator `(a, b) => b.q - a.q`, in place. */
  method SortByQInPlace(a: array<CostRow>)
    modifies a
    ensures a[..] == SortByQ(old(a[..]))
  {
    ghost var input := a[..];
    var i := 0;
    while i < a.Length
      invariant 0 <= i <= a.Length
      invariant a[..i] == SortByQ(input[..i])
      invariant a[i..] == input[i..]
    {
      SortByQSorts(input[..i]);
      InsertLast(a, i);
      assert input[..i + 1][..i] == input[..i] && input[..i + 1][i] == input[i];
      i := i + 1;
    }
    assert a[..] == a[..i] && input[..i] == input;
  }

  /** Moves a[i] left past the smaller rows of the descending prefix a[..i]. */
  method InsertLast(a: array<CostRow>, i: nat)
    requires i < a.Length && SortedDesc(a[..i])
    modifies a
    ensures a[..i + 1] == InsertDesc(old(a[i]), old(a[..i]))
    ensures a[i + 1..] == old(a[i + 1..])
  {
    var x := a[i];
    ghost var sorted := a[..i];
    var j := ShiftSmaller(a, i);
    a[j] := x;
    InsertDescAt(x, sorted, j);
    assert a[..i + 1] == sorted[..j] + [x] + sorted[j..] by {
      forall k | 0 <= k < i + 1
        ensures a[k] == (sorted[..j] + [x] + sorted[j..])[k]
      {
        SpliceIndex(sorted, x, j, k);
      }
    }
  }

  /** The shifting loop: rows before position i with a smaller quantity than a[i] move one to
      the right, and the returned j is the hole left for a[i]. */
  method ShiftSmaller(a: array<CostRow>, i: nat) returns (j: nat)
    requires i < a.Length
    modifies a
    ensures j <= i
    ensures forall k :: 0 <= k < j ==> a[k] == old(a[k])
    ensures forall k :: j < k <= i ==> a[k] == old(a[k - 1])
    ensures forall k :: i < k < a.Length ==> a[k] == old(a[k])
    ensures forall k :: j <= k < i ==> QOf(old(a[k])) < QOf(old(a[i]))
    ensures j > 0 ==> QOf(old(a[j - 1])) >= QOf(old(a[i]))
  {
    var x := a[i];
    j := i;
    while j > 0 && QOf(a[j - 1]) < QOf(x)
      invariant 0 <= j <= i
      invariant forall k :: 0 <= k < j ==> a[k] == old(a[k])
      invariant forall k :: j < k <= i ==> a[k] == old(a[k - 1])
      invariant forall k :: i < k < a.Length ==> a[k] == old(a[k])
      invariant forall k :: j <= k < i ==> QOf(old(a[k])) < QOf(x)
    {
      a[j] := a[j - 1];
      j := j - 1;
    }
  }

  lemma SpliceIndex<T>(s: seq<T>, x: T, j: nat, k: nat)
    requires j <= |s| && k <= |s|
    ensures (s[..j] + [x] + s[j..])[k] == if k < j then s[k] else if k == j then x else s[k - 1]
  {
  }

  // ----- the cumulative pass -----

  /** A row of the ranked view: the product with its running quantity and running share. */
  datatype ParetoRow = ParetoRow(row: CostRow, cumulativeQ: int, cumulativeRatio: real)

  /** `totalQ === 0 ? 0 : (currentCumulativeQ / totalQ) * 100`, in exact arithmetic. */
  function Ratio(cumulative: int, total: int): real {
    if total == 0 then 0.0 else (cumulative as real) / (total as real) * 100.0
  }

  /** `out` is `rows` with every row's running sum of quantities and its share of the total. */
  predicate IsParetoOf(rows: seq<CostRow>, out: seq<ParetoRow>) {
    && |out| == |rows|
    && forall i :: 0 <= i < |out| ==>
         out[i] == ParetoRow(rows[i], FieldSum(rows[..i + 1], Q), Ratio(FieldSum(rows[..i + 1], Q), FieldSum(rows, Q)))
  }

  /** The `map` whose callback advances `currentCumulativeQ`. */
  method Cumulate(rows: seq<CostRow>) returns (out: seq<ParetoRow>)
    ensures IsParetoOf(rows, out)
  {
    var totalQ := FieldSum(rows, Q);
    var current := 0;
    out := [];
    var i := 0;
    while i < |rows|
      invariant 0 <= i <= |rows|
      invariant current == FieldSum(rows[..i], Q)
      invariant |out| == i
      invariant forall k :: 0 <= k < i ==>
        out[k] == ParetoRow(rows[k], FieldSum(rows[..k + 1], Q), Ratio(FieldSum(rows[..k + 1], Q), totalQ))
    {
      assert rows[..i + 1][..i] == rows[..i];
      current := current + QOf(rows[i]);
      out := out + [ParetoRow(rows[i], current, Ratio(current, totalQ))];
      i := i + 1;
    }
  }

  predicate NonNegative(rows: seq<CostRow>) {
    forall i :: 0 <= i < |rows| ==> QOf(rows[i]) >= 0
  }

  /** With no negative quantities the running sums grow towards the total. */
  lemma {:induction false} PrefixSumsGrow(rows: seq<CostRow>, i: nat, j: nat)
    requires NonNegative(rows) && i <= j <= |rows|
    ensures 0 <= FieldSum(rows[..i], Q) <= FieldSum(rows[..j], Q)
    decreases j, i
  {
    if i < j {
      PrefixSumsGrow(rows, i, j - 1);
      assert rows[..j][..j - 1] == rows[..j - 1];
    } else if i > 0 {
      PrefixSumsGrow(rows, 0, i);
    }
  }

  lemma RatioMonotone(c: int, d: int, t: int)
    requires 0 <= c <= d <= t
    ensures 0.0 <= Ratio(c, t) <= Ratio(d, t) <= 100.0
  {
    if t != 0 {
      var tr := t as real;
      assert (c as real) / tr <= (d as real) / tr;
      assert (d as real) / tr <= 1.0;
    }
  }

  /** Shares lie between 0 and 100 and never decrease down the list (for non-negative quantities). */
  lemma RatiosBoundedAndMonotone(rows: seq<CostRow>, out: seq<ParetoRow>, i: nat, j: nat)
    requires IsParetoOf(rows, out) && NonNegative(rows) && i <= j < |out|
    ensures 0.0 <= out[i].cumulativeRatio <= out[j].cumulativeRatio <= 100.0
  {
    PrefixSumsGrow(rows, i + 1, j + 1);
    PrefixSumsGrow(rows, j + 1, |rows|);
    assert rows[..|rows|] == rows;
    RatioMonotone(FieldSum(rows[..i + 1], Q), FieldSum(rows[..j + 1], Q), FieldSum(rows, Q));
  }

  /** The last running sum is the total, so a non-zero total ends at exactly 100 %. */
  lemma LastIsTotal(rows: seq<CostRow>, out: seq<ParetoRow>)
    requires IsParetoOf(rows, out) && out != []
    ensures out[|out| - 1].cumulativeQ == FieldSum(rows, Q)
    ensures FieldSum(rows, Q) != 0 ==> out[|out| - 1].cumulativeRatio == 100.0
  {
    assert rows[..|rows|] == rows;
    var t := FieldSum(rows, Q) as real;
    if t != 0.0 {
      assert t / t == 1.0;
    }
  }

  /** A zero total makes every share 0. */
  lemma ZeroTotalZeroRatios(rows: seq<CostRow>, out: seq<ParetoRow>, i: nat)
    requires IsParetoOf(rows, out) && FieldSum(rows, Q) == 0 && i < |out|
    ensures out[i].cumulativeRatio == 0.0
  {
  }

  /** `isCoreItem`: the row's running share is at most 80 %. */
  predicate IsCoreItem(p: ParetoRow) {
    p.cumulativeRatio <= 80.0
  }

  /** Core items form a prefix of the ranked list (for non-negative quantities). */
  lemma CoreItemsArePrefix(rows: seq<CostRow>, out: seq<ParetoRow>, i: nat, j: nat)
    requires IsParetoOf(rows, out) && NonNegative(rows) && i <= j < |out|
    requires IsCoreItem(out[j])
    ensures IsCoreItem(out[i])
  {
    RatiosBoundedAndMonotone(rows, out, i, j);
  }
}
