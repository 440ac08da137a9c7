/** String operations the routes and the page rely on: `s.split(c)[0]`,
    character removal by regular expression (`replace(/[...]/g, '')`), JavaScript's
    `\s` class, and the default ordering `Array.prototype.sort()` applies to strings. */
module Text {

  import opened Base

  /** `s.split(c)[0]`: the text before the first `c`, or the whole of `s` when `c` does not occur. */
  function BeforeFirst(s: string, c: char): (r: string)
    ensures c !in r
    ensures r <= s
    ensures c in s ==> |r| < |s| && s[|r|] == c
    ensures c !in s ==> r == s
  {
    if s == [] then [] else if s[0] == c then [] else [s[0]] + BeforeFirst(s[1..], c)
  }

  /** JavaScript's `\s`: the white-space and line-terminator characters of ECMAScript. */
  predicate IsJsSpace(c: char) {
    c == ' ' || c == '\t' || c == '\n' || c == '\r' || c == '\U{B}' || c == '\U{C}'
    || c == '\U{A0}' || c == '\U{1680}' || ('\U{2000}' <= c <= '\U{200A}')
    || c == '\U{2028}' || c == '\U{2029}' || c == '\U{202F}' || c == '\U{205F}'
    || c == '\U{3000}' || c == '\U{FEFF}'
  }

  /** `s.trimStart()`: leading white space removed. */
  function TrimStart(s: string): (r: string)
    ensures |r| <= |s| && r == s[|s| - |r|..]
    ensures forall k :: 0 <= k < |s| - |r| ==> IsJsSpace(s[k])
    ensures r == [] || !IsJsSpace(r[0])
  {
    if s != [] && IsJsSpace(s[0]) then TrimStart(s[1..]) else s
  }

  /** `s.trimEnd()`: trailing white space removed. */
  function TrimEnd(s: string): (r: string)
    ensures r <= s
    ensures forall k :: |r| <= k < |s| ==> IsJsSpace(s[k])
    ensures r == [] || !IsJsSpace(r[|r| - 1])
  {
    if s != [] && IsJsSpace(s[|s| - 1]) then TrimEnd(s[..|s| - 1]) else s
  }

  /** `s.trim()`, as `Number` applies it before reading a numeral. */
  function Trim(s: string): (r: string)
    ensures r == [] || (!IsJsSpace(r[0]) && !IsJsSpace(r[|r| - 1]))
    ensures |r| <= |s|
  {
    TrimEnd(TrimStart(s))
  }

  /** A string that neither begins nor ends with white space is its own trim. */
  lemma TrimUnchanged(s: string)
    requires s == [] || (!IsJsSpace(s[0]) && !IsJsSpace(s[|s| - 1]))
    ensures Trim(s) == s
  {
  }

  predicate AllJsSpace(s: string) {
    forall k :: 0 <= k < |s| ==> IsJsSpace(s[k])
  }

  /** Leading white space before a text that starts with a non-space is dropped, and nothing else. */
  lemma {:induction false} TrimStartPadded(pre: string, s: string)
    requires AllJsSpace(pre)
    requires s == [] || !IsJsSpace(s[0])
    ensures TrimStart(pre + s) == s
  {
    if pre != [] {
      assert (pre + s)[1..] == pre[1..] + s;
      TrimStartPadded(pre[1..], s);
    }
  }

  /** Trailing white space after a text that ends with a non-space is dropped, and nothing else. */
  lemma {:induction false} TrimEndPadded(s: string, post: string)
    requires AllJsSpace(post)
    requires s == [] || !IsJsSpace(s[|s| - 1])
    ensures TrimEnd(s + post) == s
  {
    if post != [] {
      var init := post[..|post| - 1];
      assert (s + post)[..|s + post| - 1] == s + init;
      TrimEndPadded(s, init);
    }
  }

  /** `trim()` removes exactly the white space padding a text that is its own trim. */
  lemma TrimPadded(pre: string, s: string, post: string)
    requires AllJsSpace(pre) && AllJsSpace(post)
    requires s == [] || (!IsJsSpace(s[0]) && !IsJsSpace(s[|s| - 1]))
    ensures Trim(pre + s + post) == s
  {
    assert pre + s + post == pre + (s + post);
    if s == [] {
      assert pre + s + post == pre + post;
      TrimStartBlank(pre + post);
    } else {
      TrimStartPadded(pre, s + post);
      TrimEndPadded(s, post);
    }
  }

  lemma {:induction false} TrimStartBlank(s: string)
    requires AllJsSpace(s)
    ensures TrimStart(s) == []
  {
    if s != [] {
      TrimStartBlank(s[1..]);
    }
  }

  /** `s.replace(/[^p]/g, '')`: the characters of `s` that satisfy `p`, in order. */
  function Keep(s: string, p: char -> bool): (r: string)
    ensures |r| <= |s|
    ensures forall i :: 0 <= i < |r| ==> p(r[i])
  {
    if s == [] then [] else (if p(s[0]) then [s[0]] else []) + Keep(s[1..], p)
  }

  /** Exactly the characters of `s` that satisfy `p` survive. */
  lemma {:induction false} KeepMembers(s: string, p: char -> bool, c: char)
    ensures c in Keep(s, p) <==> c in s && p(c)
  {
    if s != [] {
      KeepMembers(s[1..], p, c);
      assert c in s <==> c == s[0] || c in s[1..];
    }
  }

  /** Keeping by a predicate is a homomorphism of concatenation. */
  lemma {:induction false} KeepAppend(a: string, b: string, p: char -> bool)
    ensures Keep(a + b, p) == Keep(a, p) + Keep(b, p)
  {
    if a == [] {
      assert a + b == b;
    } else {
      assert (a + b)[1..] == a[1..] + b;
      KeepAppend(a[1..], b, p);
    }
  }

  /** Removal is idempotent: characters already kept are kept again. */
  lemma {:induction false} KeepIdempotent(s: string, p: char -> bool)
    ensures Keep(Keep(s, p), p) == Keep(s, p)
  {
    if s != [] {
      KeepIdempotent(s[1..], p);
      if p(s[0]) {
        var k := Keep(s, p);
        assert k == [s[0]] + Keep(s[1..], p);
        assert k[1..] == Keep(s[1..], p);
        assert Keep(k, p) == [s[0]] + Keep(k[1..], p);
      } else {
        assert Keep(s, p) == Keep(s[1..], p);
      }
    }
  }

  /** A string none of whose characters is removed is left as it is. */
  lemma {:induction false} KeepUnchanged(s: string, p: char -> bool)
    requires forall i :: 0 <= i < |s| ==> p(s[i])
    ensures Keep(s, p) == s
  {
    if s != [] {
      KeepUnchanged(s[1..], p);
    }
  }

  /** A string none of whose characters satisfies `p` is removed entirely. */
  lemma KeepNone(s: string, p: char -> bool)
    requires forall i :: 0 <= i < |s| ==> !p(s[i])
    ensures Keep(s, p) == []
  {
    if Keep(s, p) != [] {
      KeepMembers(s, p, Keep(s, p)[0]);
    }
  }

  // ----- the default string order of Array.prototype.sort() -----

  /** Strict lexicographic order on character codes. */
  predicate LexLess(a: string, b: string) {
    if a == [] then b != []
    else if b == [] then false
    else if a[0] != b[0] then a[0] < b[0]
    else LexLess(a[1..], b[1..])
  }

  predicate LexLe(a: string, b: string) {
    a == b || LexLess(a, b)
  }

  lemma {:induction false} LexIrreflexive(a: string)
    ensures !LexLess(a, a)
  {
    if a != [] {
      LexIrreflexive(a[1..]);
    }
  }

  lemma {:induction false} LexAsymmetric(a: string, b: string)
    ensures !(LexLess(a, b) && LexLess(b, a))
  {
    if a != [] && b != [] && a[0] == b[0] {
      LexAsymmetric(a[1..], b[1..]);
    }
  }

  lemma {:induction false} LexTotal(a: string, b: string)
    ensures LexLess(a, b) || a == b || LexLess(b, a)
  {
    if a != [] && b != [] && a[0] == b[0] {
      LexTotal(a[1..], b[1..]);
      if a[1..] == b[1..] {
        assert a == [a[0]] + a[1..] && b == [b[0]] + b[1..];
      }
    }
  }

  lemma {:induction false} LexTransitive(a: string, b: string, c: string)
    requires LexLess(a, b) && LexLess(b, c)
    ensures LexLess(a, c)
  {
    if a != [] && a[0] == b[0] && b[0] == c[0] {
      LexTransitive(a[1..], b[1..], c[1..]);
    }
  }

  lemma LexLeTransitive(a: string, b: string, c: string)
    requires LexLe(a, b) && LexLe(b, c)
    ensures LexLe(a, c)
  {
    if LexLess(a, b) && LexLess(b, c) {
      LexTransitive(a, b, c);
    }
  }

  predicate SortedStrings(s: seq<string>) {
    forall i, j :: 0 <= i < j < |s| ==> LexLe(s[i], s[j])
  }

  /** Places x before the first element not below it. */
  function InsertString(x: string, s: seq<string>): seq<string> {
    if s == [] then [x]
    else if LexLe(x, s[0]) then [x] + s
    else [s[0]] + InsertString(x, s[1..])
  }

  lemma {:induction false} InsertStringFacts(x: string, s: seq<string>)
    requires SortedStrings(s)
    ensures SortedStrings(InsertString(x, s))
    ensures multiset(InsertString(x, s)) == multiset(s) + multiset{x}
  {
    InsertStringPermutes(x, s);
    InsertStringSorted(x, s);
  }

  lemma {:induction false} InsertStringPermutes(x: string, s: seq<string>)
    ensures multiset(InsertString(x, s)) == multiset(s) + multiset{x}
  {
    if s != [] && !LexLe(x, s[0]) {
      InsertStringPermutes(x, s[1..]);
      assert s == [s[0]] + s[1..];
    }
  }

  lemma {:induction false} InsertStringSorted(x: string, s: seq<string>)
    requires SortedStrings(s)
    ensures SortedStrings(InsertString(x, s))
  {
    if s == [] {
    } else if LexLe(x, s[0]) {
      forall i, j | 0 <= i < j < |[x] + s| ensures LexLe(([x] + s)[i], ([x] + s)[j]) {
        if i == 0 && j > 1 {
          LexLeTransitive(x, s[0], s[j - 1]);
        }
      }
    } else {
      var rest := InsertString(x, s[1..]);
      InsertStringSorted(x, s[1..]);
      LexTotal(x, s[0]);
      InsertStringBounded(x, s[1..], s[0]);
      ConsSorted(s[0], rest);
    }
  }

  /** A lower bound of x and of every element of s bounds every element of the insertion. */
  lemma {:induction false} InsertStringBounded(x: string, s: seq<string>, lo: string)
    requires LexLe(lo, x)
    requires forall k :: 0 <= k < |s| ==> LexLe(lo, s[k])
    ensures forall k :: 0 <= k < |InsertString(x, s)| ==> LexLe(lo, InsertString(x, s)[k])
  {
    if s != [] && !LexLe(x, s[0]) {
      InsertStringBounded(x, s[1..], lo);
      var rest := InsertString(x, s[1..]);
      forall k | 0 <= k < |[s[0]] + rest| ensures LexLe(lo, ([s[0]] + rest)[k]) {
        if k > 0 {
          assert ([s[0]] + rest)[k] == rest[k - 1];
        }
      }
    } else if s != [] {
      forall k | 0 <= k < |[x] + s| ensures LexLe(lo, ([x] + s)[k]) {
        if k > 0 {
          assert ([x] + s)[k] == s[k - 1];
        }
      }
    }
  }

  /** A sorted sequence stays sorted below a lower bound of all its elements. */
  lemma ConsSorted(y: string, s: seq<string>)
    requires SortedStrings(s)
    requires forall k :: 0 <= k < |s| ==> LexLe(y, s[k])
    ensures SortedStrings([y] + s)
  {
    forall i, j | 0 <= i < j < |[y] + s| ensures LexLe(([y] + s)[i], ([y] + s)[j]) {
      assert ([y] + s)[j] == s[j - 1];
      if i > 0 {
        assert ([y] + s)[i] == s[i - 1];
      }
    }
  }

  /** `Array.prototype.sort()` on strings, written as insertion sort. */
  function SortStrings(s: seq<string>): (r: seq<string>)
    ensures SortedStrings(r)
    ensures multiset(r) == multiset(s)
    ensures |r| == |s|
  {
    if s == [] then []
    else
      var rest := SortStrings(s[..|s| - 1]);
      InsertStringFacts(s[|s| - 1], rest);
      assert s == s[..|s| - 1] + [s[|s| - 1]];
      assert |multiset(InsertString(s[|s| - 1], rest))| == |multiset(s)|;
      InsertString(s[|s| - 1], rest)
  }

  /** A sorted sequence begins at a least element and ends at a greatest one. */
  lemma SortedEnds(s: seq<string>, i: nat)
    requires SortedStrings(s) && i < |s|
    ensures LexLe(s[0], s[i]) && LexLe(s[i], s[|s| - 1])
  {
  }

  /** Sorting distinct strings gives a strictly ascending sequence. */
  lemma SortedDistinctIsStrict(s: seq<string>, i: nat, j: nat)
    requires NoDups(s)
    requires i < j < |SortStrings(s)|
    ensures LexLess(SortStrings(s)[i], SortStrings(s)[j])
  {
    var r := SortStrings(s);
    if r[i] == r[j] {
      RepeatCount(r, i, j);
      DistinctCount(s, r[i]);
      assert false;
    }
  }

  predicate StrictlyAscending(s: seq<string>) {
    forall i, j :: 0 <= i < j < |s| ==> LexLess(s[i], s[j])
  }

  /** Sorting distinct strings gives a strictly ascending sequence: each string appears once. */
  lemma SortStringsStrict(s: seq<string>)
    requires NoDups(s)
    ensures StrictlyAscending(SortStrings(s))
  {
    forall i, j | 0 <= i < j < |SortStrings(s)| ensures LexLess(SortStrings(s)[i], SortStrings(s)[j]) {
      SortedDistinctIsStrict(s, i, j);
    }
  }

  lemma RepeatCount(r: seq<string>, i: nat, j: nat)
    requires i < j < |r| && r[i] == r[j]
    ensures multiset(r)[r[i]] >= 2
  {
    assert r == r[..j] + r[j..];
    assert multiset(r) == multiset(r[..j]) + multiset(r[j..]);
    assert r[i] == r[..j][i];
    assert r[j] == r[j..][0];
  }

  lemma {:induction false} DistinctCount(s: seq<string>, x: string)
    requires NoDups(s)
    ensures multiset(s)[x] <= 1
  {
    if s != [] {
      assert s == [s[0]] + s[1..];
      DistinctCount(s[1..], x);
      if s[0] == x {
        assert x !in s[1..];
      }
    }
  }

  /** The least string of a non-empty sequence (the first element after sorting). */
  function Least(s: seq<string>): (m: string)
    requires s != []
    ensures m in s && forall x :: x in s ==> LexLe(m, x)
  {
    if |s| == 1 then s[0]
    else
      var m := Least(s[1..]);
      LexTotal(s[0], m);
      assert forall x :: x in s ==> x == s[0] || x in s[1..];
      if LexLess(s[0], m) then
        assert forall x :: x in s[1..] ==> LexLe(s[0], x) by {
          forall x | x in s[1..] ensures LexLe(s[0], x) { LexLeTransitive(s[0], m, x); }
        }
        s[0]
      else m
  }

  /** The greatest string of a non-empty sequence (the last element after sorting). */
  function Greatest(s: seq<string>): (m: string)
    requires s != []
    ensures m in s && forall x :: x in s ==> LexLe(x, m)
  {
    if |s| == 1 then s[0]
    else
      var m := Greatest(s[1..]);
      LexTotal(s[0], m);
      assert forall x :: x in s ==> x == s[0] || x in s[1..];
      if LexLess(m, s[0]) then
        assert forall x :: x in s[1..] ==> LexLe(x, s[0]) by {
          forall x | x in s[1..] ensures LexLe(x, s[0]) { LexLeTransitive(x, m, s[0]); }
        }
        s[0]
      else m
  }

  /** Two strings each at most the other are equal. */
  lemma LexAntisymmetric(a: string, b: string)
    requires LexLe(a, b) && LexLe(b, a)
    ensures a == b
  {
    LexAsymmetric(a, b);
  }

  lemma SameMembers(r: seq<string>, s: seq<string>)
    requires multiset(r) == multiset(s)
    ensures forall x :: x in r <==> x in s
  {
    forall x ensures x in r <==> x in s {
      assert x in r <==> x in multiset(r);
      assert x in s <==> x in multiset(s);
    }
  }

  /** After sorting, the first element is the least and the last the greatest. */
  lemma SortedEndsAreExtremes(s: seq<string>)
    requires s != []
    ensures SortStrings(s)[0] == Least(s)
    ensures SortStrings(s)[|s| - 1] == Greatest(s)
  {
    var r := SortStrings(s);
    var lo, hi := Least(s), Greatest(s);
    assert |r| == |s|;
    SameMembers(r, s);
    assert lo in r && hi in r;
    FirstIsLeast(r, lo);
    LastIsGreatest(r, hi);
  }

  lemma FirstIsLeast(r: seq<string>, lo: string)
    requires SortedStrings(r) && lo in r && r != []
    requires forall x :: x in r ==> LexLe(lo, x)
    ensures r[0] == lo
  {
    var a :| 0 <= a < |r| && r[a] == lo;
    SortedEnds(r, a);
    LexAntisymmetric(r[0], lo);
  }

  lemma LastIsGreatest(r: seq<string>, hi: string)
    requires SortedStrings(r) && hi in r && r != []
    requires forall x :: x in r ==> LexLe(x, hi)
    ensures r[|r| - 1] == hi
  {
    var b :| 0 <= b < |r| && r[b] == hi;
    SortedEnds(r, b);
    LexAntisymmetric(r[|r| - 1], hi);
  }
}
