/** Shared vocabulary: optional values, the order Python gives strings, and stable sorting. */
module Base {

  datatype Option<+T> = None | Some(value: T)

  /** Timestamps are integer microseconds, the resolution of a Python datetime. */
  const SECOND := 1_000_000
  const MINUTE := 60 * SECOND

  /** Python truthiness of an optional string: None and "" are both false. */
  predicate Truthy(s: Option<string>) {
    s.Some? && s.value != ""
  }

  function Min(x: int, y: int): int {
    if x <= y then x else y
  }

  function Max(x: int, y: int): int {
    if x >= y then x else y
  }

  /** Lexicographic order by code point, as Python and the database compare ids. */
  predicate LessEq(a: string, b: string) {
    a == "" || (b != "" && (a[0] < b[0] || (a[0] == b[0] && LessEq(a[1..], b[1..]))))
  }

  predicate Less(a: string, b: string) {
    a != b && LessEq(a, b)
  }

  lemma {:induction false} LessEqTotal(a: string, b: string)
    ensures LessEq(a, b) || LessEq(b, a)
  {
    if a != "" && b != "" && a[0] == b[0] {
      LessEqTotal(a[1..], b[1..]);
    }
  }

  lemma {:induction false} LessEqAntisymmetric(a: string, b: string)
    requires LessEq(a, b) && LessEq(b, a)
    ensures a == b
  {
    if a != "" {
      LessEqAntisymmetric(a[1..], b[1..]);
      assert a == [a[0]] + a[1..] && b == [b[0]] + b[1..];
    }
  }

  lemma {:induction false} LessEqTransitive(a: string, b: string, c: string)
    requires LessEq(a, b) && LessEq(b, c)
    ensures LessEq(a, c)
  {
    if a != "" && a[0] == b[0] == c[0] {
      LessEqTransitive(a[1..], b[1..], c[1..]);
    }
  }

  /** `a` comes before `b`: it is a proper prefix, or the first character that differs is the smaller one. */
  predicate Ahead(a: string, b: string, k: nat) {
    && k <= |a| && k < |b| && (forall i :: 0 <= i < k ==> a[i] == b[i])
    && (k < |a| ==> a[k] < b[k])
  }

  lemma {:induction false} LessAhead(a: string, b: string) returns (k: nat)
    requires Less(a, b)
    ensures Ahead(a, b, k)
  {
    k := 0;
    if a != "" && a[0] == b[0] {
      assert a == [a[0]] + a[1..] && b == [b[0]] + b[1..];
      var n := LessAhead(a[1..], b[1..]);
      k := n + 1;
    }
  }

  lemma {:induction false} AheadLess(a: string, b: string, k: nat)
    requires Ahead(a, b, k)
    ensures Less(a, b)
    decreases k
  {
    if k == 0 {
    } else {
      AheadLess(a[1..], b[1..], k - 1);
    }
  }

  /** The order of ids, character by character. */
  lemma LessIff(a: string, b: string)
    ensures Less(a, b) <==> exists k: nat :: Ahead(a, b, k)
  {
    if Less(a, b) {
      var k := LessAhead(a, b);
    }
    if k: nat :| Ahead(a, b, k) {
      AheadLess(a, b, k);
    }
  }

  // ---- Strings (ASCII case mapping) ----------------------------------------------------------

  function LowerChar(c: char): char {
    if 'A' <= c <= 'Z' then (c as int + 32) as char else c
  }

  function UpperChar(c: char): char {
    if 'a' <= c <= 'z' then (c as int - 32) as char else c
  }

  function Lower(s: string): string {
    seq(|s|, i requires 0 <= i < |s| => LowerChar(s[i]))
  }

  function Upper(s: string): string {
    seq(|s|, i requires 0 <= i < |s| => UpperChar(s[i]))
  }

  /** Only the 26 letters change, each to its other case. */
  lemma CaseIs(s: string, i: nat)
    requires i < |s|
    ensures |Lower(s)| == |Upper(s)| == |s|
    ensures Lower(s)[i] == (if 'A' <= s[i] <= 'Z' then (s[i] as int - 'A' as int + 'a' as int) as char else s[i])
    ensures Upper(s)[i] == (if 'a' <= s[i] <= 'z' then (s[i] as int - 'a' as int + 'A' as int) as char else s[i])
  {
  }

  /** The text has the needle somewhere in it. */
  predicate Contains(text: string, needle: string) {
    needle <= text || (text != "" && Contains(text[1..], needle))
  }

  lemma {:induction false} ContainsIff(text: string, needle: string)
    ensures Contains(text, needle) <==> exists k :: 0 <= k <= |text| && needle <= text[k..]
    decreases |text|
  {
    assert text[0..] == text;
    if k :| 0 <= k <= |text| && needle <= text[k..] {
      ContainsAt(text, needle, k);
    }
    if text != "" && Contains(text[1..], needle) {
      ContainsIff(text[1..], needle);
      var k :| 0 <= k <= |text[1..]| && needle <= text[1..][k..];
      assert text[1..][k..] == text[k + 1..];
    }
  }

  lemma {:induction false} ContainsAt(text: string, needle: string, k: nat)
    requires k <= |text| && needle <= text[k..]
    ensures Contains(text, needle)
    decreases k
  {
    if k == 0 {
      assert text[0..] == text;
    } else {
      assert text[1..][k - 1..] == text[k..];
      ContainsAt(text[1..], needle, k - 1);
    }
  }

  /** The elements to keep, in their order. */
  function Filter<T>(s: seq<T>, keep: T -> bool): (r: seq<T>)
    ensures |r| <= |s|
    ensures forall x :: x in r ==> x in s && keep(x)
    ensures forall x :: x in s && keep(x) ==> x in r
  {
    if s == [] then []
    else
      var n := |s| - 1;
      assert s == s[..n] + [s[n]];
      Filter(s[..n], keep) + if keep(s[n]) then [s[n]] else []
  }

  lemma {:induction false} FilterAppend<T>(s: seq<T>, t: seq<T>, keep: T -> bool)
    ensures Filter(s + t, keep) == Filter(s, keep) + Filter(t, keep)
  {
    if t == [] {
      assert s + t == s;
    } else {
      var n := |t| - 1;
      assert (s + t)[..|s + t| - 1] == s + t[..n];
      FilterAppend(s, t[..n], keep);
    }
  }

  lemma FilterNone<T>(s: seq<T>, keep: T -> bool)
    requires forall x :: x in s ==> !keep(x)
    ensures Filter(s, keep) == []
  {
  }

  lemma {:induction false} FilterAll<T>(s: seq<T>, keep: T -> bool)
    requires forall x :: x in s ==> keep(x)
    ensures Filter(s, keep) == s
  {
    if s == [] {
    } else {
      var n := |s| - 1;
      assert s == s[..n] + [s[n]];
      FilterAll(s[..n], keep);
    }
  }

  lemma {:induction false} FilterSame<T>(s: seq<T>, p: T -> bool, q: T -> bool)
    requires forall x :: x in s ==> p(x) == q(x)
    ensures Filter(s, p) == Filter(s, q)
  {
    if s == [] {
    } else {
      var n := |s| - 1;
      assert s == s[..n] + [s[n]];
      FilterSame(s[..n], p, q);
    }
  }

  /** Two positions of a filtered sequence come from two positions of the original, in order. */
  lemma {:induction false} FilterPositions<T>(s: seq<T>, keep: T -> bool, i: int, j: int) returns (x: int, y: int)
    requires 0 <= i < j < |Filter(s, keep)|
    ensures 0 <= x < y < |s| && s[x] == Filter(s, keep)[i] && s[y] == Filter(s, keep)[j]
    ensures keep(s[x]) && keep(s[y])
  {
    var n := |s| - 1;
    var f := Filter(s[..n], keep);
    if j < |f| {
      x, y := FilterPositions(s[..n], keep, i, j);
    } else {
      assert f[i] in f;
      assert f[i] in s[..n];
      x :| 0 <= x < n && s[x] == f[i];
      y := n;
    }
  }

  /** Two kept positions survive filtering, in order. */
  lemma {:induction false} FilterKeeps<T>(s: seq<T>, keep: T -> bool, i: int, j: int) returns (x: int, y: int)
    requires 0 <= i < j < |s| && keep(s[i]) && keep(s[j])
    ensures 0 <= x < y < |Filter(s, keep)| && Filter(s, keep)[x] == s[i] && Filter(s, keep)[y] == s[j]
  {
    var n := |s| - 1;
    var f := Filter(s[..n], keep);
    if j < n {
      x, y := FilterKeeps(s[..n], keep, i, j);
    } else {
      assert s[i] == s[..n][i];
      assert s[i] in s[..n];
      assert s[i] in f;
      x :| 0 <= x < |f| && f[x] == s[i];
      y := |f|;
    }
  }

  ghost predicate Sorted<T>(s: seq<T>, key: T -> int) {
    forall i, j :: 0 <= i < j < |s| ==> key(s[i]) <= key(s[j])
  }

  lemma SortedAt<T>(s: seq<T>, key: T -> int, i: nat, j: nat)
    requires Sorted(s, key) && i < |s| && j < |s|
    ensures i <= j ==> key(s[i]) <= key(s[j])
  {
  }

  /** Inserts `x` behind every element whose key is not larger. */
  function Insert<T>(s: seq<T>, x: T, key: T -> int): (r: seq<T>)
    ensures |r| == |s| + 1
    ensures multiset(r) == multiset(s) + multiset{x}
  {
    if s == [] then [x]
    else
      var n := |s| - 1;
      assert s == s[..n] + [s[n]];
      if key(s[n]) <= key(x) then s + [x] else Insert(s[..n], x, key) + [s[n]]
  }

  /** A stable sort by key. */
  function SortBy<T>(s: seq<T>, key: T -> int): (r: seq<T>)
    ensures |r| == |s|
    ensures multiset(r) == multiset(s)
  {
    if s == [] then []
    else
      var n := |s| - 1;
      assert s == s[..n] + [s[n]];
      Insert(SortBy(s[..n], key), s[n], key)
  }

  lemma {:induction false} InsertSorted<T>(s: seq<T>, x: T, key: T -> int)
    requires Sorted(s, key)
    ensures Sorted(Insert(s, x, key), key)
  {
    if s == [] {
    } else {
      var n := |s| - 1;
      if key(s[n]) > key(x) {
        InsertSorted(s[..n], x, key);
        InsertBounded(s[..n], x, key, key(s[n]));
      }
    }
  }

  lemma {:induction false} InsertBounded<T>(s: seq<T>, x: T, key: T -> int, bound: int)
    requires key(x) <= bound
    requires forall i :: 0 <= i < |s| ==> key(s[i]) <= bound
    ensures forall i :: 0 <= i < |Insert(s, x, key)| ==> key(Insert(s, x, key)[i]) <= bound
  {
    if s == [] {
    } else {
      InsertBounded(s[..|s| - 1], x, key, bound);
    }
  }

  lemma {:induction false} SortByIsSorted<T>(s: seq<T>, key: T -> int)
    ensures Sorted(SortBy(s, key), key)
  {
    if s == [] {
    } else {
      var n := |s| - 1;
      SortByIsSorted(s[..n], key);
      InsertSorted(SortBy(s[..n], key), s[n], key);
    }
  }

  lemma SortByMembers<T(!new)>(s: seq<T>, key: T -> int)
    ensures forall x :: x in SortBy(s, key) <==> x in s
  {
    forall x: T ensures x in SortBy(s, key) <==> x in s {
      assert x in multiset(SortBy(s, key)) <==> x in multiset(s);
    }
  }

  /** Stability: sorting does not disturb the relative order of any selected subsequence. */
  lemma {:induction false} SortByCommutesWithFilter<T>(s: seq<T>, key: T -> int, keep: T -> bool)
    ensures Filter(SortBy(s, key), keep) == SortBy(Filter(s, keep), key)
  {
    if s == [] {
    } else {
      var n := |s| - 1;
      var t, x := s[..n], s[n];
      assert s == t + [x];
      SortByCommutesWithFilter(t, key, keep);
      SortByIsSorted(t, key);
      SortedSnocCommutes(t, x, key, keep);
    }
  }

  lemma SortedSnocCommutes<T>(t: seq<T>, x: T, key: T -> int, keep: T -> bool)
    requires Sorted(SortBy(t, key), key)
    requires Filter(SortBy(t, key), keep) == SortBy(Filter(t, keep), key)
    ensures Filter(SortBy(t + [x], key), keep) == SortBy(Filter(t + [x], keep), key)
  {
    SortBySnoc(t, x, key);
    FilterSnoc(t, x, keep);
    InsertCommutesWithFilter(SortBy(t, key), x, key, keep);
    SortBySnoc(Filter(t, keep), x, key);
  }

  lemma SortBySnoc<T>(s: seq<T>, x: T, key: T -> int)
    ensures SortBy(s + [x], key) == Insert(SortBy(s, key), x, key)
  {
  }

  lemma FilterSnoc<T>(s: seq<T>, x: T, keep: T -> bool)
    ensures Filter(s + [x], keep) == if keep(x) then Filter(s, keep) + [x] else Filter(s, keep)
  {
  }

  lemma InsertSnoc<T>(s: seq<T>, y: T, x: T, key: T -> int)
    ensures Insert(s + [y], x, key)
         == if key(y) <= key(x) then s + [y] + [x] else Insert(s, x, key) + [y]
  {
  }

  lemma {:induction false} InsertCommutesWithFilter<T>(s: seq<T>, x: T, key: T -> int, keep: T -> bool)
    requires Sorted(s, key)
    ensures Filter(Insert(s, x, key), keep)
         == if keep(x) then Insert(Filter(s, keep), x, key) else Filter(s, keep)
  {
    if s == [] {
      assert Insert(s, x, key) == [] + [x];
      FilterSnoc(s, x, keep);
    } else {
      var n := |s| - 1;
      var t, y := s[..n], s[n];
      assert s == t + [y];
      if key(y) <= key(x) {
        FilterSnoc(s, x, keep);
        InsertAtEnd(Filter(s, keep), x, key);
      } else {
        InsertCommutesWithFilter(t, x, key, keep);
        FilterSnoc(Insert(t, x, key), y, keep);
        FilterSnoc(t, y, keep);
        InsertSnoc(Filter(t, keep), y, x, key);
      }
    }
  }

  lemma InsertAtEnd<T>(s: seq<T>, x: T, key: T -> int)
    requires forall y :: y in s ==> key(y) <= key(x)
    ensures Insert(s, x, key) == s + [x]
  {
  }

  /** A stable sort leaves an already sorted sequence alone. */
  lemma {:induction false} SortBySorted<T>(s: seq<T>, key: T -> int)
    requires Sorted(s, key)
    ensures SortBy(s, key) == s
  {
    if s == [] {
    } else {
      var n := |s| - 1;
      assert s == s[..n] + [s[n]];
      SortBySorted(s[..n], key);
      InsertAtEnd(s[..n], s[n], key);
    }
  }

  /** Appending elements that are all later only appends their own sorted order. */
  lemma {:induction false} SortByAppendLater<T(!new)>(s: seq<T>, t: seq<T>, key: T -> int)
    requires forall x, y :: x in s && y in t ==> key(x) < key(y)
    ensures SortBy(s + t, key) == SortBy(s, key) + SortBy(t, key)
  {
    if t == [] {
      assert s + t == s;
    } else {
      var n := |t| - 1;
      assert (s + t)[..|s + t| - 1] == s + t[..n];
      SortByAppendLater(s, t[..n], key);
      SortByMembers(s, key);
      InsertBehind(SortBy(s, key), SortBy(t[..n], key), t[n], key);
    }
  }

  lemma {:induction false} InsertBehind<T>(s: seq<T>, t: seq<T>, x: T, key: T -> int)
    requires forall y :: y in s ==> key(y) < key(x)
    ensures Insert(s + t, x, key) == s + Insert(t, x, key)
  {
    if t == [] {
      assert s + t == s;
      InsertAtEnd(s, x, key);
    } else {
      var n := |t| - 1;
      assert (s + t)[..|s + t| - 1] == s + t[..n];
      InsertBehind(s, t[..n], x, key);
    }
  }

  lemma CountedTwice<T>(s: seq<T>, i: nat, j: nat)
    requires i < j < |s|
    ensures s[i] == s[j] ==> multiset(s)[s[i]] >= 2
  {
    assert s == s[..i] + [s[i]] + s[i + 1..j] + [s[j]] + s[j + 1..];
  }

  // ---- Runs of a step machine -----------------------------------------------------------------

  /** The steps are enabled one after another and lead from `s` to `t`. */
  predicate RunOf<S(==), T>(next: (S, T) -> Option<S>, s: S, steps: seq<T>, t: S) {
    if steps == [] then s == t
    else
      match next(s, steps[0])
      case None => false
      case Some(u) => RunOf(next, u, steps[1..], t)
  }

  lemma {:induction false} RunOfAppend<S, T>(next: (S, T) -> Option<S>, s: S, a: seq<T>, t: S, b: seq<T>, u: S)
    requires RunOf(next, s, a, t) && RunOf(next, t, b, u)
    ensures RunOf(next, s, a + b, u)
    decreases |a|
  {
    if a == [] {
      assert a + b == b;
    } else {
      assert (a + b)[1..] == a[1..] + b;
      RunOfAppend(next, next(s, a[0]).value, a[1..], t, b, u);
    }
  }

  lemma RunOfOne<S, T>(next: (S, T) -> Option<S>, s: S, step: T, t: S)
    requires next(s, step) == Some(t)
    ensures RunOf(next, s, [step], t)
  {
  }
}
