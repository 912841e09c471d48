/**
 * The parts of Go's `strings` and `sort` packages that the modelled code
 * relies on: the ordering of `sort.Strings`, `strings.Join`, and
 * `strings.Replace` with a count of one.
 *
 * Go compares strings byte by byte in their UTF-8 encoding; for sequences of
 * Unicode scalar values that is the same as comparing code point by code
 * point, which is what `LexLe` does.
 */
module GoStrings {

  /** a <= b in Go's string order: a is a prefix of b, or a is smaller at the first difference. */
  predicate LexLe(a: string, b: string)
    decreases |a|
  {
    |a| == 0 || (|b| > 0 && (a[0] < b[0] || (a[0] == b[0] && LexLe(a[1..], b[1..]))))
  }

  lemma {:induction false} LexLeTotal(a: string, b: string)
    ensures LexLe(a, b) || LexLe(b, a)
    decreases |a|
  {
    if |a| > 0 && |b| > 0 && a[0] == b[0] {
      LexLeTotal(a[1..], b[1..]);
    }
  }

  lemma {:induction false} LexLeReflexive(a: string)
    ensures LexLe(a, a)
    decreases |a|
  {
    if |a| > 0 {
      LexLeReflexive(a[1..]);
    }
  }

  lemma {:induction false} LexLeAntisymmetric(a: string, b: string)
    requires LexLe(a, b) && LexLe(b, a)
    ensures a == b
    decreases |a|
  {
    if |a| > 0 {
      LexLeAntisymmetric(a[1..], b[1..]);
      assert a == [a[0]] + a[1..];
      assert b == [b[0]] + b[1..];
    }
  }

  lemma {:induction false} LexLeTransitive(a: string, b: string, c: string)
    requires LexLe(a, b) && LexLe(b, c)
    ensures LexLe(a, c)
    decreases |a|
  {
    if |a| > 0 && a[0] == b[0] && b[0] == c[0] {
      LexLeTransitive(a[1..], b[1..], c[1..]);
    }
  }

  ghost predicate Sorted(s: seq<string>)
  {
    forall i, j :: 0 <= i < j < |s| ==> LexLe(s[i], s[j])
  }

  /** Inserts x before the first element it does not exceed. */
  function Insert(x: string, s: seq<string>): (r: seq<string>)
    ensures multiset(r) == multiset(s) + multiset{x}
  {
    if s == [] then [x]
    else if LexLe(x, s[0]) then [x] + s
    else
      assert s == [s[0]] + s[1..];
      [s[0]] + Insert(x, s[1..])
  }

  lemma {:induction false} InsertKeepsSorted(x: string, s: seq<string>)
    requires Sorted(s)
    ensures Sorted(Insert(x, s))
    decreases |s|
  {
    if s == [] {
    } else if LexLe(x, s[0]) {
      forall j | 0 < j < |s| ensures LexLe(x, s[j]) {
        LexLeTransitive(x, s[0], s[j]);
      }
    } else {
      var rest := Insert(x, s[1..]);
      InsertKeepsSorted(x, s[1..]);
      LexLeTotal(x, s[0]);
      assert s == [s[0]] + s[1..];
      forall j | 0 <= j < |rest| ensures LexLe(s[0], rest[j]) {
        assert rest[j] in multiset(rest);
        if rest[j] != x {
          assert rest[j] in multiset(s[1..]);
          var k :| 0 <= k < |s[1..]| && s[1..][k] == rest[j];
          assert s[k + 1] == rest[j];
        }
      }
      assert Insert(x, s) == [s[0]] + rest;
    }
  }

  /** sort.Strings, as an insertion sort. */
  function SortStrings(s: seq<string>): (r: seq<string>)
    ensures Sorted(r)
    ensures multiset(r) == multiset(s)
  {
    if s == [] then []
    else
      assert s == [s[0]] + s[1..];
      InsertKeepsSorted(s[0], SortStrings(s[1..]));
      Insert(s[0], SortStrings(s[1..]))
  }

  /** Two sorted sequences with the same elements are equal: sorting depends only on the multiset. */
  lemma {:induction false} SortedUnique(a: seq<string>, b: seq<string>)
    requires Sorted(a) && Sorted(b) && multiset(a) == multiset(b)
    ensures a == b
    decreases |a|
  {
    if a != [] {
      SameHead(a, b);
      SortedTail(a);
      SortedTail(b);
      MultisetTail(a);
      MultisetTail(b);
      SortedUnique(a[1..], b[1..]);
      assert a == [a[0]] + a[1..];
      assert b == [b[0]] + b[1..];
    } else {
      assert |multiset(b)| == 0;
    }
  }

  /** Two sorted arrangements of the same elements start with the same element. */
  lemma SameHead(a: seq<string>, b: seq<string>)
    requires Sorted(a) && Sorted(b) && multiset(a) == multiset(b) && a != []
    ensures b != [] && a[0] == b[0]
  {
    assert a[0] in multiset(b);
    assert b[0] in multiset(a);
    var i :| 0 <= i < |b| && b[i] == a[0];
    var j :| 0 <= j < |a| && a[j] == b[0];
    assert LexLe(b[0], a[0]) by { if i > 0 { assert LexLe(b[0], b[i]); } else { LexLeReflexive(a[0]); } }
    assert LexLe(a[0], b[0]) by { if j > 0 { assert LexLe(a[0], a[j]); } else { LexLeReflexive(a[0]); } }
    LexLeAntisymmetric(a[0], b[0]);
  }

  lemma SortedTail(a: seq<string>)
    requires Sorted(a) && a != []
    ensures Sorted(a[1..])
  {
    forall p, q | 0 <= p < q < |a| - 1
      ensures LexLe(a[1..][p], a[1..][q])
    {
      assert LexLe(a[p + 1], a[q + 1]);
    }
  }

  lemma MultisetTail(a: seq<string>)
    requires a != []
    ensures multiset(a[1..]) == multiset(a) - multiset{a[0]}
  {
    assert a == [a[0]] + a[1..];
  }

  /** Sorting two sequences with the same elements gives the same result. */
  lemma SortStringsDependsOnlyOnElements(a: seq<string>, b: seq<string>)
    requires multiset(a) == multiset(b)
    ensures SortStrings(a) == SortStrings(b)
  {
    SortedUnique(SortStrings(a), SortStrings(b));
  }

  /** strings.Join: the elements with sep between each neighbouring pair. */
  function Join(s: seq<string>, sep: string): string
  {
    if |s| == 0 then "" else if |s| == 1 then s[0] else s[0] + sep + Join(s[1..], sep)
  }

  /** `pattern` occurs in s at position i. */
  predicate OccursAt(s: string, pattern: string, i: nat)
  {
    i + |pattern| <= |s| && s[i..i + |pattern|] == pattern
  }

  /** The first position at or after `from` where `pattern` occurs, or -1. */
  function IndexFrom(s: string, pattern: string, from: nat): (r: int)
    requires from <= |s|
    ensures r == -1 || (from <= r <= |s| && OccursAt(s, pattern, r))
    ensures r == -1 ==> forall i :: from <= i <= |s| ==> !OccursAt(s, pattern, i)
    ensures r != -1 ==> forall i :: from <= i < r ==> !OccursAt(s, pattern, i)
    decreases |s| - from
  {
    if OccursAt(s, pattern, from) then from
    else if from == |s| then -1
    else IndexFrom(s, pattern, from + 1)
  }

  /**
   * strings.Replace(s, pattern, replacement, 1): s itself when the two are
   * equal; with an empty pattern the replacement goes in front of s;
   * otherwise only the first occurrence of the pattern is replaced, and s is
   * returned unchanged when the pattern does not occur.
   */
  function ReplaceFirst(s: string, pattern: string, replacement: string): string
  {
    if pattern == replacement then s
    else if pattern == "" then replacement + s
    else
      var i := IndexFrom(s, pattern, 0);
      if i == -1 then s else s[..i] + replacement + s[i + |pattern|..]
  }

  /** ReplaceFirst rewrites the first occurrence of the pattern and nothing else. */
  lemma ReplaceFirstAt(s: string, pattern: string, replacement: string, i: nat)
    requires pattern != ""
    requires OccursAt(s, pattern, i)
    requires forall j :: 0 <= j < i ==> !OccursAt(s, pattern, j)
    ensures ReplaceFirst(s, pattern, replacement) == s[..i] + replacement + s[i + |pattern|..]
  {
    if pattern == replacement {
      assert s[..i] + s[i..i + |pattern|] + s[i + |pattern|..] == s;
    } else {
      var r := IndexFrom(s, pattern, 0);
      assert r != -1;
      assert r == i;
    }
  }

  /** ReplaceFirst leaves a string in which the pattern does not occur unchanged. */
  lemma ReplaceFirstAbsent(s: string, pattern: string, replacement: string)
    requires forall i :: 0 <= i <= |s| ==> !OccursAt(s, pattern, i)
    ensures pattern != "" ==> ReplaceFirst(s, pattern, replacement) == s
  {
    if pattern != "" && pattern != replacement {
      assert IndexFrom(s, pattern, 0) == -1;
    }
  }
}
