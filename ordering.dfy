/** Orderings used by the `sorted { … }` calls of the source.

    Swift compares strings with `<`; the model compares them lexicographically, character by
    character. `sorted` is given a strict order; the model sorts with the matching non-strict
    order, so a sorted result has `key(r[i]) <= key(r[j])` whenever `i < j`. Swift does not
    promise where elements with equal keys end up, and neither does the model: its insertion
    sort fixes one placement, and the contracts promise only sortedness and the permutation. */
module Ordering {

  /** `a <= b` in lexicographic order. */
  predicate LexLe(a: string, b: string) {
    if a == [] then true
    else if b == [] then false
    else if a[0] != b[0] then a[0] < b[0]
    else LexLe(a[1..], b[1..])
  }

  lemma {:induction false} LexReflexive(a: string)
    ensures LexLe(a, a)
  {
    if a != [] { LexReflexive(a[1..]); }
  }

  lemma {:induction false} LexTotal(a: string, b: string)
    ensures LexLe(a, b) || LexLe(b, a)
  {
    if a != [] && b != [] && a[0] == b[0] { LexTotal(a[1..], b[1..]); }
  }

  lemma {:induction false} LexTransitive(a: string, b: string, c: string)
    requires LexLe(a, b) && LexLe(b, c)
    ensures LexLe(a, c)
  {
    if a != [] && b != [] && c != [] && a[0] == b[0] && b[0] == c[0] {
      LexTransitive(a[1..], b[1..], c[1..]);
    }
  }

  lemma {:induction false} LexAntisymmetric(a: string, b: string)
    requires LexLe(a, b) && LexLe(b, a)
    ensures a == b
  {
    if a != [] && b != [] {
      LexAntisymmetric(a[1..], b[1..]);
      assert a == [a[0]] + a[1..];
      assert b == [b[0]] + b[1..];
    }
  }

  // ---------------------------------------------------------------------------------------
  // Sorting by a string key

  ghost predicate SortedByText<T>(s: seq<T>, key: T -> string) {
    forall i, j :: 0 <= i < j < |s| ==> LexLe(key(s[i]), key(s[j]))
  }

  function InsertByText<T>(x: T, s: seq<T>, key: T -> string): (r: seq<T>)
    requires SortedByText(s, key)
    ensures multiset(r) == multiset(s) + multiset{x}
    ensures SortedByText(r, key)
  {
    if s == [] then [x]
    else if LexLe(key(x), key(s[0])) then
      assert forall j :: 0 <= j < |s| ==> LexLe(key(x), key(s[j])) by {
        forall j | 0 <= j < |s| ensures LexLe(key(x), key(s[j])) {
          if j > 0 { LexTransitive(key(x), key(s[0]), key(s[j])); }
        }
      }
      ConsSortedByText(x, s, key);
      [x] + s
    else
      var rest := InsertByText(x, s[1..], key);
      InsertStepByText(x, s, rest, key);
      [s[0]] + rest
  }

  /** When `x` sorts after the head, inserting it into the tail and putting the head back
      keeps the order and the elements. */
  lemma InsertStepByText<T>(x: T, s: seq<T>, rest: seq<T>, key: T -> string)
    requires s != [] && !LexLe(key(x), key(s[0])) && SortedByText(s, key)
    requires SortedByText(rest, key) && multiset(rest) == multiset(s[1..]) + multiset{x}
    ensures multiset([s[0]] + rest) == multiset(s) + multiset{x}
    ensures SortedByText([s[0]] + rest, key)
  {
    assert s == [s[0]] + s[1..];
    assert multiset(rest) == multiset(s[1..] + [x]);
    assert forall k :: 0 <= k < |s[1..] + [x]| ==> LexLe(key(s[0]), key((s[1..] + [x])[k])) by {
      forall k | 0 <= k < |s[1..] + [x]| ensures LexLe(key(s[0]), key((s[1..] + [x])[k])) {
        if k < |s| - 1 {
          assert (s[1..] + [x])[k] == s[k + 1];
        } else {
          LexTotal(key(x), key(s[0]));
        }
      }
    }
    TextBoundBySameElements(key(s[0]), s[1..] + [x], rest, key);
    ConsSortedByText(s[0], rest, key);
  }

  lemma ConsSortedByText<T>(h: T, s: seq<T>, key: T -> string)
    requires SortedByText(s, key)
    requires forall k :: 0 <= k < |s| ==> LexLe(key(h), key(s[k]))
    ensures SortedByText([h] + s, key)
  {
    var r := [h] + s;
    forall i, j | 0 <= i < j < |r| ensures LexLe(key(r[i]), key(r[j])) {
      if i > 0 { assert r[i] == s[i - 1] && r[j] == s[j - 1]; }
      else { assert r[j] == s[j - 1]; }
    }
  }

  lemma TextBoundBySameElements<T>(b: string, s: seq<T>, t: seq<T>, key: T -> string)
    requires multiset(t) == multiset(s)
    requires forall k :: 0 <= k < |s| ==> LexLe(b, key(s[k]))
    ensures forall k :: 0 <= k < |t| ==> LexLe(b, key(t[k]))
  {
    forall k | 0 <= k < |t| ensures LexLe(b, key(t[k])) {
      assert t[k] in multiset(s);
      var j :| 0 <= j < |s| && s[j] == t[k];
    }
  }

  /** The elements of `s` in non-decreasing order of `key`. */
  function SortByText<T>(s: seq<T>, key: T -> string): (r: seq<T>)
    ensures multiset(r) == multiset(s)
    ensures SortedByText(r, key)
  {
    if s == [] then []
    else
      assert s == [s[0]] + s[1..];
      InsertByText(s[0], SortByText(s[1..], key), key)
  }

  // ---------------------------------------------------------------------------------------
  // Sorting by an integer key

  ghost predicate SortedByRank<T>(s: seq<T>, rank: T -> int) {
    forall i, j :: 0 <= i < j < |s| ==> rank(s[i]) <= rank(s[j])
  }

  function InsertByRank<T>(x: T, s: seq<T>, rank: T -> int): (r: seq<T>)
    requires SortedByRank(s, rank)
    ensures multiset(r) == multiset(s) + multiset{x}
    ensures SortedByRank(r, rank)
  {
    if s == [] then [x]
    else if rank(x) <= rank(s[0]) then
      ConsSortedByRank(x, s, rank);
      [x] + s
    else
      var rest := InsertByRank(x, s[1..], rank);
      InsertStepByRank(x, s, rest, rank);
      [s[0]] + rest
  }

  /** When `x` ranks after the head, inserting it into the tail and putting the head back
      keeps the order and the elements. */
  lemma InsertStepByRank<T>(x: T, s: seq<T>, rest: seq<T>, rank: T -> int)
    requires s != [] && rank(s[0]) < rank(x) && SortedByRank(s, rank)
    requires SortedByRank(rest, rank) && multiset(rest) == multiset(s[1..]) + multiset{x}
    ensures multiset([s[0]] + rest) == multiset(s) + multiset{x}
    ensures SortedByRank([s[0]] + rest, rank)
  {
    assert s == [s[0]] + s[1..];
    assert multiset(rest) == multiset(s[1..] + [x]);
    assert forall k :: 0 <= k < |s[1..] + [x]| ==> rank(s[0]) <= rank((s[1..] + [x])[k]) by {
      forall k | 0 <= k < |s[1..] + [x]| ensures rank(s[0]) <= rank((s[1..] + [x])[k]) {
        if k < |s| - 1 { assert (s[1..] + [x])[k] == s[k + 1]; }
      }
    }
    RankBoundBySameElements(rank(s[0]), s[1..] + [x], rest, rank);
    ConsSortedByRank(s[0], rest, rank);
  }

  lemma ConsSortedByRank<T>(h: T, s: seq<T>, rank: T -> int)
    requires SortedByRank(s, rank)
    requires forall k :: 0 <= k < |s| ==> rank(h) <= rank(s[k])
    ensures SortedByRank([h] + s, rank)
  {
    var r := [h] + s;
    forall i, j | 0 <= i < j < |r| ensures rank(r[i]) <= rank(r[j]) {
      if i > 0 { assert r[i] == s[i - 1] && r[j] == s[j - 1]; }
      else { assert r[j] == s[j - 1]; }
    }
  }

  lemma RankBoundBySameElements<T>(b: int, s: seq<T>, t: seq<T>, rank: T -> int)
    requires multiset(t) == multiset(s)
    requires forall k :: 0 <= k < |s| ==> b <= rank(s[k])
    ensures forall k :: 0 <= k < |t| ==> b <= rank(t[k])
  {
    forall k | 0 <= k < |t| ensures b <= rank(t[k]) {
      assert t[k] in multiset(s);
      var j :| 0 <= j < |s| && s[j] == t[k];
    }
  }

  /** The elements of `s` in non-decreasing order of `rank`. */
  function SortByRank<T>(s: seq<T>, rank: T -> int): (r: seq<T>)
    ensures multiset(r) == multiset(s)
    ensures SortedByRank(r, rank)
  {
    if s == [] then []
    else
      assert s == [s[0]] + s[1..];
      InsertByRank(s[0], SortByRank(s[1..], rank), rank)
  }
}
