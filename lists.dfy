/** The array operations the handlers use: `removeAll(where:)`, `remove(atOffsets:)`,
    `move(fromOffsets:toOffset:)`, `firstIndex(where:)` and the de-duplication done by
    building a `Set`. Each is a function on sequences; the handlers that change a list in place
    assign it the function's result. */
module Lists {
  import opened Wrappers

  predicate NoDup<T(==)>(s: seq<T>) {
    forall i, j :: 0 <= i < j < |s| ==> s[i] != s[j]
  }

  /** A list without repeats holds each value at most once. */
  lemma {:induction false} NoDupMultiplicity<T>(s: seq<T>, x: T)
    requires NoDup(s)
    ensures multiset(s)[x] <= 1
  {
    if s != [] {
      assert s == [s[0]] + s[1..];
      NoDupMultiplicity(s[1..], x);
      if s[0] == x {
        assert x !in s[1..] by {
          forall k | 0 <= k < |s[1..]| ensures s[1..][k] != x {
            assert s[1..][k] == s[k + 1];
          }
        }
      }
    }
  }

  /** A value held twice has multiplicity at least two. */
  lemma RepeatMultiplicity<T>(s: seq<T>, i: int, j: int)
    requires 0 <= i < j < |s| && s[i] == s[j]
    ensures multiset(s)[s[i]] >= 2
  {
    assert s == s[..j] + [s[j]] + s[j + 1..];
    assert s[..j][i] == s[i];
  }

  /** Reordering a list without repeats cannot create one. */
  lemma NoDupPermutation<T>(s: seq<T>, r: seq<T>)
    requires NoDup(s) && multiset(r) == multiset(s)
    ensures NoDup(r)
  {
    forall i, j | 0 <= i < j < |r| ensures r[i] != r[j] {
      if r[i] == r[j] {
        RepeatMultiplicity(r, i, j);
        NoDupMultiplicity(s, r[i]);
      }
    }
  }

  /** Appending a value the list does not hold keeps it without repeats. */
  lemma NoDupAppend<T>(s: seq<T>, x: T)
    requires NoDup(s) && x !in s
    ensures NoDup(s + [x])
  {
    forall i, j | 0 <= i < j < |s| + 1 ensures (s + [x])[i] != (s + [x])[j] {
      assert (s + [x])[i] == s[i];
      if j < |s| {
        assert (s + [x])[j] == s[j];
      }
    }
  }

  // ---------------------------------------------------------------------------------------
  // De-duplication

  /** The distinct values of `s`, each once. `Set(s)` has no order; the callers sort it. */
  function Distinct<T(==)>(s: seq<T>): (r: seq<T>)
    ensures NoDup(r)
    ensures forall k :: 0 <= k < |r| ==> r[k] in s
    ensures forall k :: 0 <= k < |s| ==> s[k] in r
    ensures |r| <= |s|
  {
    if s == [] then []
    else
      var rest := Distinct(s[1..]);
      if s[0] in rest then rest
      else
        assert forall k :: 0 <= k < |rest| ==> rest[k] != s[0];
        [s[0]] + rest
  }

  // ---------------------------------------------------------------------------------------
  // removeAll(where: { $0 == x })

  /** `s` with every occurrence of `x` removed, the rest kept in order. */
  function Without<T(==)>(s: seq<T>, x: T): (r: seq<T>)
    ensures x !in r
    ensures multiset(r) == multiset(s)[x := 0]
    ensures x !in s ==> r == s
  {
    if s == [] then []
    else
      assert s == [s[0]] + s[1..];
      if s[0] == x then Without(s[1..], x) else [s[0]] + Without(s[1..], x)
  }

  /** Removal works piecewise, so the survivors keep their relative order. */
  lemma {:induction false} WithoutConcat<T>(s: seq<T>, t: seq<T>, x: T)
    ensures Without(s + t, x) == Without(s, x) + Without(t, x)
  {
    if s != [] {
      var st := s + t;
      assert st[0] == s[0] && st[1..] == s[1..] + t;
      assert st == [st[0]] + st[1..];
      WithoutConcat(s[1..], t, x);
      if s[0] == x {
        assert Without(st, x) == Without(st[1..], x);
        assert Without(s, x) == Without(s[1..], x);
      } else {
        assert Without(st, x) == [s[0]] + Without(st[1..], x);
        assert Without(s, x) == [s[0]] + Without(s[1..], x);
      }
    } else {
      assert s + t == t;
    }
  }

  /** Removing a value keeps a list free of repeats. */
  lemma WithoutKeepsNoDup<T>(s: seq<T>, x: T)
    requires NoDup(s)
    ensures NoDup(Without(s, x))
  {
    var r := Without(s, x);
    forall i, j | 0 <= i < j < |r| ensures r[i] != r[j] {
      if r[i] == r[j] {
        RepeatMultiplicity(r, i, j);
        NoDupMultiplicity(s, r[i]);
      }
    }
  }

  // ---------------------------------------------------------------------------------------
  // Selecting positions: remove(atOffsets:) and move(fromOffsets:toOffset:)

  /** The elements of `s[lo..hi]` whose positions are in `offsets`, in order. */
  function Picked<T>(s: seq<T>, offsets: set<int>, lo: int, hi: int): (r: seq<T>)
    requires 0 <= lo <= hi <= |s|
    ensures |r| <= hi - lo
    decreases hi - lo
  {
    if lo == hi then []
    else Picked(s, offsets, lo, hi - 1) + (if hi - 1 in offsets then [s[hi - 1]] else [])
  }

  /** The elements of `s[lo..hi]` whose positions are not in `offsets`, in order. */
  function Unpicked<T>(s: seq<T>, offsets: set<int>, lo: int, hi: int): (r: seq<T>)
    requires 0 <= lo <= hi <= |s|
    ensures |r| <= hi - lo
    decreases hi - lo
  {
    if lo == hi then []
    else Unpicked(s, offsets, lo, hi - 1) + (if hi - 1 in offsets then [] else [s[hi - 1]])
  }

  /** The positions of `offsets` that lie in `[lo, hi)`. */
  function OffsetsIn(offsets: set<int>, lo: int, hi: int): set<int> {
    set i | i in offsets && lo <= i < hi
  }

  /** The picked and the unpicked elements of `s[..n]` together are the prefix's elements. */
  lemma {:induction false} PickedUnpickedShare<T>(s: seq<T>, offsets: set<int>, n: int)
    requires 0 <= n <= |s|
    ensures multiset(Picked(s, offsets, 0, n)) + multiset(Unpicked(s, offsets, 0, n)) == multiset(s[..n])
    decreases n
  {
    if n > 0 {
      PickedUnpickedShare(s, offsets, n - 1);
      var x := s[n - 1];
      var p, u := Picked(s, offsets, 0, n - 1), Unpicked(s, offsets, 0, n - 1);
      PrefixMultisetSnoc(s, n);
      if n - 1 in offsets {
        assert Picked(s, offsets, 0, n) == p + [x] && Unpicked(s, offsets, 0, n) == u;
        calc {
          multiset(p + [x]) + multiset(u);
          (multiset(p) + multiset{x}) + multiset(u);
          { UnionMoveLast(multiset(p), multiset(u), multiset{x}); }
          (multiset(p) + multiset(u)) + multiset{x};
        }
      } else {
        assert Picked(s, offsets, 0, n) == p && Unpicked(s, offsets, 0, n) == u + [x];
        calc {
          multiset(p) + multiset(u + [x]);
          multiset(p) + (multiset(u) + multiset{x});
          (multiset(p) + multiset(u)) + multiset{x};
        }
      }
    } else {
      assert s[..n] == [];
    }
  }

  /** Adding to the first of two summands adds to their sum. */
  lemma UnionMoveLast<T>(a: multiset<T>, b: multiset<T>, c: multiset<T>)
    ensures (a + c) + b == (a + b) + c
  {
  }

  /** Growing a prefix by one position adds that position's element to its multiset. */
  lemma PrefixMultisetSnoc<T>(s: seq<T>, n: int)
    requires 0 < n <= |s|
    ensures multiset(s[..n]) == multiset(s[..n - 1]) + multiset{s[n - 1]}
  {
    assert s[..n] == s[..n - 1] + [s[n - 1]];
  }

  /** As many elements are picked as there are offsets in the range. */
  lemma {:induction false} PickedCount<T>(s: seq<T>, offsets: set<int>, lo: int, hi: int)
    requires 0 <= lo <= hi <= |s|
    ensures |Picked(s, offsets, lo, hi)| == |OffsetsIn(offsets, lo, hi)|
    ensures |Unpicked(s, offsets, lo, hi)| == hi - lo - |OffsetsIn(offsets, lo, hi)|
    decreases hi - lo
  {
    if lo < hi {
      PickedCount(s, offsets, lo, hi - 1);
      if hi - 1 in offsets {
        assert OffsetsIn(offsets, lo, hi) == OffsetsIn(offsets, lo, hi - 1) + {hi - 1};
      } else {
        assert OffsetsIn(offsets, lo, hi) == OffsetsIn(offsets, lo, hi - 1);
      }
    } else {
      assert OffsetsIn(offsets, lo, hi) == {};
    }
  }

  /** The unpicked elements of adjacent ranges join up. */
  lemma {:induction false} UnpickedConcat<T>(s: seq<T>, offsets: set<int>, lo: int, mid: int, hi: int)
    requires 0 <= lo <= mid <= hi <= |s|
    ensures Unpicked(s, offsets, lo, hi) == Unpicked(s, offsets, lo, mid) + Unpicked(s, offsets, mid, hi)
    decreases hi - mid
  {
    if mid < hi {
      UnpickedConcat(s, offsets, lo, mid, hi - 1);
    }
  }

  /** The `k`-th element of `Unpicked` sits at some unpicked position, and positions grow
      with `k`: the survivors are exactly the elements at positions outside `offsets`. */
  lemma {:induction false} UnpickedPositions<T>(s: seq<T>, offsets: set<int>, lo: int, hi: int, k: int)
    requires 0 <= lo <= hi <= |s|
    requires 0 <= k < |Unpicked(s, offsets, lo, hi)|
    ensures exists i :: lo <= i < hi && i !in offsets && Unpicked(s, offsets, lo, hi)[k] == s[i]
    decreases hi - lo
  {
    var prev := Unpicked(s, offsets, lo, hi - 1);
    if k < |prev| {
      UnpickedPositions(s, offsets, lo, hi - 1, k);
    } else {
      assert Unpicked(s, offsets, lo, hi)[k] == s[hi - 1];
    }
  }

  /** `remove(atOffsets:)`: the elements at positions outside `offsets`, in order. Swift traps
      on an offset out of range; the caller passes positions of the list. */
  function RemoveOffsets<T>(s: seq<T>, offsets: set<int>): (r: seq<T>)
    requires forall i :: i in offsets ==> 0 <= i < |s|
    ensures |r| == |s| - |offsets|
    ensures multiset(r) <= multiset(s)
  {
    PickedUnpickedShare(s, offsets, |s|);
    PickedCount(s, offsets, 0, |s|);
    assert OffsetsIn(offsets, 0, |s|) == offsets;
    assert s[..|s|] == s;
    Unpicked(s, offsets, 0, |s|)
  }

  /** Every element at a position outside `offsets` survives, moved forward by the number of
      removed positions before it; so the survivors keep their order. */
  lemma RemoveOffsetsKeeps<T>(s: seq<T>, offsets: set<int>, i: int)
    requires forall j :: j in offsets ==> 0 <= j < |s|
    requires 0 <= i < |s| && i !in offsets
    ensures 0 <= i - |OffsetsIn(offsets, 0, i)| < |RemoveOffsets(s, offsets)|
    ensures RemoveOffsets(s, offsets)[i - |OffsetsIn(offsets, 0, i)|] == s[i]
  {
    UnpickedConcat(s, offsets, 0, i + 1, |s|);
    PickedCount(s, offsets, 0, i);
    assert Unpicked(s, offsets, 0, i + 1) == Unpicked(s, offsets, 0, i) + [s[i]];
  }

  /** The elements at the removed positions are the ones that go. */
  lemma RemoveOffsetsDrops<T>(s: seq<T>, offsets: set<int>)
    requires forall j :: j in offsets ==> 0 <= j < |s|
    ensures multiset(RemoveOffsets(s, offsets)) + multiset(Picked(s, offsets, 0, |s|)) == multiset(s)
  {
    PickedUnpickedShare(s, offsets, |s|);
    assert s[..|s|] == s;
  }

  /** `move(fromOffsets:toOffset:)`: the elements at `offsets` are taken out and put back,
      in their old order, in front of the element that was at position `to`. */
  function Move<T>(s: seq<T>, offsets: set<int>, to: int): (r: seq<T>)
    requires 0 <= to <= |s|
    requires forall i :: i in offsets ==> 0 <= i < |s|
    ensures |r| == |s|
    ensures multiset(r) == multiset(s)
  {
    PickedUnpickedShare(s, offsets, |s|);
    PickedCount(s, offsets, 0, |s|);
    UnpickedConcat(s, offsets, 0, to, |s|);
    assert s[..|s|] == s;
    Unpicked(s, offsets, 0, to) + Picked(s, offsets, 0, |s|) + Unpicked(s, offsets, to, |s|)
  }

  /** A move is the removal of the moved elements followed by their insertion, in their old
      order, where the unmoved elements before position `to` end. */
  lemma MoveIsRemoveThenInsert<T>(s: seq<T>, offsets: set<int>, to: int)
    requires 0 <= to <= |s|
    requires forall i :: i in offsets ==> 0 <= i < |s|
    ensures var p := |Unpicked(s, offsets, 0, to)|;
      var rest := RemoveOffsets(s, offsets);
      p <= |rest| && Move(s, offsets, to) == rest[..p] + Picked(s, offsets, 0, |s|) + rest[p..]
  {
    UnpickedConcat(s, offsets, 0, to, |s|);
    var rest := RemoveOffsets(s, offsets);
    var p := |Unpicked(s, offsets, 0, to)|;
    assert rest[..p] == Unpicked(s, offsets, 0, to);
    assert rest[p..] == Unpicked(s, offsets, to, |s|);
  }

  // ---------------------------------------------------------------------------------------
  // Tapping to select or deselect, matched by identifier

  /** `firstIndex(where: { id($0) == key })`. */
  function FirstIndex<T>(s: seq<T>, id: T -> nat, key: nat): (r: Option<nat>)
    ensures r.None? <==> forall k :: 0 <= k < |s| ==> id(s[k]) != key
    ensures r.Some? ==> r.value < |s| && id(s[r.value]) == key
    ensures r.Some? ==> forall k :: 0 <= k < r.value ==> id(s[k]) != key
  {
    if s == [] then None
    else if id(s[0]) == key then Some(0)
    else
      match FirstIndex(s[1..], id, key)
      case None => None
      case Some(i) => Some(i + 1)
  }

  predicate HasId<T>(s: seq<T>, id: T -> nat, key: nat) {
    exists k :: 0 <= k < |s| && id(s[k]) == key
  }

  predicate NoDupIds<T>(s: seq<T>, id: T -> nat) {
    forall i, j :: 0 <= i < j < |s| ==> id(s[i]) != id(s[j])
  }

  /** The first entry with identifier `key`. */
  function FirstWithId<T>(s: seq<T>, id: T -> nat, key: nat): (y: T)
    requires HasId(s, id, key)
    ensures id(y) == key
  {
    var i := FirstIndex(s, id, key).value;
    s[i]
  }

  /** Removing the entry at position `i` leaves the others, one fewer. */
  lemma RemoveAt<T>(s: seq<T>, i: nat)
    requires i < |s|
    ensures |s[..i] + s[i + 1..]| == |s| - 1
    ensures multiset(s[..i] + s[i + 1..]) + multiset{s[i]} == multiset(s)
  {
    assert s == s[..i] + [s[i]] + s[i + 1..];
  }

  /** The first entry of a list occurs somewhere in any permutation of it, and what is left
      on both sides after taking it out is again a permutation. */
  lemma MatchFirst<T>(s: seq<T>, r: seq<T>) returns (j: nat)
    requires s != [] && multiset(s) == multiset(r)
    ensures j < |r| && r[j] == s[0]
    ensures multiset(s[1..]) == multiset(r[..j] + r[j + 1..])
  {
    assert s[0] in multiset(r);
    j :| 0 <= j < |r| && r[j] == s[0];
    RemoveAt(r, j);
    assert s == [s[0]] + s[1..];
    assert multiset(s) == multiset{s[0]} + multiset(s[1..]);
    assert multiset(s[1..]) == multiset(s) - multiset{s[0]};
    assert multiset(r[..j] + r[j + 1..]) == multiset(r) - multiset{r[j]};
  }

  /** Removing the first entry with identifier `key` from a list without repeated identifiers
      leaves none with that identifier, and no repeats. */
  lemma RemoveFirstWithId<T>(s: seq<T>, id: T -> nat, key: nat, i: nat)
    requires i < |s| && id(s[i]) == key
    ensures NoDupIds(s, id) ==> NoDupIds(s[..i] + s[i + 1..], id) && !HasId(s[..i] + s[i + 1..], id, key)
  {
    if !NoDupIds(s, id) { return; }
    var r := s[..i] + s[i + 1..];
    assert forall k :: 0 <= k < |r| ==> r[k] == if k < i then s[k] else s[k + 1];
    forall a, b | 0 <= a < b < |r| ensures id(r[a]) != id(r[b]) {
      var a', b' := if a < i then a else a + 1, if b < i then b else b + 1;
      assert r[a] == s[a'] && r[b] == s[b'];
    }
    forall k | 0 <= k < |r| ensures id(r[k]) != key {
      var k' := if k < i then k else k + 1;
      assert r[k] == s[k'];
    }
  }

  /** The tap handler: remove the first entry with `x`'s identifier, or append `x`. */
  function Toggle<T>(s: seq<T>, x: T, id: T -> nat): (r: seq<T>)
    ensures NoDupIds(s, id) ==> (HasId(r, id, id(x)) <==> !HasId(s, id, id(x)))
    ensures |r| == if HasId(s, id, id(x)) then |s| - 1 else |s| + 1
    ensures HasId(s, id, id(x)) ==> multiset(r) + multiset{FirstWithId(s, id, id(x))} == multiset(s)
    ensures !HasId(s, id, id(x)) ==> r == s + [x]
    ensures NoDupIds(s, id) ==> NoDupIds(r, id)
  {
    match FirstIndex(s, id, id(x))
    case Some(i) =>
      RemoveAt(s, i);
      RemoveFirstWithId(s, id, id(x), i);
      s[..i] + s[i + 1..]
    case None =>
      assert !HasId(s, id, id(x));
      var r := s + [x];
      assert r[|s|] == x;
      assert NoDupIds(s, id) ==> NoDupIds(r, id) by {
        if NoDupIds(s, id) {
          forall a, b | 0 <= a < b < |r| ensures id(r[a]) != id(r[b]) {
            if b == |s| { assert r[a] == s[a]; }
          }
        }
      }
      r
  }

  /** Deselecting removes only the first matching entry; the others keep their order. */
  lemma ToggleRemovesFirstMatch<T>(s: seq<T>, x: T, id: T -> nat)
    requires HasId(s, id, id(x))
    ensures exists i :: (0 <= i < |s| && id(s[i]) == id(x)
                         && (forall k :: 0 <= k < i ==> id(s[k]) != id(x))
                         && Toggle(s, x, id) == s[..i] + s[i + 1..])
  {
    var i := FirstIndex(s, id, id(x)).value;
    assert Toggle(s, x, id) == s[..i] + s[i + 1..];
  }

  /** Tapping an unselected entry twice gives the list back. */
  lemma ToggleTwice<T>(s: seq<T>, x: T, id: T -> nat)
    requires !HasId(s, id, id(x))
    ensures Toggle(Toggle(s, x, id), x, id) == s
  {
    var t := Toggle(s, x, id);
    assert t == s + [x];
    assert t[|s|] == x;
    assert FirstIndex(t, id, id(x)) == Some(|s|);
    assert t[..|s|] == s;
  }

  /** Tapping one entry leaves the checkmark of every entry with another identifier as it
      was. */
  lemma ToggleKeepsOtherIds<T>(s: seq<T>, x: T, id: T -> nat, key: nat)
    requires key != id(x)
    ensures HasId(Toggle(s, x, id), id, key) <==> HasId(s, id, key)
  {
    match FirstIndex(s, id, id(x))
    case Some(i) =>
      HasIdAfterRemoveAt(s, id, key, i);
    case None =>
      HasIdAfterAppend(s, x, id, key);
  }

  /** Removing the entry at position `i` keeps every identifier other than that entry's. */
  lemma HasIdAfterRemoveAt<T>(s: seq<T>, id: T -> nat, key: nat, i: nat)
    requires i < |s| && id(s[i]) != key
    ensures HasId(s[..i] + s[i + 1..], id, key) <==> HasId(s, id, key)
  {
    var r := s[..i] + s[i + 1..];
    if HasId(s, id, key) {
      var k :| 0 <= k < |s| && id(s[k]) == key;
      if k < i {
        assert r[k] == s[k];
      } else {
        assert r[k - 1] == s[k];
      }
    }
    if HasId(r, id, key) {
      var k :| 0 <= k < |r| && id(r[k]) == key;
      if k < i {
        assert r[k] == s[k];
      } else {
        assert r[k] == s[k + 1];
      }
    }
  }

  /** Appending `x` adds `x`'s identifier and keeps every other. */
  lemma HasIdAfterAppend<T>(s: seq<T>, x: T, id: T -> nat, key: nat)
    ensures HasId(s + [x], id, key) <==> HasId(s, id, key) || id(x) == key
  {
    var r := s + [x];
    if HasId(s, id, key) {
      var k :| 0 <= k < |s| && id(s[k]) == key;
      assert r[k] == s[k];
    }
    if HasId(r, id, key) {
      var k :| 0 <= k < |r| && id(r[k]) == key;
      if k < |s| { assert r[k] == s[k]; }
    }
    assert r[|s|] == x;
  }


  // ---------------------------------------------------------------------------------------
  // Filtering

  /** `filter(p)`: the entries satisfying `p`, in their order. */
  function Filter<T(!new)>(s: seq<T>, p: T -> bool): (r: seq<T>)
    ensures forall k :: 0 <= k < |r| ==> p(r[k])
    ensures forall x :: multiset(r)[x] == if p(x) then multiset(s)[x] else 0
  {
    if s == [] then []
    else
      var rest := Filter(s[1..], p);
      assert s == [s[0]] + s[1..];
      assert multiset(s) == multiset{s[0]} + multiset(s[1..]);
      if p(s[0]) then
        var r := [s[0]] + rest;
        assert forall k :: 0 <= k < |r| ==> r[k] == if k == 0 then s[0] else rest[k - 1];
        assert multiset(r) == multiset{s[0]} + multiset(rest);
        r
      else rest
  }

  /** Concatenation is associative. */
  lemma ConcatAssoc<T>(a: seq<T>, b: seq<T>, c: seq<T>)
    ensures a + (b + c) == (a + b) + c
  {
  }

  /** Filtering a non-empty list decides its first entry, then filters the rest. */
  lemma FilterCons<T(!new)>(s: seq<T>, p: T -> bool)
    requires s != []
    ensures Filter(s, p) == (if p(s[0]) then [s[0]] else []) + Filter(s[1..], p)
  {
  }

  /** Filtering a single entry keeps it exactly when it passes. */
  lemma FilterSingleton<T(!new)>(x: T, p: T -> bool)
    ensures Filter([x], p) == if p(x) then [x] else []
  {
    assert [x][1..] == [];
  }

  /** Filtering works piecewise, so the kept entries stay in their order. */
  lemma {:induction false} FilterConcat<T(!new)>(s: seq<T>, t: seq<T>, p: T -> bool)
    ensures Filter(s + t, p) == Filter(s, p) + Filter(t, p)
  {
    if s != [] {
      var head := if p(s[0]) then [s[0]] else [];
      assert (s + t)[0] == s[0] && (s + t)[1..] == s[1..] + t;
      FilterCons(s + t, p);
      FilterConcat(s[1..], t, p);
      FilterCons(s, p);
      ConcatAssoc(head, Filter(s[1..], p), Filter(t, p));
    } else {
      assert s + t == t;
    }
  }

  /** Two predicates that agree on every entry filter the same entries. */
  lemma {:induction false} FilterAgreeing<T(!new)>(s: seq<T>, p: T -> bool, q: T -> bool)
    requires forall k :: 0 <= k < |s| ==> p(s[k]) == q(s[k])
    ensures Filter(s, p) == Filter(s, q)
  {
    if s != [] {
      assert forall k :: 0 <= k < |s[1..]| ==> p(s[1..][k]) == q(s[1..][k]) by {
        forall k | 0 <= k < |s[1..]| ensures p(s[1..][k]) == q(s[1..][k]) { assert s[1..][k] == s[k + 1]; }
      }
      FilterAgreeing(s[1..], p, q);
    }
  }

  /** One step of a loop that appends the entries passing `p` to `acc`: after the first
      entry, the rest of the filter follows. */
  lemma FilterAfterPrefix<T(!new)>(acc: seq<T>, s: seq<T>, p: T -> bool)
    requires s != []
    ensures (if p(s[0]) then acc + [s[0]] else acc) + Filter(s[1..], p) == acc + Filter(s, p)
  {
    if p(s[0]) {
      assert Filter(s, p) == [s[0]] + Filter(s[1..], p);
    }
  }

  /** A filter that every entry passes keeps the whole list, in its order. */
  lemma {:induction false} FilterKeepsAll<T(!new)>(s: seq<T>, p: T -> bool)
    requires forall k :: 0 <= k < |s| ==> p(s[k])
    ensures Filter(s, p) == s
  {
    if s != [] {
      assert forall k :: 0 <= k < |s[1..]| ==> p(s[1..][k]) by {
        forall k | 0 <= k < |s[1..]| ensures p(s[1..][k]) { assert s[1..][k] == s[k + 1]; }
      }
      FilterKeepsAll(s[1..], p);
      assert s == [s[0]] + s[1..];
    }
  }
}
