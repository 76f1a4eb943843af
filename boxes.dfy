/**
 * The bounding boxes the analysis pass keeps per printed object: how a
 * perimeter point widens a box, how the boxes are sorted front row first,
 * and how they are renumbered 1..N afterwards.
 */
module Boxes {

  /** `[minX, minY, maxX, maxY]`; a bound is `-1` until the first point sets it. */
  datatype Box = Box(minX: real, minY: real, maxX: real, maxY: real)

  /** The "not set yet" value of a bound. */
  const Unset: real := -1.0

  const NewBox := Box(Unset, Unset, Unset, Unset)

  /** The four tests on the X bounds, in source order, for the point's X coordinate `x`. */
  function WidenX(b: Box, x: real): (r: Box)
    ensures r.minY == b.minY && r.maxY == b.maxY
    ensures r.minX <= x <= r.maxX
    ensures b.minX != Unset ==> r.minX <= b.minX && (r.minX == b.minX || r.minX == x)
    ensures b.maxX != Unset ==> r.maxX >= b.maxX && (r.maxX == b.maxX || r.maxX == x)
    ensures b.minX == Unset ==> r.minX == x
    ensures b.maxX == Unset ==> r.maxX == x
  {
    var b1 := if b.minX == Unset then b.(minX := x) else b;
    var b2 := if b1.minX > x then b1.(minX := x) else b1;
    var b3 := if b2.maxX == Unset then b2.(maxX := x) else b2;
    if b3.maxX < x then b3.(maxX := x) else b3
  }

  /** The same four tests on the Y bounds. */
  function WidenY(b: Box, y: real): (r: Box)
    ensures r.minX == b.minX && r.maxX == b.maxX
    ensures r.minY <= y <= r.maxY
    ensures b.minY != Unset ==> r.minY <= b.minY && (r.minY == b.minY || r.minY == y)
    ensures b.maxY != Unset ==> r.maxY >= b.maxY && (r.maxY == b.maxY || r.maxY == y)
    ensures b.minY == Unset ==> r.minY == y
    ensures b.maxY == Unset ==> r.maxY == y
  {
    var b1 := if b.minY == Unset then b.(minY := y) else b;
    var b2 := if b1.minY > y then b1.(minY := y) else b1;
    var b3 := if b2.maxY == Unset then b2.(maxY := y) else b2;
    if b3.maxY < y then b3.(maxY := y) else b3
  }

  /** Both bounds of an axis unset, or both set and ordered. */
  predicate AxisOk(lo: real, hi: real)
  {
    (lo == Unset && hi == Unset) || (lo != Unset && hi != Unset && lo <= hi)
  }

  predicate BoxOk(b: Box)
  {
    AxisOk(b.minX, b.maxX) && AxisOk(b.minY, b.maxY)
  }

  predicate Covers(b: Box, x: real, y: real)
  {
    b.minX <= x <= b.maxX && b.minY <= y <= b.maxY
  }

  /** An axis `[lo2, hi2]` contains `[lo, hi]` whenever `[lo, hi]` is set. */
  predicate AxisWithin(lo: real, hi: real, lo2: real, hi2: real)
  {
    lo == Unset || (lo2 != Unset && lo2 <= lo && hi <= hi2)
  }

  /** `b2` is `b` with its bounds moved outward only. */
  predicate Widens(b: Box, b2: Box)
  {
    AxisWithin(b.minX, b.maxX, b2.minX, b2.maxX) && AxisWithin(b.minY, b.maxY, b2.minY, b2.maxY)
  }

  /**
   * Widening a consistent box by a point that is not the sentinel value keeps
   * it consistent, moves its bounds outward only, and makes it cover the point.
   */
  lemma WidenPoint(b: Box, x: real, y: real)
    requires BoxOk(b) && x != Unset && y != Unset
    ensures var r := WidenY(WidenX(b, x), y);
            BoxOk(r) && Widens(b, r) && Covers(r, x, y)
  {
  }

  lemma WidensTransitive(a: Box, b: Box, c: Box)
    requires BoxOk(a) && Widens(a, b) && Widens(b, c)
    ensures Widens(a, c)
  {
  }

  /** A consistent box covers a point off the sentinel only when it is set, so widening keeps the point covered. */
  lemma WidensKeepsCover(b: Box, b2: Box, x: real, y: real)
    requires BoxOk(b) && Widens(b, b2) && Covers(b, x, y) && x != Unset && y != Unset
    ensures Covers(b2, x, y)
  {
  }

  // ---------------------------------------------------------------- sorting

  /** The sort key `(size[1], size[2])`, i.e. `(minY, maxX)`, compared as a tuple. */
  predicate KeyLess(a: Box, b: Box)
  {
    a.minY < b.minY || (a.minY == b.minY && a.maxX < b.maxX)
  }

  predicate SameKey(a: Box, b: Box)
  {
    a.minY == b.minY && a.maxX == b.maxX
  }

  predicate SortedBoxes(s: seq<Box>)
  {
    forall i, j :: 0 <= i < j < |s| ==> !KeyLess(s[j], s[i])
  }

  /** `x` placed after every element whose key is not greater than its own. */
  function Insert(x: Box, s: seq<Box>): (r: seq<Box>)
    ensures multiset(r) == multiset(s) + multiset{x}
    ensures |r| == |s| + 1
  {
    if s == [] then [x]
    else if KeyLess(x, s[0]) then [x] + s
    else
      assert s == [s[0]] + s[1..];
      [s[0]] + Insert(x, s[1..])
  }

  lemma {:induction false} InsertSorted(x: Box, s: seq<Box>)
    requires SortedBoxes(s)
    ensures SortedBoxes(Insert(x, s))
    decreases |s|
  {
    if s == [] {
    } else if KeyLess(x, s[0]) {
      var r := [x] + s;
      forall i, j | 0 <= i < j < |r| ensures !KeyLess(r[j], r[i]) {
        if i == 0 {
          assert r[j] == s[j - 1];
          if j > 1 {
            assert !KeyLess(s[j - 1], s[0]);
          }
        } else {
          assert r[i] == s[i - 1] && r[j] == s[j - 1];
        }
      }
    } else {
      var t := Insert(x, s[1..]);
      assert SortedBoxes(s[1..]);
      InsertSorted(x, s[1..]);
      forall e | e in t ensures !KeyLess(e, s[0]) {
        assert e in multiset(t);
        assert e in multiset(s[1..]) + multiset{x};
        if e != x {
          assert e in multiset(s[1..]);
          assert e in s[1..];
          var k :| 0 <= k < |s[1..]| && s[1..][k] == e;
          assert s[k + 1] == e;
        }
      }
      var r := [s[0]] + t;
      forall i, j | 0 <= i < j < |r| ensures !KeyLess(r[j], r[i]) {
        if i == 0 {
          assert r[j] == t[j - 1];
          assert r[j] in t;
        } else {
          assert r[i] == t[i - 1] && r[j] == t[j - 1];
        }
      }
    }
  }

  /**
   * Python's `sorted(..., key=lambda size: (size[1], size[2]))`: a stable sort
   * by the key, written as an insertion sort of each element after the earlier ones.
   */
  function SortBoxes(s: seq<Box>): (r: seq<Box>)
    ensures SortedBoxes(r)
    ensures multiset(r) == multiset(s)
    ensures |r| == |s|
  {
    if s == [] then []
    else
      assert s == s[..|s| - 1] + [s[|s| - 1]];
      InsertSorted(s[|s| - 1], SortBoxes(s[..|s| - 1]));
      Insert(s[|s| - 1], SortBoxes(s[..|s| - 1]))
  }

  /** The boxes of `s` whose key equals the key of `k`, in their order in `s`. */
  function WithKey(s: seq<Box>, k: Box): (r: seq<Box>)
  {
    if s == [] then []
    else (if SameKey(s[0], k) then [s[0]] else []) + WithKey(s[1..], k)
  }

  lemma {:induction false} WithKeyAppend(a: seq<Box>, b: seq<Box>, k: Box)
    ensures WithKey(a + b, k) == WithKey(a, k) + WithKey(b, k)
    decreases |a|
  {
    if a == [] {
      assert a + b == b;
    } else {
      assert (a + b)[0] == a[0];
      assert (a + b)[1..] == a[1..] + b;
      WithKeyAppend(a[1..], b, k);
    }
  }

  lemma {:induction false} InsertWithKey(x: Box, s: seq<Box>, k: Box)
    requires SortedBoxes(s)
    ensures WithKey(Insert(x, s), k) == WithKey(s, k) + (if SameKey(x, k) then [x] else [])
    decreases |s|
  {
    if s == [] {
    } else if KeyLess(x, s[0]) {
      // every element of s has a key at least that of s[0], so none shares x's key
      assert WithKey([x] + s, k) == (if SameKey(x, k) then [x] else []) + WithKey(s, k) by {
        assert ([x] + s)[1..] == s;
      }
      if SameKey(x, k) {
        NoneWithKey(s, k);
      }
    } else {
      var r := Insert(x, s[1..]);
      var h := if SameKey(s[0], k) then [s[0]] else [];
      assert WithKey(r, k) == WithKey(s[1..], k) + (if SameKey(x, k) then [x] else []) by {
        assert SortedBoxes(s[1..]);
        InsertWithKey(x, s[1..], k);
      }
      assert WithKey(Insert(x, s), k) == h + WithKey(r, k) by {
        assert Insert(x, s) == [s[0]] + r;
        assert ([s[0]] + r)[1..] == r;
      }
    }
  }

  /** No element of a sorted sequence that starts above `k` has `k`'s key. */
  lemma {:induction false} NoneWithKey(s: seq<Box>, k: Box)
    requires SortedBoxes(s) && s != [] && KeyLess(k, s[0])
    ensures WithKey(s, k) == []
    decreases |s|
  {
    if |s| > 1 {
      assert SortedBoxes(s[1..]);
      assert !KeyLess(s[1], s[0]);
      NoneWithKey(s[1..], k);
    } else {
      assert s[1..] == [];
    }
  }

  /** The sort is stable: boxes with equal keys keep their relative order. */
  lemma {:induction false} SortBoxesStable(s: seq<Box>, k: Box)
    ensures WithKey(SortBoxes(s), k) == WithKey(s, k)
    decreases |s|
  {
    if s != [] {
      var init, last := s[..|s| - 1], s[|s| - 1];
      var tail := if SameKey(last, k) then [last] else [];
      assert WithKey(SortBoxes(s), k) == WithKey(init, k) + tail by {
        SortBoxesLast(s);
        InsertWithKey(last, SortBoxes(init), k);
        SortBoxesStable(init, k);
      }
      assert WithKey(s, k) == WithKey(init, k) + tail by {
        assert s == init + [last];
        WithKeyAppend(init, [last], k);
        assert [last][1..] == [];
      }
    }
  }

  lemma SortBoxesLast(s: seq<Box>)
    requires s != []
    ensures SortBoxes(s) == Insert(s[|s| - 1], SortBoxes(s[..|s| - 1]))
  {
  }

  // ------------------------------------------------------------ renumbering

  /** `self.sizes.values()`: the boxes in the dictionary's insertion order. */
  function BoxesInOrder(order: seq<int>, sizes: map<int, Box>): (r: seq<Box>)
    requires forall i :: 0 <= i < |order| ==> order[i] in sizes
    ensures |r| == |order|
  {
    seq(|order|, i requires 0 <= i < |order| => sizes[order[i]])
  }

  /** `1, 2, ..., n`: the insertion order of the renumbered dictionary. */
  function Iota(n: nat): (r: seq<int>)
    ensures |r| == n
    ensures forall i :: 0 <= i < n ==> r[i] == i + 1
  {
    seq(n, i => i + 1)
  }

  /** The dictionary `{n+1: box for n, box in enumerate(sorted)}`. */
  function Renumbered(sorted: seq<Box>): (r: map<int, Box>)
  {
    if sorted == [] then map[]
    else Renumbered(sorted[..|sorted| - 1])[|sorted| := sorted[|sorted| - 1]]
  }

  /**
   * Renumbering has exactly the keys 1..N, and reading it back in its insertion
   * order gives the sorted boxes again.
   */
  lemma {:induction false} RenumberedRoundTrip(sorted: seq<Box>)
    ensures forall k :: k in Renumbered(sorted) <==> 1 <= k <= |sorted|
    ensures forall k :: 1 <= k <= |sorted| ==> Renumbered(sorted)[k] == sorted[k - 1]
    ensures forall i :: 0 <= i < |sorted| ==> Iota(|sorted|)[i] in Renumbered(sorted)
    ensures BoxesInOrder(Iota(|sorted|), Renumbered(sorted)) == sorted
    decreases |sorted|
  {
    if sorted != [] {
      RenumberedRoundTrip(sorted[..|sorted| - 1]);
    }
  }

  /** The renumbered dictionary has the keys 1..N, each once in its insertion order. */
  lemma RenumberedKeys(sorted: seq<Box>)
    ensures KeysInOrder(Renumbered(sorted), Iota(|sorted|))
  {
    RenumberedRoundTrip(sorted);
  }

  predicate Distinct(xs: seq<int>)
  {
    forall i, j :: 0 <= i < j < |xs| ==> xs[i] != xs[j]
  }

  /** A dictionary's keys and its insertion order: the same keys, each once. */
  predicate KeysInOrder(sizes: map<int, Box>, order: seq<int>)
  {
    Distinct(order) && (forall k <- sizes :: k in order) && (forall i :: 0 <= i < |order| ==> order[i] in sizes)
  }

  /** The number of boxes is the number of distinct object ids seen. */
  lemma {:induction false} KeysInOrderCount(sizes: map<int, Box>, order: seq<int>)
    requires KeysInOrder(sizes, order)
    ensures |sizes| == |order|
    decreases |order|
  {
    if order == [] {
      assert sizes.Keys == {};
    } else {
      var last := order[|order| - 1];
      var init := order[..|order| - 1];
      assert last !in init;
      var rest := map k | k in sizes && k != last :: sizes[k];
      assert forall k :: k in init <==> k in order && k != last;
      KeysInOrderCount(rest, init);
      assert sizes.Keys == rest.Keys + {last};
    }
  }
}
