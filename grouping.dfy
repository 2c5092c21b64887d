/**
  arg_group_grids: order grid points so that points in the same spatial box
  are contiguous. Starting from integer box ids (the floor of the fractional
  coordinates), ids are clamped into [-1, boxes] per axis, each point gets
  the rank of its box among the distinct boxes in lexicographic order
  (numpy.unique's inverse), and the points are stably sorted by that rank.
 */
module Grouping {

  /** An integer triple: a box id, or the number of boxes along each axis. */
  datatype Triple = Triple(x: int, y: int, z: int)

  // ---------------------------------------------------------------------
  // Clamping

  /** box_ids[box_ids < -1] = -1, then box_ids[box_ids > boxes] = boxes, along one axis. */
  function ClampAxis(b: int, hi: int): (c: int)
    ensures hi >= -1 ==> -1 <= c <= hi
    ensures -1 <= b <= hi ==> c == b
    ensures b < -1 && hi >= -1 ==> c == -1
    ensures b > hi >= -1 ==> c == hi
  {
    var lo := if b < -1 then -1 else b;
    if lo > hi then hi else lo
  }

  function ClampId(t: Triple, boxes: Triple): Triple
  {
    Triple(ClampAxis(t.x, boxes.x), ClampAxis(t.y, boxes.y), ClampAxis(t.z, boxes.z))
  }

  predicate InBounds(t: Triple, boxes: Triple)
  {
    -1 <= t.x <= boxes.x && -1 <= t.y <= boxes.y && -1 <= t.z <= boxes.z
  }

  /** The clamped ids of all points. */
  function Clamp(ids: seq<Triple>, boxes: Triple): (c: seq<Triple>)
    ensures |c| == |ids|
  {
    seq(|ids|, p requires 0 <= p < |ids| => ClampId(ids[p], boxes))
  }

  /** Clamped ids lie inside the boundary boxes, and ids already inside are untouched. */
  lemma ClampBounds(ids: seq<Triple>, boxes: Triple, p: nat)
    requires p < |ids| && boxes.x >= -1 && boxes.y >= -1 && boxes.z >= -1
    ensures InBounds(Clamp(ids, boxes)[p], boxes)
    ensures InBounds(ids[p], boxes) ==> Clamp(ids, boxes)[p] == ids[p]
    ensures var c, t := Clamp(ids, boxes)[p], ids[p];
      && (t.x < -1 ==> c.x == -1) && (t.x > boxes.x ==> c.x == boxes.x) && (-1 <= t.x <= boxes.x ==> c.x == t.x)
      && (t.y < -1 ==> c.y == -1) && (t.y > boxes.y ==> c.y == boxes.y) && (-1 <= t.y <= boxes.y ==> c.y == t.y)
      && (t.z < -1 ==> c.z == -1) && (t.z > boxes.z ==> c.z == boxes.z) && (-1 <= t.z <= boxes.z ==> c.z == t.z)
  {
  }

  // ---------------------------------------------------------------------
  // Ranks (numpy.unique(..., axis=0, return_inverse=True))

  /** Lexicographic order on rows, as numpy.unique sorts them. */
  predicate LexLess(a: Triple, b: Triple)
  {
    a.x < b.x || (a.x == b.x && (a.y < b.y || (a.y == b.y && a.z < b.z)))
  }

  /** The distinct ids that sort before ids[p]. */
  function Below(ids: seq<Triple>, p: nat): set<Triple>
    requires p < |ids|
  {
    set t | t in ids && LexLess(t, ids[p])
  }

  /** The inverse index of numpy.unique: the position of ids[p] among the sorted distinct ids. */
  function Rank(ids: seq<Triple>, p: nat): (r: nat)
    requires p < |ids|
    ensures r == 0 <==> forall q :: 0 <= q < |ids| ==> !LexLess(ids[q], ids[p])
  {
    BelowEmpty(ids, p);
    |Below(ids, p)|
  }

  /** No distinct id sorts before ids[p] exactly when no point's id does. */
  lemma BelowEmpty(ids: seq<Triple>, p: nat)
    requires p < |ids|
    ensures Below(ids, p) == {} <==> forall q :: 0 <= q < |ids| ==> !LexLess(ids[q], ids[p])
  {
    if Below(ids, p) != {} {
      var t :| t in Below(ids, p);
      var q :| 0 <= q < |ids| && ids[q] == t;
      assert LexLess(ids[q], ids[p]);
    }
    forall q | 0 <= q < |ids| && LexLess(ids[q], ids[p])
      ensures Below(ids, p) != {}
    {
      assert ids[q] in Below(ids, p);
    }
  }

  /** Ranks order points exactly as their ids do: equal ids share a rank, smaller ids rank lower. */
  lemma RankOrder(ids: seq<Triple>, p: nat, q: nat)
    requires p < |ids| && q < |ids|
    ensures Rank(ids, p) == Rank(ids, q) <==> ids[p] == ids[q]
    ensures Rank(ids, p) < Rank(ids, q) <==> LexLess(ids[p], ids[q])
  {
    if LexLess(ids[p], ids[q]) {
      RankStrict(ids, p, q);
    } else if LexLess(ids[q], ids[p]) {
      RankStrict(ids, q, p);
    } else {
      assert ids[p] == ids[q];
    }
  }

  lemma RankStrict(ids: seq<Triple>, p: nat, q: nat)
    requires p < |ids| && q < |ids| && LexLess(ids[p], ids[q])
    ensures Rank(ids, p) < Rank(ids, q)
  {
    var A, B := Below(ids, p), Below(ids, q);
    assert A <= B;
    assert ids[p] in B - A;
    assert B == A + (B - A);
    assert |B| == |A| + |B - A|;
  }

  /** The inverse indices of all points. */
  function Ranks(ids: seq<Triple>): (r: seq<nat>)
    ensures |r| == |ids|
  {
    seq(|ids|, p requires 0 <= p < |ids| => Rank(ids, p))
  }

  // ---------------------------------------------------------------------
  // Stable argsort

  /** Index a comes before index b: smaller key, or equal key and earlier position. */
  predicate Before(keys: seq<nat>, a: nat, b: nat)
    requires a < |keys| && b < |keys|
  {
    keys[a] < keys[b] || (keys[a] == keys[b] && a < b)
  }

  predicate IndicesBelow(s: seq<nat>, n: nat)
  {
    forall a :: 0 <= a < |s| ==> s[a] < n
  }

  /** Pairwise in Before order: sorted by key, ties kept in their original order. */
  predicate StablySorted(keys: seq<nat>, perm: seq<nat>)
    requires IndicesBelow(perm, |keys|)
  {
    forall a, b :: 0 <= a < b < |perm| ==> Before(keys, perm[a], perm[b])
  }

  /** Insert index p in front of the first index it comes Before. */
  function Insert(keys: seq<nat>, sorted: seq<nat>, p: nat): (r: seq<nat>)
    requires IndicesBelow(sorted, |keys|) && p < |keys|
    ensures IndicesBelow(r, |keys|)
    ensures multiset(r) == multiset(sorted) + multiset{p}
    ensures forall x :: x in r <==> x in sorted || x == p
  {
    if sorted == [] then [p]
    else if Before(keys, p, sorted[0]) then [p] + sorted
    else
      assert sorted == [sorted[0]] + sorted[1..];
      [sorted[0]] + Insert(keys, sorted[1..], p)
  }

  /** Inserting a new index into a stably sorted list keeps it stably sorted. */
  lemma {:induction false} InsertKeepsSorted(keys: seq<nat>, sorted: seq<nat>, p: nat)
    requires IndicesBelow(sorted, |keys|) && p < |keys| && p !in sorted
    requires StablySorted(keys, sorted)
    ensures StablySorted(keys, Insert(keys, sorted, p))
  {
    var r := Insert(keys, sorted, p);
    if sorted == [] {
    } else if Before(keys, p, sorted[0]) {
      assert forall b :: 0 < b < |r| ==> r[b] == sorted[b - 1];
      assert forall b :: 0 < b < |sorted| ==> Before(keys, sorted[0], sorted[b]);
    } else {
      var tail := sorted[1..];
      var rest := Insert(keys, tail, p);
      assert forall b :: 0 <= b < |tail| ==> tail[b] == sorted[b + 1];
      InsertKeepsSorted(keys, tail, p);
      forall b | 0 <= b < |rest| ensures Before(keys, sorted[0], rest[b]) {
        assert rest[b] in rest;
        if rest[b] != p {
          var c :| 0 <= c < |tail| && tail[c] == rest[b];
          assert Before(keys, sorted[0], sorted[c + 1]);
        }
      }
      assert forall b :: 0 < b < |r| ==> r[b] == rest[b - 1];
    }
  }

  /** argsort(kind='stable') of the first n keys: insertion of 0, 1, ..., n-1. */
  function ArgSortUpTo(keys: seq<nat>, n: nat): (perm: seq<nat>)
    requires n <= |keys|
    ensures IndicesBelow(perm, n)
    ensures multiset(perm) == multiset(Range(n))
  {
    if n == 0 then []
    else
      var prev := ArgSortUpTo(keys, n - 1);
      var r := Insert(keys, prev, n - 1);
      assert Range(n) == Range(n - 1) + [n - 1];
      assert forall a :: 0 <= a < |r| ==> r[a] < n by {
        forall a | 0 <= a < |r| ensures r[a] < n {
          assert r[a] in r;
          if r[a] != n - 1 {
            var b :| 0 <= b < |prev| && prev[b] == r[a];
          }
        }
      }
      r
  }

  /** The insertions keep the list stably sorted. */
  lemma {:induction false} ArgSortSorted(keys: seq<nat>, n: nat)
    requires n <= |keys|
    ensures IndicesBelow(ArgSortUpTo(keys, n), |keys|)
    ensures StablySorted(keys, ArgSortUpTo(keys, n))
  {
    BelowWeaken(ArgSortUpTo(keys, n), n, |keys|);
    if n > 0 {
      var prev := ArgSortUpTo(keys, n - 1);
      ArgSortSorted(keys, n - 1);
      BelowWeaken(prev, n - 1, n - 1);
      InsertKeepsSorted(keys, prev, n - 1);
    }
  }

  /** Indices below n are below any larger bound, and n itself is not among them. */
  lemma BelowWeaken(s: seq<nat>, n: nat, m: nat)
    requires IndicesBelow(s, n) && n <= m
    ensures IndicesBelow(s, m) && m !in s
  {
  }

  /** 0, 1, ..., n-1. */
  function Range(n: nat): (r: seq<nat>)
    ensures |r| == n && forall a :: 0 <= a < n ==> r[a] == a
  {
    seq(n, a requires 0 <= a < n => a)
  }

  /** argsort(kind='stable'): the positions of the keys in stable sorted order. */
  function StableArgSort(keys: seq<nat>): (perm: seq<nat>)
    ensures IndicesBelow(perm, |keys|) && StablySorted(keys, perm)
    ensures multiset(perm) == multiset(Range(|keys|))
  {
    ArgSortSorted(keys, |keys|);
    ArgSortUpTo(keys, |keys|)
  }

  /** A sequence with the multiset of 0..n-1 holds every index once. */
  lemma PermutationOfRange(perm: seq<nat>, n: nat)
    requires multiset(perm) == multiset(Range(n))
    ensures |perm| == n
    ensures forall p :: 0 <= p < n ==> p in perm
    ensures forall a, b :: 0 <= a < b < |perm| ==> perm[a] != perm[b]
  {
    assert |perm| == |multiset(perm)| == |multiset(Range(n))| == n;
    forall p | 0 <= p < n ensures p in perm {
      assert Range(n)[p] == p;
      assert p in multiset(Range(n));
    }
    forall a, b | 0 <= a < b < |perm| ensures perm[a] != perm[b] {
      if perm[a] == perm[b] {
        var x := perm[a];
        assert perm == perm[..a] + [x] + perm[a + 1..b] + [x] + perm[b + 1..];
        assert multiset(perm)[x] >= 2;
        RangeOnce(n, x);
        assert false;
      }
    }
  }

  lemma {:induction false} RangeOnce(n: nat, x: nat)
    ensures multiset(Range(n))[x] <= 1
  {
    if n > 0 {
      RangeOnce(n - 1, x);
      assert Range(n) == Range(n - 1) + [n - 1];
      if x == n - 1 {
        assert x !in Range(n - 1);
      }
    }
  }

  // ---------------------------------------------------------------------
  // arg_group_grids

  /** rev_idx.ravel().argsort(kind='stable') for the clamped box ids. */
  function ArgGroupGrids(ids: seq<Triple>, boxes: Triple): (perm: seq<nat>)
    ensures |perm| == |ids|
    ensures forall p :: 0 <= p < |ids| ==> p in perm
    ensures forall a :: 0 <= a < |perm| ==> perm[a] < |ids|
  {
    var perm := StableArgSort(Ranks(Clamp(ids, boxes)));
    PermutationOfRange(perm, |ids|);
    perm
  }

  /**
    The grouping order is a permutation of the points that lists the
    clamped box ids in lexicographic order, and keeps points of the same box
    in their original order.
   */
  lemma ArgGroupGridsOrder(ids: seq<Triple>, boxes: Triple)
    ensures var perm, c := ArgGroupGrids(ids, boxes), Clamp(ids, boxes);
      && |perm| == |ids|
      && (forall p :: 0 <= p < |ids| ==> p in perm)
      && (forall a :: 0 <= a < |perm| ==> perm[a] < |ids|)
      && (forall a, b :: 0 <= a < b < |perm| ==> perm[a] != perm[b])
      && (forall a, b :: 0 <= a < b < |perm| ==>
            LexLess(c[perm[a]], c[perm[b]]) || (c[perm[a]] == c[perm[b]] && perm[a] < perm[b]))
  {
    var c := Clamp(ids, boxes);
    var keys := Ranks(c);
    var perm := StableArgSort(keys);
    PermutationOfRange(perm, |ids|);
    forall a, b | 0 <= a < b < |perm|
      ensures LexLess(c[perm[a]], c[perm[b]]) || (c[perm[a]] == c[perm[b]] && perm[a] < perm[b])
    {
      assert Before(keys, perm[a], perm[b]);
      RankOrder(c, perm[a], perm[b]);
    }
  }

  /** Points in the same box end up next to each other: a box's points form one run. */
  lemma BoxesContiguous(ids: seq<Triple>, boxes: Triple, a: nat, b: nat, m: nat)
    requires a < m < b < |ArgGroupGrids(ids, boxes)|
    requires Clamp(ids, boxes)[ArgGroupGrids(ids, boxes)[a]] == Clamp(ids, boxes)[ArgGroupGrids(ids, boxes)[b]]
    ensures Clamp(ids, boxes)[ArgGroupGrids(ids, boxes)[m]] == Clamp(ids, boxes)[ArgGroupGrids(ids, boxes)[a]]
  {
    ArgGroupGridsOrder(ids, boxes);
  }
}
