/**
  Alignment padding (_padding_size): how many sentinel points make the grid
  length a multiple of the alignment unit, and the append itself.
 */
module Padding {

  /** ALIGNMENT_UNIT: the default Grids.alignment. */
  const AlignmentUnit: int := 8

  /**
    _padding_size: zero when alignment <= 1, otherwise the p in [0, alignment)
    that brings ngrids up to a multiple of alignment (unique, by
    PaddingUnique). Python's // agrees with Dafny's / here: both operands
    are non-negative.
   */
  function PaddingSize(ngrids: nat, alignment: int): (p: nat)
    ensures alignment <= 1 ==> p == 0
    ensures alignment > 1 ==> p < alignment && (ngrids + p) % alignment == 0
  {
    if alignment <= 1 then 0
    else
      RoundUp(ngrids, alignment);
      (ngrids + alignment - 1) / alignment * alignment - ngrids
  }

  /** A multiple of a strictly between -a and a is zero. */
  lemma SmallMultiple(d: int, a: int)
    requires a > 0 && -a < d * a < a
    ensures d == 0
  {
  }

  /** Division is unique: x == q*a + m with 0 <= m < a fixes x / a and x % a. */
  lemma DivModUnique(x: int, a: int, q: int, m: int)
    requires a > 0 && x == q * a + m && 0 <= m < a
    ensures x / a == q && x % a == m
  {
    var q', m' := x / a, x % a;
    assert x == q' * a + m' && 0 <= m' < a;
    assert (q - q') * a == m' - m;
    SmallMultiple(q - q', a);
  }

  /** The round-up expression of gen_grid.py's _padding_size, in closed form. */
  lemma RoundUp(n: nat, a: int)
    requires a > 1
    ensures var p := (n + a - 1) / a * a - n;
      0 <= p < a && (n + p) % a == 0 && (p == 0 <==> n % a == 0)
  {
    var j, r := n / a, n % a;
    assert n == j * a + r;
    if r == 0 {
      DivModUnique(n + a - 1, a, j, a - 1);
      assert (n + a - 1) / a * a - n == 0;
      DivModUnique(n, a, j, 0);
    } else {
      DivModUnique(n + a - 1, a, j + 1, r - 1);
      assert (j + 1) * a == j * a + a;
      assert (n + a - 1) / a * a - n == a - r;
      DivModUnique(n + (a - r), a, j + 1, 0);
    }
  }

  /** Any p in [0, alignment) that aligns ngrids is the padding size. */
  lemma PaddingUnique(ngrids: nat, alignment: int, q: nat)
    requires alignment > 1 && q < alignment && (ngrids + q) % alignment == 0
    ensures q == PaddingSize(ngrids, alignment)
  {
    var p := PaddingSize(ngrids, alignment);
    var j, k := (ngrids + q) / alignment, (ngrids + p) / alignment;
    assert ngrids + q == j * alignment && ngrids + p == k * alignment;
    assert (j - k) * alignment == q - p;
    SmallMultiple(j - k, alignment);
  }

  /** Re-padding an already padded length adds nothing. */
  lemma PaddingIdempotent(ngrids: nat, alignment: int)
    ensures PaddingSize(ngrids + PaddingSize(ngrids, alignment), alignment) == 0
  {
    if alignment > 1 {
      PaddingUnique(ngrids + PaddingSize(ngrids, alignment), alignment, 0);
    }
  }

  /** Example: 61 points at ALIGNMENT_UNIT 8 are padded with 3 sentinels to 64. */
  lemma PadSixtyOne()
    ensures PaddingSize(61, 8) == 3 && 61 + PaddingSize(61, 8) == 64
  {
  }

  /** Append p copies of a sentinel value. */
  function Padded<T>(s: seq<T>, p: nat, fill: T): (r: seq<T>)
    ensures |r| == |s| + p && r[..|s|] == s
    ensures forall k :: |s| <= k < |r| ==> r[k] == fill
  {
    s + seq(p, _ => fill)
  }
}
