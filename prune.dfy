/**
  Pruning policies: for an element and its radial shells, how many angular
  points each shell gets (sg1_prune, nwchem_prune, treutler_prune, or no
  pruning at all).
 */
module Prune {
  import opened Types
  import opened Lebedev

  /** SG1 angular sizes of the five regions around an atom. */
  const Sg1Sizes: seq<nat> := [6, 38, 86, 194, 86]

  /** Region thresholds on r / r_atom for H-He, Li-Ne and the rest. */
  const Alphas: seq<seq<real>> :=
    [[0.25, 0.5, 1.0, 4.5],
     [0.1667, 0.5, 0.9, 3.5],
     [0.1, 0.4, 0.8, 2.5]]

  /** Offset that keeps r_atom positive for a zero radius (1e-200 in gen_grid.py). */
  const Tiny: real := 1.0e-200

  /** The threshold row of an element: nuc <= 2, nuc <= 10, or heavier. */
  function AlphaRow(nuc: nat): (a: seq<real>)
    ensures |a| == 4 && 0.0 < a[0] < a[1] < a[2] < a[3]
  {
    if nuc <= 2 then Alphas[0] else if nuc <= 10 then Alphas[1] else Alphas[2]
  }

  /** No radius of the table makes r_atom zero (so rads / r_atom is defined). */
  predicate RatiosDefined(radii: seq<real>)
  {
    forall i :: 0 <= i < |radii| ==> radii[i] + Tiny != 0.0
  }

  /** The radii table covers the element, and its r_atom is not zero. */
  predicate RadiusKnown(radii: seq<real>, nuc: nat)
  {
    nuc < |radii| && radii[nuc] + Tiny != 0.0
  }

  function RAtom(nuc: nat, radii: seq<real>): (r: real)
    requires RadiusKnown(radii, nuc)
    ensures r != 0.0
    ensures radii[nuc] >= 0.0 ==> r > 0.0
  {
    radii[nuc] + Tiny
  }

  /** The region index of one radial shell: place = ((rads/r_atom) > alphas).sum(). */
  function Place(nuc: nat, rad: real, radii: seq<real>): (k: nat)
    requires RadiusKnown(radii, nuc)
    ensures k <= 4
  {
    CountBelow(AlphaRow(nuc), rad / RAtom(nuc, radii))
  }

  /** A shell lies in region k exactly when its scaled radius is in (alpha[k-1], alpha[k]]. */
  lemma PlaceBrackets(nuc: nat, rad: real, radii: seq<real>, k: nat)
    requires RadiusKnown(radii, nuc) && k <= 4
    ensures var a, x := AlphaRow(nuc), rad / RAtom(nuc, radii);
      Place(nuc, rad, radii) == k <==> (k == 0 || a[k - 1] < x) && (k == 4 || x <= a[k])
  {
    CountBelowBrackets(AlphaRow(nuc), rad / RAtom(nuc, radii), k);
  }

  /** sg1_prune: one SG1 size per shell, looked up by region; radii[nuc] fails past the table. */
  function Sg1Prune(nuc: nat, rads: seq<real>, radii: seq<real>): (r: Result<seq<nat>, GridError>)
    requires RatiosDefined(radii)
    ensures r.Failure? <==> nuc >= |radii|
    ensures r.Failure? ==> r.error == RadiusNotTabulated(nuc)
    ensures r.Success? ==> |r.value| == |rads|
    ensures r.Success? ==> forall i :: 0 <= i < |r.value| ==> r.value[i] in {6, 38, 86, 194}
  {
    if nuc >= |radii| then Failure(RadiusNotTabulated(nuc))
    else Success(seq(|rads|, i requires 0 <= i < |rads| => Sg1Sizes[Place(nuc, rads[i], radii)]))
  }

  /** The SG1 size of each shell, by where r / r_atom falls among the element's thresholds. */
  lemma Sg1Buckets(nuc: nat, rads: seq<real>, radii: seq<real>, i: nat)
    requires RatiosDefined(radii) && nuc < |radii| && i < |rads|
    ensures var a, x, n := AlphaRow(nuc), rads[i] / RAtom(nuc, radii), Sg1Prune(nuc, rads, radii).value[i];
      && (n == 6 <==> x <= a[0])
      && (n == 38 <==> a[0] < x <= a[1])
      && (n == 86 <==> a[1] < x <= a[2] || a[3] < x)
      && (n == 194 <==> a[2] < x <= a[3])
  {
    var k := Place(nuc, rads[i], radii);
    PlaceBrackets(nuc, rads[i], radii, k);
  }

  /** First position of x in s. */
  function IndexOf(s: seq<nat>, x: nat): (r: Option<nat>)
    ensures r.None? <==> x !in s
    ensures r.Some? ==> r.value < |s| && s[r.value] == x
  {
    if s == [] then None
    else if s[0] == x then Some(0)
    else match IndexOf(s[1..], x)
      case None => None
      case Some(j) => Some(j + 1)
  }

  /** IndexOf finds the first occurrence: x does not occur before it. */
  lemma {:induction false} IndexOfFirst(s: seq<nat>, x: nat)
    ensures IndexOf(s, x).Some? ==> x !in s[..IndexOf(s, x).value]
  {
    if s != [] && s[0] != x {
      IndexOfFirst(s[1..], x);
      if IndexOf(s, x).Some? {
        var j := IndexOf(s[1..], x).value;
        assert s[..j + 1] == [s[0]] + s[1..][..j];
      }
    }
  }

  /**
    leb_l of nwchem_prune, for n_ang >= 50: indices into LEBEDEV_NGRID[4:]
    per region, or None when n_ang > 50 is not a supported size.
   */
  function NwchemLevels(nAng: nat): (l: Option<seq<nat>>)
    requires nAng >= 50
    ensures l.None? <==> nAng > 50 && nAng !in NwchemSizes()
    ensures l.Some? ==> |l.value| == 5 && forall k :: 0 <= k < 5 ==> l.value[k] < |NwchemSizes()|
    ensures nAng > 50 && l.Some? ==> NwchemSizes()[l.value[3]] == nAng
  {
    if nAng == 50 then Some([1, 2, 2, 2, 1])
    else LevelsAround(NwchemSizes(), nAng)
  }

  /** [1, 3, idx-1, idx, idx-1] where idx = numpy.where(sizes == n_ang)[0][0]. */
  function LevelsAround(sizes: seq<nat>, nAng: nat): (l: Option<seq<nat>>)
    requires nAng > 50 && |sizes| >= 4 && sizes[0] == 38 && sizes[1] == 50
    ensures l.None? <==> nAng !in sizes
    ensures l.Some? ==> |l.value| == 5 && forall k :: 0 <= k < 5 ==> l.value[k] < |sizes|
    ensures l.Some? ==> sizes[l.value[3]] == nAng && l.value[2] == l.value[4] == l.value[3] - 1
    ensures l.Some? ==> l.value[0] == 1 && l.value[1] == 3
  {
    match IndexOf(sizes, nAng)
    case None => None
    case Some(idx) => Some([1, 3, idx - 1, idx, idx - 1])
  }

  /**
    nwchem_prune; the failures are the IndexError of numpy.where(...)[0][0]
    and, after it, the IndexError of radii[nuc].
   */
  function NwchemPrune(nuc: nat, rads: seq<real>, nAng: nat, radii: seq<real>): (r: Result<seq<nat>, GridError>)
    requires RatiosDefined(radii)
    ensures r.Success? ==> |r.value| == |rads|
  {
    if nAng < 50 then Success(seq(|rads|, _ => nAng))
    else
      match NwchemLevels(nAng)
      case None => Failure(LebedevSizeNotFound(nAng))
      case Some(lebL) =>
        if nuc >= |radii| then Failure(RadiusNotTabulated(nuc))
        else Success(seq(|rads|, i requires 0 <= i < |rads| => NwchemSizes()[lebL[Place(nuc, rads[i], radii)]]))
  }

  /** A size is one of LEBEDEV_NGRID[4:] exactly when it is supported and at least 38. */
  lemma NwchemSizeSupported(n: nat)
    ensures n in NwchemSizes() <==> n in LebedevNGrid && n >= 38
  {
    var s := NwchemSizes();
    if n in s {
      var j :| 0 <= j < |s| && s[j] == n;
      assert LebedevNGrid[j + 4] == n;
      if j > 0 {
        SizesIncreasing(4, j + 4);
      }
    }
    if n in LebedevNGrid && n >= 38 {
      var j :| 0 <= j < |LebedevNGrid| && LebedevNGrid[j] == n;
      if j < 4 {
        SizesIncreasing(j, 4);
        assert false;
      }
      assert s[j - 4] == n;
    }
  }

  /**
    nwchem_prune fails exactly for an unsupported n_ang above 50 or, from 50
    up, an element past the radii table; it keeps a small n_ang on every
    shell, and otherwise hands out supported sizes only.
   */
  lemma NwchemPruneFacts(nuc: nat, rads: seq<real>, nAng: nat, radii: seq<real>)
    requires RatiosDefined(radii)
    ensures var r := NwchemPrune(nuc, rads, nAng, radii);
      && (r.Failure? <==> (nAng > 50 && nAng !in LebedevNGrid) || (nAng >= 50 && nuc >= |radii|))
      && (r.Failure? ==> r.error == if nAng > 50 && nAng !in LebedevNGrid then LebedevSizeNotFound(nAng)
                                   else RadiusNotTabulated(nuc))
      && (r.Success? ==> |r.value| == |rads|)
      && (nAng < 50 ==> r.Success? && forall i :: 0 <= i < |rads| ==> r.value[i] == nAng)
      && (nAng >= 50 && r.Success? ==> forall i :: 0 <= i < |rads| ==> r.value[i] in LebedevNGrid)
  {
    var r := NwchemPrune(nuc, rads, nAng, radii);
    if nAng >= 50 {
      NwchemSizeSupported(nAng);
      var l := NwchemLevels(nAng);
      if l.None? {
        assert r == Failure(LebedevSizeNotFound(nAng));
      } else if nuc >= |radii| {
        assert r == Failure(RadiusNotTabulated(nuc));
      } else {
        NwchemSupportedCounts(nuc, rads, nAng, radii);
      }
    }
  }

  /** With leb_l found and the radius tabulated, every shell gets a supported size. */
  lemma NwchemSupportedCounts(nuc: nat, rads: seq<real>, nAng: nat, radii: seq<real>)
    requires RatiosDefined(radii) && nAng >= 50 && NwchemLevels(nAng).Some? && nuc < |radii|
    ensures NwchemPrune(nuc, rads, nAng, radii).Success?
    ensures forall i :: 0 <= i < |rads| ==> NwchemPrune(nuc, rads, nAng, radii).value[i] in LebedevNGrid
  {
    var r := NwchemPrune(nuc, rads, nAng, radii);
    var l := NwchemLevels(nAng).value;
    var s := NwchemSizes();
    forall i | 0 <= i < |rads|
      ensures r.value[i] in LebedevNGrid
    {
      var j := l[Place(nuc, rads[i], radii)];
      assert r.value[i] == s[j];
      NwchemSizeSupported(s[j]);
    }
  }

  /**
    The full region table of nwchem_prune for n_ang > 50 in the table:
    50 / 86 / next size below n_ang / n_ang / next size below n_ang.
   */
  lemma NwchemBuckets(nuc: nat, rads: seq<real>, nAng: nat, radii: seq<real>, i: nat)
    requires RatiosDefined(radii) && nuc < |radii| && i < |rads| && nAng > 50 && nAng in LebedevNGrid
    ensures NwchemPrune(nuc, rads, nAng, radii).Success?
    ensures var n, k := NwchemPrune(nuc, rads, nAng, radii).value[i], Place(nuc, rads[i], radii);
      && (k == 0 ==> n == 50)
      && (k == 1 ==> n == 86)
      && (k == 3 ==> n == nAng)
      && ((k == 2 || k == 4) ==>
            n in LebedevNGrid && n < nAng && forall m :: m in LebedevNGrid && n < m ==> nAng <= m)
  {
    NwchemSizeSupported(nAng);
    var s := NwchemSizes();
    var idx := IndexOf(s, nAng).value;
    assert idx >= 2 by { assert s[0] == 38 && s[1] == 50; }
    var lebL := LevelsAround(s, nAng).value;
    assert lebL == [1, 3, idx - 1, idx, idx - 1];
    var k := Place(nuc, rads[i], radii);
    NwchemValueAt(nuc, rads, nAng, radii, i, lebL);
    if k == 2 || k == 4 {
      assert s[idx - 1] == LebedevNGrid[idx + 3] && s[idx] == LebedevNGrid[idx + 4];
      PreviousSize(idx + 4);
    }
  }

  /** Once leb_l is known and the radius is tabulated, shell i gets LEBEDEV_NGRID[4:][leb_l[place]]. */
  lemma NwchemValueAt(nuc: nat, rads: seq<real>, nAng: nat, radii: seq<real>, i: nat, lebL: seq<nat>)
    requires RatiosDefined(radii) && nuc < |radii| && i < |rads| && nAng >= 50 && NwchemLevels(nAng) == Some(lebL)
    ensures NwchemPrune(nuc, rads, nAng, radii).Success?
    ensures NwchemPrune(nuc, rads, nAng, radii).value[i] == NwchemSizes()[lebL[Place(nuc, rads[i], radii)]]
  {
  }

  /** The entry before a supported size is the largest supported size below it. */
  lemma PreviousSize(t: nat)
    requires 0 < t < |LebedevNGrid|
    ensures LebedevNGrid[t - 1] in LebedevNGrid && LebedevNGrid[t - 1] < LebedevNGrid[t]
    ensures forall m :: m in LebedevNGrid && LebedevNGrid[t - 1] < m ==> LebedevNGrid[t] <= m
  {
    SizesIncreasing(t - 1, t);
    NoSizeBetween(t);
  }

  /** For n_ang == 50 the inner and outer regions keep 50 points and the rest get 74. */
  lemma NwchemFifty(nuc: nat, rads: seq<real>, radii: seq<real>, i: nat)
    requires RatiosDefined(radii) && nuc < |radii| && i < |rads|
    ensures NwchemPrune(nuc, rads, 50, radii).Success?
    ensures var n, k := NwchemPrune(nuc, rads, 50, radii).value[i], Place(nuc, rads[i], radii);
      n == if k == 0 || k == 4 then 50 else 74
  {
    var k := Place(nuc, rads[i], radii);
    assert NwchemPrune(nuc, rads, 50, radii).value[i] == NwchemSizes()[[1, 2, 2, 2, 1][k]];
  }

  /** treutler_prune, as the three slices gen_grid.py fills: [:nr//3], [nr//3:nr//2], [nr//2:]. */
  function TreutlerAngs(nr: nat, nAng: nat): (angs: seq<nat>)
    ensures |angs| == nr
    ensures forall i :: 0 <= i < nr ==>
      angs[i] == if i < nr / 3 then 14 else if i < nr / 2 then 50 else nAng
  {
    seq(nr / 3, _ => 14) + seq(nr / 2 - nr / 3, _ => 50) + seq(nr - nr / 2, _ => nAng)
  }

  /** treutler_prune: fill a fresh array slice by slice. */
  method TreutlerPrune(rads: seq<real>, nAng: nat) returns (angs: seq<nat>)
    ensures angs == TreutlerAngs(|rads|, nAng)
  {
    var nr := |rads|;
    var lebNgrid := new nat[nr];
    var i := 0;
    while i < nr / 3
      invariant 0 <= i <= nr / 3
      invariant forall k :: 0 <= k < i ==> lebNgrid[k] == 14
    {
      lebNgrid[i] := 14;
      i := i + 1;
    }
    while i < nr / 2
      invariant nr / 3 <= i <= nr / 2
      invariant forall k :: 0 <= k < nr / 3 ==> lebNgrid[k] == 14
      invariant forall k :: nr / 3 <= k < i ==> lebNgrid[k] == 50
    {
      lebNgrid[i] := 50;
      i := i + 1;
    }
    while i < nr
      invariant nr / 2 <= i <= nr
      invariant forall k :: 0 <= k < i ==>
        lebNgrid[k] == if k < nr / 3 then 14 else if k < nr / 2 then 50 else nAng
    {
      lebNgrid[i] := nAng;
      i := i + 1;
    }
    angs := lebNgrid[..];
  }

  /** The pruning scheme a Grids object is configured with (None switches pruning off). */
  datatype PruneScheme = Nwchem | Sg1 | Treutler | NoPruning

  /** The radii tables the policies index by default (SG1RADII, BRAGG_RADII). */
  datatype PruneRadii = PruneRadii(sg1: seq<real>, bragg: seq<real>)

  predicate ValidRadii(radii: PruneRadii)
  {
    RatiosDefined(radii.sg1) && RatiosDefined(radii.bragg)
  }

  /** The scheme reads no radius, or the radius it reads (radii[nuc]) is in its table. */
  predicate PruneCovered(scheme: PruneScheme, nuc: nat, nAng: nat, radii: PruneRadii)
  {
    match scheme
    case Sg1 => nuc < |radii.sg1|
    case Nwchem => nAng < 50 || nuc < |radii.bragg|
    case _ => true
  }

  /**
    The per-shell angular counts of one element under a scheme. Every policy
    gives one count per shell; it fails for an unsupported NWChem size or a
    radius past its table, and when n_ang is a supported size, every count is.
   */
  function PruneAngs(scheme: PruneScheme, nuc: nat, rads: seq<real>, nAng: nat, radii: PruneRadii)
    : (r: Result<seq<nat>, GridError>)
    requires ValidRadii(radii)
    ensures r.Success? ==> |r.value| == |rads|
    ensures r.Failure? <==>
      (scheme == Nwchem && nAng > 50 && nAng !in LebedevNGrid) || !PruneCovered(scheme, nuc, nAng, radii)
    ensures nAng in LebedevNGrid && r.Failure? ==> r.error == RadiusNotTabulated(nuc)
    ensures nAng in LebedevNGrid && r.Success? ==> forall i :: 0 <= i < |rads| ==> r.value[i] in LebedevNGrid
  {
    match scheme
    case Nwchem => NwchemPruneFacts(nuc, rads, nAng, radii.bragg); NwchemPrune(nuc, rads, nAng, radii.bragg)
    case Sg1 => Sg1Prune(nuc, rads, radii.sg1)
    case Treutler => Success(TreutlerAngs(|rads|, nAng))
    case NoPruning => Success(seq(|rads|, _ => nAng))
  }
}
