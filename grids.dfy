/**
  The Grids object: a configuration (level, pruning, radial scheme, ...) and
  the cached results of `build` (coords, weights, atm_idx,
  quadrature_weights, non0tab, screen_index), with the operations that
  assign a setting, reset, build, and prune the grid by density.

  The Becke partition fraction, the spatial box of a point, and make_mask
  are foreign numerics; they are parameters here (Externals).
 */
module GridsObject {
  import opened Types
  import opened Padding
  import opened Prune
  import opened AtomicGrids
  import opened Grouping

  /** NELEC_ERROR_TOL: relative tolerance of the electron-count check in prune_by_density_. */
  const NelecErrorTol: real := 0.02

  /** The coordinate of a padding point: (1e-4, 1e-4, 1e-4). */
  const PadCoord: Point := Point(0.0001, 0.0001, 0.0001)

  // ---------------------------------------------------------------------
  // The molecule and the foreign collaborators

  datatype Molecule = Molecule(symbols: seq<string>, atomCoords: seq<Point>, nelectron: int, symmetry: bool)

  /** A molecule has one nuclear position per atom. */
  type Mol = m: Molecule | |m.atomCoords| == |m.symbols| witness Molecule([], [], 0, false)

  /** The built-in radii adjustments (callables other than these are not modelled). */
  datatype RadiiAdjust = TreutlerAdjust | BeckeAdjust | NoAdjust

  /** The radial schemes of the radi module a Grids object can name. */
  datatype RadiMethod = TreutlerRadial | DelleyRadial | MuraKnowlesRadial | GaussChebyshevRadial

  /** The built-in Becke smoothing schemes. */
  datatype BeckeScheme = OriginalBecke | Stratmann

  /** The settings get_partition receives from the Grids object. */
  datatype PartitionConfig = PartitionConfig(radiiAdjust: RadiiAdjust, atomicRadii: Option<seq<real>>, beckeScheme: BeckeScheme)

  /** make_mask's result: one row of screening values per grid point. */
  type Mask = seq<seq<int>>

  datatype Externals = Externals(
    elements: ElementData,                                // gto.charge and the radii tables the policies read
    radial: RadiMethod -> RadialScheme,                   // radi.treutler, radi.delley, ...
    angular: AngularRule,                                 // MakeAngularGrid
    becke: (Mol, PartitionConfig, nat, Point) -> real,    // pbecke[ia] / pbecke.sum(axis=0) at a point
    boxOf: (Mol, Point) -> Triple,                        // floor((coord - boundary) / box_size)
    boxes: Mol -> Triple,                                 // number of boxes along each axis
    makeMask: (Mol, seq<Point>, real) -> Mask)            // make_mask(mol, coords, cutoff=self.cutoff)

  // ---------------------------------------------------------------------
  // The four parallel per-point arrays

  datatype GridArrays = GridArrays(coords: seq<Point>, weights: seq<real>, atmIdx: seq<int>, qw: seq<real>)
  {
    predicate Parallel()
    {
      |coords| == |weights| == |atmIdx| == |qw|
    }
  }

  /** One point: its row in each of the four arrays. */
  datatype GridRow = GridRow(coord: Point, weight: real, atm: int, qw: real)

  function PointRow(g: GridArrays, a: nat): GridRow
    requires g.Parallel() && a < |g.weights|
  {
    GridRow(g.coords[a], g.weights[a], g.atmIdx[a], g.qw[a])
  }

  /** numpy fancy indexing s[idx]. */
  function Gather<T>(s: seq<T>, idx: seq<nat>): (r: seq<T>)
    requires forall a :: 0 <= a < |idx| ==> idx[a] < |s|
    ensures |r| == |idx| && forall a :: 0 <= a < |idx| ==> r[a] == s[idx[a]]
  {
    seq(|idx|, a requires 0 <= a < |idx| => s[idx[a]])
  }

  /** The same index array applied to all four arrays. */
  function GatherRows(g: GridArrays, idx: seq<nat>): (r: GridArrays)
    requires g.Parallel() && forall a :: 0 <= a < |idx| ==> idx[a] < |g.weights|
    ensures r.Parallel() && |r.weights| == |idx|
  {
    GridArrays(Gather(g.coords, idx), Gather(g.weights, idx), Gather(g.atmIdx, idx), Gather(g.qw, idx))
  }

  /** Every row of a gathered grid is the source row its index names. */
  lemma GatherRowsAt(g: GridArrays, idx: seq<nat>, a: nat)
    requires g.Parallel() && forall b :: 0 <= b < |idx| ==> idx[b] < |g.weights|
    requires a < |idx|
    ensures PointRow(GatherRows(g, idx), a) == PointRow(g, idx[a])
  {
  }

  /** Append p padding points: coord 1e-4, weight 0, atm_idx -1, quadrature weight 0. */
  function PadArrays(g: GridArrays, p: nat): GridArrays
  {
    GridArrays(Padded(g.coords, p, PadCoord), Padded(g.weights, p, 0.0), Padded(g.atmIdx, p, -1), Padded(g.qw, p, 0.0))
  }

  /** The padding step of build and prune_by_density_, sized by the weights. */
  function Realign(g: GridArrays, alignment: int): (r: GridArrays)
    ensures g.Parallel() ==> r.Parallel()
  {
    if alignment > 1 && PaddingSize(|g.weights|, alignment) > 0 then
      PadArrays(g, PaddingSize(|g.weights|, alignment))
    else g
  }

  /**
    Padding keeps every existing row, appends only sentinel rows, fewer than
    the alignment, and leaves a length that is a multiple of it; with
    alignment <= 1 nothing changes.
   */
  lemma RealignFacts(g: GridArrays, alignment: int)
    requires g.Parallel()
    ensures var r := Realign(g, alignment);
      && r.Parallel()
      && |r.weights| == |g.weights| + PaddingSize(|g.weights|, alignment)
      && (forall a :: 0 <= a < |g.weights| ==> PointRow(r, a) == PointRow(g, a))
      && (forall a :: |g.weights| <= a < |r.weights| ==> PointRow(r, a) == GridRow(PadCoord, 0.0, -1, 0.0))
      && (alignment > 1 ==> |r.weights| % alignment == 0 && |r.weights| - |g.weights| < alignment)
      && (alignment <= 1 ==> r == g)
  {
    var p := PaddingSize(|g.weights|, alignment);
    if alignment > 1 && p > 0 {
      var r := PadArrays(g, p);
      forall a | 0 <= a < |g.weights| ensures PointRow(r, a) == PointRow(g, a) {
        assert r.coords[..|g.coords|][a] == g.coords[a];
        assert r.weights[..|g.weights|][a] == g.weights[a];
        assert r.atmIdx[..|g.atmIdx|][a] == g.atmIdx[a];
        assert r.qw[..|g.qw|][a] == g.qw[a];
      }
    }
  }

  /** Re-padding a padded grid adds nothing. */
  lemma RealignIdempotent(g: GridArrays, alignment: int)
    requires g.Parallel()
    ensures Realign(Realign(g, alignment), alignment) == Realign(g, alignment)
  {
    RealignFacts(g, alignment);
    PaddingIdempotent(|g.weights|, alignment);
  }

  // ---------------------------------------------------------------------
  // get_partition and the atom blocks of build

  /** Each atom's element has a table, with as many weights as points. */
  predicate Covers(tab: AtomGridsTab, symbols: seq<string>)
  {
    forall ia :: 0 <= ia < |symbols| ==>
      symbols[ia] in tab && |tab[symbols[ia]].coords| == |tab[symbols[ia]].vol|
  }

  /** The table gen_atomic_grids returns covers the molecule. */
  lemma TableCovers(cfg: AtomGridConfig, symbols: seq<string>)
    requires ValidElements(cfg.elements) && SizedRule(cfg.angular)
    ensures AtomGridsTable(cfg, symbols).Success? ==> Covers(AtomGridsTable(cfg, symbols).value, symbols)
  {
    var builds := AtomBuilds(cfg, symbols);
    TabKeys(symbols, builds, |symbols|);
    TabValuesBuilt(symbols, builds, |symbols|);
    var r := AtomGridsTable(cfg, symbols);
    if r.Success? {
      forall ia | 0 <= ia < |symbols|
        ensures symbols[ia] in r.value && |r.value[symbols[ia]].coords| == |r.value[symbols[ia]].vol|
      {
        assert symbols[ia] in r.value.Keys;
        var j :| 0 <= j < |symbols| && builds[j] == Success(r.value[symbols[ia]]);
        ElementGridSize(cfg, symbols[j], j);
      }
    }
  }

  /** Number of points of the first k atoms (the running p1 of build). */
  function Offset(symbols: seq<string>, tab: AtomGridsTab, k: nat): nat
    requires k <= |symbols| && Covers(tab, symbols)
  {
    if k == 0 then 0 else Offset(symbols, tab, k - 1) + |tab[symbols[k - 1]].vol|
  }

  function Translate(center: Point, p: Point): Point
  {
    Point(center.x + p.x, center.y + p.y, center.z + p.z)
  }

  /** Atom ia's points: its element's grid moved to the atom's nucleus. */
  function AtomPoints(m: Mol, tab: AtomGridsTab, ia: nat): (c: seq<Point>)
    requires ia < |m.symbols| && Covers(tab, m.symbols)
    ensures |c| == |tab[m.symbols[ia]].vol|
  {
    var t := tab[m.symbols[ia]];
    seq(|t.coords|, k requires 0 <= k < |t.coords| => Translate(m.atomCoords[ia], t.coords[k]))
  }

  /** Atom ia's weights: vol scaled by the atom's Becke fraction at each point. */
  function AtomWeights(m: Mol, tab: AtomGridsTab, pc: PartitionConfig, becke: (Mol, PartitionConfig, nat, Point) -> real, ia: nat)
    : (w: seq<real>)
    requires ia < |m.symbols| && Covers(tab, m.symbols)
    ensures |w| == |tab[m.symbols[ia]].vol|
  {
    var t := tab[m.symbols[ia]];
    var c := AtomPoints(m, tab, ia);
    seq(|t.vol|, k requires 0 <= k < |t.vol| => t.vol[k] * becke(m, pc, ia, c[k]))
  }

  /** get_partition's coordinates: the atoms' points, concatenated in atom order. */
  function PartitionCoords(m: Mol, tab: AtomGridsTab, k: nat): seq<Point>
    requires k <= |m.symbols| && Covers(tab, m.symbols)
  {
    if k == 0 then [] else PartitionCoords(m, tab, k - 1) + AtomPoints(m, tab, k - 1)
  }

  /** get_partition's weights, concatenated in atom order. */
  function PartitionWeights(m: Mol, tab: AtomGridsTab, pc: PartitionConfig, becke: (Mol, PartitionConfig, nat, Point) -> real, k: nat)
    : seq<real>
    requires k <= |m.symbols| && Covers(tab, m.symbols)
  {
    if k == 0 then [] else PartitionWeights(m, tab, pc, becke, k - 1) + AtomWeights(m, tab, pc, becke, k - 1)
  }

  /** atm_idx after the first k atoms: atom ia repeated once per point of its element. */
  function AtmIdxUpTo(symbols: seq<string>, tab: AtomGridsTab, k: nat): seq<int>
    requires k <= |symbols| && Covers(tab, symbols)
  {
    if k == 0 then [] else AtmIdxUpTo(symbols, tab, k - 1) + seq(|tab[symbols[k - 1]].vol|, _ => k - 1)
  }

  /** quadrature_weights after the first k atoms: the elements' vol, in atom order. */
  function QwUpTo(symbols: seq<string>, tab: AtomGridsTab, k: nat): seq<real>
    requires k <= |symbols| && Covers(tab, symbols)
  {
    if k == 0 then [] else QwUpTo(symbols, tab, k - 1) + tab[symbols[k - 1]].vol
  }

  lemma {:induction false} PartitionCoordsLength(m: Mol, tab: AtomGridsTab, k: nat)
    requires k <= |m.symbols| && Covers(tab, m.symbols)
    ensures |PartitionCoords(m, tab, k)| == Offset(m.symbols, tab, k)
  {
    if k > 0 {
      PartitionCoordsLength(m, tab, k - 1);
    }
  }

  lemma {:induction false} PartitionWeightsLength(m: Mol, tab: AtomGridsTab, pc: PartitionConfig,
                                                  becke: (Mol, PartitionConfig, nat, Point) -> real, k: nat)
    requires k <= |m.symbols| && Covers(tab, m.symbols)
    ensures |PartitionWeights(m, tab, pc, becke, k)| == Offset(m.symbols, tab, k)
  {
    if k > 0 {
      PartitionWeightsLength(m, tab, pc, becke, k - 1);
    }
  }

  lemma {:induction false} BlockLengths(symbols: seq<string>, tab: AtomGridsTab, k: nat)
    requires k <= |symbols| && Covers(tab, symbols)
    ensures |AtmIdxUpTo(symbols, tab, k)| == |QwUpTo(symbols, tab, k)| == Offset(symbols, tab, k)
  {
    if k > 0 {
      BlockLengths(symbols, tab, k - 1);
    }
  }

  /** The arrays build has before sorting. */
  function Unsorted(m: Mol, tab: AtomGridsTab, pc: PartitionConfig, becke: (Mol, PartitionConfig, nat, Point) -> real)
    : (g: GridArrays)
    requires Covers(tab, m.symbols)
    ensures g.Parallel() && |g.weights| == Offset(m.symbols, tab, |m.symbols|)
  {
    var n := |m.symbols|;
    PartitionCoordsLength(m, tab, n);
    PartitionWeightsLength(m, tab, pc, becke, n);
    BlockLengths(m.symbols, tab, n);
    GridArrays(PartitionCoords(m, tab, n), PartitionWeights(m, tab, pc, becke, n),
               AtmIdxUpTo(m.symbols, tab, n), QwUpTo(m.symbols, tab, n))
  }

  /**
    Before sorting, atom ia owns the block [Offset(ia), Offset(ia+1)): its
    atm_idx is ia and its quadrature weights are its element's vol.
   */
  lemma {:induction false} BlockAt(symbols: seq<string>, tab: AtomGridsTab, k: nat, ia: nat, j: nat)
    requires k <= |symbols| && Covers(tab, symbols)
    requires ia < k && j < |tab[symbols[ia]].vol|
    ensures Offset(symbols, tab, ia) + j < Offset(symbols, tab, k)
    ensures |AtmIdxUpTo(symbols, tab, k)| == |QwUpTo(symbols, tab, k)| == Offset(symbols, tab, k)
    ensures AtmIdxUpTo(symbols, tab, k)[Offset(symbols, tab, ia) + j] == ia
    ensures QwUpTo(symbols, tab, k)[Offset(symbols, tab, ia) + j] == tab[symbols[ia]].vol[j]
  {
    if ia < k - 1 {
      BlockAt(symbols, tab, k - 1, ia, j);
    } else {
      BlockLengths(symbols, tab, k - 1);
    }
  }

  /** get_partition gives atom ia the same block of points: its element's points moved to the nucleus. */
  lemma {:induction false} PartitionCoordsAt(m: Mol, tab: AtomGridsTab, k: nat, ia: nat, j: nat)
    requires k <= |m.symbols| && Covers(tab, m.symbols)
    requires ia < k && j < |tab[m.symbols[ia]].vol|
    ensures Offset(m.symbols, tab, ia) + j < Offset(m.symbols, tab, k) == |PartitionCoords(m, tab, k)|
    ensures PartitionCoords(m, tab, k)[Offset(m.symbols, tab, ia) + j]
         == Translate(m.atomCoords[ia], tab[m.symbols[ia]].coords[j])
  {
    PartitionCoordsLength(m, tab, k - 1);
    if ia < k - 1 {
      PartitionCoordsAt(m, tab, k - 1, ia, j);
    }
  }

  /** ... and that block's weights are vol times the atom's Becke fraction at each point. */
  lemma {:induction false} PartitionWeightsAt(m: Mol, tab: AtomGridsTab, pc: PartitionConfig,
                                              becke: (Mol, PartitionConfig, nat, Point) -> real, k: nat, ia: nat, j: nat)
    requires k <= |m.symbols| && Covers(tab, m.symbols)
    requires ia < k && j < |tab[m.symbols[ia]].vol|
    ensures Offset(m.symbols, tab, ia) + j < Offset(m.symbols, tab, k) == |PartitionWeights(m, tab, pc, becke, k)|
    ensures PartitionWeights(m, tab, pc, becke, k)[Offset(m.symbols, tab, ia) + j]
         == tab[m.symbols[ia]].vol[j] * becke(m, pc, ia, AtomPoints(m, tab, ia)[j])
  {
    PartitionWeightsLength(m, tab, pc, becke, k - 1);
    if ia < k - 1 {
      PartitionWeightsAt(m, tab, pc, becke, k - 1, ia, j);
    }
  }

  /** Before padding, every atm_idx names an atom. */
  lemma {:induction false} AtmIdxRange(symbols: seq<string>, tab: AtomGridsTab, k: nat)
    requires k <= |symbols| && Covers(tab, symbols)
    ensures forall p :: 0 <= p < |AtmIdxUpTo(symbols, tab, k)| ==> 0 <= AtmIdxUpTo(symbols, tab, k)[p] < k
  {
    if k > 0 {
      AtmIdxRange(symbols, tab, k - 1);
    }
  }

  /**
    build's atm_idx / quadrature_weights fill: running p0, p1 over the atoms,
    writing each atom's block into preallocated arrays.
   */
  method FillAtomBlocks(symbols: seq<string>, tab: AtomGridsTab, n: nat) returns (atmIdx: array<int>, qw: array<real>)
    requires Covers(tab, symbols) && n == Offset(symbols, tab, |symbols|)
    ensures fresh(atmIdx) && fresh(qw)
    ensures atmIdx[..] == AtmIdxUpTo(symbols, tab, |symbols|)
    ensures qw[..] == QwUpTo(symbols, tab, |symbols|)
  {
    atmIdx := new int[n];
    qw := new real[n];
    var p0, p1 := 0, 0;
    for ia := 0 to |symbols|
      invariant p1 == Offset(symbols, tab, ia) <= n
      invariant atmIdx[..p1] == AtmIdxUpTo(symbols, tab, ia)
      invariant qw[..p1] == QwUpTo(symbols, tab, ia)
    {
      OffsetMonotone(symbols, tab, ia + 1, |symbols|);
      var vol := tab[symbols[ia]].vol;
      p0, p1 := p1, p1 + |vol|;
      FillBlock(atmIdx, qw, p0, ia, vol);
    }
    assert atmIdx[..] == atmIdx[..p1] && qw[..] == qw[..p1];
  }

  /** atm_idx[p0:p1] = ia and quadrature_weights[p0:p1] = vol, leaving the prefix alone. */
  method FillBlock(atmIdx: array<int>, qw: array<real>, p0: nat, ia: int, vol: seq<real>)
    requires atmIdx.Length == qw.Length && p0 + |vol| <= atmIdx.Length
    modifies atmIdx, qw
    ensures atmIdx[..p0 + |vol|] == old(atmIdx[..p0]) + seq(|vol|, _ => ia)
    ensures qw[..p0 + |vol|] == old(qw[..p0]) + vol
  {
    for q := p0 to p0 + |vol|
      invariant forall k :: 0 <= k < p0 ==> atmIdx[k] == old(atmIdx[k]) && qw[k] == old(qw[k])
      invariant forall k :: p0 <= k < q ==> atmIdx[k] == ia && qw[k] == vol[k - p0]
    {
      atmIdx[q] := ia;
      qw[q] := vol[q - p0];
    }
    ghost var atmWant := old(atmIdx[..p0]) + seq(|vol|, _ => ia);
    ghost var qwWant := old(qw[..p0]) + vol;
    assert forall k :: 0 <= k < |atmWant| ==> atmIdx[k] == atmWant[k];
    assert forall k :: 0 <= k < |qwWant| ==> qw[k] == qwWant[k];
    assert atmIdx[..p0 + |vol|] == atmWant;
    assert qw[..p0 + |vol|] == qwWant;
  }

  lemma {:induction false} OffsetMonotone(symbols: seq<string>, tab: AtomGridsTab, i: nat, k: nat)
    requires i <= k <= |symbols| && Covers(tab, symbols)
    ensures Offset(symbols, tab, i) <= Offset(symbols, tab, k)
  {
    if i < k {
      OffsetMonotone(symbols, tab, i, k - 1);
    }
  }

  // ---------------------------------------------------------------------
  // Sorting by box and the whole of build

  /** The integer box of every point (the floating-point binning is foreign). */
  function BoxIds(m: Mol, coords: seq<Point>, ext: Externals): (ids: seq<Triple>)
    ensures |ids| == |coords|
  {
    seq(|coords|, k requires 0 <= k < |coords| => ext.boxOf(m, coords[k]))
  }

  /** arg_group_grids(mol, coords). */
  function GroupOrder(m: Mol, coords: seq<Point>, ext: Externals): (perm: seq<nat>)
    ensures |perm| == |coords| && forall a :: 0 <= a < |perm| ==> perm[a] < |coords|
  {
    ArgGroupGridsOrder(BoxIds(m, coords, ext), ext.boxes(m));
    ArgGroupGrids(BoxIds(m, coords, ext), ext.boxes(m))
  }

  /** The arrays after the optional sort, before padding. */
  function Grouped(m: Mol, tab: AtomGridsTab, pc: PartitionConfig, ext: Externals, sortGrids: bool): (g: GridArrays)
    requires Covers(tab, m.symbols)
    ensures g.Parallel() && |g.weights| == Offset(m.symbols, tab, |m.symbols|)
  {
    var g := Unsorted(m, tab, pc, ext.becke);
    if sortGrids then GatherRows(g, GroupOrder(m, g.coords, ext)) else g
  }

  /**
    Sorting applies one permutation to all four arrays: the grid keeps every
    point exactly once, as whole rows, and the points' clamped boxes come in
    lexicographic order, ties in their original order.
   */
  lemma SortedRows(m: Mol, tab: AtomGridsTab, pc: PartitionConfig, ext: Externals)
    requires Covers(tab, m.symbols)
    ensures var g, s := Unsorted(m, tab, pc, ext.becke), Grouped(m, tab, pc, ext, true);
      var perm, c := GroupOrder(m, g.coords, ext), Clamp(BoxIds(m, g.coords, ext), ext.boxes(m));
      && |s.weights| == |g.weights| == |perm|
      && (forall a :: 0 <= a < |perm| ==> PointRow(s, a) == PointRow(g, perm[a]))
      && (forall p :: 0 <= p < |g.weights| ==> p in perm)
      && (forall a, b :: 0 <= a < b < |perm| ==> perm[a] != perm[b])
      && (forall a, b :: 0 <= a < b < |perm| ==>
            LexLess(c[perm[a]], c[perm[b]]) || (c[perm[a]] == c[perm[b]] && perm[a] < perm[b]))
  {
    var g := Unsorted(m, tab, pc, ext.becke);
    ArgGroupGridsOrder(BoxIds(m, g.coords, ext), ext.boxes(m));
    forall a | 0 <= a < |g.weights| ensures PointRow(Grouped(m, tab, pc, ext, true), a) == PointRow(g, GroupOrder(m, g.coords, ext)[a]) {
      GatherRowsAt(g, GroupOrder(m, g.coords, ext), a);
    }
  }

  /** The settings of a Grids object. */
  datatype GridsConfig = GridsConfig(
    mol: Mol,
    symmetry: bool,
    atomGrid: AtomGridSpec,
    atomicRadii: Option<seq<real>>,
    radiiAdjust: RadiiAdjust,
    radiMethod: RadiMethod,
    beckeScheme: BeckeScheme,
    prune: PruneScheme,
    level: int,
    alignment: int,
    cutoff: real)

  /** What build passes to gen_atomic_grids for molecule m. */
  function AtomConfig(c: GridsConfig, m: Mol, ext: Externals): AtomGridConfig
  {
    AtomGridConfig(Broadcast(c.atomGrid, m.symbols), ext.radial(c.radiMethod), c.level, c.prune, ext.elements, ext.angular)
  }

  function PartitionOf(c: GridsConfig): PartitionConfig
  {
    PartitionConfig(c.radiiAdjust, c.atomicRadii, c.beckeScheme)
  }

  /**
    The arrays build leaves behind for molecule m, or the error gen_atomic_grids
    raises, or, for a molecule without atoms, the ValueError of get_partition's
    numpy.vstack of no blocks.
   */
  function BuildArrays(m: Mol, c: GridsConfig, ext: Externals, sortGrids: bool): (r: Result<GridArrays, GridError>)
    requires ValidElements(ext.elements) && SizedRule(ext.angular)
    ensures r.Success? ==> r.value.Parallel() && |m.symbols| > 0
  {
    TableCovers(AtomConfig(c, m, ext), m.symbols);
    var tab :- AtomGridsTable(AtomConfig(c, m, ext), m.symbols);
    if |m.symbols| == 0 then Failure(NothingToStack)
    else Success(Realign(Grouped(m, tab, PartitionOf(c), ext, sortGrids), c.alignment))
  }

  /**
    build succeeds exactly when gen_atomic_grids does and the molecule has an
    atom; its arrays are then parallel, aligned, and every atm_idx names an
    atom of the molecule or is the padding marker -1, which only padding
    points carry.
   */
  lemma BuildArraysFacts(m: Mol, c: GridsConfig, ext: Externals, sortGrids: bool)
    requires ValidElements(ext.elements) && SizedRule(ext.angular)
    ensures var b, t := BuildArrays(m, c, ext, sortGrids), AtomGridsTable(AtomConfig(c, m, ext), m.symbols);
      && (b.Failure? <==> t.Failure? || |m.symbols| == 0)
      && (b.Failure? ==> b.error == if t.Failure? then t.error else NothingToStack)
      && (b.Success? ==>
            && b.value.Parallel()
            && (c.alignment > 1 ==> |b.value.weights| % c.alignment == 0)
            && (forall a :: 0 <= a < |b.value.atmIdx| ==> -1 <= b.value.atmIdx[a] < |m.symbols|)
            && (forall a :: 0 <= a < |b.value.atmIdx| && b.value.atmIdx[a] == -1 ==>
                  b.value.coords[a] == PadCoord && b.value.weights[a] == 0.0 && b.value.qw[a] == 0.0))
  {
    TableCovers(AtomConfig(c, m, ext), m.symbols);
    var t := AtomGridsTable(AtomConfig(c, m, ext), m.symbols);
    if t.Success? && |m.symbols| > 0 {
      var tab := t.value;
      var pc := PartitionOf(c);
      var u := Unsorted(m, tab, pc, ext.becke);
      var g := Grouped(m, tab, pc, ext, sortGrids);
      AtmIdxRange(m.symbols, tab, |m.symbols|);
      assert forall a :: 0 <= a < |g.atmIdx| ==> 0 <= g.atmIdx[a] < |m.symbols| by {
        if sortGrids {
          SortedRows(m, tab, pc, ext);
          forall a | 0 <= a < |g.atmIdx| ensures 0 <= g.atmIdx[a] < |m.symbols| {
            assert PointRow(g, a) == PointRow(u, GroupOrder(m, u.coords, ext)[a]);
          }
        }
      }
      RealignFacts(g, c.alignment);
      var r := Realign(g, c.alignment);
      forall a | 0 <= a < |r.atmIdx|
        ensures -1 <= r.atmIdx[a] < |m.symbols|
        ensures r.atmIdx[a] == -1 ==> r.coords[a] == PadCoord && r.weights[a] == 0.0 && r.qw[a] == 0.0
      {
        if a < |g.weights| {
          assert PointRow(r, a) == PointRow(g, a);
        } else {
          assert PointRow(r, a) == GridRow(PadCoord, 0.0, -1, 0.0);
        }
      }
    }
  }

  // ---------------------------------------------------------------------
  // prune_by_density_

  function Abs(x: real): real
  {
    if x < 0.0 then -x else x
  }

  /** numpy.dot of two vectors. */
  function Dot(a: seq<real>, b: seq<real>): real
    requires |a| == |b|
  {
    if a == [] then 0.0 else Dot(a[..|a| - 1], b[..|b| - 1]) + a[|a| - 1] * b[|b| - 1]
  }

  /** The electron-count check: |n - nelectron| < NELEC_ERROR_TOL * n with n = dot(rho, weights). */
  predicate DensityOk(rho: seq<real>, w: seq<real>, nelectron: int)
    requires |rho| == |w|
  {
    var n := Dot(rho, w);
    Abs(n - nelectron as real) < NelecErrorTol * n
  }

  /** The check can only pass on a non-empty grid, so threshold / weights.size is defined. */
  lemma DensityOkNeedsPoints(rho: seq<real>, w: seq<real>, nelectron: int)
    requires |rho| == |w| && DensityOk(rho, w, nelectron)
    ensures |w| > 0 && Dot(rho, w) > 0.0
  {
  }

  /** rho *= weights. */
  function Scaled(rho: seq<real>, w: seq<real>): (r: seq<real>)
    requires |rho| == |w|
    ensures |r| == |rho|
  {
    seq(|rho|, i requires 0 <= i < |rho| => rho[i] * w[i])
  }

  /** idx = abs(rho) > cut. */
  function KeepMask(rhoW: seq<real>, cut: real): (keep: seq<bool>)
    ensures |keep| == |rhoW|
  {
    seq(|rhoW|, i requires 0 <= i < |rhoW| => Abs(rhoW[i]) > cut)
  }

  /** The positions a boolean mask selects, in increasing order. */
  function Kept(keep: seq<bool>): (idx: seq<nat>)
    ensures forall a :: 0 <= a < |idx| ==> idx[a] < |keep|
  {
    if keep == [] then []
    else Kept(keep[..|keep| - 1]) + (if keep[|keep| - 1] then [|keep| - 1] else [])
  }

  /** A boolean mask selects exactly its true positions, each once, in increasing order. */
  lemma {:induction false} KeptFacts(keep: seq<bool>)
    ensures forall a, b :: 0 <= a < b < |Kept(keep)| ==> Kept(keep)[a] < Kept(keep)[b]
    ensures forall i :: i in Kept(keep) <==> 0 <= i < |keep| && keep[i]
  {
    if keep != [] {
      var init := keep[..|keep| - 1];
      KeptFacts(init);
      forall i | 0 <= i < |init| ensures init[i] == keep[i] { }
    }
  }

  /**
    prune_by_density_ on the arrays g and the density rho: None when it
    changes nothing (threshold 0, or a failed electron-count check);
    otherwise the new rho and the filtered, re-padded arrays.
   */
  function DensityPrune(g: GridArrays, rho: seq<real>, nelectron: int, threshold: real, alignment: int)
    : (d: Option<(seq<real>, GridArrays)>)
    requires g.Parallel() && |rho| == |g.weights|
    ensures d.Some? ==> |d.value.0| == |rho| && d.value.1.Parallel()
  {
    if threshold == 0.0 || !DensityOk(rho, g.weights, nelectron) then None
    else
      DensityOkNeedsPoints(rho, g.weights, nelectron);
      var rhoW := Scaled(rho, g.weights);
      var idx := Kept(KeepMask(rhoW, threshold / (|g.weights| as real)));
      Some((rhoW, Realign(GatherRows(g, idx), alignment)))
  }

  /**
    Density pruning changes nothing exactly when threshold is 0 or the
    electron count is off; otherwise rho becomes rho*w and the grid keeps,
    in their original order, exactly the points with |rho*w| > threshold/size,
    whole rows at a time, then is re-padded.
   */
  lemma DensityPruneFacts(g: GridArrays, rho: seq<real>, nelectron: int, threshold: real, alignment: int)
    requires g.Parallel() && |rho| == |g.weights|
    ensures var d := DensityPrune(g, rho, nelectron, threshold, alignment);
      && (d.None? <==> threshold == 0.0 || !DensityOk(rho, g.weights, nelectron))
      && (d.Some? ==>
            && |g.weights| > 0
            && |d.value.0| == |rho|
            && (forall i :: 0 <= i < |rho| ==> d.value.0[i] == rho[i] * g.weights[i])
            && var cut, idx := threshold / (|g.weights| as real), Kept(KeepMask(d.value.0, threshold / (|g.weights| as real)));
               && (forall a, b :: 0 <= a < b < |idx| ==> idx[a] < idx[b])
               && (forall i :: i in idx <==> 0 <= i < |g.weights| && Abs(rho[i] * g.weights[i]) > cut)
               && (forall a :: 0 <= a < |idx| ==> idx[a] < |g.weights|)
               && d.value.1 == Realign(GatherRows(g, idx), alignment)
               && (forall a :: 0 <= a < |idx| ==> PointRow(d.value.1, a) == PointRow(g, idx[a])))
  {
    var d := DensityPrune(g, rho, nelectron, threshold, alignment);
    if d.Some? {
      DensityOkNeedsPoints(rho, g.weights, nelectron);
      var rhoW := Scaled(rho, g.weights);
      var keep := KeepMask(rhoW, threshold / (|g.weights| as real));
      var idx := Kept(keep);
      KeptFacts(keep);
      var f := GatherRows(g, idx);
      RealignFacts(f, alignment);
      forall a | 0 <= a < |idx| ensures PointRow(d.value.1, a) == PointRow(g, idx[a]) {
        GatherRowsAt(g, idx, a);
      }
    }
  }

  // ---------------------------------------------------------------------
  // The Grids object

  /** Assignable attributes of a Grids object. */
  datatype Setting =
    | SetAtomGrid(atomGrid: AtomGridSpec)
    | SetAtomicRadii(atomicRadii: Option<seq<real>>)
    | SetRadiiAdjust(radiiAdjust: RadiiAdjust)
    | SetRadiMethod(radiMethod: RadiMethod)
    | SetBeckeScheme(beckeScheme: BeckeScheme)
    | SetPrune(prune: PruneScheme)
    | SetLevel(level: int)
    | SetAlignment(alignment: int)
    | SetCutoff(cutoff: real)
    | SetMol(mol: Mol)
    | SetSymmetry(symmetry: bool)

  /** The keys whose assignment calls reset() first. */
  predicate ResetsCaches(s: Setting)
  {
    s.SetAtomGrid? || s.SetAtomicRadii? || s.SetRadiiAdjust? || s.SetRadiMethod? ||
    s.SetBeckeScheme? || s.SetPrune? || s.SetLevel?
  }

  /** The configuration after an assignment. */
  function Assigned(c: GridsConfig, s: Setting): GridsConfig
  {
    match s
    case SetAtomGrid(v) => c.(atomGrid := v)
    case SetAtomicRadii(v) => c.(atomicRadii := v)
    case SetRadiiAdjust(v) => c.(radiiAdjust := v)
    case SetRadiMethod(v) => c.(radiMethod := v)
    case SetBeckeScheme(v) => c.(beckeScheme := v)
    case SetPrune(v) => c.(prune := v)
    case SetLevel(v) => c.(level := v)
    case SetAlignment(v) => c.(alignment := v)
    case SetCutoff(v) => c.(cutoff := v)
    case SetMol(v) => c.(mol := v)
    case SetSymmetry(v) => c.(symmetry := v)
  }

  /** The cached results of build. */
  datatype Caches = Caches(
    coords: Option<seq<Point>>,
    weights: Option<seq<real>>,
    atmIdx: Option<seq<int>>,
    quadratureWeights: Option<seq<real>>,
    non0tab: Option<Mask>,
    screenIndex: Option<Mask>)
  {
    /** Either no grid, or four parallel arrays; screen_index always mirrors non0tab. */
    predicate Consistent()
    {
      && screenIndex == non0tab
      && ((coords.None? && weights.None? && atmIdx.None? && quadratureWeights.None?) ||
          (coords.Some? && weights.Some? && atmIdx.Some? && quadratureWeights.Some? &&
           GridArrays(coords.value, weights.value, atmIdx.value, quadratureWeights.value).Parallel()))
    }
  }

  const NoCaches: Caches := Caches(None, None, None, None, None, None)

  /** The caches holding the arrays g and the mask. */
  function Filled(g: GridArrays, mask: Option<Mask>): Caches
  {
    Caches(Some(g.coords), Some(g.weights), Some(g.atmIdx), Some(g.qw), mask, mask)
  }

  class Grids {
    var mol: Mol
    var symmetry: bool
    var atomGrid: AtomGridSpec
    var atomicRadii: Option<seq<real>>
    var radiiAdjust: RadiiAdjust
    var radiMethod: RadiMethod
    var beckeScheme: BeckeScheme
    var prune: PruneScheme
    var level: int
    var alignment: int
    var cutoff: real

    var coords: Option<seq<Point>>
    var weights: Option<seq<real>>
    var atmIdx: Option<seq<int>>
    var quadratureWeights: Option<seq<real>>
    var non0tab: Option<Mask>
    var screenIndex: Option<Mask>

    function Config(): GridsConfig
      reads this
    {
      GridsConfig(mol, symmetry, atomGrid, atomicRadii, radiiAdjust, radiMethod, beckeScheme, prune, level, alignment, cutoff)
    }

    function Cache(): Caches
      reads this
    {
      Caches(coords, weights, atmIdx, quadratureWeights, non0tab, screenIndex)
    }

    ghost predicate Valid()
      reads this
    {
      Cache().Consistent()
    }

    /** Whether a grid has been built (and not reset since). */
    predicate Built()
      reads this
    {
      coords.Some? && weights.Some? && atmIdx.Some? && quadratureWeights.Some?
    }

    function Arrays(): GridArrays
      reads this
      requires Built()
    {
      GridArrays(coords.value, weights.value, atmIdx.value, quadratureWeights.value)
    }

    /** size: the number of weights, 0 when there is no grid. */
    function Size(): (s: nat)
      reads this
      ensures Valid() && Built() ==>
        s == |coords.value| == |atmIdx.value| == |quadratureWeights.value| == |Arrays().weights|
    {
      if weights.Some? then |weights.value| else 0
    }

    /**
      Grids(mol) with the default settings: level 3, nwchem pruning,
      Bragg radii with Treutler adjustment, the original Becke scheme,
      alignment ALIGNMENT_UNIT, no per-element grids, and no grid yet.
     */
    constructor (mol: Mol, braggRadii: seq<real>, cutoff: real)
      ensures Config() == GridsConfig(mol, mol.symmetry, PerElement(map[]), Some(braggRadii), TreutlerAdjust,
                                      TreutlerRadial, OriginalBecke, Nwchem, 3, AlignmentUnit, cutoff)
      ensures Cache() == NoCaches && Valid() && Size() == 0
    {
      this.mol := mol;
      this.symmetry := mol.symmetry;
      this.atomGrid := PerElement(map[]);
      this.atomicRadii := Some(braggRadii);
      this.radiiAdjust := TreutlerAdjust;
      this.radiMethod := TreutlerRadial;
      this.beckeScheme := OriginalBecke;
      this.prune := Nwchem;
      this.level := 3;
      this.alignment := AlignmentUnit;
      this.cutoff := cutoff;
      this.coords := None;
      this.weights := None;
      this.atmIdx := None;
      this.quadratureWeights := None;
      this.non0tab := None;
      this.screenIndex := None;
    }

    /** reset(mol=None): forget the grid, and adopt mol when one is given. */
    method Reset(newMol: Option<Mol>)
      modifies this
      ensures Config() == if newMol.Some? then old(Config()).(mol := newMol.value) else old(Config())
      ensures Cache() == NoCaches && Valid() && Size() == 0
    {
      if newMol.Some? {
        mol := newMol.value;
      }
      coords := None;
      weights := None;
      non0tab := None;
      screenIndex := None;
      atmIdx := None;
      quadratureWeights := None;
    }

    /** __setattr__: the grid-shaping keys reset the cached grid before the assignment. */
    method SetAttr(s: Setting)
      requires Valid()
      modifies this
      ensures Config() == Assigned(old(Config()), s)
      ensures Cache() == if ResetsCaches(s) then NoCaches else old(Cache())
      ensures Valid() && (ResetsCaches(s) ==> Size() == 0)
    {
      if ResetsCaches(s) {
        Reset(None);
      }
      Assign(s);
    }

    /** The assignment itself (object.__setattr__). */
    method Assign(s: Setting)
      modifies this
      ensures Config() == Assigned(old(Config()), s) && Cache() == old(Cache())
    {
      match s
      case SetAtomGrid(v) => atomGrid := v;
      case SetAtomicRadii(v) => atomicRadii := v;
      case SetRadiiAdjust(v) => radiiAdjust := v;
      case SetRadiMethod(v) => radiMethod := v;
      case SetBeckeScheme(v) => beckeScheme := v;
      case SetPrune(v) => prune := v;
      case SetLevel(v) => level := v;
      case SetAlignment(v) => alignment := v;
      case SetCutoff(v) => cutoff := v;
      case SetMol(v) => mol := v;
      case SetSymmetry(v) => symmetry := v;
    }

    /**
      build(mol=None, with_non0tab, sort_grids): generate the atomic grids,
      partition them, record each point's atom and raw weight, optionally
      sort by box, pad to the alignment and compute the mask. On an error
      from gen_atomic_grids or get_partition nothing is changed.
     */
    method Build(newMol: Option<Mol>, withNon0tab: bool, sortGrids: bool, ext: Externals) returns (err: Option<GridError>)
      requires Valid() && ValidElements(ext.elements) && SizedRule(ext.angular)
      modifies this
      ensures Config() == old(Config())
      ensures var m := if newMol.Some? then newMol.value else old(mol);
        var b := BuildArrays(m, old(Config()), ext, sortGrids);
        && (b.Failure? ==> err == Some(b.error) && Cache() == old(Cache()))
        && (b.Success? ==> (err == None &&
              Cache() == Filled(b.value, if withNon0tab then Some(ext.makeMask(m, b.value.coords, cutoff)) else None)))
      ensures Valid()
    {
      var m := if newMol.Some? then newMol.value else mol;
      var b := BuildGridArrays(m, Config(), ext, sortGrids);
      if b.Failure? {
        return Some(b.error);
      }
      var mask := if withNon0tab then Some(ext.makeMask(m, b.value.coords, cutoff)) else None;
      Store(b.value, mask);
      err := None;
    }

    /** Assign the four arrays and the mask (non0tab and screen_index are the same object). */
    method Store(g: GridArrays, mask: Option<Mask>)
      requires g.Parallel()
      modifies this
      ensures Config() == old(Config())
      ensures Cache() == Filled(g, mask) && Valid()
    {
      coords := Some(g.coords);
      weights := Some(g.weights);
      atmIdx := Some(g.atmIdx);
      quadratureWeights := Some(g.qw);
      non0tab := mask;
      screenIndex := non0tab;
    }

    /**
      prune_by_density_(rho, threshold): with threshold 0 or a failed
      electron-count check nothing changes; otherwise rho is scaled by the
      weights in place, the low-density points are dropped, the grid is
      re-padded and the mask recomputed.
     */
    method PruneByDensity(rho: array<real>, threshold: real, ext: Externals)
      requires Valid()
      requires threshold != 0.0 ==> Built() && rho.Length == |weights.value|
      modifies this, rho
      ensures Config() == old(Config()) && Valid()
      ensures threshold == 0.0 ==> Cache() == old(Cache()) && rho[..] == old(rho[..])
      ensures threshold != 0.0 ==>
        var d := DensityPrune(old(Arrays()), old(rho[..]), mol.nelectron, threshold, alignment);
        && (d.None? ==> Cache() == old(Cache()) && rho[..] == old(rho[..]))
        && (d.Some? ==> (rho[..] == d.value.0 &&
              Cache() == Filled(d.value.1, Some(ext.makeMask(mol, d.value.1.coords, cutoff)))))
    {
      if threshold == 0.0 {
        return;
      }
      var pruned := DensityPruneArrays(Arrays(), rho, mol.nelectron, threshold, alignment);
      if pruned.Some? {
        Store(pruned.value, Some(ext.makeMask(mol, pruned.value.coords, cutoff)));
      }
    }
  }

  /**
    The array work of prune_by_density_ (threshold != 0): the electron-count
    check, rho *= weights in place, the filter and the re-padding.
   */
  method DensityPruneArrays(g: GridArrays, rho: array<real>, nelectron: int, threshold: real, alignment: int)
    returns (r: Option<GridArrays>)
    requires g.Parallel() && rho.Length == |g.weights| && threshold != 0.0
    modifies rho
    ensures var d := DensityPrune(g, old(rho[..]), nelectron, threshold, alignment);
      && (d.None? ==> r.None? && rho[..] == old(rho[..]))
      && (d.Some? ==> r == Some(d.value.1) && rho[..] == d.value.0)
  {
    var n := Dot(rho[..], g.weights);
    if Abs(n - nelectron as real) < NelecErrorTol * n {
      DensityOkNeedsPoints(rho[..], g.weights, nelectron);
      ScaleInPlace(rho, g.weights);
      var idx := Kept(KeepMask(rho[..], threshold / (|g.weights| as real)));
      var kept := PadToAlignment(GatherRows(g, idx), alignment);
      r := Some(kept);
    } else {
      r := None;
    }
  }

  /** rho *= weights, element by element, in place. */
  method ScaleInPlace(rho: array<real>, w: seq<real>)
    requires rho.Length == |w|
    modifies rho
    ensures rho[..] == Scaled(old(rho[..]), w)
  {
    ghost var rho0 := rho[..];
    for i := 0 to rho.Length
      invariant forall k :: 0 <= k < i ==> rho[k] == old(rho[k]) * w[k]
      invariant forall k :: i <= k < rho.Length ==> rho[k] == old(rho[k])
    {
      rho[i] := rho[i] * w[i];
    }
    assert forall k :: 0 <= k < rho.Length ==> rho[..][k] == Scaled(rho0, w)[k];
  }

  /** The padding step: append _padding_size(size, alignment) sentinel rows when alignment > 1. */
  method PadToAlignment(g: GridArrays, alignment: int) returns (r: GridArrays)
    ensures r == Realign(g, alignment)
  {
    r := g;
    if alignment > 1 {
      var padding := PaddingSize(|g.weights|, alignment);
      if padding > 0 {
        r := PadArrays(g, padding);
      }
    }
  }

  /**
    The arrays of build before padding: partition, atom blocks, and the
    optional sort. Build calls it for a molecule with atoms only.
   */
  method GroupedArrays(m: Mol, tab: AtomGridsTab, pc: PartitionConfig, ext: Externals, sortGrids: bool)
    returns (g: GridArrays)
    requires Covers(tab, m.symbols)
    ensures g == Grouped(m, tab, pc, ext, sortGrids)
  {
    PartitionCoordsLength(m, tab, |m.symbols|);
    PartitionWeightsLength(m, tab, pc, ext.becke, |m.symbols|);
    BlockLengths(m.symbols, tab, |m.symbols|);
    var cs := PartitionCoords(m, tab, |m.symbols|);
    var ws := PartitionWeights(m, tab, pc, ext.becke, |m.symbols|);
    var atm, qws := FillAtomBlocks(m.symbols, tab, |cs|);
    g := GridArrays(cs, ws, atm[..], qws[..]);
    if sortGrids {
      var idx := GroupOrder(m, cs, ext);
      g := GatherRows(g, idx);
    }
  }

  /** The arrays build computes for molecule m under configuration c. */
  method BuildGridArrays(m: Mol, c: GridsConfig, ext: Externals, sortGrids: bool) returns (r: Result<GridArrays, GridError>)
    requires ValidElements(ext.elements) && SizedRule(ext.angular)
    ensures r == BuildArrays(m, c, ext, sortGrids)
  {
    var tabR := GenAtomicGrids(m.symbols, c.atomGrid, ext.radial(c.radiMethod), c.level, c.prune, ext.elements, ext.angular);
    if tabR.Failure? {
      return Failure(tabR.error);
    }
    if |m.symbols| == 0 {
      // numpy.vstack of the empty list of atom blocks in get_partition
      return Failure(NothingToStack);
    }
    TableCovers(AtomConfig(c, m, ext), m.symbols);
    var g := GroupedArrays(m, tabR.value, PartitionOf(c), ext, sortGrids);
    g := PadToAlignment(g, c.alignment);
    r := Success(g);
  }
}
