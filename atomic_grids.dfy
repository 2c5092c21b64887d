/**
  gen_atomic_grids: one atom-centred grid (points relative to the nucleus and
  their raw quadrature weights) per element of a molecule.

  The order of an element's points is described by a layout of slots
  (n, shell, j): the j-th row of the n-point angular rule placed on radial
  shell `shell`. Coordinates and weights are the layout mapped through the
  radial and angular rules.
 */
module AtomicGrids {
  import opened Types
  import opened Lebedev
  import opened DefaultGrids
  import opened Prune

  // ---------------------------------------------------------------------
  // External collaborators

  /** Radial abscissas and weights (rad, dr) of a radial scheme. */
  datatype RadialGrid = RadialGrid(rad: seq<real>, dr: seq<real>)

  /** radi_method(n_rad, charge, atom index): n_rad abscissas and n_rad weights. */
  type RadialScheme = f: (nat, nat, nat) -> RadialGrid
    | forall n, c, i :: |f(n, c, i).rad| == n && |f(n, c, i).dr| == n
    witness (n: nat, c: nat, i: nat) => RadialGrid(seq(n, _ => 0.0), seq(n, _ => 0.0))

  /** MakeAngularGrid(n): the rows (direction, weight) of the n-point angular rule. */
  type AngularRule = nat -> seq<AngPoint>

  /** The n-point rule has n rows for every supported size n. */
  ghost predicate SizedRule(angular: AngularRule)
  {
    forall n :: n in LebedevNGrid ==> |angular(n)| == n
  }

  /** gto.charge and the radii tables the pruning policies read. */
  datatype ElementData = ElementData(charge: string -> nat, radii: PruneRadii)

  /** No radius of the tables makes r_atom = radii[nuc] + 1e-200 zero. */
  predicate ValidElements(e: ElementData)
  {
    ValidRadii(e.radii)
  }

  // ---------------------------------------------------------------------
  // Configuration

  /** Grids.atom_grid: a dict symbol -> (n_rad, n_ang), or one (n_rad, n_ang) for every atom. */
  datatype AtomGridSpec = PerElement(table: map<string, (nat, int)>) | Uniform(nRad: nat, nAng: int)

  /** One element's grid: coordinates relative to the nucleus and raw weights. */
  datatype AtomTable = AtomTable(coords: seq<Point>, vol: seq<real>)

  type AtomGridsTab = map<string, AtomTable>

  /** A list/tuple atom_grid is broadcast to a dict over the molecule's symbols. */
  function Broadcast(spec: AtomGridSpec, symbols: seq<string>): (m: map<string, (nat, int)>)
    ensures spec.Uniform? ==> m.Keys == set s | s in symbols
    ensures spec.Uniform? ==> forall s :: s in m ==> m[s] == (spec.nRad, spec.nAng)
    ensures spec.PerElement? ==> m == spec.table
  {
    match spec
    case PerElement(t) => t
    case Uniform(nRad, nAng) => map s | s in symbols :: (nRad, nAng)
  }

  /**
    (n_rad, n_ang) of an element: an explicit request (n_ang snapped through
    LEBEDEV_ORDER when it is not a supported size, ValueError when it cannot
    be), or the level defaults (IndexError outside the tables).
   */
  function ResolveCounts(symb: string, chg: nat, grid: map<string, (nat, int)>, level: int)
    : (r: Result<(nat, nat), GridError>)
    ensures r.Success? ==> r.value.1 in LebedevNGrid
    ensures symb in grid ==>
      var (nRad, nAng) := grid[symb];
      && (nAng in LebedevNGrid ==> r == Success((nRad, nAng)))
      && (nAng !in LebedevNGrid && nAng in LebedevOrder ==> r == Success((nRad, LebedevOrder[nAng])))
      && (nAng !in LebedevNGrid && nAng !in LebedevOrder ==> r == Failure(UnsupportedAngularGrid(nAng)))
    ensures symb !in grid ==>
      if InTables(chg, level) then r == Success((DefaultRad(chg, level), DefaultAng(chg, level)))
      else r == Failure(TableIndexOutOfRange)
  {
    if symb in grid then
      var (nRad, nAng) := grid[symb];
      if nAng in LebedevNGrid then Success((nRad, nAng as nat))
      else if nAng in LebedevOrder then
        OrderValuesAreSizes(nAng);
        Success((nRad, LebedevOrder[nAng]))
      else Failure(UnsupportedAngularGrid(nAng))
    else if InTables(chg, level) then Success((DefaultRad(chg, level), DefaultAng(chg, level)))
    else Failure(TableIndexOutOfRange)
  }

  // ---------------------------------------------------------------------
  // Grouping shells by angular size

  predicate Increasing(r: seq<nat>)
  {
    forall i, j :: 0 <= i < j < |r| ==> r[i] < r[j]
  }

  /** Insert x into a strictly increasing sequence unless it is already there. */
  function InsertSorted(r: seq<nat>, x: nat): (r': seq<nat>)
    requires Increasing(r)
    ensures Increasing(r')
    ensures forall y :: y in r' <==> y in r || y == x
  {
    if r == [] then [x]
    else if x < r[0] then [x] + r
    else if x == r[0] then r
    else
      var rest := InsertSorted(r[1..], x);
      assert forall y :: y in r[1..] ==> r[0] < y;
      assert forall i :: 0 <= i < |rest| ==> r[0] < rest[i] by {
        forall i | 0 <= i < |rest| ensures r[0] < rest[i] {
          assert rest[i] in rest;
        }
      }
      var r' := [r[0]] + rest;
      assert forall i :: 0 < i < |r'| ==> r'[i] == rest[i - 1];
      r'
  }

  /** sorted(set(angs)): the distinct values of s in increasing order. */
  function SortedDistinct(s: seq<nat>): (r: seq<nat>)
    ensures Increasing(r)
    ensures forall x :: x in r <==> x in s
  {
    if s == [] then []
    else
      var r := InsertSorted(SortedDistinct(s[..|s| - 1]), s[|s| - 1]);
      assert forall x :: x in s <==> x in s[..|s| - 1] || x == s[|s| - 1] by {
        assert s == s[..|s| - 1] + [s[|s| - 1]];
      }
      r
  }

  /** Number of shells with angular size n. */
  function Count(s: seq<nat>, n: nat): nat
  {
    if s == [] then 0 else Count(s[..|s| - 1], n) + (if s[|s| - 1] == n then 1 else 0)
  }

  /** numpy.where(angs == n)[0]: the shells with angular size n, in increasing order. */
  function IndicesOf(angs: seq<nat>, n: nat): (idx: seq<nat>)
    ensures Increasing(idx) && |idx| == Count(angs, n)
    ensures forall k :: k in idx <==> 0 <= k < |angs| && angs[k] == n
  {
    if angs == [] then []
    else
      var last := |angs| - 1;
      var prev := IndicesOf(angs[..last], n);
      assert forall i :: 0 <= i < |prev| ==> prev[i] < last by {
        forall i | 0 <= i < |prev| ensures prev[i] < last {
          assert prev[i] in prev;
        }
      }
      prev + (if angs[last] == n then [last] else [])
  }

  // ---------------------------------------------------------------------
  // Layout of an element's points

  /** The j-th row of the n-point angular rule on radial shell `shell`. */
  datatype Slot = Slot(n: nat, shell: nat, j: nat)

  /** Shells per chunk in the assembly loop (lib.prange(0, len(idx), 12)). */
  const ChunkShells: nat := 12

  /**
    One chunk of einsum('i,jk->jik', rad[shells], grid): angular row major,
    radial shell minor, for an m-row angular rule.
   */
  function ChunkSlots(n: nat, shells: seq<nat>, m: nat): seq<Slot>
  {
    if m == 0 then []
    else ChunkSlots(n, shells, m - 1) + seq(|shells|, i requires 0 <= i < |shells| => Slot(n, shells[i], m - 1))
  }

  /** The next chunk boundary: at most 12 shells past i0. */
  function ChunkEnd(i0: nat, len: nat): (i1: nat)
    requires i0 < len
    ensures i0 < i1 <= len && i1 - i0 <= ChunkShells
    ensures i1 < len ==> i1 - i0 == ChunkShells
  {
    if i0 + ChunkShells < len then i0 + ChunkShells else len
  }

  /** The chunks of one angular size from shell position i0 on: runs of 12 of idx. */
  function GroupFrom(n: nat, idx: seq<nat>, i0: nat, m: nat): seq<Slot>
    requires i0 <= |idx|
    decreases |idx| - i0
  {
    if i0 == |idx| then []
    else
      var i1 := ChunkEnd(i0, |idx|);
      ChunkSlots(n, idx[i0..i1], m) + GroupFrom(n, idx, i1, m)
  }

  /** All chunks of one angular size. */
  function GroupSlots(n: nat, idx: seq<nat>, m: nat): seq<Slot>
  {
    GroupFrom(n, idx, 0, m)
  }

  /** The groups for the angular sizes ns, in that order. */
  function LayoutOf(angs: seq<nat>, ns: seq<nat>, angular: AngularRule): seq<Slot>
  {
    if ns == [] then []
    else
      var n := ns[|ns| - 1];
      LayoutOf(angs, ns[..|ns| - 1], angular) + GroupSlots(n, IndicesOf(angs, n), |angular(n)|)
  }

  /** The layout of an element: groups by ascending distinct angular size. */
  function Layout(angs: seq<nat>, angular: AngularRule): seq<Slot>
  {
    LayoutOf(angs, SortedDistinct(angs), angular)
  }

  /** A slot names a shell of angular size n and a row of the n-point rule. */
  predicate SlotOf(angs: seq<nat>, angular: AngularRule, s: Slot)
  {
    s.shell < |angs| && angs[s.shell] == s.n && s.j < |angular(s.n)|
  }

  predicate AllSlotsOf(angs: seq<nat>, angular: AngularRule, L: seq<Slot>)
  {
    forall k :: 0 <= k < |L| ==> SlotOf(angs, angular, L[k])
  }

  /** rad[shell] * direction for one slot (a slot outside the rules maps to the origin). */
  function SlotCoord(rad: seq<real>, angular: AngularRule, s: Slot): Point
  {
    if s.shell < |rad| && s.j < |angular(s.n)| then Scale(rad[s.shell], angular(s.n)[s.j].dir) else Point(0.0, 0.0, 0.0)
  }

  /** rad_weight[shell] * angular weight for one slot (zero outside the rules). */
  function SlotVol(radWeight: seq<real>, angular: AngularRule, s: Slot): real
  {
    if s.shell < |radWeight| && s.j < |angular(s.n)| then radWeight[s.shell] * angular(s.n)[s.j].w else 0.0
  }

  /** The coordinates of a layout. */
  function CoordsOf(rad: seq<real>, angular: AngularRule, L: seq<Slot>): (c: seq<Point>)
    ensures |c| == |L|
  {
    seq(|L|, k requires 0 <= k < |L| => SlotCoord(rad, angular, L[k]))
  }

  /** The raw weights of a layout. */
  function VolOf(radWeight: seq<real>, angular: AngularRule, L: seq<Slot>): (v: seq<real>)
    ensures |v| == |L|
  {
    seq(|L|, k requires 0 <= k < |L| => SlotVol(radWeight, angular, L[k]))
  }

  lemma MapsAppend(rad: seq<real>, radWeight: seq<real>, angular: AngularRule, L1: seq<Slot>, L2: seq<Slot>)
    ensures CoordsOf(rad, angular, L1 + L2) == CoordsOf(rad, angular, L1) + CoordsOf(rad, angular, L2)
    ensures VolOf(radWeight, angular, L1 + L2) == VolOf(radWeight, angular, L1) + VolOf(radWeight, angular, L2)
  {
    var L := L1 + L2;
    assert forall k :: 0 <= k < |L| ==> L[k] == if k < |L1| then L1[k] else L2[k - |L1|];
  }

  /** The einsum layout: chunk position j*|shells| + i holds row j on shell shells[i]. */
  lemma {:induction false} ChunkSlotsAt(n: nat, shells: seq<nat>, m: nat, j: nat, i: nat)
    requires j < m && i < |shells|
    ensures |ChunkSlots(n, shells, m)| == m * |shells|
    ensures j * |shells| + i < m * |shells|
    ensures ChunkSlots(n, shells, m)[j * |shells| + i] == Slot(n, shells[i], j)
  {
    ChunkSlotsLength(n, shells, m - 1);
    assert (m - 1) * |shells| + |shells| == m * |shells|;
    if j < m - 1 {
      ChunkSlotsAt(n, shells, m - 1, j, i);
    } else {
      assert j * |shells| == (m - 1) * |shells|;
    }
  }

  lemma {:induction false} ChunkSlotsLength(n: nat, shells: seq<nat>, m: nat)
    ensures |ChunkSlots(n, shells, m)| == m * |shells|
  {
    if m > 0 {
      ChunkSlotsLength(n, shells, m - 1);
      assert (m - 1) * |shells| + |shells| == m * |shells|;
    }
  }

  /** Every slot of a chunk is for size n, one of its shells and a row below m. */
  lemma {:induction false} ChunkSlotsMembers(n: nat, shells: seq<nat>, m: nat)
    ensures forall s :: s in ChunkSlots(n, shells, m) ==> s.n == n && s.shell in shells && s.j < m
  {
    if m > 0 {
      ChunkSlotsMembers(n, shells, m - 1);
    }
  }

  /** Unfolding one chunk off the front of a group. */
  lemma GroupFromStep(n: nat, idx: seq<nat>, i0: nat, m: nat)
    requires i0 < |idx|
    ensures var i1 := ChunkEnd(i0, |idx|);
      GroupFrom(n, idx, i0, m) == ChunkSlots(n, idx[i0..i1], m) + GroupFrom(n, idx, i1, m)
  {
  }

  lemma AppendAssoc<T>(a: seq<T>, b: seq<T>, c: seq<T>)
    ensures a + (b + c) == (a + b) + c
  {
  }

  lemma {:induction false} GroupFromFacts(n: nat, idx: seq<nat>, i0: nat, m: nat)
    requires i0 <= |idx|
    ensures |GroupFrom(n, idx, i0, m)| == m * (|idx| - i0)
    ensures forall s :: s in GroupFrom(n, idx, i0, m) ==> s.n == n && s.shell in idx && s.j < m
    decreases |idx| - i0
  {
    if i0 < |idx| {
      var i1 := ChunkEnd(i0, |idx|);
      GroupFromFacts(n, idx, i1, m);
      ChunkSlotsLength(n, idx[i0..i1], m);
      ChunkSlotsMembers(n, idx[i0..i1], m);
      assert forall x :: x in idx[i0..i1] ==> x in idx;
      assert m * (i1 - i0) + m * (|idx| - i1) == m * (|idx| - i0);
    }
  }

  /** Every row of every shell from position i0 on is a slot of the chunks. */
  lemma {:induction false} GroupFromCovers(n: nat, idx: seq<nat>, i0: nat, m: nat)
    requires i0 <= |idx|
    ensures forall i: nat, j: nat :: i0 <= i < |idx| && j < m ==> Slot(n, idx[i], j) in GroupFrom(n, idx, i0, m)
    decreases |idx| - i0
  {
    if i0 < |idx| {
      var i1 := ChunkEnd(i0, |idx|);
      var chunk := idx[i0..i1];
      GroupFromCovers(n, idx, i1, m);
      var head, rest := ChunkSlots(n, chunk, m), GroupFrom(n, idx, i1, m);
      assert GroupFrom(n, idx, i0, m) == head + rest;
      forall i: nat, j: nat | i0 <= i < |idx| && j < m
        ensures Slot(n, idx[i], j) in head + rest
      {
        if i < i1 {
          ChunkSlotsAt(n, chunk, m, j, i - i0);
          assert head[j * |chunk| + (i - i0)] == Slot(n, idx[i], j);
        } else {
          assert Slot(n, idx[i], j) in rest;
        }
      }
    }
  }

  /**
    A group has m rows for each of its shells: every row of every shell is a
    slot, and each slot is for size n, one of its shells and a row below m.
   */
  lemma GroupSlotsFacts(n: nat, idx: seq<nat>, m: nat)
    ensures |GroupSlots(n, idx, m)| == m * |idx|
    ensures forall s :: s in GroupSlots(n, idx, m) ==> s.n == n && s.shell in idx && s.j < m
    ensures forall i: nat, j: nat :: i < |idx| && j < m ==> Slot(n, idx[i], j) in GroupSlots(n, idx, m)
  {
    GroupFromFacts(n, idx, 0, m);
    GroupFromCovers(n, idx, 0, m);
  }

  /** Σ over n in ns of n * Count(s, n). */
  function WeightedCount(ns: seq<nat>, s: seq<nat>): nat
  {
    if ns == [] then 0
    else WeightedCount(ns[..|ns| - 1], s) + ns[|ns| - 1] * Count(s, ns[|ns| - 1])
  }

  lemma {:induction false} WeightedCountSnoc(ns: seq<nat>, s: seq<nat>, x: nat)
    requires Increasing(ns)
    ensures WeightedCount(ns, s + [x]) == WeightedCount(ns, s) + (if x in ns then x else 0)
  {
    if ns != [] {
      var init, n := ns[..|ns| - 1], ns[|ns| - 1];
      WeightedCountSnoc(init, s, x);
      assert (s + [x])[..|s + [x]| - 1] == s;
      assert Count(s + [x], n) == Count(s, n) + (if x == n then 1 else 0);
      MulStep(n, Count(s, n), x == n);
      assert x in ns <==> x in init || x == n by { assert ns == init + [n]; }
      assert x == n ==> x !in init;
    }
  }

  lemma MulStep(n: nat, c: nat, b: bool)
    ensures n * (c + (if b then 1 else 0)) == n * c + (if b then n else 0)
  {
  }

  /** Grouping by distinct value and weighting by the value recovers the plain sum. */
  lemma {:induction false} WeightedCountIsSum(ns: seq<nat>, s: seq<nat>)
    requires Increasing(ns) && forall x :: x in s ==> x in ns
    ensures WeightedCount(ns, s) == Sum(s)
  {
    if s == [] {
      WeightedCountEmpty(ns);
    } else {
      var init, x := s[..|s| - 1], s[|s| - 1];
      assert s == init + [x];
      WeightedCountIsSum(ns, init);
      WeightedCountSnoc(ns, init, x);
    }
  }

  lemma {:induction false} WeightedCountEmpty(ns: seq<nat>)
    ensures WeightedCount(ns, []) == 0
  {
    if ns != [] {
      WeightedCountEmpty(ns[..|ns| - 1]);
    }
  }

  /** The groups for an increasing list of sizes: valid slots, sizes from ns, ascending. */
  lemma {:induction false} LayoutOfFacts(angs: seq<nat>, ns: seq<nat>, angular: AngularRule)
    requires Increasing(ns)
    ensures AllSlotsOf(angs, angular, LayoutOf(angs, ns, angular))
    ensures forall s :: s in LayoutOf(angs, ns, angular) ==> s.n in ns
    ensures forall k1, k2 :: 0 <= k1 < k2 < |LayoutOf(angs, ns, angular)| ==>
      LayoutOf(angs, ns, angular)[k1].n <= LayoutOf(angs, ns, angular)[k2].n
  {
    if ns != [] {
      var init, n := ns[..|ns| - 1], ns[|ns| - 1];
      assert ns == init + [n];
      LayoutOfFacts(angs, init, angular);
      var idx := IndicesOf(angs, n);
      GroupSlotsFacts(n, idx, |angular(n)|);
      var A, G := LayoutOf(angs, init, angular), GroupSlots(n, idx, |angular(n)|);
      assert LayoutOf(angs, ns, angular) == A + G;
      assert forall s :: s in A ==> s.n < n by {
        forall s | s in A ensures s.n < n {
          var t :| 0 <= t < |init| && init[t] == s.n;
          assert ns[t] == s.n;
        }
      }
      assert forall k :: 0 <= k < |G| ==> G[k] in G;
      assert forall k :: 0 <= k < |A| ==> A[k] in A;
    }
  }

  /** With an n-row rule for every size used, the groups hold Σ n * Count(angs, n) points. */
  lemma {:induction false} LayoutOfLength(angs: seq<nat>, ns: seq<nat>, angular: AngularRule)
    requires forall n :: n in ns ==> |angular(n)| == n
    ensures |LayoutOf(angs, ns, angular)| == WeightedCount(ns, angs)
  {
    if ns != [] {
      var init, n := ns[..|ns| - 1], ns[|ns| - 1];
      assert forall m :: m in init ==> m in ns;
      LayoutOfLength(angs, init, angular);
      GroupSlotsFacts(n, IndicesOf(angs, n), |angular(n)|);
    }
  }

  /** An element's layout: valid (shell, row) slots, by ascending angular size. */
  lemma LayoutWellFormed(angs: seq<nat>, angular: AngularRule)
    ensures AllSlotsOf(angs, angular, Layout(angs, angular))
    ensures forall k1, k2 :: 0 <= k1 < k2 < |Layout(angs, angular)| ==>
      Layout(angs, angular)[k1].n <= Layout(angs, angular)[k2].n
  {
    LayoutOfFacts(angs, SortedDistinct(angs), angular);
  }

  /** An element's layout has sum(angs) slots: one per shell and row of its rule. */
  lemma LayoutSize(angs: seq<nat>, angular: AngularRule)
    requires SizedRule(angular)
    requires forall i :: 0 <= i < |angs| ==> angs[i] in LebedevNGrid
    ensures |Layout(angs, angular)| == Sum(angs)
  {
    var ns := SortedDistinct(angs);
    LayoutOfLength(angs, ns, angular);
    WeightedCountIsSum(ns, angs);
  }

  // ---------------------------------------------------------------------
  // Assembly of one element

  const Pi: real := 3.141592653589793

  /** rad_weight = 4*pi * rad**2 * dr. */
  function RadWeights(rad: seq<real>, dr: seq<real>): (w: seq<real>)
    requires |dr| == |rad|
    ensures |w| == |rad|
    ensures forall i :: 0 <= i < |rad| ==> w[i] == 4.0 * Pi * (rad[i] * rad[i]) * dr[i]
  {
    seq(|rad|, i requires 0 <= i < |rad| => 4.0 * Pi * rad[i] * rad[i] * dr[i])
  }

  /**
    The inner loop of gen_atomic_grids for one angular size n: for each chunk
    of up to 12 of its shells idx, append the einsum block of coordinates and
    of weights.
   */
  method AssembleChunks(rad: seq<real>, radWeight: seq<real>, angular: AngularRule, n: nat, idx: seq<nat>)
    returns (coords: seq<Point>, vol: seq<real>)
    ensures coords == CoordsOf(rad, angular, GroupSlots(n, idx, |angular(n)|))
    ensures vol == VolOf(radWeight, angular, GroupSlots(n, idx, |angular(n)|))
  {
    var grid := angular(n);
    ghost var done: seq<Slot> := [];
    coords, vol := [], [];
    var i0 := 0;
    while i0 < |idx|
      invariant 0 <= i0 <= |idx|
      invariant done + GroupFrom(n, idx, i0, |grid|) == GroupSlots(n, idx, |grid|)
      invariant coords == CoordsOf(rad, angular, done)
      invariant vol == VolOf(radWeight, angular, done)
    {
      var i1 := ChunkEnd(i0, |idx|);
      var chunk := ChunkSlots(n, idx[i0..i1], |grid|);
      GroupFromStep(n, idx, i0, |grid|);
      AppendAssoc(done, chunk, GroupFrom(n, idx, i1, |grid|));
      MapsAppend(rad, radWeight, angular, done, chunk);
      coords := coords + CoordsOf(rad, angular, chunk);
      vol := vol + VolOf(radWeight, angular, chunk);
      done := done + chunk;
      i0 := i1;
    }
  }

  /**
    The assembly loops of gen_atomic_grids for one element: the groups of
    shells by distinct angular size, in increasing order of size.
   */
  method AssembleElement(rad: seq<real>, radWeight: seq<real>, angs: seq<nat>, angular: AngularRule)
    returns (coords: seq<Point>, vol: seq<real>)
    ensures coords == CoordsOf(rad, angular, Layout(angs, angular))
    ensures vol == VolOf(radWeight, angular, Layout(angs, angular))
  {
    var ns := SortedDistinct(angs);
    coords, vol := [], [];
    for g := 0 to |ns|
      invariant coords == CoordsOf(rad, angular, LayoutOf(angs, ns[..g], angular))
      invariant vol == VolOf(radWeight, angular, LayoutOf(angs, ns[..g], angular))
    {
      var idx := IndicesOf(angs, ns[g]);
      var c, v := AssembleChunks(rad, radWeight, angular, ns[g], idx);
      assert ns[..g + 1][..g] == ns[..g];
      MapsAppend(rad, radWeight, angular, LayoutOf(angs, ns[..g], angular),
        GroupSlots(ns[g], IndicesOf(angs, ns[g]), |angular(ns[g])|));
      coords, vol := coords + c, vol + v;
    }
    assert ns[..|ns|] == ns;
  }

  // ---------------------------------------------------------------------
  // gen_atomic_grids

  /** The arguments gen_atomic_grids passes down unchanged to every element. */
  datatype AtomGridConfig = AtomGridConfig(
    grid: map<string, (nat, int)>,   // atom_grid, after broadcasting
    radiMethod: RadialScheme,
    level: int,
    prune: PruneScheme,
    elements: ElementData,
    angular: AngularRule)

  /** The radial grid of an element and its per-shell angular sizes after pruning. */
  function ElementShells(cfg: AtomGridConfig, symb: string, ia: nat): (r: Result<(RadialGrid, seq<nat>), GridError>)
    requires ValidElements(cfg.elements)
    ensures r.Success? ==> |r.value.1| == |r.value.0.rad| == |r.value.0.dr|
  {
    var chg := cfg.elements.charge(symb);
    var counts :- ResolveCounts(symb, chg, cfg.grid, cfg.level);
    var rg := cfg.radiMethod(counts.0, chg, ia);
    var angs :- PruneAngs(cfg.prune, chg, rg.rad, counts.1, cfg.elements.radii);
    Success((rg, angs))
  }

  /**
    An element's shells exist exactly when its (n_rad, n_ang) resolve and the
    pruning scheme finds the radius it reads: n_rad shells, each with a
    supported angular size; otherwise the resolution error, or the missing radius.
   */
  lemma ElementShellsFacts(cfg: AtomGridConfig, symb: string, ia: nat)
    requires ValidElements(cfg.elements)
    ensures var r, chg := ElementShells(cfg, symb, ia), cfg.elements.charge(symb);
      var c := ResolveCounts(symb, chg, cfg.grid, cfg.level);
      && (c.Failure? ==> r.Failure? && r.error == c.error)
      && (c.Success? ==> (r.Success? <==> PruneCovered(cfg.prune, chg, c.value.1, cfg.elements.radii)))
      && (c.Success? && r.Failure? ==> r.error == RadiusNotTabulated(chg))
      && (r.Success? ==> |r.value.1| == c.value.0 && forall i :: 0 <= i < |r.value.1| ==> r.value.1[i] in LebedevNGrid)
  {
  }

  /** The grid of one element: its layout mapped through the radial and angular rules. */
  function ElementGrid(cfg: AtomGridConfig, symb: string, ia: nat): (r: Result<AtomTable, GridError>)
    requires ValidElements(cfg.elements)
    ensures r.Success? ==> |r.value.coords| == |r.value.vol|
    ensures var sh := ElementShells(cfg, symb, ia);
      sh.Success? && |sh.value.1| == 0 ==> r == Failure(NothingToStack)
  {
    var shells :- ElementShells(cfg, symb, ia);
    var (rg, angs) := shells;
    if |angs| == 0 then Failure(NothingToStack)
    else
      var L := Layout(angs, cfg.angular);
      Success(AtomTable(CoordsOf(rg.rad, cfg.angular, L), VolOf(RadWeights(rg.rad, rg.dr), cfg.angular, L)))
  }

  /**
    An element grid exists exactly when its counts resolve and it has at least
    one shell; it then has sum(angs) points and as many weights.
   */
  lemma ElementGridSize(cfg: AtomGridConfig, symb: string, ia: nat)
    requires ValidElements(cfg.elements) && SizedRule(cfg.angular)
    ensures var r, sh := ElementGrid(cfg, symb, ia), ElementShells(cfg, symb, ia);
      && (r.Success? <==> sh.Success? && |sh.value.1| > 0)
      && (r.Success? ==> |r.value.coords| == |r.value.vol| == Sum(sh.value.1) >= |sh.value.1|)
  {
    var sh := ElementShells(cfg, symb, ia);
    ElementShellsFacts(cfg, symb, ia);
    if sh.Success? && |sh.value.1| > 0 {
      var angs := sh.value.1;
      LayoutSize(angs, cfg.angular);
      SumAtLeastLength(angs);
    }
  }

  /** Every shell carries at least one angular point, so sum(angs) >= len(angs). */
  lemma {:induction false} SumAtLeastLength(angs: seq<nat>)
    requires forall i :: 0 <= i < |angs| ==> angs[i] in LebedevNGrid
    ensures Sum(angs) >= |angs|
  {
    if angs != [] {
      SumAtLeastLength(angs[..|angs| - 1]);
      assert angs[|angs| - 1] in LebedevNGrid;
    }
  }

  /** What building each atom's element would give, atom by atom (ia is passed to radi_method). */
  function AtomBuilds(cfg: AtomGridConfig, symbols: seq<string>): (b: seq<Result<AtomTable, GridError>>)
    requires ValidElements(cfg.elements)
    ensures |b| == |symbols|
    ensures forall ia :: 0 <= ia < |symbols| ==> b[ia] == ElementGrid(cfg, symbols[ia], ia)
  {
    seq(|symbols|, ia requires 0 <= ia < |symbols| => ElementGrid(cfg, symbols[ia], ia))
  }

  /**
    atom_grids_tab after the first k atoms, given what each atom's build
    gives: an element is built at its first atom and skipped afterwards; the
    first failure aborts the whole table.
   */
  function TabFrom(symbols: seq<string>, builds: seq<Result<AtomTable, GridError>>, k: nat)
    : Result<AtomGridsTab, GridError>
    requires k <= |symbols| == |builds|
  {
    if k == 0 then Success(map[])
    else
      var tab :- TabFrom(symbols, builds, k - 1);
      var symb := symbols[k - 1];
      if symb in tab then Success(tab)
      else
        var t :- builds[k - 1];
        Success(tab[symb := t])
  }

  /** The table gen_atomic_grids returns for a molecule's atoms. */
  function AtomGridsTable(cfg: AtomGridConfig, symbols: seq<string>): (r: Result<AtomGridsTab, GridError>)
    requires ValidElements(cfg.elements)
    ensures r.Success? ==> r.value.Keys == set i | 0 <= i < |symbols| :: symbols[i]
  {
    TabKeys(symbols, AtomBuilds(cfg, symbols), |symbols|);
    TabFrom(symbols, AtomBuilds(cfg, symbols), |symbols|)
  }

  /** Once the table has failed, later atoms leave the failure as it is. */
  lemma {:induction false} TabFailureSticks(symbols: seq<string>, builds: seq<Result<AtomTable, GridError>>, k: nat, k': nat)
    requires k <= k' <= |symbols| == |builds|
    requires TabFrom(symbols, builds, k).Failure?
    ensures TabFrom(symbols, builds, k') == TabFrom(symbols, builds, k)
    decreases k' - k
  {
    if k < k' {
      TabFailureSticks(symbols, builds, k, k' - 1);
    }
  }

  /**
    The body of gen_atomic_grids for a new element: resolve (n_rad, n_ang),
    run the radial scheme, prune, and assemble the points.
   */
  method BuildElement(symb: string, ia: nat, grid: map<string, (nat, int)>, radiMethod: RadialScheme, level: int,
                      prune: PruneScheme, elements: ElementData, angular: AngularRule)
    returns (r: Result<AtomTable, GridError>)
    requires ValidElements(elements)
    ensures r == ElementGrid(AtomGridConfig(grid, radiMethod, level, prune, elements, angular), symb, ia)
  {
    ghost var cfg := AtomGridConfig(grid, radiMethod, level, prune, elements, angular);
    var chg := elements.charge(symb);
    var counts := ResolveCounts(symb, chg, grid, level);
    if counts.Failure? {
      return Failure(counts.error);
    }
    var (nRad, nAng) := counts.value;
    var rg := radiMethod(nRad, chg, ia);
    var radWeight := RadWeights(rg.rad, rg.dr);
    var angs: seq<nat>;
    if prune == Treutler {
      angs := TreutlerPrune(rg.rad, nAng);
    } else {
      var pruned := PruneAngs(prune, chg, rg.rad, nAng, elements.radii);
      if pruned.Failure? {
        return Failure(pruned.error);
      }
      angs := pruned.value;
    }
    assert ElementShells(cfg, symb, ia) == Success((rg, angs));
    var coords, vol := AssembleElement(rg.rad, radWeight, angs, angular);
    if |angs| == 0 {
      // numpy.vstack of the empty list of blocks
      return Failure(NothingToStack);
    }
    r := Success(AtomTable(coords, vol));
  }

  /**
    gen_atomic_grids: the loop over atoms, building each element's grid once,
    at its first atom.
   */
  method GenAtomicGrids(symbols: seq<string>, atomGrid: AtomGridSpec, radiMethod: RadialScheme, level: int,
                        prune: PruneScheme, elements: ElementData, angular: AngularRule)
    returns (r: Result<AtomGridsTab, GridError>)
    requires ValidElements(elements)
    ensures r == AtomGridsTable(AtomGridConfig(Broadcast(atomGrid, symbols), radiMethod, level, prune, elements, angular),
                                symbols)
  {
    var grid := Broadcast(atomGrid, symbols);
    ghost var builds := AtomBuilds(AtomGridConfig(grid, radiMethod, level, prune, elements, angular), symbols);
    var tab: AtomGridsTab := map[];
    for ia := 0 to |symbols|
      invariant TabFrom(symbols, builds, ia) == Success(tab)
    {
      TabStep(symbols, builds, ia);
      var symb := symbols[ia];
      if symb !in tab {
        var built := BuildElement(symb, ia, grid, radiMethod, level, prune, elements, angular);
        assert built == builds[ia];
        if built.Failure? {
          TabFailureSticks(symbols, builds, ia + 1, |symbols|);
          return Failure(built.error);
        }
        tab := tab[symb := built.value];
      }
    }
    r := Success(tab);
  }

  /** One step of the loop: skip a known element, or add the atom's build, or fail with it. */
  lemma TabStep(symbols: seq<string>, builds: seq<Result<AtomTable, GridError>>, k: nat)
    requires k < |symbols| == |builds| && TabFrom(symbols, builds, k).Success?
    ensures var tab := TabFrom(symbols, builds, k).value;
      TabFrom(symbols, builds, k + 1) ==
        if symbols[k] in tab then Success(tab)
        else if builds[k].Failure? then Failure(builds[k].error)
        else Success(tab[symbols[k] := builds[k].value])
  {
  }

  /** A complete table has exactly the molecule's element symbols as keys. */
  lemma {:induction false} TabKeys(symbols: seq<string>, builds: seq<Result<AtomTable, GridError>>, k: nat)
    requires k <= |symbols| == |builds|
    ensures TabFrom(symbols, builds, k).Success? ==>
      TabFrom(symbols, builds, k).value.Keys == set i | 0 <= i < k :: symbols[i]
  {
    if k > 0 {
      TabKeys(symbols, builds, k - 1);
      if TabFrom(symbols, builds, k).Success? {
        assert (set i | 0 <= i < k :: symbols[i]) == (set i | 0 <= i < k - 1 :: symbols[i]) + {symbols[k - 1]};
      }
    }
  }

  /** Every entry of the table is what some atom's build gave. */
  lemma {:induction false} TabValuesBuilt(symbols: seq<string>, builds: seq<Result<AtomTable, GridError>>, k: nat)
    requires k <= |symbols| == |builds|
    ensures TabFrom(symbols, builds, k).Success? ==>
      forall s :: s in TabFrom(symbols, builds, k).value ==>
        exists ia :: 0 <= ia < k && builds[ia] == Success(TabFrom(symbols, builds, k).value[s])
  {
    if k > 0 {
      TabValuesBuilt(symbols, builds, k - 1);
      var cur := TabFrom(symbols, builds, k);
      if cur.Success? {
        var prev := TabFrom(symbols, builds, k - 1).value;
        forall s | s in cur.value
          ensures exists ia :: 0 <= ia < k && builds[ia] == Success(cur.value[s])
        {
          if s in prev && cur.value[s] == prev[s] {
            var ia :| 0 <= ia < k - 1 && builds[ia] == Success(prev[s]);
            assert 0 <= ia < k && builds[ia] == Success(cur.value[s]);
          } else {
            assert builds[k - 1] == Success(cur.value[s]);
          }
        }
      }
    }
  }

  /** The element of atom k is already in the table exactly when an earlier atom has it. */
  lemma InTabIffSeen(symbols: seq<string>, builds: seq<Result<AtomTable, GridError>>, k: nat)
    requires k < |symbols| == |builds|
    requires TabFrom(symbols, builds, k).Success?
    ensures symbols[k] in TabFrom(symbols, builds, k).value <==> symbols[k] in symbols[..k]
  {
    TabKeys(symbols, builds, k);
    if symbols[k] in symbols[..k] {
      var i :| 0 <= i < k && symbols[..k][i] == symbols[k];
      assert symbols[i] == symbols[k];
    }
    if symbols[k] in TabFrom(symbols, builds, k).value {
      var i :| 0 <= i < k && symbols[i] == symbols[k];
      assert symbols[..k][i] == symbols[k];
    }
  }

  /** Each element's entry is what its first atom built. */
  lemma {:induction false} TabEntryFromFirstAtom(symbols: seq<string>, builds: seq<Result<AtomTable, GridError>>, k: nat, ia: nat)
    requires k <= |symbols| == |builds|
    requires ia < k && symbols[ia] !in symbols[..ia]
    ensures TabFrom(symbols, builds, k).Success? ==>
      && builds[ia].Success? && symbols[ia] in TabFrom(symbols, builds, k).value
      && TabFrom(symbols, builds, k).value[symbols[ia]] == builds[ia].value
  {
    TabKeys(symbols, builds, k);
    if TabFrom(symbols, builds, k).Success? {
      if ia < k - 1 {
        TabEntryFromFirstAtom(symbols, builds, k - 1, ia);
        TabKeys(symbols, builds, k - 1);
      } else {
        InTabIffSeen(symbols, builds, ia);
      }
    }
  }

  /** The table fails exactly when some element fails at that element's first atom. */
  lemma {:induction false} TabFailure(symbols: seq<string>, builds: seq<Result<AtomTable, GridError>>, k: nat)
    requires k <= |symbols| == |builds|
    ensures TabFrom(symbols, builds, k).Failure? <==>
      exists ia :: 0 <= ia < k && symbols[ia] !in symbols[..ia] && builds[ia].Failure?
  {
    if k > 0 {
      TabFailure(symbols, builds, k - 1);
      var prev := TabFrom(symbols, builds, k - 1);
      if prev.Success? {
        InTabIffSeen(symbols, builds, k - 1);
        if TabFrom(symbols, builds, k).Failure? {
          assert symbols[k - 1] !in symbols[..k - 1] && builds[k - 1].Failure?;
        }
      } else {
        var ia :| 0 <= ia < k - 1 && symbols[ia] !in symbols[..ia] && builds[ia].Failure?;
        assert 0 <= ia < k;
      }
    }
  }

  /**
    gen_atomic_grids' result: keyed by exactly the molecule's elements, each
    entry built at the element's first atom; a failure exactly when some
    element's build fails there.
   */
  lemma AtomGridsTableFacts(cfg: AtomGridConfig, symbols: seq<string>, ia: nat)
    requires ValidElements(cfg.elements) && ia < |symbols|
    ensures var r := AtomGridsTable(cfg, symbols);
      && (r.Success? ==> r.value.Keys == set i | 0 <= i < |symbols| :: symbols[i])
      && (r.Success? && symbols[ia] !in symbols[..ia] ==>
            ElementGrid(cfg, symbols[ia], ia).Success? &&
            r.value[symbols[ia]] == ElementGrid(cfg, symbols[ia], ia).value)
      && (r.Failure? <==> exists j :: 0 <= j < |symbols| && symbols[j] !in symbols[..j] &&
                                        ElementGrid(cfg, symbols[j], j).Failure?)
  {
    var builds := AtomBuilds(cfg, symbols);
    TabKeys(symbols, builds, |symbols|);
    TabFailure(symbols, builds, |symbols|);
    if symbols[ia] !in symbols[..ia] {
      TabEntryFromFirstAtom(symbols, builds, |symbols|, ia);
    }
  }
}
