/**
  Default resolution tables: the number of radial shells (_default_rad,
  RAD_GRIDS) and the angular order (_default_ang, ANG_ORDER) for an element,
  indexed by resolution level and by the element's period.
 */
module DefaultGrids {
  import opened Types
  import opened Lebedev

  /** Nuclear charges that close each period of the periodic table. */
  const PeriodEnds: seq<real> := [2.0, 10.0, 18.0, 36.0, 54.0, 86.0, 118.0]

  //                         Period    1    2    3    4    5    6    7      level
  const RadGrids: seq<seq<nat>> := [[ 10,  15,  20,  30,  35,  40,  50],  // 0
                                    [ 30,  40,  50,  60,  65,  70,  75],  // 1
                                    [ 40,  60,  65,  75,  80,  85,  90],  // 2
                                    [ 50,  75,  80,  90,  95, 100, 105],  // 3
                                    [ 60,  90,  95, 105, 110, 115, 120],  // 4
                                    [ 70, 105, 110, 120, 125, 130, 135],  // 5
                                    [ 80, 120, 125, 135, 140, 145, 150],  // 6
                                    [ 90, 135, 140, 150, 155, 160, 165],  // 7
                                    [100, 150, 155, 165, 170, 175, 180],  // 8
                                    [200, 200, 200, 200, 200, 200, 200]]  // 9

  //                         Period    1   2   3   4   5   6   7          level
  const AngOrder: seq<seq<nat>> := [[11, 15, 17, 17, 17, 17, 17],  // 0
                                    [17, 23, 23, 23, 23, 23, 23],  // 1
                                    [23, 29, 29, 29, 29, 29, 29],  // 2
                                    [29, 29, 35, 35, 35, 35, 35],  // 3
                                    [35, 41, 41, 41, 41, 41, 41],  // 4
                                    [41, 47, 47, 47, 47, 47, 47],  // 5
                                    [47, 53, 53, 53, 53, 53, 53],  // 6
                                    [53, 59, 59, 59, 59, 59, 59],  // 7
                                    [59, 59, 59, 59, 59, 59, 59],  // 8
                                    [65, 65, 65, 65, 65, 65, 65]]  // 9

  /** The (0-based) period index of an element: 0 for H-He, 1 for Li-Ne, ... */
  function Period(nuc: int): (p: nat)
    ensures p <= 7
  {
    CountBelow(PeriodEnds, nuc as real)
  }

  /** The table row numpy selects for `level` (negative levels count from the end). */
  function Row(level: int): (r: nat)
    requires -10 <= level < 10
    ensures r < 10 && r % 10 == level % 10
    ensures level >= 0 ==> r == level
    ensures level < 0 ==> r == level + 10
  {
    if level < 0 then level + 10 else level
  }

  /** Both table lookups stay in range exactly when this holds (otherwise IndexError). */
  predicate InTables(nuc: int, level: int)
  {
    -10 <= level < 10 && Period(nuc) < 7
  }

  /** _default_rad: number of radial shells for an element at a level. */
  function DefaultRad(nuc: int, level: int): (n: nat)
    requires InTables(nuc, level)
    ensures 10 <= n <= 200
  {
    RadGrids[Row(level)][Period(nuc)]
  }

  /** _default_ang: number of angular points, LEBEDEV_ORDER[ANG_ORDER[level, period]]. */
  function DefaultAng(nuc: int, level: int): (n: nat)
    requires InTables(nuc, level)
    ensures n in LebedevNGrid
  {
    AngOrderKeys(Row(level), Period(nuc));
    LebedevOrder[AngOrder[Row(level)][Period(nuc)]]
  }

  lemma AngOrderKeys(l: nat, p: nat)
    requires l < 10 && p < 7
    ensures AngOrder[l][p] in LebedevOrder && LebedevOrder[AngOrder[l][p]] in LebedevNGrid
  {
  }

  /** The period index is the number of period-closing charges below nuc. */
  lemma PeriodBrackets(nuc: int, k: nat)
    requires k <= 7
    ensures Period(nuc) == k <==>
      (k == 0 || PeriodEnds[k - 1] < nuc as real) && (k == 7 || nuc as real <= PeriodEnds[k])
  {
    CountBelowBrackets(PeriodEnds, nuc as real, k);
  }

  /** Period lies in 0..6 exactly for the charges up to 118 (the tables' columns). */
  lemma PeriodInRange(nuc: int)
    ensures Period(nuc) <= 6 <==> nuc <= 118
  {
    PeriodBrackets(nuc, 7);
  }

  /** Both tables are non-decreasing along the period. */
  lemma TablesMonotone(l: nat, p: nat)
    requires l < 10 && p + 1 < 7
    ensures RadGrids[l][p] <= RadGrids[l][p + 1] && AngOrder[l][p] <= AngOrder[l][p + 1]
  {
  }

  /** Both tables are non-decreasing along the level. */
  lemma TablesMonotoneInLevel(l: nat, p: nat)
    requires l + 1 < 10 && p < 7
    ensures RadGrids[l][p] <= RadGrids[l + 1][p] && AngOrder[l][p] <= AngOrder[l + 1][p]
  {
  }

  /** LEBEDEV_ORDER is increasing on the orders ANG_ORDER uses. */
  lemma OrderMonotone(a: nat, b: nat)
    requires a <= b && a in LebedevOrder && b in LebedevOrder
    ensures LebedevOrder[a] <= LebedevOrder[b]
  {
  }

  lemma {:induction false} RadRowMonotone(l: nat, p: nat, q: nat)
    requires l < 10 && p <= q < 7
    ensures RadGrids[l][p] <= RadGrids[l][q] && AngOrder[l][p] <= AngOrder[l][q]
    decreases q - p
  {
    if p < q {
      TablesMonotone(l, p);
      RadRowMonotone(l, p + 1, q);
    }
  }

  /** For a fixed level, heavier elements get at least as many radial and angular points. */
  lemma DefaultsMonotoneInCharge(n1: int, n2: int, level: int)
    requires n1 <= n2 && InTables(n2, level) && -10 <= level < 10
    ensures InTables(n1, level)
    ensures DefaultRad(n1, level) <= DefaultRad(n2, level)
    ensures DefaultAng(n1, level) <= DefaultAng(n2, level)
  {
    CountBelowMonotone(PeriodEnds, n1 as real, n2 as real);
    var l, p1, p2 := Row(level), Period(n1), Period(n2);
    RadRowMonotone(l, p1, p2);
    AngOrderKeys(l, p1);
    AngOrderKeys(l, p2);
    OrderMonotone(AngOrder[l][p1], AngOrder[l][p2]);
  }

  /** The level-3 defaults the Grids docstring quotes: (50,302) for H-He, (75,302) for Li-Ne, (80~105,434) after. */
  lemma Level3Defaults(nuc: int)
    requires nuc <= 118
    ensures InTables(nuc, 3)
    ensures nuc <= 2 ==> DefaultRad(nuc, 3) == 50 && DefaultAng(nuc, 3) == 302
    ensures 2 < nuc <= 10 ==> DefaultRad(nuc, 3) == 75 && DefaultAng(nuc, 3) == 302
    ensures 10 < nuc ==> 80 <= DefaultRad(nuc, 3) <= 105 && DefaultAng(nuc, 3) == 434
  {
    PeriodInRange(nuc);
    PeriodBrackets(nuc, 0);
    PeriodBrackets(nuc, 1);
    var p := Period(nuc);
    if 10 < nuc {
      assert p >= 2 by { PeriodBrackets(nuc, p); }
    }
  }
}
