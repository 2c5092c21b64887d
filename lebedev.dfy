/**
  The Lebedev-Laikov angular rules the grid generator may use: the supported
  point counts (LEBEDEV_NGRID) and the map from algebraic order to point count
  (LEBEDEV_ORDER). The tables themselves live in pyscf/dft/LebedevGrid.py,
  which is not part of this model; only their values are restated here.
 */
module Lebedev {

  /** LEBEDEV_NGRID: supported angular point counts, in increasing order. */
  const LebedevNGrid: seq<nat> :=
    [1, 6, 14, 26, 38, 50, 74, 86, 110, 146,
     170, 194, 230, 266, 302, 350, 434, 590, 770, 974,
     1202, 1454, 1730, 2030, 2354, 2702, 3074, 3470, 3890, 4334,
     4802, 5294, 5810]

  /** LEBEDEV_ORDER: algebraic order of a rule -> its point count. */
  const LebedevOrder: map<int, nat> :=
    map[0 := 1, 3 := 6, 5 := 14, 7 := 26, 9 := 38, 11 := 50, 13 := 74,
        15 := 86, 17 := 110, 19 := 146, 21 := 170, 23 := 194, 25 := 230,
        27 := 266, 29 := 302, 31 := 350, 35 := 434, 41 := 590, 47 := 770,
        53 := 974, 59 := 1202, 65 := 1454, 71 := 1730, 77 := 2030,
        83 := 2354, 89 := 2702, 95 := 3074, 101 := 3470, 107 := 3890,
        113 := 4334, 119 := 4802, 125 := 5294, 131 := 5810]

  /** The sizes nwchem_prune indexes: LEBEDEV_NGRID[4:] = [38, 50, 74, 86, ...]. */
  function NwchemSizes(): (s: seq<nat>)
    ensures |s| == 29 && s[0] == 38 && s[1] == 50 && s[2] == 74 && s[3] == 86
  {
    assert LebedevNGrid[4] == 38 && LebedevNGrid[5] == 50 && LebedevNGrid[6] == 74 && LebedevNGrid[7] == 86;
    LebedevNGrid[4..]
  }

  /** Snapping an order through LEBEDEV_ORDER always lands on a supported size. */
  lemma OrderValuesAreSizes(k: int)
    requires k in LebedevOrder
    ensures LebedevOrder[k] in LebedevNGrid
  {
  }

  /** Neighbouring entries of LEBEDEV_NGRID are strictly increasing. */
  lemma Adjacent(t: nat)
    requires t + 1 < |LebedevNGrid|
    ensures LebedevNGrid[t] < LebedevNGrid[t + 1]
  {
  }

  /** LEBEDEV_NGRID is strictly increasing. */
  lemma SizesIncreasing(i: nat, j: nat)
    requires i < j < |LebedevNGrid|
    ensures LebedevNGrid[i] < LebedevNGrid[j]
    decreases j - i
  {
    Adjacent(j - 1);
    if i + 1 < j {
      SizesIncreasing(i, j - 1);
    }
  }

  /** No supported size lies strictly between two neighbouring entries. */
  lemma NoSizeBetween(t: nat)
    requires 0 < t < |LebedevNGrid|
    ensures forall m :: m in LebedevNGrid && LebedevNGrid[t - 1] < m ==> LebedevNGrid[t] <= m
  {
    forall m | m in LebedevNGrid && LebedevNGrid[t - 1] < m
      ensures LebedevNGrid[t] <= m
    {
      var j :| 0 <= j < |LebedevNGrid| && LebedevNGrid[j] == m;
      if j < t {
        if j < t - 1 {
          SizesIncreasing(j, t - 1);
        }
        assert false;
      } else if j > t {
        SizesIncreasing(t, j);
      }
    }
  }
}
