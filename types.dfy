/**
  Shared value types of the grid generator: optional and failure-carrying
  results, 3-vectors, angular quadrature points and the errors the grid
  construction can raise.
 */
module Types {

  datatype Option<+T> = None | Some(value: T)

  /** A failure-compatible result, usable with `:-`. */
  datatype Result<+T, +E> = Success(value: T) | Failure(error: E) {
    predicate IsFailure() { Failure? }

    function PropagateFailure<U>(): Result<U, E>
      requires Failure?
    {
      Failure(error)
    }

    function Extract(): T
      requires Success?
    {
      value
    }
  }

  /** A Cartesian 3-vector (a row of an (N,3) coordinate array). */
  datatype Point = Point(x: real, y: real, z: real)

  /** One row of an angular (Lebedev) rule: a unit direction and its weight. */
  datatype AngPoint = AngPoint(dir: Point, w: real)

  /** Errors raised while building grids. */
  datatype GridError =
    | UnsupportedAngularGrid(nAng: int)   // ValueError('Unsupported angular grids %d')
    | LebedevSizeNotFound(size: nat)     // IndexError of numpy.where(...)[0][0] in nwchem_prune
    | TableIndexOutOfRange                // IndexError indexing RAD_GRIDS / ANG_ORDER
    | NothingToStack                      // ValueError of numpy.vstack([]) for an empty list of blocks
    | RadiusNotTabulated(nuc: nat)        // IndexError of radii[nuc] in sg1_prune / nwchem_prune

  function Scale(r: real, p: Point): Point
  {
    Point(r * p.x, r * p.y, r * p.z)
  }

  /** Sum of a sequence of naturals. */
  function Sum(s: seq<nat>): nat
  {
    if s == [] then 0 else Sum(s[..|s| - 1]) + s[|s| - 1]
  }

  /** How many thresholds lie strictly below x: numpy's (x > tab).sum(). */
  function CountBelow(tab: seq<real>, x: real): (c: nat)
    ensures c <= |tab|
  {
    if tab == [] then 0
    else (if tab[0] < x then 1 else 0) + CountBelow(tab[1..], x)
  }

  lemma {:induction false} CountBelowNone(tab: seq<real>, x: real)
    requires forall j :: 0 <= j < |tab| ==> x <= tab[j]
    ensures CountBelow(tab, x) == 0
  {
    if tab != [] {
      CountBelowNone(tab[1..], x);
    }
  }

  /** With increasing thresholds, the count is k exactly when x lies in (tab[k-1], tab[k]]. */
  lemma {:induction false} CountBelowBrackets(tab: seq<real>, x: real, k: nat)
    requires forall i, j :: 0 <= i < j < |tab| ==> tab[i] < tab[j]
    requires k <= |tab|
    ensures CountBelow(tab, x) == k <==>
      (k == 0 || tab[k - 1] < x) && (k == |tab| || x <= tab[k])
  {
    if tab != [] {
      CountBelowBrackets(tab[1..], x, if k == 0 then 0 else k - 1);
      if k == 0 && x > tab[0] {
        assert CountBelow(tab, x) >= 1;
      }
      if k > 0 && CountBelow(tab, x) == k && tab[0] >= x {
        CountBelowNone(tab[1..], x);
      }
    }
  }

  /** A larger x never has fewer thresholds below it. */
  lemma {:induction false} CountBelowMonotone(tab: seq<real>, x1: real, x2: real)
    requires x1 <= x2
    ensures CountBelow(tab, x1) <= CountBelow(tab, x2)
  {
    if tab != [] {
      CountBelowMonotone(tab[1..], x1, x2);
    }
  }
}
