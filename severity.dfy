/** The reference definition behind every threshold classifier of the app:
    a magnitude falls in the first band whose upper breakpoint exceeds it
    (strict `<`), or past the last breakpoint when none does. The if-chains and
    range `switch`es of the screens are each proved equal to a `Band` over
    their own breakpoint table. */
module Severity {

  predicate Ascending(bounds: seq<real>)
  {
    forall i, j :: 0 <= i < j < |bounds| ==> bounds[i] < bounds[j]
  }

  /** Index of the band `x` falls in: the number of breakpoints that `x` has
      reached or passed before the first one it is strictly below. */
  function Band(x: real, bounds: seq<real>): (k: nat)
    ensures k <= |bounds|
    ensures forall j :: 0 <= j < k ==> bounds[j] <= x
    ensures k < |bounds| ==> x < bounds[k]
  {
    if bounds == [] || x < bounds[0] then 0 else 1 + Band(x, bounds[1..])
  }

  /** A larger magnitude never lands in a lower band. */
  lemma BandMonotone(x: real, y: real, bounds: seq<real>)
    requires x <= y
    ensures Band(x, bounds) <= Band(y, bounds)
  {
  }

  /** On ascending breakpoints the band is pinned down by its two neighbouring
      breakpoints. */
  lemma {:induction false} BandBetween(x: real, bounds: seq<real>, k: nat)
    requires Ascending(bounds)
    requires k <= |bounds|
    requires k > 0 ==> bounds[k - 1] <= x
    requires k < |bounds| ==> x < bounds[k]
    ensures Band(x, bounds) == k
  {
  }

  /** A three-breakpoint table read as the if-chain the screens write. */
  lemma BandOfThree(x: real, bounds: seq<real>)
    requires |bounds| == 3 && Ascending(bounds)
    ensures Band(x, bounds) ==
              if x < bounds[0] then 0
              else if x < bounds[1] then 1
              else if x < bounds[2] then 2
              else 3
  {
    if x < bounds[0] {
      BandBetween(x, bounds, 0);
    } else if x < bounds[1] {
      BandBetween(x, bounds, 1);
    } else if x < bounds[2] {
      BandBetween(x, bounds, 2);
    } else {
      BandBetween(x, bounds, 3);
    }
  }

  /** A four-breakpoint table read as the if-chain the screens write. */
  lemma BandOfFour(x: real, bounds: seq<real>)
    requires |bounds| == 4 && Ascending(bounds)
    ensures Band(x, bounds) ==
              if x < bounds[0] then 0
              else if x < bounds[1] then 1
              else if x < bounds[2] then 2
              else if x < bounds[3] then 3
              else 4
  {
    if x < bounds[0] {
      BandBetween(x, bounds, 0);
    } else if x < bounds[1] {
      BandBetween(x, bounds, 1);
    } else if x < bounds[2] {
      BandBetween(x, bounds, 2);
    } else if x < bounds[3] {
      BandBetween(x, bounds, 3);
    } else {
      BandBetween(x, bounds, 4);
    }
  }
}
