/** The sixteen compass headings of CompassDirection.java and their angles. */
module Compass {
  import opened Wrappers

  /** The enum constants, in declaration order. */
  datatype CompassDirection =
    N | NNE | NE | ENE | E | ESE | SE | SSE | S | SSW | SW | WSW | W | WNW | NW | NNW

  /** `values()`: the constants in declaration order, the order in which the search expands them. */
  const Values: seq<CompassDirection> := [N, NNE, NE, ENE, E, ESE, SE, SSE, S, SSW, SW, WSW, W, WNW, NW, NNW]

  /** Angle in degrees, anticlockwise from east, as given to the enum constructor. */
  function Angle(d: CompassDirection): (a: real)
    ensures 0.0 <= a < 360.0
  {
    match d
    case N => 90.0
    case NNE => 67.5
    case NE => 45.0
    case ENE => 22.5
    case E => 0.0
    case ESE => 337.5
    case SE => 315.0
    case SSE => 292.5
    case S => 270.0
    case SSW => 247.5
    case SW => 225.0
    case WSW => 202.5
    case W => 180.0
    case WNW => 157.5
    case NW => 135.0
    case NNW => 112.5
  }

  /** `ordinal()`: the position of a constant in declaration order. */
  function Ordinal(d: CompassDirection): (i: nat)
    ensures i < |Values| && Values[i] == d
  {
    match d
    case N => 0
    case NNE => 1
    case NE => 2
    case ENE => 3
    case E => 4
    case ESE => 5
    case SE => 6
    case SSE => 7
    case S => 8
    case SSW => 9
    case SW => 10
    case WSW => 11
    case W => 12
    case WNW => 13
    case NW => 14
    case NNW => 15
  }

  /** The heading pointing the other way. */
  function Opposite(d: CompassDirection): (o: CompassDirection)
    ensures o != d
    ensures Angle(o) == if Angle(d) < 180.0 then Angle(d) + 180.0 else Angle(d) - 180.0
  {
    match d
    case N => S
    case NNE => SSW
    case NE => SW
    case ENE => WSW
    case E => W
    case ESE => WNW
    case SE => NW
    case SSE => NNW
    case S => N
    case SSW => NNE
    case SW => NE
    case WSW => ENE
    case W => E
    case WNW => ESE
    case NW => SE
    case NNW => SSE
  }

  /** The heading whose angle is `a`, if any: the inverse of `Angle`. */
  function WithAngle(a: real): (r: Option<CompassDirection>)
    ensures r.Some? ==> Angle(r.value) == a
    ensures r.None? ==> forall d: CompassDirection :: Angle(d) != a
  {
    if a == 90.0 then Some(N)
    else if a == 67.5 then Some(NNE)
    else if a == 45.0 then Some(NE)
    else if a == 22.5 then Some(ENE)
    else if a == 0.0 then Some(E)
    else if a == 337.5 then Some(ESE)
    else if a == 315.0 then Some(SE)
    else if a == 292.5 then Some(SSE)
    else if a == 270.0 then Some(S)
    else if a == 247.5 then Some(SSW)
    else if a == 225.0 then Some(SW)
    else if a == 202.5 then Some(WSW)
    else if a == 180.0 then Some(W)
    else if a == 157.5 then Some(WNW)
    else if a == 135.0 then Some(NW)
    else if a == 112.5 then Some(NNW)
    else None
  }

  /** `getAngle` is injective, so an angle names its heading: `WithAngle` undoes `Angle`. */
  lemma AngleRoundTrip(d: CompassDirection)
    ensures WithAngle(Angle(d)) == Some(d)
  {
  }

  /** `values()` lists all sixteen constants, each once. */
  lemma ValuesEnumerateAll()
    ensures |Values| == 16
    ensures forall d: CompassDirection :: d in Values
    ensures forall i, j :: 0 <= i < j < |Values| ==> Values[i] != Values[j]
  {
    forall d: CompassDirection ensures d in Values {
      assert Values[Ordinal(d)] == d;
    }
  }

  /** The angles are pairwise distinct. */
  lemma AnglesDistinct()
    ensures forall i, j :: 0 <= i < j < |Values| ==> Angle(Values[i]) != Angle(Values[j])
  {
  }

  /** Walking `values()` clockwise, the angles fall by 22.5 degrees a step from north (90),
      so they are exactly the sixteen multiples of 22.5 in [0, 360). */
  lemma AnglesOnGrid()
    ensures forall i :: 0 <= i < |Values| ==> Angle(Values[i]) == ((4 - i) % 16) as real * 22.5
  {
  }

  /** Every multiple of 22.5 degrees in [0, 360) is the angle of some heading. */
  lemma {:induction false} GridCovered(k: int)
    requires 0 <= k < 16
    ensures WithAngle(k as real * 22.5).Some?
  {
    AnglesOnGrid();
    var i := (20 - k) % 16;
    assert (4 - i) % 16 == k;
    assert Angle(Values[i]) == k as real * 22.5;
  }
}
