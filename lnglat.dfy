/** Positions on the plane (LngLat.java) and the JDK numerics they rely on. */
module Positions {
  import opened Wrappers
  import opened Compass

  /** Length of one drone move, in degrees (Drone.MOVE_LENGTH). */
  const MOVE_LENGTH: real := 0.00015

  /** A point: longitude and latitude. Doubles are modelled as exact reals. */
  datatype LngLat = LngLat(lng: real, lat: real)

  /**
   * The library routines the code calls but whose source is not part of this model:
   * `Math.pow(x, 2)` and `Math.sqrt`; `Math.cos` and `Math.sin` composed with
   * `Math.toRadians`, so taking degrees; and `Line2D.intersectsLine`, whose first two
   * points are the receiving line.
   */
  datatype Platform = Platform(
    square: real -> real,
    sqrt: real -> real,
    cosDeg: real -> real,
    sinDeg: real -> real,
    intersectsLine: (LngLat, LngLat, LngLat, LngLat) -> bool)

  /** `square` squares exactly. */
  ghost predicate IsSquare(square: real -> real)
  {
    forall x: real {:trigger square(x)} :: square(x) == x * x
  }

  /** `sqrt` is the non-negative square root on non-negative reals. */
  ghost predicate IsSqrt(sqrt: real -> real)
  {
    forall x: real {:trigger sqrt(x)} :: 0.0 <= x ==> 0.0 <= sqrt(x) && sqrt(x) * sqrt(x) == x
  }

  /** Both square and square root are exact. */
  ghost predicate ExactRoots(plat: Platform)
  {
    IsSquare(plat.square) && IsSqrt(plat.sqrt)
  }

  /**
   * The trig table at the sixteen headings: each heading is a unit vector, east and north
   * are exact, and opposite headings are opposite vectors.
   */
  ghost predicate UnitHeadings(plat: Platform)
  {
    && (forall d: CompassDirection ::
          plat.cosDeg(Angle(d)) * plat.cosDeg(Angle(d)) + plat.sinDeg(Angle(d)) * plat.sinDeg(Angle(d)) == 1.0)
    && (forall d: CompassDirection ::
          plat.cosDeg(Angle(Opposite(d))) == -plat.cosDeg(Angle(d)) &&
          plat.sinDeg(Angle(Opposite(d))) == -plat.sinDeg(Angle(d)))
    && plat.cosDeg(Angle(E)) == 1.0 && plat.sinDeg(Angle(E)) == 0.0
    && plat.cosDeg(Angle(N)) == 0.0 && plat.sinDeg(Angle(N)) == 1.0
  }

  /** The exact squared Euclidean distance. */
  function EuclidSq(a: LngLat, b: LngLat): (r: real)
    ensures r >= 0.0
  {
    (a.lng - b.lng) * (a.lng - b.lng) + (a.lat - b.lat) * (a.lat - b.lat)
  }

  /** `distanceTo`: the square root of the sum of the squared differences. */
  function DistanceTo(a: LngLat, b: LngLat, plat: Platform): real
  {
    plat.sqrt(plat.square(a.lng - b.lng) + plat.square(a.lat - b.lat))
  }

  /** `closeTo`: strictly less than one move apart. */
  predicate CloseTo(a: LngLat, b: LngLat, plat: Platform)
  {
    DistanceTo(a, b, plat) < MOVE_LENGTH
  }

  /**
   * `nextPosition`: one move along `dir`, or a hover (no change) when `dir` is null.
   * The move length is written as the literal value of MOVE_LENGTH, so that the solver
   * sees a product by a constant.
   */
  function NextPosition(p: LngLat, dir: Option<CompassDirection>, plat: Platform): (q: LngLat)
    ensures dir.None? ==> q == p
  {
    match dir
    case None => p
    case Some(d) =>
      LngLat(p.lng + 0.00015 * plat.cosDeg(Angle(d)), p.lat + 0.00015 * plat.sinDeg(Angle(d)))
  }

  /** Squaring is strictly increasing on the non-negative reals. */
  lemma SquareStrictlyMonotone(x: real, y: real)
    requires 0.0 <= x < y
    ensures x * x < y * y
  {
    assert (y - x) * x >= 0.0;
    assert (y - x) * y > 0.0;
  }

  /** Squaring is increasing on the non-negative reals. */
  lemma SquareMonotone(x: real, y: real)
    requires 0.0 <= x <= y
    ensures x * x <= y * y
  {
    assert (y - x) * x >= 0.0;
    assert (y - x) * y >= 0.0;
  }

  /** With exact roots, `distanceTo` is the square root of the exact squared distance. */
  lemma DistanceIsRootOfEuclidSq(a: LngLat, b: LngLat, plat: Platform)
    requires ExactRoots(plat)
    ensures var r := DistanceTo(a, b, plat); 0.0 <= r && r * r == EuclidSq(a, b)
  {
    assert plat.square(a.lng - b.lng) + plat.square(a.lat - b.lat) == EuclidSq(a, b);
    assert DistanceTo(a, b, plat) == plat.sqrt(EuclidSq(a, b));
  }

  /** With exact roots, closeness is decided by comparing squared distances. */
  lemma CloseToIsEuclidSqBelowMove(a: LngLat, b: LngLat, plat: Platform)
    requires ExactRoots(plat)
    ensures CloseTo(a, b, plat) <==> EuclidSq(a, b) < MOVE_LENGTH * MOVE_LENGTH
  {
    DistanceIsRootOfEuclidSq(a, b, plat);
    var r := DistanceTo(a, b, plat);
    if r < MOVE_LENGTH {
      SquareStrictlyMonotone(r, MOVE_LENGTH);
    } else {
      SquareMonotone(MOVE_LENGTH, r);
    }
  }

  /** A point is at distance 0 from itself. */
  lemma DistanceToSelf(a: LngLat, plat: Platform)
    requires ExactRoots(plat)
    ensures DistanceTo(a, a, plat) == 0.0
  {
    DistanceIsRootOfEuclidSq(a, a, plat);
    var r := DistanceTo(a, a, plat);
    if r > 0.0 {
      SquareStrictlyMonotone(0.0, r);
    }
  }

  /** Distance is symmetric. */
  lemma DistanceSymmetric(a: LngLat, b: LngLat, plat: Platform)
    requires IsSquare(plat.square)
    ensures DistanceTo(a, b, plat) == DistanceTo(b, a, plat)
  {
    assert plat.square(a.lng - b.lng) == plat.square(b.lng - a.lng);
    assert plat.square(a.lat - b.lat) == plat.square(b.lat - a.lat);
  }

  /** Closeness is symmetric. */
  lemma CloseToSymmetric(a: LngLat, b: LngLat, plat: Platform)
    requires IsSquare(plat.square)
    ensures CloseTo(a, b, plat) == CloseTo(b, a, plat)
  {
    DistanceSymmetric(a, b, plat);
  }

  /** The threshold is strict: points exactly one move apart are not close. */
  lemma OneMoveApartIsNotClose(a: LngLat, b: LngLat, plat: Platform)
    requires ExactRoots(plat) && EuclidSq(a, b) == MOVE_LENGTH * MOVE_LENGTH
    ensures !CloseTo(a, b, plat)
  {
    CloseToIsEuclidSqBelowMove(a, b, plat);
  }

  /** Every real heading moves exactly one move length, so never to a point close to where it started. */
  lemma {:induction false} MoveHasMoveLength(p: LngLat, d: CompassDirection, plat: Platform)
    requires UnitHeadings(plat)
    ensures EuclidSq(p, NextPosition(p, Some(d), plat)) == MOVE_LENGTH * MOVE_LENGTH
  {
    var c, s := plat.cosDeg(Angle(d)), plat.sinDeg(Angle(d));
    assert c * c + s * s == 1.0;
    var q := NextPosition(p, Some(d), plat);
    calc {
      EuclidSq(p, q);
      (MOVE_LENGTH * c) * (MOVE_LENGTH * c) + (MOVE_LENGTH * s) * (MOVE_LENGTH * s);
      MOVE_LENGTH * MOVE_LENGTH * (c * c + s * s);
    }
  }

  /** With exact roots, a move is `MOVE_LENGTH` long and does not end close to where it started. */
  lemma MoveDistanceIsMoveLength(p: LngLat, d: CompassDirection, plat: Platform)
    requires UnitHeadings(plat) && ExactRoots(plat)
    ensures DistanceTo(p, NextPosition(p, Some(d), plat), plat) == MOVE_LENGTH
    ensures !CloseTo(p, NextPosition(p, Some(d), plat), plat)
  {
    var q := NextPosition(p, Some(d), plat);
    MoveHasMoveLength(p, d, plat);
    DistanceIsRootOfEuclidSq(p, q, plat);
    var r := DistanceTo(p, q, plat);
    if r < MOVE_LENGTH {
      SquareStrictlyMonotone(r, MOVE_LENGTH);
    } else if r > MOVE_LENGTH {
      SquareStrictlyMonotone(MOVE_LENGTH, r);
    }
  }

  /** A move followed by the opposite move returns to the start. */
  lemma {:induction false} OppositeMoveCancels(p: LngLat, d: CompassDirection, plat: Platform)
    requires UnitHeadings(plat)
    ensures NextPosition(NextPosition(p, Some(d), plat), Some(Opposite(d)), plat) == p
  {
    assert plat.cosDeg(Angle(Opposite(d))) == -plat.cosDeg(Angle(d));
    assert plat.sinDeg(Angle(Opposite(d))) == -plat.sinDeg(Angle(d));
  }

  /** Moving N, E, W, S in turn ends where it started, so close to the start. */
  lemma {:induction false} NorthEastWestSouthReturns(p: LngLat, plat: Platform)
    requires UnitHeadings(plat) && ExactRoots(plat)
    ensures var q := NextPosition(NextPosition(NextPosition(NextPosition(p, Some(N), plat), Some(E), plat), Some(W), plat), Some(S), plat);
            q == p && CloseTo(q, p, plat)
  {
    var a := NextPosition(p, Some(N), plat);
    OppositeMoveCancels(a, E, plat);
    OppositeMoveCancels(p, N, plat);
    DistanceToSelf(p, plat);
  }
}
