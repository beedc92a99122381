/**
 * The drone (Drone.java, DroneMove.java): a greedy scheduler that takes valid orders in
 * order of estimated moves, plans each round trip from where the drone is, and commits an
 * order only when the whole trip fits in the moves left.
 */
module Delivery {
  import opened Wrappers
  import opened Compass
  import opened Positions
  import opened NoFlyZones
  import opened PathSteps
  import opened PathFinding
  import opened Restaurants
  import opened Orders

  /** The battery: moves a drone can make in a day. */
  const MAX_DRONE_MOVES: int := 2000

  /** Where every drone starts and delivers to. */
  const APPLETON_TOWER_COORDINATES: LngLat := LngLat(-3.186874, 55.944494)

  /** A move of the flight log; a hover has no heading. */
  datatype DroneMove = DroneMove(fromLngLat: LngLat, toLngLat: LngLat, stepDirectionAngle: Option<real>,
                                 ticksSinceStartOfCalculation: int, orderNo: string)

  /** The exceptions that can escape the drone's methods. */
  datatype DroneError =
    /** An order method threw. */
    | OrderFailed(error: OrderError)
    /** The order's restaurant is null, so asking for its location throws. */
    | NoRestaurant
    /** `findPath` returned null, so asking for the path's size throws. */
    | NoPath
    /** The search used up its bound on polled nodes (the model's bound; see `FindPath`). */
    | SearchOutOfFuel
    /** `addHoverMove` on an empty list: `get(-1)` throws. */
    | EmptyMoveList

  // ---------------------------------------------------------------------------------------
  // Moves

  /** A hover over `p` for the given order: no heading, and no change of position. */
  predicate IsHoverAt(m: DroneMove, p: LngLat, orderNo: string)
  {
    m.fromLngLat == p && m.toLngLat == p && m.stepDirectionAngle.None? && m.orderNo == orderNo
  }

  /** The moves `createDroneSteps` makes between consecutive points of a path. */
  function StepMoves(pathPoints: seq<PathStep>, orderNo: string): (ms: seq<DroneMove>)
    requires |pathPoints| >= 1
    ensures |ms| == |pathPoints| - 1
  {
    seq(|pathPoints| - 1, i requires 0 <= i < |pathPoints| - 1 =>
      DroneMove(pathPoints[i].toLngLat, pathPoints[i + 1].toLngLat, pathPoints[i + 1].stepDirectionAngle,
                pathPoints[i + 1].ticksSinceStartOfCalculation, orderNo))
  }

  /** The moves of one leg: a move between each pair of consecutive path points, then a hover at the end. */
  ghost predicate IsLeg(ms: seq<DroneMove>, path: seq<PathStep>, orderNo: string)
  {
    && |path| >= 2
    && |ms| == |path|
    && ms[..|path| - 1] == StepMoves(path, orderNo)
    && IsHoverAt(ms[|path| - 1], path[|path| - 1].toLngLat, orderNo)
  }

  /** A move the log may hold: a hover, or a compass move that keeps clear of the no-fly zones. */
  ghost predicate LegalMove(m: DroneMove, zones: seq<NoFlyZone>, plat: Platform)
  {
    || (m.stepDirectionAngle.None? && m.fromLngLat == m.toLngLat)
    || (IsCompassMove(m.fromLngLat, m.toLngLat, m.stepDirectionAngle, plat) &&
        !CrossesNoFlyZone(m.fromLngLat, m.toLngLat, zones, plat))
  }

  /** Every move of a list is legal. */
  ghost predicate AllLegal(ms: seq<DroneMove>, zones: seq<NoFlyZone>, plat: Platform)
  {
    forall i {:trigger LegalMove(ms[i], zones, plat)} :: 0 <= i < |ms| ==> LegalMove(ms[i], zones, plat)
  }

  /** Each move of a leg planned along legal steps is legal and carries the order number. */
  lemma LegMoveLegal(start: LngLat, end: LngLat, path: seq<PathStep>, ms: seq<DroneMove>, orderNo: string,
                     zones: seq<NoFlyZone>, plat: Platform, i: int)
    requires LegalSteps(start, end, path, zones, plat) && IsLeg(ms, path, orderNo) && 0 <= i < |ms|
    ensures LegalMove(ms[i], zones, plat) && ms[i].orderNo == orderNo
    ensures i < |ms| - 1 ==> ms[i].stepDirectionAngle.Some?
  {
    if i < |ms| - 1 {
      assert ms[i] == StepMoves(path, orderNo)[i];
      LegalStepsEach(start, end, path, zones, plat, i + 1);
    }
  }

  /**
   * The moves of a leg follow one another: each starts where the one before it ended, and
   * the first starts at the first step's end, not at the route's start.
   */
  lemma LegIsChained(path: seq<PathStep>, ms: seq<DroneMove>, orderNo: string)
    requires IsLeg(ms, path, orderNo)
    ensures forall i :: 0 <= i < |ms| - 1 ==> ms[i].toLngLat == ms[i + 1].fromLngLat
    ensures ms[0].fromLngLat == path[0].toLngLat
  {
    forall i | 0 <= i < |ms| - 1
      ensures ms[i].toLngLat == ms[i + 1].fromLngLat
    {
      assert ms[i] == StepMoves(path, orderNo)[i];
      if i + 1 < |ms| - 1 {
        assert ms[i + 1] == StepMoves(path, orderNo)[i + 1];
      }
    }
    assert ms[0] == StepMoves(path, orderNo)[0];
  }

  /**
   * The moves of a leg planned along a route: each is legal, every one carries the order
   * number, and the leg ends hovering close to the target.
   */
  lemma LegOfRoute(start: LngLat, end: LngLat, path: seq<PathStep>, ms: seq<DroneMove>, orderNo: string,
                   zones: seq<NoFlyZone>, ca: seq<LngLat>, plat: Platform)
    requires Route(start, end, path, zones, ca, plat) && IsLeg(ms, path, orderNo)
    ensures AllLegal(ms, zones, plat)
    ensures forall i :: 0 <= i < |ms| ==> ms[i].orderNo == orderNo
    ensures CloseTo(ms[|ms| - 1].toLngLat, end, plat)
  {
    forall i | 0 <= i < |ms|
      ensures LegalMove(ms[i], zones, plat) && ms[i].orderNo == orderNo
    {
      LegMoveLegal(start, end, path, ms, orderNo, zones, plat, i);
    }
  }

  /** Both legs of a round trip, joined: legal throughout, hovering close to the end of the second leg. */
  lemma RoundTripLegal(ms: seq<DroneMove>, k: int, zones: seq<NoFlyZone>, plat: Platform)
    requires 0 < k < |ms|
    requires AllLegal(ms[..k], zones, plat) && AllLegal(ms[k..], zones, plat)
    ensures AllLegal(ms, zones, plat)
  {
    forall i | 0 <= i < |ms|
      ensures LegalMove(ms[i], zones, plat)
    {
      if i < k { assert ms[i] == ms[..k][i]; } else { assert ms[i] == ms[k..][i - k]; }
    }
  }

  /**
   * A full order path built from two legs planned along routes (out to the restaurant, back
   * to the start): at least four moves, every one legal, a hover close to the restaurant
   * where the first leg ends, and a hover close to the start at the very end; each leg's
   * first move sets off one compass move from where that leg starts.
   */
  lemma RoundTripFacts(here: LngLat, restaurant: LngLat, home: LngLat, collection: seq<PathStep>,
                       delivery: seq<PathStep>, ms: seq<DroneMove>, orderNo: string,
                       zones: seq<NoFlyZone>, ca: seq<LngLat>, plat: Platform)
    requires Route(here, restaurant, collection, zones, ca, plat)
    requires Route(collection[|collection| - 1].toLngLat, home, delivery, zones, ca, plat)
    requires |ms| == |collection| + |delivery|
    requires IsLeg(ms[..|collection|], collection, orderNo) && IsLeg(ms[|collection|..], delivery, orderNo)
    ensures |ms| >= 4 && AllLegal(ms, zones, plat)
    ensures IsHoverAt(ms[|collection| - 1], collection[|collection| - 1].toLngLat, orderNo)
    ensures CloseTo(ms[|collection| - 1].toLngLat, restaurant, plat)
    ensures IsHoverAt(ms[|ms| - 1], delivery[|delivery| - 1].toLngLat, orderNo)
    ensures CloseTo(ms[|ms| - 1].toLngLat, home, plat)
    ensures forall i :: 0 <= i < |ms| ==> ms[i].orderNo == orderNo
    ensures IsCompassMove(here, ms[0].fromLngLat, collection[0].stepDirectionAngle, plat)
    ensures IsCompassMove(ms[|collection| - 1].toLngLat, ms[|collection|].fromLngLat,
                          delivery[0].stepDirectionAngle, plat)
  {
    var k := |collection|;
    LegOfRoute(here, restaurant, collection, ms[..k], orderNo, zones, ca, plat);
    LegOfRoute(collection[k - 1].toLngLat, home, delivery, ms[k..], orderNo, zones, ca, plat);
    RoundTripLegal(ms, k, zones, plat);
    forall i | 0 <= i < |ms|
      ensures ms[i].orderNo == orderNo
    {
      if i < k { assert ms[i] == ms[..k][i]; } else { assert ms[i] == ms[k..][i - k]; }
    }
    assert ms[k - 1] == ms[..k][k - 1];
    assert ms[|ms| - 1] == ms[k..][|ms| - 1 - k];
    LegalStepsEach(here, restaurant, collection, zones, plat, 0);
    LegIsChained(collection, ms[..k], orderNo);
    assert ms[0] == ms[..k][0];
    LegalStepsEach(collection[k - 1].toLngLat, home, delivery, zones, plat, 0);
    LegIsChained(delivery, ms[k..], orderNo);
    assert ms[k] == ms[k..][0];
  }

  /** In a full order path built from two legs, every move but the two legs' last is a compass move. */
  lemma OnlyLegEndsStop(here: LngLat, restaurant: LngLat, home: LngLat, collection: seq<PathStep>,
                        delivery: seq<PathStep>, ms: seq<DroneMove>, orderNo: string,
                        zones: seq<NoFlyZone>, ca: seq<LngLat>, plat: Platform, j: int)
    requires Route(here, restaurant, collection, zones, ca, plat)
    requires Route(collection[|collection| - 1].toLngLat, home, delivery, zones, ca, plat)
    requires |ms| == |collection| + |delivery|
    requires IsLeg(ms[..|collection|], collection, orderNo) && IsLeg(ms[|collection|..], delivery, orderNo)
    requires 0 <= j < |ms| - 1 && j != |collection| - 1
    ensures ms[j].stepDirectionAngle.Some?
  {
    var k := |collection|;
    if j < k {
      assert ms[j] == ms[..k][j];
      LegMoveLegal(here, restaurant, collection, ms[..k], orderNo, zones, plat, j);
    } else {
      assert ms[j] == ms[k..][j - k];
      LegMoveLegal(collection[k - 1].toLngLat, home, delivery, ms[k..], orderNo, zones, plat, j - k);
    }
  }

  /** The queue without its element at `k`, the others in their order. */
  function RemoveAt(queue: seq<Order>, k: nat): (rest: seq<Order>)
    requires k < |queue|
    ensures |rest| == |queue| - 1
    ensures forall j :: 0 <= j < k ==> rest[j] == queue[j]
    ensures forall j :: k <= j < |rest| ==> rest[j] == queue[j + 1]
  {
    queue[..k] + queue[k + 1..]
  }

  /** Removing an element of a queue without repeats leaves exactly the others, still without repeats. */
  lemma RemoveAtDistinct(queue: seq<Order>, k: nat)
    requires k < |queue| && Distinct(queue)
    ensures Distinct(RemoveAt(queue, k))
    ensures forall o :: o in RemoveAt(queue, k) <==> o in queue && o != queue[k]
  {
    var rest := RemoveAt(queue, k);
    forall o | o in rest
      ensures o in queue && o != queue[k]
    {
      var j :| 0 <= j < |rest| && rest[j] == o;
      if j < k { assert queue[j] == o; } else { assert queue[j + 1] == o; }
    }
    forall o | o in queue && o != queue[k]
      ensures o in rest
    {
      var j :| 0 <= j < |queue| && queue[j] == o;
      if j < k { assert rest[j] == o; } else { assert rest[j - 1] == o; }
    }
  }

  /**
   * `poll` on the order queue: remove and return an order with the fewest estimated moves
   * (the first such); the rest keep their order.
   */
  method PollOrder(queue: seq<Order>) returns (order: Order, rest: seq<Order>)
    requires |queue| > 0 && Distinct(queue)
    ensures order in queue && order !in rest && Distinct(rest) && |rest| == |queue| - 1
    ensures forall o :: o in rest <==> o in queue && o != order
    ensures forall o :: o in rest ==> order.movesToDeliver <= o.movesToDeliver
  {
    var k := 0;
    for i := 1 to |queue|
      invariant k < i
      invariant forall j :: 0 <= j < i ==> queue[k].movesToDeliver <= queue[j].movesToDeliver
    {
      if queue[i].movesToDeliver < queue[k].movesToDeliver {
        k := i;
      }
    }
    order := queue[k];
    rest := RemoveAt(queue, k);
    RemoveAtDistinct(queue, k);
  }

  /** Where a restaurant stands, as `Restaurant.getLngLat` gives it. */
  function RestaurantLngLat(r: Restaurant): LngLat
  {
    LngLat(r.lng, r.lat)
  }

  /** No order appears twice. */
  ghost predicate Distinct(orders: seq<Order>)
  {
    forall i, j :: 0 <= i < j < |orders| ==> orders[i] != orders[j]
  }

  /**
   * What holds of the orders waiting in the queue: each once, each validated and not yet
   * delivered, and each with its supplying restaurant among the participants.
   */
  ghost predicate Queued(queue: seq<Order>, participants: seq<Restaurant>)
    reads set o | o in queue
  {
    && Distinct(queue)
    && forall o :: o in queue ==>
         o.orderOutcome == Some(ValidButNotDelivered) && o.orderRestaurant in participants
  }

  /** An order that is not yet queued, validated and with its supplier known, may join the queue. */
  lemma QueuedAppend(queue: seq<Order>, order: Order, participants: seq<Restaurant>)
    requires Queued(queue, participants) && order !in queue
    requires order.orderOutcome == Some(ValidButNotDelivered) && order.orderRestaurant in participants
    ensures Queued(queue + [order], participants)
  {
    var q := queue + [order];
    forall i, j | 0 <= i < j < |q|
      ensures q[i] != q[j]
    {
      assert q[i] == queue[i];
      if j < |queue| { assert q[j] == queue[j]; }
    }
  }

  /** The orders' move estimates never decrease along `ds`. */
  ghost predicate NonDecreasing(ds: seq<Order>)
    reads (set o | o in ds)`movesToDeliver
    decreases |ds|
  {
    |ds| <= 1 ||
    var k := |ds| - 1;
    NonDecreasing(ds[..k]) && ds[k - 1].movesToDeliver <= ds[k].movesToDeliver
  }

  /** Read pair by pair: each order's estimate is at most the next one's. */
  lemma {:induction false} NonDecreasingPairs(ds: seq<Order>)
    requires NonDecreasing(ds)
    ensures forall i :: 0 < i < |ds| ==> ds[i - 1].movesToDeliver <= ds[i].movesToDeliver
    decreases |ds|
  {
    if |ds| > 1 {
      var k := |ds| - 1;
      NonDecreasingPairs(ds[..k]);
      forall i | 0 < i < k
        ensures ds[i - 1].movesToDeliver <= ds[i].movesToDeliver
      {
        assert ds[..k][i - 1] == ds[i - 1] && ds[..k][i] == ds[i];
      }
    }
  }

  /**
   * Where the delivery loop stands: the waiting orders are queued, not yet delivered, each
   * once; the delivered orders were queued, in non-decreasing estimate, and none waiting has
   * a smaller estimate than the last delivered.
   */
  ghost predicate Schedule(queue: seq<Order>, waiting: seq<Order>, delivered: seq<Order>)
    reads (set o | o in queue)`movesToDeliver
  {
    && Distinct(waiting)
    && (forall o :: o in waiting ==> o in queue && o !in delivered)
    && (forall i :: 0 <= i < |delivered| ==> delivered[i] in queue)
    && NonDecreasing(delivered)
    && (|delivered| > 0 ==> forall q :: q in waiting ==> delivered[|delivered| - 1].movesToDeliver <= q.movesToDeliver)
  }

  /** Delivering a polled order (one with the least estimate among those waiting) keeps the schedule. */
  lemma ScheduleStep(queue: seq<Order>, waiting: seq<Order>, delivered: seq<Order>, order: Order, rest: seq<Order>)
    requires Schedule(queue, waiting, delivered)
    requires order in waiting && Distinct(rest)
    requires forall o :: o in rest <==> o in waiting && o != order
    requires forall o :: o in rest ==> order.movesToDeliver <= o.movesToDeliver
    ensures Schedule(queue, rest, delivered + [order])
  {
    var d := delivered + [order];
    forall i | 0 <= i < |d|
      ensures d[i] in queue
    {
      if i < |delivered| { assert d[i] == delivered[i]; }
    }
    assert d[..|delivered|] == delivered;
  }

  // ---------------------------------------------------------------------------------------
  // The drone

  class Drone {
    /** Where the drone starts, and where every order is delivered. */
    const startPos: LngLat
    var currentPos: LngLat
    var movesRemaining: int
    /** The flight log of the day. */
    var allDroneMoves: seq<DroneMove>
    /** The clock reading at construction; move times are taken relative to it. */
    const startTime: int
    /** What the source fetches from the server: the no-fly zones, the central area and the restaurants. */
    const zones: seq<NoFlyZone>
    const centralArea: seq<LngLat>
    const participants: seq<Restaurant>
    /** The library numerics, and the model's bound on each search. */
    const plat: Platform
    const fuel: nat

    /** Conservation of moves, and a log made only of legal moves. */
    ghost predicate Valid()
      reads this
    {
      && 0 <= movesRemaining
      && movesRemaining + |allDroneMoves| == MAX_DRONE_MOVES
      && AllLegal(allDroneMoves, zones, plat)
    }

    /** The fetched data the searches and the validation rely on: zone rows readable, caches consistent. */
    ghost predicate WorldValid()
      reads this, zones, (set z | z in zones :: z.coordinatesLngLat), set r | r in participants
    {
      && ZonesWellFormed(zones)
      && (forall k :: 0 <= k < |zones| ==> zones[k].Valid())
      && (forall k :: 0 <= k < |participants| ==> participants[k].Valid())
    }

    /** Move `m` leaves by one compass move from `p`. */
    ghost predicate LeavesFrom(m: DroneMove, p: LngLat)
    {
      exists a :: IsCompassMove(p, m.fromLngLat, a, plat)
    }

    /** Move `j` of `ms` is a stop: a hover, with no heading. */
    ghost predicate IsStop(ms: seq<DroneMove>, j: int)
    {
      0 <= j < |ms| && ms[j].stepDirectionAngle.None?
    }

    /** Move `i` of `ms` sets off from a standstill: it is the first move, or it follows a stop. */
    ghost predicate Departs(ms: seq<DroneMove>, i: int)
    {
      0 <= i < |ms| && (i == 0 || ms[i - 1].stepDirectionAngle.None?)
    }

    /**
     * What `getFullOrderPath` gives for an order when the drone stands at `from` and the
     * order's restaurant at `restaurant`: at least four moves, every one legal and made for the
     * order; a stop part-way through, and a stop at the end; every stop part-way is close to
     * the restaurant, and the stop at the end close to the start position; every move setting
     * off from a standstill leaves it by one compass move, the first move leaving `from`.
     */
    ghost predicate RoundTrip(ms: seq<DroneMove>, orderNo: string, from: LngLat, restaurant: LngLat)
    {
      && |ms| >= 4
      && AllLegal(ms, zones, plat)
      && (forall i :: 0 <= i < |ms| ==> ms[i].orderNo == orderNo)
      && (exists j :: 1 <= j < |ms| - 2 && ms[j].stepDirectionAngle.None?)
      && ms[|ms| - 1].stepDirectionAngle.None?
      && (forall j {:trigger IsStop(ms, j)} :: IsStop(ms, j) ==>
            CloseTo(ms[j].toLngLat, if j == |ms| - 1 then startPos else restaurant, plat))
      && forall i {:trigger Departs(ms, i)} :: Departs(ms, i) ==>
           LeavesFrom(ms[i], if i == 0 then from else ms[i - 1].toLngLat)
    }

    /**
     * The two legs `getFullOrderPath` joins, a leg along a route from `from` to the restaurant
     * and a leg along a route from where it ends back to the start, make a round trip.
     */
    lemma RoundTripOfRoutes(ms: seq<DroneMove>, orderNo: string, from: LngLat, restaurant: LngLat,
                            collection: seq<PathStep>, delivery: seq<PathStep>)
      requires Route(from, restaurant, collection, zones, centralArea, plat)
      requires Route(collection[|collection| - 1].toLngLat, startPos, delivery, zones, centralArea, plat)
      requires |ms| == |collection| + |delivery|
      requires IsLeg(ms[..|collection|], collection, orderNo) && IsLeg(ms[|collection|..], delivery, orderNo)
      ensures RoundTrip(ms, orderNo, from, restaurant)
    {
      RoundTripFacts(from, restaurant, startPos, collection, delivery, ms, orderNo, zones, centralArea, plat);
      var k := |collection|;
      forall j | IsStop(ms, j)
        ensures CloseTo(ms[j].toLngLat, if j == |ms| - 1 then startPos else restaurant, plat)
      {
        if j != k - 1 && j != |ms| - 1 {
          OnlyLegEndsStop(from, restaurant, startPos, collection, delivery, ms, orderNo, zones, centralArea, plat, j);
          assert false;
        }
      }
      forall i | Departs(ms, i)
        ensures LeavesFrom(ms[i], if i == 0 then from else ms[i - 1].toLngLat)
      {
        if i != 0 && i != k {
          OnlyLegEndsStop(from, restaurant, startPos, collection, delivery, ms, orderNo, zones, centralArea, plat, i - 1);
          assert false;
        }
      }
      assert ms[k - 1].stepDirectionAngle.None?;
    }

    /** `o` carries the outcome validation decides for it. */
    ghost predicate Judged(o: Order)
      reads o`orderOutcome
    {
      Verdict(o, participants).Ok? && o.orderOutcome == Some(Verdict(o, participants).value)
    }

    /** Every order of `judged` carries the outcome validation decides for it. */
    ghost predicate AllJudged(judged: seq<Order>)
      reads (set o | o in judged)`orderOutcome
    {
      forall o :: o in judged ==> Judged(o)
    }

    /**
     * Where `deliverOrders` stopped: at `o`, a queued order not delivered, with the fewest
     * estimated moves of all the queued orders not delivered, whose trip `trip`, re-planned
     * from where the drone stands, is longer than the moves left.
     */
    ghost predicate StopsAt(queue: seq<Order>, delivered: seq<Order>, o: Order, trip: seq<DroneMove>)
      reads this`movesRemaining, this`currentPos
      reads (set q | q in queue)`movesToDeliver, (set q | q in queue)`orderRestaurant
    {
      && o in queue && o !in delivered && o.orderRestaurant in participants
      && RoundTrip(trip, o.orderNo, currentPos, RestaurantLngLat(o.orderRestaurant)) && |trip| > movesRemaining
      && forall q :: q in queue && q !in delivered ==> o.movesToDeliver <= q.movesToDeliver
    }

    /** `Drone()`: at Appleton Tower, with a full battery and an empty log. */
    constructor (startTime: int, zones: seq<NoFlyZone>, centralArea: seq<LngLat>, participants: seq<Restaurant>,
                 plat: Platform, fuel: nat)
      ensures startPos == APPLETON_TOWER_COORDINATES && currentPos == startPos
      ensures movesRemaining == MAX_DRONE_MOVES && allDroneMoves == []
      ensures this.startTime == startTime && this.zones == zones && this.centralArea == centralArea
      ensures this.participants == participants && this.plat == plat && this.fuel == fuel
      ensures Valid()
    {
      startPos := APPLETON_TOWER_COORDINATES;
      currentPos := APPLETON_TOWER_COORDINATES;
      movesRemaining := MAX_DRONE_MOVES;
      allDroneMoves := [];
      this.startTime := startTime;
      this.zones := zones;
      this.centralArea := centralArea;
      this.participants := participants;
      this.plat := plat;
      this.fuel := fuel;
    }

    /** `addHoverMove`: append a hover at the end of the last move, for the same order. */
    method AddHoverMove(droneMoves: seq<DroneMove>) returns (r: Result<seq<DroneMove>, DroneError>)
      ensures r.Ok? <==> |droneMoves| > 0
      ensures r.Err? ==> r.error == EmptyMoveList
      ensures r.Ok? ==> |r.value| == |droneMoves| + 1 && r.value[..|droneMoves|] == droneMoves
      ensures r.Ok? ==> var last := droneMoves[|droneMoves| - 1];
        IsHoverAt(r.value[|droneMoves|], last.toLngLat, last.orderNo)
    {
      if |droneMoves| == 0 {
        return Err(EmptyMoveList);
      }
      var lastMove := droneMoves[|droneMoves| - 1];
      var hoverPoint := lastMove.toLngLat;
      var now: int := *;
      var hoverMove := DroneMove(hoverPoint, hoverPoint, None, now - startTime, lastMove.orderNo);
      r := Ok(droneMoves + [hoverMove]);
      assert r.value[..|droneMoves|] == droneMoves;
    }

    /** `createDroneSteps`: a move between each pair of consecutive path points, then a hover. */
    method CreateDroneSteps(pathPoints: seq<PathStep>, order: Order) returns (r: Result<seq<DroneMove>, DroneError>)
      ensures r.Ok? <==> |pathPoints| >= 2
      ensures r.Err? ==> r.error == EmptyMoveList
      ensures r.Ok? ==> IsLeg(r.value, pathPoints, order.orderNo)
    {
      var droneMoves: seq<DroneMove> := [];
      var i := 0;
      while i < |pathPoints| - 1
        invariant 0 <= i && (|pathPoints| >= 1 ==> i <= |pathPoints| - 1) && (|pathPoints| == 0 ==> i == 0)
        invariant |pathPoints| >= 1 ==> droneMoves == StepMoves(pathPoints, order.orderNo)[..i]
        invariant |pathPoints| == 0 ==> droneMoves == []
      {
        var fromNode := pathPoints[i];
        var toNode := pathPoints[i + 1];
        var droneMove := DroneMove(fromNode.toLngLat, toNode.toLngLat, toNode.stepDirectionAngle,
                                   toNode.ticksSinceStartOfCalculation, order.orderNo);
        droneMoves := droneMoves + [droneMove];
        i := i + 1;
      }
      if |pathPoints| >= 1 {
        assert droneMoves == StepMoves(pathPoints, order.orderNo);
      }
      r := AddHoverMove(droneMoves);
    }

    /**
     * The two steps `getFullOrderPath` takes for each leg: plan a path with `findPath`, then
     * turn it into moves with `createDroneSteps`. A null path throws as soon as it is used.
     */
    method PlanLeg(from: LngLat, to: LngLat, order: Order)
      returns (r: Result<seq<DroneMove>, DroneError>, points: seq<PathStep>)
      requires ZonesWellFormed(zones) && forall k :: 0 <= k < |zones| ==> zones[k].Valid()
      modifies zones
      ensures forall k :: 0 <= k < |zones| ==> zones[k].Valid()
      ensures r.Ok? ==> Route(from, to, points, zones, centralArea, plat) && IsLeg(r.value, points, order.orderNo)
    {
      var found := FindPath(from, to, startTime, zones, centralArea, plat, fuel);
      if !found.Found? {
        return Err(if found.NotFound? then NoPath else SearchOutOfFuel), [];
      }
      points := found.path;
      r := CreateDroneSteps(points, order);
    }

    /**
     * `getFullOrderPath`: a leg from the drone's position to the order's restaurant, then a leg
     * from where the first ended back to the start position.
     */
    method GetFullOrderPath(order: Order)
      returns (r: Result<seq<DroneMove>, DroneError>, ghost collection: seq<PathStep>, ghost delivery: seq<PathStep>)
      requires WorldValid()
      requires order.orderRestaurant == null || order.orderRestaurant in participants
      modifies zones, set r | r in participants
      ensures WorldValid()
      ensures r.Ok? ==>
        && order.orderRestaurant != null
        && Route(currentPos, LngLat(order.orderRestaurant.lng, order.orderRestaurant.lat), collection,
                 zones, centralArea, plat)
        && Route(collection[|collection| - 1].toLngLat, startPos, delivery, zones, centralArea, plat)
        && |r.value| == |collection| + |delivery|
        && IsLeg(r.value[..|collection|], collection, order.orderNo)
        && IsLeg(r.value[|collection|..], delivery, order.orderNo)
    {
      collection, delivery := [], [];
      var restaurant := order.GetRestaurant();
      if restaurant.Err? {
        return Err(OrderFailed(restaurant.error)), collection, delivery;
      }
      if restaurant.value == null {
        return Err(NoRestaurant), collection, delivery;
      }
      var restLocation := restaurant.value.GetLngLat();
      var collectionMoves, pointsToRestaurant := PlanLeg(currentPos, restLocation, order);
      if collectionMoves.Err? {
        return Err(collectionMoves.error), collection, delivery;
      }
      var collectionPoint := pointsToRestaurant[|pointsToRestaurant| - 1].toLngLat;
      var deliveryMoves, pointsToStart := PlanLeg(collectionPoint, startPos, order);
      if deliveryMoves.Err? {
        return Err(deliveryMoves.error), collection, delivery;
      }
      collection, delivery := pointsToRestaurant, pointsToStart;
      var fullOrderPath := collectionMoves.value + deliveryMoves.value;
      assert fullOrderPath[..|collection|] == collectionMoves.value;
      assert fullOrderPath[|collection|..] == deliveryMoves.value;
      return Ok(fullOrderPath), collection, delivery;
    }

    /**
     * One pass of `getOrderQueue`'s loop: validate the order and, when it is valid, plan its
     * full path from where the drone is and record the path's length as its estimate.
     */
    method EstimateOrder(order: Order) returns (r: Result<bool, DroneError>, ghost trip: seq<DroneMove>)
      requires WorldValid()
      modifies zones, (set r | r in participants), order`orderRestaurant, order`orderOutcome, order`movesToDeliver
      ensures WorldValid()
      ensures r.Ok? ==>
        && Verdict(order, participants).Ok?
        && order.orderOutcome == Some(Verdict(order, participants).value)
        && (r.value <==> Verdict(order, participants) == Ok(ValidButNotDelivered))
        && (r.value ==> order.orderRestaurant in participants)
      ensures r == Ok(true) ==>
        && RoundTrip(trip, order.orderNo, currentPos, RestaurantLngLat(order.orderRestaurant))
        && order.movesToDeliver == |trip|
      ensures r != Ok(true) ==> order.movesToDeliver == old(order.movesToDeliver)
    {
      trip := [];
      var valid := order.IsOrderValid(participants);
      if valid.Err? {
        r := Err(OrderFailed(valid.error));
      } else if !valid.value {
        r := Ok(false);
      } else {
        ValidIffEveryCheckPasses(order, participants);
        var fullDeliveryPath := PlanOrderTrip(order);
        if fullDeliveryPath.Err? {
          r := Err(fullDeliveryPath.error);
        } else {
          order.SetMovesToDeliver(|fullDeliveryPath.value|);
          r, trip := Ok(true), fullDeliveryPath.value;
        }
      }
    }

    /**
     * `getFullOrderPath` as its callers use it: a round trip from where the drone stands, via
     * the order's restaurant, back to the start position.
     */
    method PlanOrderTrip(order: Order) returns (r: Result<seq<DroneMove>, DroneError>)
      requires WorldValid()
      requires order.orderRestaurant == null || order.orderRestaurant in participants
      modifies zones, set r | r in participants
      ensures WorldValid()
      ensures r.Ok? ==>
        && order.orderRestaurant != null
        && RoundTrip(r.value, order.orderNo, currentPos, RestaurantLngLat(order.orderRestaurant))
    {
      ghost var collection, delivery;
      r, collection, delivery := GetFullOrderPath(order);
      if r.Ok? {
        RoundTripOfRoutes(r.value, order.orderNo, currentPos, RestaurantLngLat(order.orderRestaurant),
                          collection, delivery);
      }
    }

    /**
     * Every order of `queue` has in `trips` a round trip from `from` via its own restaurant,
     * which is one of the participants, and is estimated at that trip's length.
     */
    ghost predicate TripsPlanned(queue: seq<Order>, trips: map<Order, seq<DroneMove>>, from: LngLat)
      reads (set o | o in queue)`orderRestaurant, (set o | o in queue)`movesToDeliver
    {
      forall o :: o in queue ==>
        && o in trips && o.orderRestaurant in participants && o.movesToDeliver == |trips[o]|
        && RoundTrip(trips[o], o.orderNo, from, RestaurantLngLat(o.orderRestaurant))
    }

    /** Queueing `o` with a round trip planned for it, estimated at the trip's length, keeps `TripsPlanned`. */
    lemma TripsPlannedStep(queue: seq<Order>, trips: map<Order, seq<DroneMove>>, from: LngLat,
                           o: Order, trip: seq<DroneMove>)
      requires TripsPlanned(queue, trips, from)
      requires o.orderRestaurant in participants && o.movesToDeliver == |trip|
      requires RoundTrip(trip, o.orderNo, from, RestaurantLngLat(o.orderRestaurant))
      ensures TripsPlanned(queue + [o], trips[o := trip], from)
    {
    }

    /**
     * The queue built from the orders judged so far: exactly those whose verdict is
     * `VALID_BUT_NOT_DELIVERED`, each with a recorded trip.
     */
    ghost predicate QueueSoFar(judged: seq<Order>, queue: seq<Order>, trips: map<Order, seq<DroneMove>>)
    {
      && (forall o :: o in queue ==> o in judged && o in trips)
      && (forall o :: o in judged ==> (o in queue <==> Verdict(o, participants) == Ok(ValidButNotDelivered)))
    }

    /** The next order of `orders` to judge is not queued yet. */
    lemma NotYetQueued(orders: seq<Order>, i: nat, queue: seq<Order>, trips: map<Order, seq<DroneMove>>)
      requires Distinct(orders) && i < |orders| && QueueSoFar(orders[..i], queue, trips)
      ensures orders[i] !in queue
    {
      assert orders[i] !in orders[..i];
    }

    /** Judging the next order of `orders` keeps `QueueSoFar`, whether or not it joins the queue. */
    lemma QueueSoFarStep(orders: seq<Order>, i: nat, queue: seq<Order>, trips: map<Order, seq<DroneMove>>,
                         joins: bool, trip: seq<DroneMove>)
      requires Distinct(orders) && i < |orders| && QueueSoFar(orders[..i], queue, trips)
      requires joins <==> Verdict(orders[i], participants) == Ok(ValidButNotDelivered)
      ensures QueueSoFar(orders[..i + 1], if joins then queue + [orders[i]] else queue,
                         if joins then trips[orders[i] := trip] else trips)
    {
      var judged, order := orders[..i], orders[i];
      assert orders[..i + 1] == judged + [order];
      assert order !in judged;
    }

    /** Judging the next order of `orders` extends `AllJudged` by one. */
    lemma AllJudgedStep(orders: seq<Order>, i: nat)
      requires i < |orders| && AllJudged(orders[..i]) && Judged(orders[i])
      ensures AllJudged(orders[..i + 1])
    {
      assert orders[..i + 1] == orders[..i] + [orders[i]];
    }

    /**
     * What `getOrderQueue` keeps after judging the first `i` orders: their outcomes set, the
     * queue and its trips as `QueueSoFar` says, every queued order's trip a round trip from
     * where the drone stands via its restaurant, every queued order estimated at its trip's
     * length, and every other order keeping the estimate it had (`moves0`).
     */
    ghost predicate Judging(orders: seq<Order>, i: nat, queue: seq<Order>, trips: map<Order, seq<DroneMove>>,
                            moves0: map<Order, int>)
      requires i <= |orders|
      reads this, zones, (set z | z in zones :: z.coordinatesLngLat), set r | r in participants
      reads set o | o in orders
    {
      && WorldValid()
      && QueueSoFar(orders[..i], queue, trips)
      && Queued(queue, participants)
      && AllJudged(orders[..i])
      && TripsPlanned(queue, trips, currentPos)
      && forall o :: o in orders ==> o in moves0 && (o !in queue ==> o.movesToDeliver == moves0[o])
    }

    /** One pass of `getOrderQueue`'s loop: judge and estimate `orders[i]`, queueing it when valid. */
    method JudgeNext(orders: seq<Order>, i: nat, queue: seq<Order>, ghost trips: map<Order, seq<DroneMove>>,
                     ghost moves0: map<Order, int>)
      returns (r: Result<seq<Order>, DroneError>, ghost trips': map<Order, seq<DroneMove>>)
      requires Distinct(orders) && i < |orders| && Judging(orders, i, queue, trips, moves0)
      modifies zones, set r | r in participants, {orders[i]}`orderRestaurant, {orders[i]}`orderOutcome
      modifies {orders[i]}`movesToDeliver
      ensures r.Ok? ==> Judging(orders, i + 1, r.value, trips', moves0)
      ensures r.Err? ==> WorldValid()
    {
      var order := orders[i];
      NotYetQueued(orders, i, queue, trips);
      ghost var trip;
      var valid;
      valid, trip := EstimateOrder(order);
      if valid.Err? {
        return Err(valid.error), trips;
      }
      assert Queued(queue, participants) && TripsPlanned(queue, trips, currentPos);
      QueueSoFarStep(orders, i, queue, trips, valid.value, trip);
      AllJudgedStep(orders, i);
      r, trips' := Ok(queue), trips;
      if valid.value {
        QueuedAppend(queue, order, participants);
        TripsPlannedStep(queue, trips, currentPos, order, trip);
        r, trips' := Ok(queue + [order]), trips[order := trip];
      }
      forall o | o in orders
        ensures o !in r.value ==> o.movesToDeliver == moves0[o]
      {
        if o != order {
          assert o in r.value <==> o in queue;
        }
      }
    }

    /**
     * `getOrderQueue`: validate every order in turn; each valid one gets its full path planned
     * and the path's length as its estimate, and joins the queue.
     */
    method GetOrderQueue(orders: seq<Order>)
      returns (r: Result<seq<Order>, DroneError>, ghost trips: map<Order, seq<DroneMove>>)
      requires WorldValid() && Distinct(orders)
      modifies zones, set r | r in participants, set o | o in orders
      ensures WorldValid()
      ensures r.Ok? ==> Queued(r.value, participants)
      ensures r.Ok? ==> forall o :: o in r.value ==> o in orders
      ensures r.Ok? ==> forall o :: o in orders ==>
        && Verdict(o, participants).Ok?
        && o.orderOutcome == Some(Verdict(o, participants).value)
        && (o in r.value <==> Verdict(o, participants) == Ok(ValidButNotDelivered))
      ensures r.Ok? ==> TripsPlanned(r.value, trips, currentPos)
      ensures r.Ok? ==> forall o :: o in orders && o !in r.value ==> o.movesToDeliver == old(o.movesToDeliver)
    {
      var queue: seq<Order> := [];
      trips := map[];
      ghost var moves0 := map o | o in orders :: o.movesToDeliver;
      for i := 0 to |orders|
        invariant Judging(orders, i, queue, trips, moves0)
      {
        var next;
        next, trips := JudgeNext(orders, i, queue, trips, moves0);
        if next.Err? {
          return Err(next.error), trips;
        }
        queue := next.value;
      }
      assert orders[..|orders|] == orders;
      return Ok(queue), trips;
    }

    /**
     * One pass of `deliverOrders`'s loop after the poll: plan the order's full path from where
     * the drone is, and deliver it when the path fits in the moves left (`Ok(true)`); otherwise
     * nothing about the drone or the order changes.
     */
    method DeliverIfItFits(order: Order) returns (r: Result<bool, DroneError>, ghost trip: seq<DroneMove>)
      requires Valid() && WorldValid()
      requires order.orderRestaurant in participants && order.orderOutcome == Some(ValidButNotDelivered)
      modifies this, zones, (set r | r in participants), order`orderOutcome
      ensures Valid() && WorldValid()
      ensures old(allDroneMoves) <= allDroneMoves
      ensures r.Ok? ==> && RoundTrip(trip, order.orderNo, old(currentPos), RestaurantLngLat(order.orderRestaurant))
                        && (r.value <==> |trip| <= old(movesRemaining))
      ensures r == Ok(true) ==>
        && order.orderOutcome == Some(Delivered)
        && allDroneMoves == old(allDroneMoves) + trip
        && movesRemaining == old(movesRemaining) - |trip|
        && currentPos == trip[|trip| - 1].toLngLat
        && CloseTo(currentPos, startPos, plat)
      ensures r != Ok(true) ==>
        && order.orderOutcome == old(order.orderOutcome)
        && allDroneMoves == old(allDroneMoves) && movesRemaining == old(movesRemaining)
        && currentPos == old(currentPos)
    {
      var fullOrderPath := PlanOrderTrip(order);
      if fullOrderPath.Err? {
        return Err(fullOrderPath.error), [];
      }
      trip := fullOrderPath.value;
      if |fullOrderPath.value| > movesRemaining {
        return Ok(false), trip;
      }
      assert IsStop(trip, |trip| - 1);
      DeliverOrder(order, fullOrderPath.value);
      return Ok(true), trip;
    }

    /**
     * One turn of `deliverOrders`'s loop: poll the waiting order with the fewest estimated
     * moves and deliver it if its path fits (`Ok(true)`, and it moves from `waiting` to
     * `delivered`); otherwise the queue and every order stay as they were.
     */
    method DeliverNext(ghost queue: seq<Order>, waiting: seq<Order>, ghost delivered: seq<Order>)
      returns (r: Result<bool, DroneError>, waiting': seq<Order>, ghost delivered': seq<Order>,
               order: Order, ghost trip: seq<DroneMove>)
      requires Valid() && WorldValid() && |waiting| > 0
      requires Schedule(queue, waiting, delivered)
      requires forall o :: o in queue ==> o.orderRestaurant in participants
      requires forall o :: o in queue ==> o.orderOutcome == Some(if o in delivered then Delivered else ValidButNotDelivered)
      modifies this, zones, (set r | r in participants), (set o | o in waiting)`orderOutcome
      ensures Valid() && WorldValid()
      ensures old(allDroneMoves) <= allDroneMoves
      ensures currentPos == old(currentPos) || CloseTo(currentPos, startPos, plat)
      ensures Schedule(queue, waiting', delivered')
      ensures forall o :: o in queue ==> o.orderOutcome == Some(if o in delivered' then Delivered else ValidButNotDelivered)
      ensures forall o :: o in waiting ==> o in waiting' || o in delivered'
      ensures order in waiting && forall o :: o in waiting ==> order.movesToDeliver <= o.movesToDeliver
      ensures r.Ok? ==> && RoundTrip(trip, order.orderNo, old(currentPos), RestaurantLngLat(order.orderRestaurant))
                        && (r.value <==> |trip| <= old(movesRemaining))
      ensures r == Ok(true) ==> |waiting'| == |waiting| - 1
      ensures r != Ok(true) ==>
        waiting' == waiting && delivered' == delivered && movesRemaining == old(movesRemaining) && currentPos == old(currentPos)
    {
      var rest;
      order, rest := PollOrder(waiting);
      r, trip := DeliverIfItFits(order);
      assert Schedule(queue, waiting, delivered);
      if r == Ok(true) {
        ScheduleStep(queue, waiting, delivered, order, rest);
        waiting', delivered' := rest, delivered + [order];
      } else {
        waiting', delivered' := waiting, delivered;
      }
    }

    /**
     * The loop of `deliverOrders`: take the queued orders fewest-moves first, re-plan each from
     * where the drone now is, and deliver it if the whole path fits in the moves left; stop at
     * the first order that does not fit. `delivered` lists the delivered orders in delivery order.
     */
    method DeliverQueue(queue: seq<Order>)
      returns (r: Result<(), DroneError>, ghost delivered: seq<Order>, ghost stop: Option<(Order, seq<DroneMove>)>)
      requires Valid() && WorldValid() && Queued(queue, participants)
      modifies this, zones, (set r | r in participants), (set o | o in queue)`orderOutcome
      ensures Valid() && WorldValid()
      ensures old(allDroneMoves) <= allDroneMoves
      ensures currentPos == old(currentPos) || CloseTo(currentPos, startPos, plat)
      ensures forall o :: o in delivered ==> o in queue
      ensures forall o :: o in queue ==> o.orderOutcome == Some(if o in delivered then Delivered else ValidButNotDelivered)
      ensures forall i :: 0 < i < |delivered| ==> delivered[i - 1].movesToDeliver <= delivered[i].movesToDeliver
      ensures r.Ok? && stop.None? ==> forall o :: o in queue ==> o in delivered
      ensures r.Ok? && stop.Some? ==> StopsAt(queue, delivered, stop.value.0, stop.value.1)
    {
      r, delivered, stop := Ok(()), [], None;
      var waiting := queue;
      var going := true;
      while going && |waiting| > 0
        invariant Valid() && WorldValid()
        invariant old(allDroneMoves) <= allDroneMoves
        invariant currentPos == old(currentPos) || CloseTo(currentPos, startPos, plat)
        invariant Schedule(queue, waiting, delivered)
        invariant forall o :: o in queue ==> o.orderOutcome == Some(if o in delivered then Delivered else ValidButNotDelivered)
        invariant forall o :: o in queue ==> o in waiting || o in delivered
        invariant going ==> r.Ok? && stop.None?
        invariant !going && r.Ok? ==> stop.Some? && StopsAt(queue, delivered, stop.value.0, stop.value.1)
        decreases |waiting| + if going then 1 else 0
      {
        var outcome;
        var order;
        ghost var trip;
        outcome, waiting, delivered, order, trip := DeliverNext(queue, waiting, delivered);
        if outcome.Err? {
          r, going := Err(outcome.error), false;
        } else if !outcome.value {
          going, stop := false, Some((order, trip));
        }
      }
      NonDecreasingPairs(delivered);
    }

    /**
     * `deliverOrders`: build the queue of valid orders, then deliver from it while the moves
     * last. Every delivered order was valid; every other order keeps the outcome validation gave it.
     */
    method DeliverOrders(orders: seq<Order>)
      returns (r: Result<(), DroneError>, ghost queue: seq<Order>, ghost trips: map<Order, seq<DroneMove>>,
               ghost delivered: seq<Order>, ghost stop: Option<(Order, seq<DroneMove>)>)
      requires Valid() && WorldValid() && Distinct(orders)
      modifies this, zones, set r | r in participants, set o | o in orders
      ensures Valid() && WorldValid()
      ensures old(allDroneMoves) <= allDroneMoves
      ensures currentPos == old(currentPos) || CloseTo(currentPos, startPos, plat)
      ensures forall o :: o in delivered ==>
        o in orders && o.orderOutcome == Some(Delivered) && Verdict(o, participants) == Ok(ValidButNotDelivered)
      ensures forall i :: 0 < i < |delivered| ==> delivered[i - 1].movesToDeliver <= delivered[i].movesToDeliver
      ensures r.Ok? ==> forall o :: o in orders && o !in delivered ==>
        Verdict(o, participants).Ok? && o.orderOutcome == Some(Verdict(o, participants).value)
      ensures r.Ok? ==> forall o :: o in queue <==> o in orders && Verdict(o, participants) == Ok(ValidButNotDelivered)
      ensures r.Ok? ==> TripsPlanned(queue, trips, old(currentPos))
      ensures r.Ok? && stop.None? ==> forall o :: o in queue ==> o in delivered
      ensures r.Ok? && stop.Some? ==> StopsAt(queue, delivered, stop.value.0, stop.value.1)
    {
      var queued;
      queued, trips := GetOrderQueue(orders);
      if queued.Err? {
        return Err(queued.error), [], trips, [], None;
      }
      queue := queued.value;
      r, delivered, stop := DeliverQueue(queued.value);
      forall o | o in orders && o !in delivered
        ensures Verdict(o, participants).Ok? && o.orderOutcome == Some(Verdict(o, participants).value)
      {
        if o in queue {
          assert o.orderOutcome == Some(ValidButNotDelivered);
        }
      }
    }

    /**
     * `deliverOrder`: fly the path move by move, logging each move, moving the drone and
     * spending one move of battery each time; then mark the order delivered.
     */
    method DeliverOrder(order: Order, fullOrderPath: seq<DroneMove>)
      requires Valid() && |fullOrderPath| <= movesRemaining && AllLegal(fullOrderPath, zones, plat)
      modifies this, order`orderOutcome
      ensures Valid()
      ensures allDroneMoves == old(allDroneMoves) + fullOrderPath
      ensures movesRemaining == old(movesRemaining) - |fullOrderPath|
      ensures currentPos == if |fullOrderPath| == 0 then old(currentPos) else fullOrderPath[|fullOrderPath| - 1].toLngLat
      ensures order.orderOutcome == Some(Delivered)
    {
      for i := 0 to |fullOrderPath|
        invariant allDroneMoves == old(allDroneMoves) + fullOrderPath[..i]
        invariant movesRemaining == old(movesRemaining) - i
        invariant currentPos == if i == 0 then old(currentPos) else fullOrderPath[i - 1].toLngLat
        invariant Valid()
      {
        assert fullOrderPath[..i + 1] == fullOrderPath[..i] + [fullOrderPath[i]];
        allDroneMoves := allDroneMoves + [fullOrderPath[i]];
        currentPos := fullOrderPath[i].toLngLat;
        movesRemaining := movesRemaining - 1;
      }
      assert fullOrderPath[..|fullOrderPath|] == fullOrderPath;
      order.SetOrderOutcome(Delivered);
    }
  }
}
