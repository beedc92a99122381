/**
 * Weighted A* search for a one-way path (PathFinder.java): moves of one step in the
 * sixteen compass headings, never across a no-fly-zone edge, across the central-area
 * boundary at most once, stopping at the first generated step close to the target.
 */
module PathFinding {
  import opened Wrappers
  import opened Compass
  import opened Positions
  import opened NoFlyZones
  import opened PathSteps

  /** What `findPath` returns: the path, `null` when the open list runs dry, or (model only) out of fuel. */
  datatype SearchResult = Found(path: seq<PathStep>) | NotFound | OutOfFuel

  // ---------------------------------------------------------------------------------------
  // Zone geometry

  /** Edge `i` of a vertex list, the line from vertex i to vertex i+1, meets the segment. */
  ghost predicate EdgeHit(vs: seq<LngLat>, i: int, from: LngLat, to: LngLat, plat: Platform)
    requires 0 <= i < |vs| - 1
  {
    plat.intersectsLine(vs[i], vs[i + 1], from, to)
  }

  /** Some edge (vs[i], vs[i+1]) meets the segment; no closing edge from the last vertex back to the first. */
  ghost predicate CrossesPolyline(from: LngLat, to: LngLat, vs: seq<LngLat>, plat: Platform)
  {
    exists i :: 0 <= i < |vs| - 1 && EdgeHit(vs, i, from, to, plat)
  }

  /** Every zone's coordinate rows can be converted. */
  ghost predicate ZonesWellFormed(zones: seq<NoFlyZone>)
  {
    forall k :: 0 <= k < |zones| ==> RowsWellFormed(zones[k].coordinates)
  }

  /** The segment meets an edge of some (well-formed) no-fly zone. */
  ghost predicate CrossesNoFlyZone(from: LngLat, to: LngLat, zones: seq<NoFlyZone>, plat: Platform)
  {
    exists k :: 0 <= k < |zones| && RowsWellFormed(zones[k].coordinates) &&
      CrossesPolyline(from, to, ToLngLats(zones[k].coordinates), plat)
  }

  // ---------------------------------------------------------------------------------------
  // What a returned path satisfies

  /** Where step `i` of a path starts: the path's start point, or the end of step i-1. */
  function From(start: LngLat, path: seq<PathStep>, i: int): LngLat
    requires 0 <= i < |path|
  {
    if i == 0 then start else path[i - 1].toLngLat
  }

  /** `to` is one move from `from` along the heading whose angle is recorded. */
  ghost predicate IsCompassMove(from: LngLat, to: LngLat, angle: Option<real>, plat: Platform)
  {
    angle.Some? && WithAngle(angle.value).Some? && to == NextPosition(from, WithAngle(angle.value), plat)
  }

  /** Step `i` crosses the central-area boundary. */
  ghost predicate CrossesBoundaryAt(start: LngLat, path: seq<PathStep>, i: int, ca: seq<LngLat>, plat: Platform)
    requires 0 <= i < |path|
  {
    CrossesPolyline(From(start, path, i), path[i].toLngLat, ca, plat)
  }

  /** No step crosses the central-area boundary. */
  ghost predicate NoCrossing(start: LngLat, path: seq<PathStep>, ca: seq<LngLat>, plat: Platform)
  {
    forall i :: 0 <= i < |path| ==> !CrossesBoundaryAt(start, path, i, ca, plat)
  }

  /** At most one step crosses the central-area boundary. */
  ghost predicate AtMostOneCrossing(start: LngLat, path: seq<PathStep>, ca: seq<LngLat>, plat: Platform)
  {
    forall i, j :: 0 <= i < j < |path| && CrossesBoundaryAt(start, path, i, ca, plat) ==>
      !CrossesBoundaryAt(start, path, j, ca, plat)
  }

  /** One step, starting at `from`: a legal compass move towards `end` that keeps clear of the no-fly zones. */
  ghost predicate MoveOk(from: LngLat, s: PathStep, end: LngLat, zones: seq<NoFlyZone>, plat: Platform)
  {
    && s.targetLngLat == end
    && IsCompassMove(from, s.toLngLat, s.stepDirectionAngle, plat)
    && !CrossesNoFlyZone(from, s.toLngLat, zones, plat)
  }

  /** Where the step appended to `t` starts: the start point, or the end of t's last step. */
  function NextFrom(start: LngLat, t: seq<PathStep>): LngLat
  {
    if |t| == 0 then start else t[|t| - 1].toLngLat
  }

  /** Every step is numbered in order and is a legal move from where the previous one ended. */
  ghost predicate LegalSteps(start: LngLat, end: LngLat, path: seq<PathStep>, zones: seq<NoFlyZone>, plat: Platform)
    decreases |path|
  {
    |path| == 0 ||
    var prefix := path[..|path| - 1];
    && LegalSteps(start, end, prefix, zones, plat)
    && path[|path| - 1].stepsSinceStart == |path|
    && MoveOk(NextFrom(start, prefix), path[|path| - 1], end, zones, plat)
  }

  /** Read step by step: step i is number i+1 and a legal move from where step i-1 ended. */
  lemma {:induction false} LegalStepsEach(start: LngLat, end: LngLat, path: seq<PathStep>, zones: seq<NoFlyZone>,
                                          plat: Platform, i: int)
    requires LegalSteps(start, end, path, zones, plat) && 0 <= i < |path|
    ensures path[i].stepsSinceStart == i + 1 && MoveOk(From(start, path, i), path[i], end, zones, plat)
    decreases |path|
  {
    var prefix := path[..|path| - 1];
    if i < |path| - 1 {
      LegalStepsEach(start, end, prefix, zones, plat, i);
      assert prefix[i] == path[i] && From(start, prefix, i) == From(start, path, i);
    } else {
      assert From(start, path, i) == NextFrom(start, prefix);
    }
  }

  /** No step of the path ends close to `end`. */
  ghost predicate FarFrom(path: seq<PathStep>, end: LngLat, plat: Platform)
  {
    forall i :: 0 <= i < |path| ==> !CloseTo(path[i].toLngLat, end, plat)
  }

  /** A path `findPath` may return from `start` to `end`. */
  ghost predicate Route(start: LngLat, end: LngLat, path: seq<PathStep>, zones: seq<NoFlyZone>,
                        ca: seq<LngLat>, plat: Platform)
  {
    && |path| >= 1
    && path[|path| - 1].stepsSinceStart == |path|
    && CloseTo(path[|path| - 1].toLngLat, end, plat)
    && FarFrom(path[..|path| - 1], end, plat)
    && LegalSteps(start, end, path, zones, plat)
    && AtMostOneCrossing(start, path, ca, plat)
  }

  /**
   * What holds of every node on the open and closed lists: its parent chain starts at
   * `start`, is a legal route so far that has not yet come close to `end`, crosses the
   * boundary at most once, and not at all while the node's flag is still false.
   */
  ghost predicate Sound(n: PathStep, start: LngLat, end: LngLat, zones: seq<NoFlyZone>,
                        ca: seq<LngLat>, plat: Platform)
    reads n
  {
    && n.Linked()
    && n.Root().toLngLat == start
    && n.targetLngLat == end
    && LegalSteps(start, end, n.Trail(), zones, plat)
    && FarFrom(n.Trail(), end, plat)
    && AtMostOneCrossing(start, n.Trail(), ca, plat)
    && (!n.caBoundaryCrossed ==> NoCrossing(start, n.Trail(), ca, plat))
  }

  /** Appending a legal move from the end of a legal sequence of steps keeps it legal. */
  lemma {:induction false} ExtendLegal(start: LngLat, end: LngLat, t: seq<PathStep>, nb: PathStep,
                                       zones: seq<NoFlyZone>, plat: Platform)
    requires LegalSteps(start, end, t, zones, plat)
    requires nb.stepsSinceStart == |t| + 1
    requires MoveOk(NextFrom(start, t), nb, end, zones, plat)
    ensures LegalSteps(start, end, t + [nb], zones, plat)
  {
    assert (t + [nb])[..|t|] == t;
  }

  /**
   * Appending a step keeps "at most one crossing" when the step does not cross, or when it
   * crosses after none; and it keeps "no crossing" when it does not cross.
   */
  lemma {:induction false} ExtendCrossings(start: LngLat, t: seq<PathStep>, nb: PathStep, ca: seq<LngLat>,
                                           plat: Platform)
    requires AtMostOneCrossing(start, t, ca, plat)
    ensures !CrossesPolyline(NextFrom(start, t), nb.toLngLat, ca, plat) ==>
      AtMostOneCrossing(start, t + [nb], ca, plat) &&
      (NoCrossing(start, t, ca, plat) ==> NoCrossing(start, t + [nb], ca, plat))
    ensures NoCrossing(start, t, ca, plat) ==> AtMostOneCrossing(start, t + [nb], ca, plat)
  {
    var t' := t + [nb];
    forall i | 0 <= i < |t|
      ensures CrossesBoundaryAt(start, t', i, ca, plat) <==> CrossesBoundaryAt(start, t, i, ca, plat)
    {
      assert t'[i] == t[i] && From(start, t', i) == From(start, t, i);
    }
    assert CrossesBoundaryAt(start, t', |t|, ca, plat) <==> CrossesPolyline(NextFrom(start, t), nb.toLngLat, ca, plat) by {
      assert t'[|t|] == nb && From(start, t', |t|) == NextFrom(start, t);
    }
  }

  /** Every node of a list is sound. */
  ghost predicate AllSound(ns: seq<PathStep>, start: LngLat, end: LngLat, zones: seq<NoFlyZone>,
                           ca: seq<LngLat>, plat: Platform)
    reads set n | n in ns
  {
    forall n :: n in ns ==> Sound(n, start, end, zones, ca, plat)
  }

  /**
   * A child of a sound node, generated and filtered as `findPath` does, extends a legal
   * route: its flag records whether its chain has crossed the boundary.
   */
  lemma {:induction false} ChildExtendsRoute(cur: PathStep, nb: PathStep, start: LngLat, end: LngLat,
                                             zones: seq<NoFlyZone>, ca: seq<LngLat>, plat: Platform)
    requires Sound(cur, start, end, zones, ca, plat)
    requires nb.prevStep == cur && nb.Linked()
    requires MoveOk(cur.toLngLat, nb, end, zones, plat)
    requires CrossesPolyline(cur.toLngLat, nb.toLngLat, ca, plat) ==> !cur.caBoundaryCrossed && nb.caBoundaryCrossed
    requires !CrossesPolyline(cur.toLngLat, nb.toLngLat, ca, plat) ==> nb.caBoundaryCrossed == cur.caBoundaryCrossed
    ensures nb.Trail() == cur.Trail() + [nb]
    ensures nb.Root().toLngLat == start
    ensures LegalSteps(start, end, nb.Trail(), zones, plat)
    ensures AtMostOneCrossing(start, nb.Trail(), ca, plat)
    ensures !nb.caBoundaryCrossed ==> NoCrossing(start, nb.Trail(), ca, plat)
    ensures !CloseTo(nb.toLngLat, end, plat) ==> Sound(nb, start, end, zones, ca, plat)
  {
    var t := cur.Trail();
    ChildTrail(cur, nb);
    ExtendLegal(start, end, t, nb, zones, plat);
    ExtendCrossings(start, t, nb, ca, plat);
    if !CloseTo(nb.toLngLat, end, plat) {
      ExtendFar(t, nb, end, plat);
    }
  }

  /** A child's trail is its parent's followed by itself, and the parent's trail ends where the parent stands. */
  lemma ChildTrail(cur: PathStep, nb: PathStep)
    requires nb.prevStep == cur && nb.Linked()
    ensures nb.Trail() == cur.Trail() + [nb] && nb.Root() == cur.Root()
    ensures NextFrom(cur.Root().toLngLat, cur.Trail()) == cur.toLngLat
  {
    var t := cur.Trail();
    if |t| > 0 { assert t[|t| - 1] == cur; } else { assert cur.prevStep == null; }
  }

  /** Appending a step that is not close to `end` keeps a path far from it. */
  lemma ExtendFar(t: seq<PathStep>, nb: PathStep, end: LngLat, plat: Platform)
    requires FarFrom(t, end, plat) && !CloseTo(nb.toLngLat, end, plat)
    ensures FarFrom(t + [nb], end, plat)
  {
    assert forall i :: 0 <= i < |t| ==> (t + [nb])[i] == t[i];
  }

  /** A sound chain whose last step came close to the target is a route to it. */
  lemma {:induction false} CloseChildIsRoute(cur: PathStep, nb: PathStep, start: LngLat, end: LngLat,
                                             zones: seq<NoFlyZone>, ca: seq<LngLat>, plat: Platform)
    requires Sound(cur, start, end, zones, ca, plat)
    requires nb.prevStep == cur && nb.Linked()
    requires nb.Trail() == cur.Trail() + [nb]
    requires LegalSteps(start, end, nb.Trail(), zones, plat)
    requires AtMostOneCrossing(start, nb.Trail(), ca, plat)
    requires CloseTo(nb.toLngLat, end, plat)
    ensures Route(start, end, nb.Trail(), zones, ca, plat)
  {
    var t := nb.Trail();
    assert t[..|t| - 1] == cur.Trail();
  }

  // ---------------------------------------------------------------------------------------
  // The open and closed lists

  /** `indexOf`: the first position holding a step equal to `x`, or -1. */
  function IndexOf(s: seq<PathStep>, x: PathStep): (i: int)
    ensures -1 <= i < |s|
    ensures i == -1 <==> forall j :: 0 <= j < |s| ==> !s[j].Equals(x)
    ensures i >= 0 ==> s[i].Equals(x) && forall j :: 0 <= j < i ==> !s[j].Equals(x)
  {
    if |s| == 0 then -1
    else if s[0].Equals(x) then 0
    else var i := IndexOf(s[1..], x); if i == -1 then -1 else i + 1
  }

  /** `poll`: the position of a node of least f cost (the first such, for definiteness). */
  method PollMin(open: seq<PathStep>, plat: Platform) returns (k: nat)
    requires |open| > 0
    ensures k < |open|
    ensures forall j :: 0 <= j < |open| ==> open[k].FCost(plat) <= open[j].FCost(plat)
    ensures forall j :: 0 <= j < k ==> open[k].FCost(plat) < open[j].FCost(plat)
  {
    k := 0;
    for i := 1 to |open|
      invariant k < i
      invariant forall j :: 0 <= j < i ==> open[k].FCost(plat) <= open[j].FCost(plat)
      invariant forall j :: 0 <= j < k ==> open[k].FCost(plat) < open[j].FCost(plat)
    {
      if open[i].FCost(plat) < open[k].FCost(plat) {
        k := i;
      }
    }
  }

  /**
   * What happens to a generated neighbour that is not yet at the target: it is opened when no
   * closed node stands at its position, and when the (first) closed node there has a strictly
   * higher f cost, that node is evicted from the closed list and the neighbour opened instead.
   */
  function OfferNeighbour(open: seq<PathStep>, closed: seq<PathStep>, nb: PathStep, plat: Platform)
    : (lists: (seq<PathStep>, seq<PathStep>))
    ensures lists.0 == open + [nb] || lists.0 == open
    ensures |closed| - 1 <= |lists.1| <= |closed|
    ensures |lists.1| == |closed| ==> lists.1 == closed
    ensures forall n :: n in lists.1 ==> n in closed
  {
    var idx := IndexOf(closed, nb);
    if idx == -1 then (open + [nb], closed)
    else if closed[idx].FCost(plat) > nb.FCost(plat) then (open + [nb], closed[..idx] + closed[idx + 1..])
    else (open, closed)
  }

  /** Position `j` holds the first closed node at nb's position, and it costs more than nb. */
  ghost predicate CostlierTwinAt(closed: seq<PathStep>, nb: PathStep, j: int, plat: Platform)
  {
    && 0 <= j < |closed|
    && closed[j].Equals(nb)
    && closed[j].FCost(plat) > nb.FCost(plat)
    && forall i :: 0 <= i < j ==> !closed[i].Equals(nb)
  }

  /** The neighbour is opened exactly when its position is unexplored or explored at a higher cost. */
  lemma OfferNeighbourOpens(open: seq<PathStep>, closed: seq<PathStep>, nb: PathStep, plat: Platform)
    ensures OfferNeighbour(open, closed, nb, plat).0 == open + [nb] <==>
      (forall j :: 0 <= j < |closed| ==> !closed[j].Equals(nb)) ||
      (exists j :: CostlierTwinAt(closed, nb, j, plat))
  {
    var idx := IndexOf(closed, nb);
    if idx >= 0 {
      forall j | CostlierTwinAt(closed, nb, j, plat)
        ensures j == idx
      {
      }
      if closed[idx].FCost(plat) > nb.FCost(plat) {
        assert CostlierTwinAt(closed, nb, idx, plat);
      } else {
        assert |open + [nb]| != |open|;
      }
    }
  }

  /** A closed node is evicted only when it is the costlier twin of the neighbour, and then exactly it. */
  lemma OfferNeighbourEvicts(open: seq<PathStep>, closed: seq<PathStep>, nb: PathStep, plat: Platform)
    ensures var lists := OfferNeighbour(open, closed, nb, plat);
      |lists.1| < |closed| ==>
        exists j :: CostlierTwinAt(closed, nb, j, plat) && lists.1 == closed[..j] + closed[j + 1..] &&
                    lists.0 == open + [nb]
  {
    var idx := IndexOf(closed, nb);
    if idx >= 0 && closed[idx].FCost(plat) > nb.FCost(plat) {
      assert CostlierTwinAt(closed, nb, idx, plat);
    }
  }

  /** Offering a sound neighbour leaves only sound nodes on both lists. */
  lemma OfferKeepsSound(open: seq<PathStep>, closed: seq<PathStep>, nb: PathStep, start: LngLat, end: LngLat,
                        zones: seq<NoFlyZone>, ca: seq<LngLat>, plat: Platform)
    requires AllSound(open, start, end, zones, ca, plat) && AllSound(closed, start, end, zones, ca, plat)
    requires Sound(nb, start, end, zones, ca, plat)
    ensures AllSound(OfferNeighbour(open, closed, nb, plat).0, start, end, zones, ca, plat)
    ensures AllSound(OfferNeighbour(open, closed, nb, plat).1, start, end, zones, ca, plat)
  {
  }

  /**
   * A child `nb` of `cur` that passed `findPath`'s filters: a legal move, and its flag set
   * exactly when this move is the chain's first crossing of the central-area boundary.
   */
  ghost predicate Survivor(cur: PathStep, nb: PathStep, end: LngLat, zones: seq<NoFlyZone>, ca: seq<LngLat>,
                           plat: Platform)
    reads cur, nb
  {
    && nb.prevStep == cur && nb.stepsSinceStart == cur.stepsSinceStart + 1
    && MoveOk(cur.toLngLat, nb, end, zones, plat)
    && (CrossesPolyline(cur.toLngLat, nb.toLngLat, ca, plat) ==> !cur.caBoundaryCrossed && nb.caBoundaryCrossed)
    && (!CrossesPolyline(cur.toLngLat, nb.toLngLat, ca, plat) ==> nb.caBoundaryCrossed == cur.caBoundaryCrossed)
  }

  /**
   * A neighbour that survived the filters either ends the search with a route (when close to
   * the target) or can be offered to the lists without admitting an unsound node.
   */
  lemma AcceptNeighbour(cur: PathStep, nb: PathStep, open: seq<PathStep>, closed: seq<PathStep>,
                        start: LngLat, end: LngLat, zones: seq<NoFlyZone>, ca: seq<LngLat>, plat: Platform)
    requires Sound(cur, start, end, zones, ca, plat)
    requires AllSound(open, start, end, zones, ca, plat) && AllSound(closed, start, end, zones, ca, plat)
    requires Survivor(cur, nb, end, zones, ca, plat)
    ensures nb.Linked()
    ensures CloseTo(nb.toLngLat, end, plat) ==> Route(start, end, nb.Trail(), zones, ca, plat)
    ensures !CloseTo(nb.toLngLat, end, plat) ==>
      AllSound(OfferNeighbour(open, closed, nb, plat).0, start, end, zones, ca, plat) &&
      AllSound(OfferNeighbour(open, closed, nb, plat).1, start, end, zones, ca, plat)
  {
    ChildExtendsRoute(cur, nb, start, end, zones, ca, plat);
    if CloseTo(nb.toLngLat, end, plat) {
      CloseChildIsRoute(cur, nb, start, end, zones, ca, plat);
    } else {
      OfferKeepsSound(open, closed, nb, start, end, zones, ca, plat);
    }
  }

  // ---------------------------------------------------------------------------------------
  // The search

  /** `generatePathFromEnd`: walk the parent links back, inserting each step at the front. */
  method GeneratePathFromEnd(endNode: PathStep) returns (path: seq<PathStep>)
    requires endNode.Linked()
    ensures path == endNode.Trail()
  {
    path := [];
    var curNode: PathStep := endNode;
    while curNode.prevStep != null
      invariant curNode.Linked()
      invariant curNode.Trail() + path == endNode.Trail()
      decreases curNode.stepsSinceStart
    {
      PrependStep(curNode, path, endNode.Trail());
      path := [curNode] + path;
      curNode := curNode.prevStep;
    }
    assert curNode.Trail() == [];
  }

  /** Moving one step back along the chain moves that step from the trail onto the path. */
  lemma PrependStep(c: PathStep, path: seq<PathStep>, whole: seq<PathStep>)
    requires c.prevStep != null && c.Linked() && c.Trail() + path == whole
    ensures c.prevStep.Trail() + ([c] + path) == whole
  {
    assert c.Trail() == c.prevStep.Trail() + [c];
    assert (c.prevStep.Trail() + [c]) + path == c.prevStep.Trail() + ([c] + path);
  }

  /** `pathCrossesNoFlyZone`: does the segment meet an edge of any no-fly zone? */
  method PathCrossesNoFlyZone(curLngLat: LngLat, neighbourLngLat: LngLat, zones: seq<NoFlyZone>, plat: Platform)
    returns (crosses: bool)
    requires ZonesWellFormed(zones) && forall k :: 0 <= k < |zones| ==> zones[k].Valid()
    modifies zones
    ensures forall k :: 0 <= k < |zones| ==> zones[k].Valid()
    ensures crosses == CrossesNoFlyZone(curLngLat, neighbourLngLat, zones, plat)
  {
    for k := 0 to |zones|
      invariant forall z :: 0 <= z < |zones| ==> zones[z].Valid()
      invariant forall z :: 0 <= z < k ==> !CrossesPolyline(curLngLat, neighbourLngLat, ToLngLats(zones[z].coordinates), plat)
    {
      var nfz := zones[k].GetCoordinatesLngLat();
      var i := 0;
      while i < nfz.Length - 1
        invariant 0 <= i <= nfz.Length
        invariant nfz[..] == ToLngLats(zones[k].coordinates)
        invariant forall e :: 0 <= e < i && e < nfz.Length - 1 ==> !EdgeHit(nfz[..], e, curLngLat, neighbourLngLat, plat)
      {
        if plat.intersectsLine(nfz[i], nfz[i + 1], curLngLat, neighbourLngLat) {
          assert EdgeHit(nfz[..], i, curLngLat, neighbourLngLat, plat);
          return true;
        }
        i := i + 1;
      }
    }
    return false;
  }

  /** `pathCrossesCentralAreaBoundary`: does the segment meet an edge of the central area? */
  method PathCrossesCentralAreaBoundary(curLngLat: LngLat, neighbourLngLat: LngLat, centralArea: seq<LngLat>,
                                        plat: Platform)
    returns (crosses: bool)
    ensures crosses == CrossesPolyline(curLngLat, neighbourLngLat, centralArea, plat)
  {
    var i := 0;
    while i < |centralArea| - 1
      invariant 0 <= i <= |centralArea|
      invariant forall e :: 0 <= e < i && e < |centralArea| - 1 ==> !EdgeHit(centralArea, e, curLngLat, neighbourLngLat, plat)
    {
      if plat.intersectsLine(centralArea[i], centralArea[i + 1], curLngLat, neighbourLngLat) {
        assert EdgeHit(centralArea, i, curLngLat, neighbourLngLat, plat);
        return true;
      }
      i := i + 1;
    }
    return false;
  }

  /**
   * The first half of the body of `findPath`'s direction loop: generate the neighbour one
   * move away in `direction` and drop it (`continue`, here `None`) when the move crosses a
   * no-fly zone or crosses the central-area boundary a second time; a first crossing sets
   * the neighbour's flag.
   */
  method GenerateNeighbour(curNode: PathStep, direction: CompassDirection, endPoint: LngLat, startTime: int,
                           zones: seq<NoFlyZone>, centralArea: seq<LngLat>, plat: Platform)
    returns (neighbour: Option<PathStep>)
    requires ZonesWellFormed(zones) && forall k :: 0 <= k < |zones| ==> zones[k].Valid()
    modifies zones
    ensures forall k :: 0 <= k < |zones| ==> zones[k].Valid()
    ensures neighbour.Some? ==>
      var nb := neighbour.value;
      && fresh(nb)
      && nb.toLngLat == NextPosition(curNode.toLngLat, Some(direction), plat)
      && nb.stepDirectionAngle == Some(Angle(direction))
      && Survivor(curNode, nb, endPoint, zones, centralArea, plat)
    ensures neighbour.None? ==>
      CrossesNoFlyZone(curNode.toLngLat, NextPosition(curNode.toLngLat, Some(direction), plat), zones, plat) ||
      (curNode.caBoundaryCrossed &&
       CrossesPolyline(curNode.toLngLat, NextPosition(curNode.toLngLat, Some(direction), plat), centralArea, plat))
  {
    var neighbourLngLat := NextPosition(curNode.toLngLat, Some(direction), plat);
    var now: int := *;
    var neighbourNode := new PathStep.Step(neighbourLngLat, curNode, Some(Angle(direction)), endPoint, now - startTime);
    var stepCrossesNfzBoundary := PathCrossesNoFlyZone(curNode.toLngLat, neighbourLngLat, zones, plat);
    var stepCrossesCaBoundary := PathCrossesCentralAreaBoundary(curNode.toLngLat, neighbourLngLat, centralArea, plat);
    if stepCrossesNfzBoundary || (stepCrossesCaBoundary && neighbourNode.caBoundaryCrossed) {
      return None;
    } else if stepCrossesCaBoundary {
      neighbourNode.SetCaBoundaryCrossed(true);
    }
    AngleRoundTrip(direction);
    return Some(neighbourNode);
  }

  /**
   * The second half of the body of `findPath`'s direction loop, for a neighbour that survived
   * the filters: when it is close to the target the search ends with its path; otherwise it
   * is offered to the lists.
   */
  method SettleNeighbour(curNode: PathStep, neighbourNode: PathStep, ghost startPoint: LngLat, endPoint: LngLat,
                         zones: seq<NoFlyZone>, centralArea: seq<LngLat>, plat: Platform,
                         open: seq<PathStep>, closed: seq<PathStep>)
    returns (found: Option<seq<PathStep>>, openList: seq<PathStep>, closedList: seq<PathStep>)
    requires Sound(curNode, startPoint, endPoint, zones, centralArea, plat)
    requires AllSound(open, startPoint, endPoint, zones, centralArea, plat)
    requires AllSound(closed, startPoint, endPoint, zones, centralArea, plat)
    requires Survivor(curNode, neighbourNode, endPoint, zones, centralArea, plat)
    ensures found.Some? <==> CloseTo(neighbourNode.toLngLat, endPoint, plat)
    ensures found.Some? ==> Route(startPoint, endPoint, found.value, zones, centralArea, plat)
    ensures found.Some? ==> openList == open && closedList == closed
    ensures found.None? ==> (openList, closedList) == OfferNeighbour(open, closed, neighbourNode, plat)
    ensures AllSound(openList, startPoint, endPoint, zones, centralArea, plat)
    ensures AllSound(closedList, startPoint, endPoint, zones, centralArea, plat)
  {
    AcceptNeighbour(curNode, neighbourNode, open, closed, startPoint, endPoint, zones, centralArea, plat);
    if CloseTo(neighbourNode.toLngLat, endPoint, plat) {
      var path := GeneratePathFromEnd(neighbourNode);
      return Some(path), open, closed;
    }
    var lists := OfferNeighbour(open, closed, neighbourNode, plat);
    return None, lists.0, lists.1;
  }

  /** One pass of `findPath`'s direction loop: generate and filter a neighbour, then settle it. */
  method ConsiderDirection(curNode: PathStep, direction: CompassDirection, ghost startPoint: LngLat,
                           endPoint: LngLat, startTime: int, zones: seq<NoFlyZone>, centralArea: seq<LngLat>,
                           plat: Platform, open: seq<PathStep>, closed: seq<PathStep>)
    returns (found: Option<seq<PathStep>>, openList: seq<PathStep>, closedList: seq<PathStep>)
    requires ZonesWellFormed(zones) && forall k :: 0 <= k < |zones| ==> zones[k].Valid()
    requires Sound(curNode, startPoint, endPoint, zones, centralArea, plat)
    requires AllSound(open, startPoint, endPoint, zones, centralArea, plat)
    requires AllSound(closed, startPoint, endPoint, zones, centralArea, plat)
    modifies zones
    ensures forall k :: 0 <= k < |zones| ==> zones[k].Valid()
    ensures AllSound(openList, startPoint, endPoint, zones, centralArea, plat)
    ensures AllSound(closedList, startPoint, endPoint, zones, centralArea, plat)
    ensures Sound(curNode, startPoint, endPoint, zones, centralArea, plat)
    ensures found.Some? ==> Route(startPoint, endPoint, found.value, zones, centralArea, plat)
  {
    var neighbour := GenerateNeighbour(curNode, direction, endPoint, startTime, zones, centralArea, plat);
    // Generating a neighbour changes only the zones' caches, which no node reads.
    assert Sound(curNode, startPoint, endPoint, zones, centralArea, plat);
    assert AllSound(open, startPoint, endPoint, zones, centralArea, plat);
    assert AllSound(closed, startPoint, endPoint, zones, centralArea, plat);
    if neighbour.None? {
      return None, open, closed;
    }
    found, openList, closedList := SettleNeighbour(curNode, neighbour.value, startPoint, endPoint, zones,
                                                   centralArea, plat, open, closed);
  }

  /** `findPath`'s loop over the sixteen directions from the node just polled, in declaration order. */
  method ExpandNode(curNode: PathStep, ghost startPoint: LngLat, endPoint: LngLat, startTime: int,
                    zones: seq<NoFlyZone>, centralArea: seq<LngLat>, plat: Platform,
                    open: seq<PathStep>, closed: seq<PathStep>)
    returns (found: Option<seq<PathStep>>, openList: seq<PathStep>, closedList: seq<PathStep>)
    requires ZonesWellFormed(zones) && forall k :: 0 <= k < |zones| ==> zones[k].Valid()
    requires Sound(curNode, startPoint, endPoint, zones, centralArea, plat)
    requires AllSound(open, startPoint, endPoint, zones, centralArea, plat)
    requires AllSound(closed, startPoint, endPoint, zones, centralArea, plat)
    modifies zones
    ensures forall k :: 0 <= k < |zones| ==> zones[k].Valid()
    ensures AllSound(openList, startPoint, endPoint, zones, centralArea, plat)
    ensures AllSound(closedList, startPoint, endPoint, zones, centralArea, plat)
    ensures found.Some? ==> Route(startPoint, endPoint, found.value, zones, centralArea, plat)
  {
    openList, closedList := open, closed;
    for i := 0 to |Values|
      invariant forall k :: 0 <= k < |zones| ==> zones[k].Valid()
      invariant AllSound(openList, startPoint, endPoint, zones, centralArea, plat)
      invariant AllSound(closedList, startPoint, endPoint, zones, centralArea, plat)
      invariant Sound(curNode, startPoint, endPoint, zones, centralArea, plat)
    {
      found, openList, closedList := ConsiderDirection(curNode, Values[i], startPoint, endPoint, startTime, zones,
                                                       centralArea, plat, openList, closedList);
      if found.Some? {
        return;
      }
    }
    return None, openList, closedList;
  }

  /**
   * `findPath`. The source loops until the open list is empty and need not terminate on an
   * unbounded plane; here at most `fuel` nodes are polled. `startTime` is the caller's clock
   * origin; each clock reading is an arbitrary integer.
   */
  method FindPath(startPoint: LngLat, endPoint: LngLat, startTime: int, zones: seq<NoFlyZone>,
                  centralArea: seq<LngLat>, plat: Platform, fuel: nat)
    returns (r: SearchResult)
    requires ZonesWellFormed(zones) && forall k :: 0 <= k < |zones| ==> zones[k].Valid()
    modifies zones
    ensures forall k :: 0 <= k < |zones| ==> zones[k].Valid()
    ensures r.Found? ==> Route(startPoint, endPoint, r.path, zones, centralArea, plat)
  {
    var now: int := *;
    var startNode := new PathStep.Start(startPoint, endPoint, now - startTime);
    var openList := [startNode];
    var closedList: seq<PathStep> := [];
    var polled := 0;
    while |openList| > 0
      invariant polled <= fuel
      invariant forall k :: 0 <= k < |zones| ==> zones[k].Valid()
      invariant AllSound(openList, startPoint, endPoint, zones, centralArea, plat)
      invariant AllSound(closedList, startPoint, endPoint, zones, centralArea, plat)
      decreases fuel - polled
    {
      if polled == fuel {
        return OutOfFuel;
      }
      polled := polled + 1;
      var k := PollMin(openList, plat);
      var curNode := openList[k];
      assert curNode in openList;
      openList := openList[..k] + openList[k + 1..];
      closedList := closedList + [curNode];
      var found;
      found, openList, closedList := ExpandNode(curNode, startPoint, endPoint, startTime, zones, centralArea, plat,
                                                openList, closedList);
      if found.Some? {
        return Found(found.value);
      }
    }
    return NotFound;
  }
}
