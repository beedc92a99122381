# Drone delivery planner — a Dafny model

This project models the core of a pizza-delivery drone planner written in Java. The planner has three parts.

- **Path search.** `PathFinder.findPath` is a weighted A\* search over `PathStep` nodes. Each move is one step of length 0.00015 degrees along one of sixteen compass headings. A move may never cross an edge of a no-fly zone, and a leg may cross the central-area boundary at most once. The search stops at the first generated step that is close to the target, then rebuilds the path by following parent links.
- **Greedy scheduler.** `Drone.deliverOrders` first builds a queue of the valid orders, each estimated by the length of its planned round trip. It then polls the queue fewest-moves first. For each order it re-plans the round trip from where the drone now stands, and commits the order only when the whole trip fits in the moves left. It stops at the first order that does not fit. Committing appends the moves to the flight log, moves the drone and spends one move of battery per move.
- **Order validation.** `Order.isOrderValid` runs its checks in a fixed order: item count, CVV, card expiry, card number (Luhn), a single supplying restaurant, and the total. The first check that fails sets the outcome. The checks use `Restaurant`'s memoised name-to-price map.

Each Java class is a Dafny module with the class's own name, one file per module:

| file | module | Java |
|---|---|---|
| `compass.dfy` | `Compass` | `CompassDirection` |
| `lnglat.dfy` | `Positions` | `LngLat` |
| `nfz.dfy` | `NoFlyZones` | `NoFlyZone` |
| `pathstep.dfy` | `PathSteps` | `PathStep` |
| `pathfinder.dfy` | `PathFinding` | `PathFinder` |
| `restaurant.dfy` | `Restaurants` | `Restaurant` |
| `order.dfy` | `Orders` | `Order` |
| `drone.dfy` | `Delivery` | `Drone` |

`wrappers.dfy` holds `Option` and `Result`, and `javaint.dfy` holds Java's 32-bit `int` wrap-around.

Some classes update their fields in place: `Drone`, `Order`, `Restaurant`, `NoFlyZone` and `PathStep`. These are Dafny classes with `modifies` frames. Their memoised caches are `Option` fields, or an `array` for the zone vertices.

The search and scheduling loops are methods with loop invariants. Each method is proved against specification predicates:

- `Route`: what a returned path satisfies.
- `Sound`: what every node on the open and closed lists satisfies.
- `Verdict`: the outcome validation decides.
- `Valid`: the drone's conservation invariant, `movesRemaining + |allDroneMoves| == 2000` with `movesRemaining >= 0`, and a log made only of legal moves.

Exceptions are `Err` values of `Result`. Examples are the `IllegalStateException` of `getRestaurant`, an unparsable order date, a `null` path from `findPath`, and `get(-1)` in `addHoverMove`.

The numerics of the JDK are fields of a `Platform` record passed as a parameter: `Math.pow(x, 2)`, `Math.sqrt`, `Math.cos`/`Math.sin` of `Math.toRadians`, and `Line2D.intersectsLine`. Lemmas that need them exact require it through `ExactRoots` (exact square and square root) or `UnitHeadings` (the sixteen headings are unit vectors, opposite headings are opposite vectors, and east and north are exact).

Three behaviours of the code are easy to miss, and the model follows the code in each:

- **The path leaves out the start point.** `generatePathFromEnd` stops before the root node. As a result `createDroneSteps` logs no move from a leg's start point to the path's first step. The first logged move of a leg starts one step away from where the drone stood (`LegIsChained`).
- **A missing path ends the run.** When `findPath` returns `null`, `getFullOrderPath` throws, and `getOrderQueue` or `deliverOrders` ends with that error (`DroneError.NoPath`). An order for which no path exists was meant to be skipped, but the run stops instead.
- **Estimates start from the current position.** `getOrderQueue` plans each estimate from the drone's current position, not from a fixed start point.

## Model

| member | source | states |
|---|---|---|
| Compass.Angle | src/main/java/uk/ac/ed/inf/CompassDirection.java:8-23 | every heading's angle lies in [0, 360) |
| Compass.Ordinal | src/main/java/uk/ac/ed/inf/CompassDirection.java:7-23 | a heading's ordinal is its index in `values()` |
| Compass.Opposite | src/main/java/uk/ac/ed/inf/CompassDirection.java:8-23 | every heading has a different opposite heading whose angle is its own plus 180, modulo 360 |
| Compass.WithAngle | src/main/java/uk/ac/ed/inf/CompassDirection.java:33-45 | looking a heading up by angle succeeds exactly for the sixteen angles, and gives the heading with that angle |
| Compass.AngleRoundTrip | src/main/java/uk/ac/ed/inf/CompassDirection.java:33-45 | `getAngle` is injective: looking up a heading's angle gives back the heading |
| Compass.ValuesEnumerateAll | src/main/java/uk/ac/ed/inf/CompassDirection.java:8-23 | `values()` has 16 entries, holds every heading, and holds each only once |
| Compass.AnglesDistinct | src/main/java/uk/ac/ed/inf/CompassDirection.java:8-23 | the sixteen angles are pairwise distinct |
| Compass.AnglesOnGrid | src/main/java/uk/ac/ed/inf/CompassDirection.java:8-23 | entry i of `values()` has angle ((4 - i) mod 16) × 22.5 |
| Compass.GridCovered | src/main/java/uk/ac/ed/inf/CompassDirection.java:8-23 | every multiple of 22.5 in [0, 360) is some heading's angle |
| Positions.EuclidSq | src/main/java/uk/ac/ed/inf/LngLat.java:19-23 | the exact squared distance under `distanceTo`'s square root; never negative |
| Positions.NextPosition | src/main/java/uk/ac/ed/inf/LngLat.java:43-51 | a null heading is a hover: the position is returned unchanged |
| Positions.DistanceIsRootOfEuclidSq | src/main/java/uk/ac/ed/inf/LngLat.java:19-23 | the contract of `distanceTo` (`Positions.DistanceTo`): with exact roots, it is non-negative and squares to the squared Euclidean distance |
| Positions.CloseToIsEuclidSqBelowMove | src/main/java/uk/ac/ed/inf/LngLat.java:32-34 | the contract of `closeTo` (`Positions.CloseTo`): with exact roots, it holds exactly when the squared distance is below MOVE_LENGTH squared |
| Positions.DistanceToSelf | src/main/java/uk/ac/ed/inf/LngLat.java:19-23 | a point is at distance 0 from itself |
| Positions.DistanceSymmetric | src/main/java/uk/ac/ed/inf/LngLat.java:19-23 | `distanceTo` is symmetric |
| Positions.CloseToSymmetric | src/main/java/uk/ac/ed/inf/LngLat.java:32-34 | `closeTo` is symmetric |
| Positions.OneMoveApartIsNotClose | src/main/java/uk/ac/ed/inf/LngLat.java:33 | the threshold is strict: points exactly MOVE_LENGTH apart are not close |
| Positions.MoveHasMoveLength | src/main/java/uk/ac/ed/inf/LngLat.java:47-50 | with unit headings, every move ends exactly MOVE_LENGTH (squared) from where it started |
| Positions.MoveDistanceIsMoveLength | src/main/java/uk/ac/ed/inf/LngLat.java:47-50 | with exact numerics, `distanceTo` over a move is MOVE_LENGTH, so a move never ends close to its start |
| Positions.OppositeMoveCancels | src/main/java/uk/ac/ed/inf/LngLat.java:43-51 | a move followed by the opposite move returns to the start point |
| Positions.NorthEastWestSouthReturns | src/test/java/uk/ac/ed/inf/AppTest.java:97-113 | moving N, E, W, S in turn ends at the start point, hence close to it |
| NoFlyZones.ToLngLats | src/main/java/uk/ac/ed/inf/NoFlyZone.java:34-37 | the conversion has one point per row, and point i is (row i [0], row i [1]) |
| NoFlyZones.NoFlyZone.constructor | src/main/java/uk/ac/ed/inf/NoFlyZone.java:24-26 | a zone starts with an empty cache |
| NoFlyZones.NoFlyZone.GetCoordinatesLngLat | src/main/java/uk/ac/ed/inf/NoFlyZone.java:32-40 | returns the converted vertices; the first call fills the cache with a fresh array, and later calls return that same array |
| PathSteps.PathStep.Start | src/main/java/uk/ac/ed/inf/PathStep.java:48-56 | a root step has no previous step, no heading, the flag false, 0 steps and the given target |
| PathSteps.PathStep.Step | src/main/java/uk/ac/ed/inf/PathStep.java:67-75 | a child step has one step more than its parent and inherits the parent's crossing flag |
| PathSteps.PathStep.SetCaBoundaryCrossed | src/main/java/uk/ac/ed/inf/PathStep.java:165-167 | sets the crossing flag and may change no other field |
| PathSteps.PathStep.Equals | src/main/java/uk/ac/ed/inf/PathStep.java:169-176 | two steps are equal exactly when they share position and target |
| PathSteps.PathStep.Root | src/main/java/uk/ac/ed/inf/PathStep.java:48-75 | following parent links ends at a root step with 0 steps |
| PathSteps.PathStep.Trail | src/main/java/uk/ac/ed/inf/PathStep.java:48-75 | the chain below a step, without the root, has one step per step count, numbered in order and linked parent to child |
| PathSteps.HopsToRoot | src/main/java/uk/ac/ed/inf/PathStep.java:48-75 | following the parent links reaches the root in exactly `stepsSinceStart` hops, and not before |
| PathSteps.FCostOnTarget | src/main/java/uk/ac/ed/inf/PathStep.java:109-115 | the contract of `getFCost` (`PathSteps.PathStep.FCost`): a step standing on its target has f cost equal to its step count |
| PathSteps.FCostAtLeastSteps | src/main/java/uk/ac/ed/inf/PathStep.java:109-115 | the f cost of `getFCost` is never below the step count |
| PathSteps.EqualStepsHashAlike | src/main/java/uk/ac/ed/inf/PathStep.java:169-181 | the contract of `hashCode` (`PathSteps.PathStep.HashCode`): equal steps have equal hash codes |
| PathSteps.EqualsIgnoresHistory | src/main/java/uk/ac/ed/inf/PathStep.java:169-176 | equality ignores parent, step count, heading, clock and crossing flag |
| PathFinding.LegalStepsEach | src/main/java/uk/ac/ed/inf/PathFinder.java:39-47 | in a legal path, step i is number i+1 and is a compass move clear of the zones from where step i-1 ended |
| PathFinding.ExtendCrossings | src/main/java/uk/ac/ed/inf/PathFinder.java:43-50 | appending a step that does not cross keeps "at most one crossing"; a step that crosses keeps it when there was no crossing before |
| PathFinding.ChildExtendsRoute | src/main/java/uk/ac/ed/inf/PathFinder.java:39-50 | a filtered child of a sound node extends its parent's trail legally, and the child's flag is false only if the trail never crosses the boundary |
| PathFinding.CloseChildIsRoute | src/main/java/uk/ac/ed/inf/PathFinder.java:53-54 | a sound chain whose newest step is close to the target is a route to it |
| PathFinding.IndexOf | src/main/java/uk/ac/ed/inf/PathFinder.java:58-60 | `indexOf` is -1 when no closed node is equal; otherwise it is the first equal node |
| PathFinding.PollMin | src/main/java/uk/ac/ed/inf/PathFinder.java:37 | polling takes a node of least f cost, and the first such node |
| PathFinding.OfferNeighbour | src/main/java/uk/ac/ed/inf/PathFinder.java:57-65 | the neighbour is opened or not; at most one closed node is removed; no node is added to the closed list |
| PathFinding.OfferNeighbourOpens | src/main/java/uk/ac/ed/inf/PathFinder.java:57-65 | the neighbour is opened exactly when no closed node shares its position, or when the first one that does costs strictly more |
| PathFinding.OfferNeighbourEvicts | src/main/java/uk/ac/ed/inf/PathFinder.java:58-65 | a closed node is removed only when it is that strictly costlier node, and the neighbour is then opened |
| PathFinding.OfferKeepsSound | src/main/java/uk/ac/ed/inf/PathFinder.java:57-65 | offering a sound neighbour leaves only sound nodes on both lists |
| PathFinding.AcceptNeighbour | src/main/java/uk/ac/ed/inf/PathFinder.java:46-65 | a neighbour that passed the filters either completes a route, when close to the target, or keeps both lists sound |
| PathFinding.GeneratePathFromEnd | src/main/java/uk/ac/ed/inf/PathFinder.java:77-85 | the path is the end node's chain from the root's child to the end node, in order, without the root |
| PathFinding.PathCrossesNoFlyZone | src/main/java/uk/ac/ed/inf/PathFinder.java:94-107 | true exactly when an edge (v[i], v[i+1]) of some zone meets the segment; no closing edge is tested |
| PathFinding.PathCrossesCentralAreaBoundary | src/main/java/uk/ac/ed/inf/PathFinder.java:116-128 | true exactly when an edge (v[i], v[i+1]) of the central area meets the segment; no closing edge is tested |
| PathFinding.GenerateNeighbour | src/main/java/uk/ac/ed/inf/PathFinder.java:40-50 | a kept neighbour is one move along the heading, records the heading's angle, avoids every zone, and sets its flag exactly on a first crossing; a dropped one crosses a zone, or crosses the boundary a second time |
| PathFinding.SettleNeighbour | src/main/java/uk/ac/ed/inf/PathFinder.java:53-65 | the search ends exactly when the neighbour is close to the target, and then with a route; otherwise the neighbour is offered to the lists |
| PathFinding.ConsiderDirection | src/main/java/uk/ac/ed/inf/PathFinder.java:39-65 | one heading keeps both lists sound, and a path found is a route |
| PathFinding.ExpandNode | src/main/java/uk/ac/ed/inf/PathFinder.java:39-66 | expanding a node in all sixteen headings keeps both lists sound, and a path found is a route |
| PathFinding.FindPath | src/main/java/uk/ac/ed/inf/PathFinder.java:29-69 | a returned path is a route: at least one step; each step is a compass move recording its angle and crossing no zone edge; at most one step crosses the boundary; only the last step is close to the target; length equals the last step's count |
| Restaurants.MenuPricesKeys | src/main/java/uk/ac/ed/inf/Restaurant.java:45-53 | the price map's keys are exactly the names on the menu |
| Restaurants.LastPriceWins | src/main/java/uk/ac/ed/inf/Restaurant.java:48-50 | for a repeated name, the price of the last item with that name wins |
| Restaurants.Restaurant.constructor | src/main/java/uk/ac/ed/inf/Restaurant.java:37-39 | a restaurant starts with both caches empty |
| Restaurants.Restaurant.GetMenuItemPrices | src/main/java/uk/ac/ed/inf/Restaurant.java:45-53 | returns the menu's price map; it is built once and cached, and a filled cache is returned unchanged |
| Restaurants.Restaurant.GetLngLat | src/main/java/uk/ac/ed/inf/Restaurant.java:59-64 | returns (lng, lat); it is made once and cached, and a filled cache is returned unchanged |
| JavaInts.Wrap32 | src/main/java/uk/ac/ed/inf/Order.java:109-112 | Java `int` arithmetic: the result lies in the 32-bit range |
| JavaInts.WrapThenAdd | src/main/java/uk/ac/ed/inf/Order.java:112 | wrapping after every addition gives the same result as wrapping once at the end |
| Orders.LastDay | src/main/java/uk/ac/ed/inf/Order.java:196 | a month has 28 to 31 days |
| Orders.ParseOrderDate | src/main/java/uk/ac/ed/inf/Order.java:197 | a parsed order date has a month from 1 to 12 and a day within that month |
| Orders.AfterEndOfMonthIffLaterMonth | src/main/java/uk/ac/ed/inf/Order.java:196-200 | a date is after the end of a month exactly when its (year, month) is later |
| Orders.ExpiryCheckByMonth | src/main/java/uk/ac/ed/inf/Order.java:179-205 | the expiry passes exactly when it is MM/YY with a month from 1 to 12 and the order's (year, month) is not after (2000 + YY, MM) |
| Orders.LuhnSumIsStandard | src/main/java/uk/ac/ed/inf/Order.java:221-231 | on an even number of digits, doubling even positions from the left gives the standard Luhn sum of ISO/IEC 7812-1 |
| Orders.CardNumberValidIsLuhn | src/main/java/uk/ac/ed/inf/Order.java:213-237 | the card check accepts exactly the 16-digit numbers whose standard Luhn sum is a multiple of 10 |
| Orders.FirstSupplier | src/main/java/uk/ac/ed/inf/Order.java:126-131 | finds the first menu, in participant order, that prices every item, or reports that none does |
| Orders.AllKeysMembers | src/main/java/uk/ac/ed/inf/Order.java:132 | a name is in the union of menu keys exactly when it is on some menu |
| Orders.AllKeysOnSomeMenu | src/main/java/uk/ac/ed/inf/Order.java:135 | the `containsAll` test on the union holds exactly when every item is on some menu |
| Orders.ItemsCostAppend | src/main/java/uk/ac/ed/inf/Order.java:111-113 | the items' cost is additive over concatenation, so duplicates count every time |
| Orders.Order.constructor | src/main/java/uk/ac/ed/inf/Order.java:61-63 | a received order has no restaurant, no outcome and a zero estimate |
| Orders.Order.SetOrderOutcome | src/main/java/uk/ac/ed/inf/Order.java:77-79 | sets only the outcome |
| Orders.Order.SetMovesToDeliver | src/main/java/uk/ac/ed/inf/Order.java:93-95 | sets only the estimate |
| Orders.Order.IsCardCvvValid | src/main/java/uk/ac/ed/inf/Order.java:244-251 | valid exactly when the CVV is three digits; otherwise the outcome becomes InvalidCvv |
| Orders.Order.IsCardExpiryValid | src/main/java/uk/ac/ed/inf/Order.java:179-205 | decides the expiry check, an unparsable order date being an error; only a failed check sets InvalidExpiryDate |
| Orders.Order.IsCardNumberValid | src/main/java/uk/ac/ed/inf/Order.java:213-237 | valid exactly when the number is 16 digits whose Luhn sum is divisible by 10; otherwise the outcome becomes InvalidCardNumber |
| Orders.Order.ScanMenus | src/main/java/uk/ac/ed/inf/Order.java:125-133 | the scan stops at the first supplier; when there is none, it has collected the union of all menu keys |
| Orders.Order.AreItemsValid | src/main/java/uk/ac/ed/inf/Order.java:124-141 | valid exactly when some menu prices every item, and the first such restaurant becomes the order's; otherwise the outcome is MultipleSuppliers when every item is on some menu, else PizzaNotDefined |
| Orders.Order.GetDeliveryCost | src/main/java/uk/ac/ed/inf/Order.java:101-115 | 100 plus every item's price, in wrapping `int` arithmetic; without a restaurant it throws, and the error says whether the order was validated |
| Orders.Order.IsOrderValid | src/main/java/uk/ac/ed/inf/Order.java:149-171 | result and outcome are the `Verdict` of the checks in source order; an error leaves the outcome alone; the restaurant is set exactly when the items check finds a supplier |
| Orders.Order.GetRestaurant | src/main/java/uk/ac/ed/inf/Order.java:258-266 | succeeds exactly for an order that is ValidButNotDelivered or Delivered, returning its restaurant; a never-validated order gets its own error |
| Orders.ValidIffEveryCheckPasses | src/main/java/uk/ac/ed/inf/Order.java:149-171 | an order is valid exactly when every check passes and its supplier's cost equals the declared total |
| Orders.VerdictNeverDelivered | src/main/java/uk/ac/ed/inf/Order.java:149-171 | validation never gives Delivered or the catch-all Invalid |
| Orders.CountDecidesFirst | src/main/java/uk/ac/ed/inf/Order.java:151-154 | an item count outside 1..5 gives InvalidPizzaCount whatever the rest of the order is |
| Delivery.StepMoves | src/main/java/uk/ac/ed/inf/Drone.java:140-146 | one move per pair of consecutive path points |
| Delivery.LegMoveLegal | src/main/java/uk/ac/ed/inf/Drone.java:138-149 | each move of a leg along legal steps is legal and carries the order number |
| Delivery.LegIsChained | src/main/java/uk/ac/ed/inf/Drone.java:138-149 | each move of a leg starts where the one before it ended, and the first starts at the first step's end |
| Delivery.LegOfRoute | src/main/java/uk/ac/ed/inf/Drone.java:138-149 | a leg along a route has only legal moves, all for the order, and ends close to the leg's target |
| Delivery.RoundTripLegal | src/main/java/uk/ac/ed/inf/Drone.java:123-125 | joining two legal legs gives a legal path |
| Delivery.RoundTripFacts | src/main/java/uk/ac/ed/inf/Drone.java:111-127 | a full order path has at least four legal moves; every move carries the order number; it hovers close to the restaurant where the first leg ends, and hovers close to the start at its end; each leg's first move is one compass move from where the leg starts |
| Delivery.PollOrder | src/main/java/uk/ac/ed/inf/Drone.java:71 | `poll` removes an order whose estimate is no larger than that of any order left, and leaves exactly the others |
| Delivery.QueuedAppend | src/main/java/uk/ac/ed/inf/Drone.java:177-181 | adding a validated order with a known supplier keeps the queue's invariant |
| Delivery.NonDecreasingPairs | src/main/java/uk/ac/ed/inf/Drone.java:69-71 | delivery order in non-decreasing estimate holds pair by pair |
| Delivery.ScheduleStep | src/main/java/uk/ac/ed/inf/Drone.java:69-78 | delivering a polled order keeps the deliveries in non-decreasing estimate, with none waiting below the last |
| Delivery.Drone.constructor | src/main/java/uk/ac/ed/inf/Drone.java:51-58 | the drone starts at Appleton Tower with 2000 moves and an empty log, so conservation holds |
| Delivery.Drone.AddHoverMove | src/main/java/uk/ac/ed/inf/Drone.java:157-163 | fails exactly on an empty list; otherwise appends one hover at the last move's end, for the same order |
| Delivery.Drone.CreateDroneSteps | src/main/java/uk/ac/ed/inf/Drone.java:138-149 | succeeds exactly for two or more points; gives a move per consecutive pair, then a hover, all carrying the order number |
| Delivery.Drone.PlanLeg | src/main/java/uk/ac/ed/inf/Drone.java:114-115 | a planned leg follows a route to its target |
| Delivery.Drone.GetFullOrderPath | src/main/java/uk/ac/ed/inf/Drone.java:111-127 | the full path is the collection leg, from the drone to the restaurant, then the delivery leg, from where the first ended back to the start; its length is the sum of the two path lengths |
| Delivery.OnlyLegEndsStop | src/main/java/uk/ac/ed/inf/Drone.java:138-149 | in a full order path, every move but the last of each leg is a compass move, so the path stops only where a leg ends |
| Delivery.Drone.RoundTripOfRoutes | src/main/java/uk/ac/ed/inf/Drone.java:111-127 | the collection leg along a route to the restaurant joined with the delivery leg along a route back to the start is a round trip from where the first leg starts: at least four legal moves, all carrying the order number; its first move sets off one compass move from that position; it stops part-way, every part-way stop is close to the order's restaurant, and each departure from a stop is one compass move; it ends with a stop close to the start |
| Delivery.Drone.TripsPlannedStep | src/main/java/uk/ac/ed/inf/Drone.java:178-181 | queueing an order whose estimate is set to the length of its planned round trip keeps every queued order estimated by its own round trip |
| Delivery.Drone.PlanOrderTrip | src/main/java/uk/ac/ed/inf/Drone.java:111-127 | a planned trip is a round trip from the drone's current position: at least four legal moves, all carrying the order number; its first move sets off one compass move from that position; it stops part-way, every part-way stop is close to the order's restaurant, and each departure from a stop is one compass move; it ends with a stop close to the start |
| Delivery.Drone.EstimateOrder | src/main/java/uk/ac/ed/inf/Drone.java:177-181 | the order is queued exactly when its verdict is ValidButNotDelivered, and its outcome is then that verdict; a queued order's estimate is the length of its planned trip, which is a round trip from the drone's current position: at least four legal moves, all carrying the order number; its first move sets off one compass move from that position; it stops part-way, every part-way stop is close to the order's restaurant, and each departure from a stop is one compass move; it ends with a stop close to the start; any other order keeps its estimate |
| Delivery.Drone.JudgeNext | src/main/java/uk/ac/ed/inf/Drone.java:176-182 | one pass of the loop: after judging one more order, the judged orders carry their verdicts, exactly the valid ones are queued, each with a participating supplier and an estimate equal to the length of a trip planned for it from the drone's position via that supplier (`TripsPlanned`), and the others keep their estimates |
| Delivery.Drone.GetOrderQueue | src/main/java/uk/ac/ed/inf/Drone.java:171-185 | the queue holds exactly the orders validated as ValidButNotDelivered, each once; every order's outcome is its verdict; each queued order's supplier is a participant and its estimate is the length of a trip planned for it, which is a round trip from the drone's current position: at least four legal moves, all carrying the order number; its first move sets off one compass move from that position; it stops part-way, every part-way stop is close to the order's restaurant, and each departure from a stop is one compass move; it ends with a stop close to the start; every order not queued keeps its estimate |
| Delivery.Drone.DeliverIfItFits | src/main/java/uk/ac/ed/inf/Drone.java:73-81 | re-plans the order's trip, which is a round trip from the drone's current position: at least four legal moves, all carrying the order number; its first move sets off one compass move from that position; it stops part-way, every part-way stop is close to the order's restaurant, and each departure from a stop is one compass move; it ends with a stop close to the start; delivers exactly when its length is within the moves left; a delivery appends the trip to the log, spends one move per move, ends at the trip's last point and marks the order Delivered; otherwise drone and order stay unchanged |
| Delivery.Drone.DeliverNext | src/main/java/uk/ac/ed/inf/Drone.java:69-82 | one turn polls a waiting order of least estimate, re-plans its trip, which is a round trip from the drone's current position: at least four legal moves, all carrying the order number; its first move sets off one compass move from that position; it stops part-way, every part-way stop is close to the order's restaurant, and each departure from a stop is one compass move; it ends with a stop close to the start, and delivers it exactly when that trip fits in the moves left; the turn keeps the schedule and the outcomes, and a turn that delivers nothing changes neither |
| Delivery.Drone.DeliverQueue | src/main/java/uk/ac/ed/inf/Drone.java:69-82 | delivered orders are queued orders, in non-decreasing estimate; every queued order is Delivered or still ValidButNotDelivered; the loop either delivers every queued order or stops at an undelivered one of least estimate whose trip, re-planned from where the drone stops as a round trip via its restaurant (`StopsAt`), exceeds the moves left; the log only grows, and conservation holds |
| Delivery.Drone.DeliverOrders | src/main/java/uk/ac/ed/inf/Drone.java:66-83 | the queue is exactly the orders validated as ValidButNotDelivered; each has a participating supplier and is estimated by the length of a round trip planned for it from the drone's starting position via that supplier; every delivered order was valid and is now Delivered, in non-decreasing estimate; every other order keeps the outcome validation gave it; either every queued order is delivered, or delivery stops at an undelivered one of least estimate whose trip, re-planned from where the drone stops as a round trip via its restaurant, exceeds the moves left; the log only grows, and conservation holds |
| Delivery.Drone.DeliverOrder | src/main/java/uk/ac/ed/inf/Drone.java:93-100 | appends the path to the log in order, ends at the last move's end, spends one move per move and marks the order Delivered; conservation is kept |

## Left out

- Fetching from the REST server, JSON handling and the console entry point are not part of this model (`DataFetcher`, `ResponseFetcher`, `Response`, `WorldState`, `JsonMaker`, `App`). The orders, restaurants, no-fly zones and central area they fetch are parameters instead.
- `Node.java` is not part of this model. The search node follows `PathStep.java`.
- IEEE doubles and the JDK's `Math.sqrt`, `Math.pow`, `Math.cos`, `Math.sin`, `Math.toRadians` and `Line2D.intersectsLine` are not modelled. Coordinates are exact reals, and the library routines are uninterpreted functions in `Positions.Platform`.
- `System.nanoTime` readings are arbitrary integers. Tick values in moves and steps are therefore unconstrained.
- `PathFinding.FindPath`: polls at most `fuel` nodes and then returns `OutOfFuel`. The source loops until its open list empties, which need not happen on an unbounded plane. Only partial correctness (what a returned path satisfies) is proved.
- `PathFinding.PollMin`: takes the first node of least f cost. The source's `PriorityQueue` breaks ties by its heap layout. `Delivery.PollOrder` does the same for `movesToDeliver`.
- `PathSteps.PathStep.HashCode`: is given the `LngLat` record hash as a parameter. `Objects.hash` on records is library code.
- `PathStep`'s `orderNo` field, with `setOrderNo`/`getOrderNo`, is not modelled. Nothing in the modelled code reads or writes it. The plain getters of `PathStep`, `Order` and `Drone` are field reads.
- Java's 32-bit wrap-around is modelled only in the delivery cost (`JavaInts.Wrap32`). Move counts, step counts and ticks are unbounded integers, because the search is bounded far below 2^31 steps.
- `Orders.ParseOrderDate`: models `LocalDate.parse` with pattern `yyyy-MM-dd` as four year digits, a month from 1 to 12 and a day from 1 to 31. A day past the end of its month is clamped. Other features of the formatter are not modelled. The `String.matches` regular expressions are character predicates.
- `NoFlyZones.NoFlyZone.GetCoordinatesLngLat`: requires every coordinate row to have at least two entries. The source would throw `ArrayIndexOutOfBoundsException` on a shorter row.
- `Delivery.Drone.DeliverOrders`: states the delivery order as non-decreasing `movesToDeliver` along the delivered orders. It does not state that `PriorityQueue.poll` re-reads estimates, because no estimate changes during delivery.
