/** No-fly zones (NoFlyZone.java): a polygon read as raw coordinate rows, converted lazily. */
module NoFlyZones {
  import opened Positions

  /** Every coordinate row has the longitude and latitude the conversion indexes. */
  predicate RowsWellFormed(coordinates: seq<seq<real>>)
  {
    forall i :: 0 <= i < |coordinates| ==> |coordinates[i]| >= 2
  }

  /** Row `i` read as a point: `new LngLat(coordinates[i][0], coordinates[i][1])`. */
  function Vertex(coordinates: seq<seq<real>>, i: int): LngLat
    requires 0 <= i < |coordinates| && |coordinates[i]| >= 2
  {
    LngLat(coordinates[i][0], coordinates[i][1])
  }

  /** The whole conversion, one point per row, in row order. */
  function ToLngLats(coordinates: seq<seq<real>>): (vs: seq<LngLat>)
    requires RowsWellFormed(coordinates)
    ensures |vs| == |coordinates|
    ensures forall i :: 0 <= i < |vs| ==> vs[i] == Vertex(coordinates, i)
  {
    if |coordinates| == 0 then []
    else ToLngLats(coordinates[..|coordinates| - 1]) + [Vertex(coordinates, |coordinates| - 1)]
  }

  class NoFlyZone {
    const name: string
    /** The `double[][]` rows as received; never changed. */
    const coordinates: seq<seq<real>>
    /** The memoised conversion; null until first asked for. */
    var coordinatesLngLat: array?<LngLat>

    /** The cache, once filled, holds the conversion of `coordinates`. */
    ghost predicate Valid()
      reads this, coordinatesLngLat
    {
      coordinatesLngLat != null ==>
        RowsWellFormed(coordinates) && coordinatesLngLat[..] == ToLngLats(coordinates)
    }

    constructor (name: string, coordinates: seq<seq<real>>)
      ensures this.name == name && this.coordinates == coordinates
      ensures coordinatesLngLat == null && Valid()
    {
      this.name := name;
      this.coordinates := coordinates;
      coordinatesLngLat := null;
    }

    /** The polygon's vertices, converted at the first call and returned from the cache afterwards. */
    ghost function Vertices(): seq<LngLat>
      requires RowsWellFormed(coordinates)
    {
      ToLngLats(coordinates)
    }

    /** `getCoordinatesLngLat`. A row with fewer than two entries would make the source throw. */
    method GetCoordinatesLngLat() returns (vs: array<LngLat>)
      requires Valid() && RowsWellFormed(coordinates)
      modifies this
      ensures Valid() && coordinatesLngLat == vs
      ensures vs[..] == Vertices()
      ensures old(coordinatesLngLat) != null ==> vs == old(coordinatesLngLat)
      ensures old(coordinatesLngLat) == null ==> fresh(vs)
    {
      if coordinatesLngLat == null {
        var converted := new LngLat[|coordinates|];
        coordinatesLngLat := converted;
        for i := 0 to |coordinates|
          invariant coordinatesLngLat == converted
          invariant forall k :: 0 <= k < i ==> converted[k] == Vertex(coordinates, k)
        {
          converted[i] := Vertex(coordinates, i);
        }
        assert converted[..] == ToLngLats(coordinates);
      }
      vs := coordinatesLngLat;
    }
  }
}
