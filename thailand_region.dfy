/**
 * The static region polygon: a GeoJSON Feature whose geometry is a Polygon
 * with a single closed linear ring of `[longitude, latitude]` positions.
 */
module ThailandRegion {

  /** A GeoJSON position; GeoJSON puts the longitude first. */
  datatype Position = Position(lon: real, lat: real)

  /** The Polygon's `coordinates`: a list of linear rings. */
  const Coordinates: seq<seq<Position>> := [
    [
      Position(97.343, 5.613),
      Position(105.637, 5.613),
      Position(105.637, 20.465),
      Position(97.343, 20.465),
      Position(97.343, 5.613)
    ]
  ]

  /** The outer (and only) ring. */
  const Ring: seq<Position> := Coordinates[0]

  /** Smallest and largest longitude and latitude of a ring. */
  datatype Extent = Extent(minLon: real, minLat: real, maxLon: real, maxLat: real)

  function Min(a: real, b: real): real { if a <= b then a else b }
  function Max(a: real, b: real): real { if a <= b then b else a }

  /** The bounding box of a non-empty ring: it holds every position and each bound is attained. */
  function RingExtent(ring: seq<Position>): (e: Extent)
    requires |ring| > 0
    ensures forall i :: 0 <= i < |ring| ==>
      e.minLon <= ring[i].lon <= e.maxLon && e.minLat <= ring[i].lat <= e.maxLat
    ensures exists i :: 0 <= i < |ring| && ring[i].lon == e.minLon
    ensures exists i :: 0 <= i < |ring| && ring[i].lon == e.maxLon
    ensures exists i :: 0 <= i < |ring| && ring[i].lat == e.minLat
    ensures exists i :: 0 <= i < |ring| && ring[i].lat == e.maxLat
  {
    if |ring| == 1 then
      Extent(ring[0].lon, ring[0].lat, ring[0].lon, ring[0].lat)
    else
      var rest := RingExtent(ring[1..]);
      assert forall i :: 1 <= i < |ring| ==> ring[i] == ring[1..][i - 1];
      Extent(Min(ring[0].lon, rest.minLon), Min(ring[0].lat, rest.minLat),
             Max(ring[0].lon, rest.maxLon), Max(ring[0].lat, rest.maxLat))
  }

  /** The region's extent, computed from its ring. */
  lemma RegionExtent()
    ensures RingExtent(Ring) == Extent(97.343, 5.613, 105.637, 20.465)
  {
    var e := RingExtent(Ring);
    RingIsClosedRectangle();
    assert e.minLon <= 97.343 && e.maxLon >= 105.637 && e.minLat <= 5.613 && e.maxLat >= 20.465 by {
      assert Ring[0] == Position(97.343, 5.613) && Ring[2] == Position(105.637, 20.465);
    }
    var a :| 0 <= a < |Ring| && Ring[a].lon == e.minLon;
    var b :| 0 <= b < |Ring| && Ring[b].lon == e.maxLon;
    var c :| 0 <= c < |Ring| && Ring[c].lat == e.minLat;
    var d :| 0 <= d < |Ring| && Ring[d].lat == e.maxLat;
    assert Ring[a].lon in {97.343, 105.637} && Ring[b].lon in {97.343, 105.637};
    assert Ring[c].lat in {5.613, 20.465} && Ring[d].lat in {5.613, 20.465};
  }

  /**
   * The shape of the constant: one ring of five positions, closed (last equals
   * first), whose four distinct corners use only two longitudes and two
   * latitudes, each edge changing exactly one coordinate.
   */
  lemma RingIsClosedRectangle()
    ensures |Coordinates| == 1 && |Ring| == 5
    ensures Ring[0] == Ring[|Ring| - 1]
    ensures forall i, j :: 0 <= i < j < 4 ==> Ring[i] != Ring[j]
    ensures forall i :: 0 <= i < |Ring| ==>
      Ring[i].lon in {97.343, 105.637} && Ring[i].lat in {5.613, 20.465}
    ensures forall i :: 0 <= i < |Ring| - 1 ==>
      (Ring[i].lon == Ring[i + 1].lon) != (Ring[i].lat == Ring[i + 1].lat)
    ensures 97.343 < 105.637 && 5.613 < 20.465
  {
  }

  /**
   * Containment of a point `[lon, lat]` in the ring, boundary included. For an
   * axis-aligned rectangle (RingIsClosedRectangle) this is the ring's bounding box.
   */
  predicate InRectangularRing(p: Position, ring: seq<Position>)
    requires |ring| > 0
  {
    var e := RingExtent(ring);
    e.minLon <= p.lon <= e.maxLon && e.minLat <= p.lat <= e.maxLat
  }
}
