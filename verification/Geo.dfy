/** Ray casting over a GeoJSON outer ring. On which side of an edge the point lies is left abstract: `right`
    says of an edge, given from its previous vertex to its next, whether a ray to the east meets it. */
module Geo {
  datatype Point = Point(lng: real, lat: real)

  type Side = (Point, Point) -> bool

  predicate Straddles(a: Point, b: Point, lat: real) {
    (b.lat > lat) != (a.lat > lat)
  }

  predicate Crosses(a: Point, b: Point, lat: real, right: Side) {
    Straddles(a, b, lat) && right(a, b)
  }

  /** Crossed edges along an open path. */
  function Path(s: seq<Point>, lat: real, right: Side): nat {
    if |s| <= 1 then 0
    else Path(s[..|s| - 1], lat, right) + if Crosses(s[|s| - 2], s[|s| - 1], lat, right) then 1 else 0
  }

  /** Crossed edges of the ring, the edge from its last vertex back to its first included. */
  function Crossings(ring: seq<Point>, lat: real, right: Side): nat {
    if ring == [] then 0 else Path([ring[|ring| - 1]] + ring, lat, right)
  }

  predicate Inside(ring: seq<Point>, lat: real, right: Side) {
    Crossings(ring, lat, right) % 2 == 1
  }

  method PointInPolygon(ring: seq<Point>, lat: real, right: Side) returns (inside: bool)
    ensures inside == Inside(ring, lat, right)
  {
    inside := false;
    if ring == [] {
      return;
    }
    var j := |ring| - 1;
    ghost var walk := [ring[j]] + ring;
    for i := 0 to |ring|
      invariant j == if i == 0 then |ring| - 1 else i - 1
      invariant inside == (Path(walk[..i + 1], lat, right) % 2 == 1)
    {
      assert walk[..i + 2][..i + 1] == walk[..i + 1];
      if Straddles(ring[j], ring[i], lat) && right(ring[j], ring[i]) {
        inside := !inside;
      }
      j := i;
    }
    assert walk[..|ring| + 1] == walk;
  }

  lemma {:induction false} PathJoins(s: seq<Point>, t: seq<Point>, lat: real, right: Side)
    requires s != [] && t != []
    ensures Path(s + t, lat, right) == Path(s, lat, right) + Path([s[|s| - 1]] + t, lat, right)
    decreases |t|
  {
    var n := |t| - 1;
    var m := [s[|s| - 1]] + t;
    assert (s + t)[..|s| + n] == s + t[..n];
    assert m[..n + 1] == [s[|s| - 1]] + t[..n];
    if n == 0 {
      assert s + t[..0] == s;
    } else {
      PathJoins(s, t[..n], lat, right);
    }
  }

  /** The answer does not depend on the vertex the ring starts at. */
  lemma RotationKeepsInside(ring: seq<Point>, k: nat, lat: real, right: Side)
    requires k <= |ring|
    ensures Crossings(ring[k..] + ring[..k], lat, right) == Crossings(ring, lat, right)
  {
    var a, b := ring[..k], ring[k..];
    assert ring == a + b;
    if a == [] || b == [] {
      assert b + a == ring;
    } else {
      var firstA, lastA, lastB := [a[0]], [a[|a| - 1]], [b[|b| - 1]];
      assert lastB + ring == (lastB + a) + b && lastA + (b + a) == (lastA + b) + a;
      PathJoins(lastB + a, b, lat, right);
      PathJoins(lastA + b, a, lat, right);
    }
  }

  /** Adding the repeated closing vertex of section 3.1.6 of RFC 7946, or dropping it, changes nothing. */
  lemma ClosingVertexIsIdle(ring: seq<Point>, lat: real, right: Side)
    requires ring != []
    ensures Crossings(ring + [ring[0]], lat, right) == Crossings(ring, lat, right)
  {
    var first, last := [ring[0]], [ring[|ring| - 1]];
    assert first + (ring + first) == (first + ring) + first;
    PathJoins(first + ring, first, lat, right);
    PathJoins(first, ring, lat, right);
    StartDoesNotMatter(ring, lat, right);
  }

  lemma StartDoesNotMatter(ring: seq<Point>, lat: real, right: Side)
    requires ring != []
    ensures Path([ring[0]] + ring, lat, right) + Path([ring[|ring| - 1], ring[0]], lat, right) ==
            Path([ring[|ring| - 1]] + ring, lat, right)
  {
    var first, last := ring[0], ring[|ring| - 1];
    var rest := ring[1..];
    assert [first] + ring == [first, first] + rest && [last] + ring == [last, first] + rest;
    if rest != [] {
      PathJoins([first, first], rest, lat, right);
      PathJoins([last, first], rest, lat, right);
    } else {
      assert [first, first] + rest == [first, first] && [last, first] + rest == [last, first];
    }
  }

  /** Along a path the edges that straddle a latitude are odd in number exactly when it ends on the other side. */
  lemma {:induction false} StraddlesOnPath(s: seq<Point>, lat: real)
    requires s != []
    ensures Path(s, lat, (a, b) => true) % 2 == 1 <==> Straddles(s[0], s[|s| - 1], lat)
    decreases |s|
  {
    if |s| > 1 {
      StraddlesOnPath(s[..|s| - 1], lat);
    }
  }

  /** Every horizontal line straddles an even number of ring edges. */
  lemma EvenStraddles(ring: seq<Point>, lat: real)
    ensures Crossings(ring, lat, (a, b) => true) % 2 == 0
  {
    if ring != [] {
      StraddlesOnPath([ring[|ring| - 1]] + ring, lat);
    }
  }

  lemma {:induction false} SidesAddUp(s: seq<Point>, lat: real, right: Side)
    ensures Path(s, lat, right) + Path(s, lat, (a, b) => !right(a, b)) == Path(s, lat, (a, b) => true)
    decreases |s|
  {
    if |s| > 1 {
      SidesAddUp(s[..|s| - 1], lat, right);
    }
  }

  /** Counting the straddling edges to the west of the point instead of those to the east gives the same answer. */
  lemma EitherRayWillDo(ring: seq<Point>, lat: real, right: Side)
    ensures Inside(ring, lat, right) <==> Inside(ring, lat, (a, b) => !right(a, b))
  {
    if ring != [] {
      EvenStraddles(ring, lat);
      SidesAddUp([ring[|ring| - 1]] + ring, lat, right);
    }
  }

  // ---- Where it says inside and where outside -------------------------------------------------------------

  lemma {:induction false} NoneCrossed(s: seq<Point>, lat: real, right: Side)
    requires forall i | 0 <= i < |s| - 1 :: !Crosses(s[i], s[i + 1], lat, right)
    ensures Path(s, lat, right) == 0
    decreases |s|
  {
    if |s| > 1 {
      var t := s[..|s| - 1];
      assert forall i | 0 <= i < |t| :: t[i] == s[i];
      NoneCrossed(t, lat, right);
    }
  }

  /** A point level with or above every vertex, or below every vertex, is outside. */
  lemma OutsideTheBand(ring: seq<Point>, lat: real, right: Side)
    requires (forall p | p in ring :: p.lat <= lat) || (forall p | p in ring :: p.lat > lat)
    ensures !Inside(ring, lat, right)
  {
    if ring != [] {
      NoneCrossed([ring[|ring| - 1]] + ring, lat, right);
    }
  }

  lemma {:induction false} SamePath(s: seq<Point>, lat: real, right: Side, other: Side)
    requires forall i | 0 <= i < |s| - 1 && Straddles(s[i], s[i + 1], lat) :: right(s[i], s[i + 1]) == other(s[i], s[i + 1])
    ensures Path(s, lat, right) == Path(s, lat, other)
    decreases |s|
  {
    if |s| > 1 {
      var t := s[..|s| - 1];
      assert forall i | 0 <= i < |t| :: t[i] == s[i];
      SamePath(t, lat, right, other);
    }
  }

  /** A point that lies on one side of all the edges it is level with is outside. */
  lemma OutsideAllEdges(ring: seq<Point>, lat: real, right: Side, east: bool)
    requires ring != []
    requires var walk := [ring[|ring| - 1]] + ring;
             forall i | 0 <= i < |ring| && Straddles(walk[i], walk[i + 1], lat) :: right(walk[i], walk[i + 1]) == east
    ensures !Inside(ring, lat, right)
  {
    var walk := [ring[|ring| - 1]] + ring;
    if east {
      SamePath(walk, lat, right, (a, b) => true);
      EvenStraddles(ring, lat);
    } else {
      NoneCrossed(walk, lat, right);
    }
  }

  /** Which edges a ray from longitude `lng` to the east meets, in exact arithmetic: the program's formula, with its
      small constant that keeps the divisor of a level edge from zero. */
  function East(lng: real, lat: real): Side {
    (a: Point, b: Point) =>
      var slope := a.lat - b.lat + 0.000000000000001;
      slope != 0.0 && lng < (a.lng - b.lng) * (lat - b.lat) / slope + b.lng
  }

  /** Of a rectangle exactly the points from its western up to its eastern side and from its southern up to its northern
      one are inside; the western and southern sides belong to it, the others do not. (A rectangle exactly as high as
      the small constant would make the program divide by zero.) */
  lemma RectangleExactly(west: real, south: real, east: real, north: real, lng: real, lat: real)
    requires west < east && south < north && north - south != 0.000000000000001
    ensures Inside([Point(west, south), Point(east, south), Point(east, north), Point(west, north)], lat, East(lng, lat)) <==>
            west <= lng < east && south <= lat < north
  {
    var ring := [Point(west, south), Point(east, south), Point(east, north), Point(west, north)];
    var walk := [ring[3]] + ring;
    var right := East(lng, lat);
    assert walk[..5] == walk && walk[..4][..3] == walk[..3] && walk[..3][..2] == walk[..2];
    assert Path(walk[..1], lat, right) == 0;
    assert walk[..2][..1] == walk[..1];
    assert Path(walk[..2], lat, right) == if Crosses(walk[0], walk[1], lat, right) then 1 else 0;
    assert Path(walk[..3], lat, right) == Path(walk[..2], lat, right);
    assert Path(walk[..4], lat, right) == Path(walk[..3], lat, right) + if Crosses(walk[2], walk[3], lat, right) then 1 else 0;
    assert walk[..5][..4] == walk[..4];
    assert Path(walk, lat, right) == Path(walk[..4], lat, right);
    UprightEdge(west, north, south, lng, lat);
    UprightEdge(east, south, north, lng, lat);
  }

  /** An upright edge is met from the west of it. */
  lemma UprightEdge(x: real, from: real, to: real, lng: real, lat: real)
    requires from - to != -0.000000000000001
    ensures East(lng, lat)(Point(x, from), Point(x, to)) <==> lng < x
  {
    var slope := from - to + 0.000000000000001;
    assert (x - x) * (lat - to) == 0.0;
    assert 0.0 / slope == 0.0;
  }

  // ---- One polygon inside another --------------------------------------------------------------------------

  /** The ring without its repeated closing vertex. */
  function Vertices(ring: seq<Point>): seq<Point> {
    if |ring| > 1 && ring[0] == ring[|ring| - 1] then ring[..|ring| - 1] else ring
  }

  predicate FullyContained(inner: seq<Point>, outer: seq<Point>, east: Point -> Side) {
    forall p | p in Vertices(inner) :: Inside(outer, p.lat, east(p))
  }

  method PolygonFullyContained(inner: seq<Point>, outer: seq<Point>, east: Point -> Side) returns (all: bool)
    ensures all <==> FullyContained(inner, outer, east)
  {
    var pts := Vertices(inner);
    for i := 0 to |pts|
      invariant forall p | p in pts[..i] :: Inside(outer, p.lat, east(p))
    {
      assert pts[..i + 1] == pts[..i] + [pts[i]];
      var inside := PointInPolygon(outer, pts[i].lat, east(pts[i]));
      if !inside {
        return false;
      }
    }
    assert pts[..|pts|] == pts;
    return true;
  }

  /** A polygon lies in a rectangle exactly if each of its vertices does. */
  lemma RectangleContains(inner: seq<Point>, west: real, south: real, east: real, north: real)
    requires west < east && south < north && north - south != 0.000000000000001
    ensures FullyContained(inner, [Point(west, south), Point(east, south), Point(east, north), Point(west, north)],
                           (p: Point) => East(p.lng, p.lat)) <==>
            forall p | p in inner :: west <= p.lng < east && south <= p.lat < north
  {
    var ring := [Point(west, south), Point(east, south), Point(east, north), Point(west, north)];
    forall p: Point ensures Inside(ring, p.lat, East(p.lng, p.lat)) <==> west <= p.lng < east && south <= p.lat < north {
      RectangleExactly(west, south, east, north, p.lng, p.lat);
    }
    SameVertices(inner);
    hide Inside, Vertices, East;
  }

  lemma SameVertices(ring: seq<Point>)
    ensures forall p :: p in Vertices(ring) <==> p in ring
  {
    forall p | p in ring ensures p in Vertices(ring) {
      var i :| 0 <= i < |ring| && ring[i] == p;
      if |ring| > 1 && ring[0] == ring[|ring| - 1] {
        assert Vertices(ring)[if i == |ring| - 1 then 0 else i] == p;
      }
    }
  }

  /** Containment is the same whether either ring repeats its first vertex at the end or not, and wherever the
      outer ring starts. */
  lemma ContainmentIgnoresNotation(inner: seq<Point>, outer: seq<Point>, k: nat, east: Point -> Side)
    requires inner != [] && outer != [] && k <= |outer|
    ensures FullyContained(inner + [inner[0]], outer, east) <==> FullyContained(inner, outer, east)
    ensures FullyContained(inner, outer + [outer[0]], east) <==> FullyContained(inner, outer, east)
    ensures FullyContained(inner, outer[k..] + outer[..k], east) <==> FullyContained(inner, outer, east)
  {
    assert Vertices(inner + [inner[0]]) == inner;
    forall p ensures p in Vertices(inner) <==> p in inner {
      if p in inner && |inner| > 1 && inner[0] == inner[|inner| - 1] {
        var i :| 0 <= i < |inner| && inner[i] == p;
        assert Vertices(inner)[if i == |inner| - 1 then 0 else i] == p;
      }
    }
    forall p: Point
      ensures Inside(outer + [outer[0]], p.lat, east(p)) == Inside(outer, p.lat, east(p))
      ensures Inside(outer[k..] + outer[..k], p.lat, east(p)) == Inside(outer, p.lat, east(p)) {
      ClosingVertexIsIdle(outer, p.lat, east(p));
      RotationKeepsInside(outer, k, p.lat, east(p));
    }
  }
}
