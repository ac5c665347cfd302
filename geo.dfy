/**
  Captured points, the traversal path of a route (`[start?, waypoints..., end?]`)
  and the distance summed along it (script.js:68-91).
 */
module Geo {
  import opened Wrappers

  /** A captured position, latitude and longitude in micro-degrees. The source never checks bounds. */
  datatype Point = Point(lat: int, lon: int)

  /** The pair distance in kilometres. The source computes it with the haversine formula in floating point; here it is a parameter. */
  type Distance = (Point, Point) -> real

  ghost predicate NonNegative(dist: Distance)
  {
    forall p, q :: dist(p, q) >= 0.0
  }

  /** The one-element list for a present endpoint, the empty list for an absent one. */
  function Endpoint(e: Option<Point>): (s: seq<Point>)
    ensures |s| == if e.Some? then 1 else 0
    ensures e.Some? ==> s[0] == e.value
  {
    if e.Some? then [e.value] else []
  }

  /**
    The path drawn and measured: the start point if set, the waypoints in capture order,
    the end point if set. Absent endpoints are left out, never padded.
   */
  function AssemblePath(start: Option<Point>, waypoints: seq<Point>, end: Option<Point>): (path: seq<Point>)
    ensures |path| == |waypoints| + (if start.Some? then 1 else 0) + (if end.Some? then 1 else 0)
    ensures start.Some? ==> path[0] == start.value
    ensures end.Some? ==> path[|path| - 1] == end.value
    ensures forall i :: 0 <= i < |waypoints| ==>
      path[i + (if start.Some? then 1 else 0)] == waypoints[i]
  {
    Endpoint(start) + waypoints + Endpoint(end)
  }

  /** The sum of `dist` over every consecutive pair of `path`, accumulated front to back. */
  function PathSum(path: seq<Point>, dist: Distance): (r: real)
    ensures |path| < 2 ==> r == 0.0
    ensures NonNegative(dist) ==> r >= 0.0
  {
    if |path| < 2 then 0.0
    else PathSum(path[..|path| - 1], dist) + dist(path[|path| - 2], path[|path| - 1])
  }

  /** Appending a point adds exactly the distance from the old last point to it. */
  lemma PathSumAppend(path: seq<Point>, q: Point, dist: Distance)
    ensures PathSum(path + [q], dist) ==
      PathSum(path, dist) + (if |path| == 0 then 0.0 else dist(path[|path| - 1], q))
  {
    assert (path + [q])[..|path|] == path;
  }

  /** Appending a point at the end of the path never decreases the total. */
  lemma AppendNeverDecreases(path: seq<Point>, q: Point, dist: Distance)
    requires NonNegative(dist)
    ensures PathSum(path + [q], dist) >= PathSum(path, dist)
  {
    PathSumAppend(path, q, dist);
  }

  /** Prepending a point adds exactly the distance from it to the old first point. */
  lemma {:induction false} PathSumPrepend(q: Point, path: seq<Point>, dist: Distance)
    ensures PathSum([q] + path, dist) ==
      (if |path| == 0 then 0.0 else dist(q, path[0])) + PathSum(path, dist)
  {
    if |path| >= 2 {
      var init := path[..|path| - 1];
      assert ([q] + path)[..|path|] == [q] + init;
      PathSumPrepend(q, init, dist);
    } else if |path| == 1 {
      assert ([q] + path)[..1] == [q];
    }
  }

  /** Prepending a point at the front of the path never decreases the total. */
  lemma PrependNeverDecreases(q: Point, path: seq<Point>, dist: Distance)
    requires NonNegative(dist)
    ensures PathSum([q] + path, dist) >= PathSum(path, dist)
  {
    PathSumPrepend(q, path, dist);
  }

  /** Capturing a waypoint while no end point is set appends it to the path, so the total never drops. */
  lemma AddWaypointNeverShortens(start: Option<Point>, waypoints: seq<Point>, p: Point, dist: Distance)
    requires NonNegative(dist)
    ensures AssemblePath(start, waypoints + [p], None) == AssemblePath(start, waypoints, None) + [p]
    ensures PathSum(AssemblePath(start, waypoints + [p], None), dist) >=
            PathSum(AssemblePath(start, waypoints, None), dist)
  {
    assert AssemblePath(start, waypoints + [p], None) == AssemblePath(start, waypoints, None) + [p];
    AppendNeverDecreases(AssemblePath(start, waypoints, None), p, dist);
  }

  /** Capturing the first end point appends it to the path, so the total never drops. */
  lemma SetEndNeverShortens(start: Option<Point>, waypoints: seq<Point>, p: Point, dist: Distance)
    requires NonNegative(dist)
    ensures AssemblePath(start, waypoints, Some(p)) == AssemblePath(start, waypoints, None) + [p]
    ensures PathSum(AssemblePath(start, waypoints, Some(p)), dist) >=
            PathSum(AssemblePath(start, waypoints, None), dist)
  {
    AppendNeverDecreases(AssemblePath(start, waypoints, None), p, dist);
  }

  /** Capturing the first start point prepends it to the path, so the total never drops. */
  lemma SetStartNeverShortens(p: Point, waypoints: seq<Point>, end: Option<Point>, dist: Distance)
    requires NonNegative(dist)
    ensures AssemblePath(Some(p), waypoints, end) == [p] + AssemblePath(None, waypoints, end)
    ensures PathSum(AssemblePath(Some(p), waypoints, end), dist) >=
            PathSum(AssemblePath(None, waypoints, end), dist)
  {
    assert AssemblePath(Some(p), waypoints, end) == [p] + AssemblePath(None, waypoints, end);
    PrependNeverDecreases(p, AssemblePath(None, waypoints, end), dist);
  }
}
