/**
  The route controller: the module-level state of script.js (lines 2-6), the value of the
  route-title field and the browser's localStorage, with the operations that change them.
  Map markers, the drawn line, alerts and text on the page are not modelled; where an
  operation only renders, the method returns what would be rendered.
 */
module Tracker {
  import opened Wrappers
  import opened Geo
  import opened Clock
  import opened Names
  import opened Persist

  /** The one localStorage key the page uses. */
  const SavedRouteKey := "savedRoute"

  /** What calculateDistance writes on the page: total distance in km and the elapsed-time text. */
  datatype Metrics = Metrics(km: real, time: TimeDisplay)

  /** How importRoute ends: no file chosen, the route replaced, or the error alert. */
  datatype ImportOutcome = NoFile | Imported | ImportError

  class RouteTracker {
    var startCoords: Option<Point>
    var endCoords: Option<Point>
    var waypoints: seq<Point>
    var startTime: Option<Date>
    var endTime: Option<Date>
    /** The text of the route-title input. */
    var title: string
    /** localStorage. */
    var storage: map<string, JsonText>

    function Current(): Route
      reads this
    {
      Route(startCoords, endCoords, waypoints, startTime, endTime)
    }

    function Path(): seq<Point>
      reads this
    {
      AssemblePath(startCoords, waypoints, endCoords)
    }

    /**
      The top-level state of script.js:2-6: every route variable empty, storage as the
      browser kept it. The load that `window.onload` then runs is a separate
      LoadFromLocalStorage() call.
     */
    constructor (stored: map<string, JsonText>)
      ensures Current() == EmptyRoute && title == [] && storage == stored
    {
      startCoords, endCoords, waypoints := None, None, [];
      startTime, endTime := None, None;
      title := [];
      storage := stored;
    }

    /** The saveStart callback: the captured point and the capture time replace the start together. */
    method SaveStart(p: Point, now: int)
      modifies this
      ensures Current() == old(Current()).(start := Some(p), startTime := Some(At(now)))
      ensures title == old(title) && storage == old(storage)
      ensures Paired(old(Current())) ==> Paired(Current())
    {
      startCoords := Some(p);
      startTime := Some(At(now));
    }

    /** The saveEnd callback: the captured point and the capture time replace the end together. */
    method SaveEnd(p: Point, now: int)
      modifies this
      ensures Current() == old(Current()).(end := Some(p), endTime := Some(At(now)))
      ensures title == old(title) && storage == old(storage)
      ensures Paired(old(Current())) ==> Paired(Current())
    {
      endCoords := Some(p);
      endTime := Some(At(now));
    }

    /** The addWaypoint callback: appends the point and returns its 1-based marker label. */
    method AddWaypoint(p: Point) returns (index: nat)
      modifies this
      ensures Current() == old(Current()).(waypoints := old(waypoints) + [p])
      ensures title == old(title) && storage == old(storage)
      ensures index == |waypoints| && index >= 1 && waypoints[index - 1] == p
      ensures old(endCoords).None? ==> Path() == old(Path()) + [p]
    {
      waypoints := waypoints + [p];
      index := |waypoints|;
    }

    /** The point list of drawRoute and calculateDistance, built by pushes in path order. */
    method BuildPath() returns (points: seq<Point>)
      ensures points == Path()
    {
      points := [];
      if startCoords.Some? {
        points := points + [startCoords.value];
      }
      var i := 0;
      while i < |waypoints|
        invariant 0 <= i <= |waypoints|
        invariant points == Endpoint(startCoords) + waypoints[..i]
      {
        points := points + [waypoints[i]];
        i := i + 1;
      }
      assert waypoints[..i] == waypoints;
      if endCoords.Some? {
        points := points + [endCoords.value];
      }
    }

    /** drawRoute: the polyline is drawn only through two or more points. */
    method DrawRoute() returns (line: Option<seq<Point>>)
      ensures line.Some? <==> |waypoints| + (if startCoords.Some? then 1 else 0) + (if endCoords.Some? then 1 else 0) >= 2
      ensures line.Some? ==> line.value == Path()
    {
      var points := BuildPath();
      if |points| >= 2 {
        line := Some(points);
      } else {
        line := None;
      }
    }

    /**
      calculateDistance: None for the early return when the path has fewer than two points,
      otherwise the sum of `dist` over consecutive path points and the elapsed-time text.
     */
    method CalculateDistance(dist: Distance) returns (r: Option<Metrics>)
      ensures r.None? <==> |Path()| < 2
      ensures r.Some? ==> r.value.km == PathSum(Path(), dist)
      ensures r.Some? ==> r.value.time == ShownTime(startTime, endTime)
      ensures r.Some? && NonNegative(dist) ==> r.value.km >= 0.0
    {
      var all := BuildPath();
      if |all| < 2 {
        return None;
      }
      var sum := 0.0;
      var i := 0;
      while i < |all| - 1
        invariant 0 <= i <= |all| - 1
        invariant sum == PathSum(all[..i + 1], dist)
      {
        assert all[..i + 2][..i + 1] == all[..i + 1];
        sum := sum + dist(all[i], all[i + 1]);
        i := i + 1;
      }
      assert all[..i + 1] == all;
      r := Some(Metrics(sum, ShownTime(startTime, endTime)));
    }

    /** clearData: every route variable and the title empty, the saved route removed. */
    method ClearData()
      modifies this
      ensures Current() == EmptyRoute && title == []
      ensures storage == old(storage) - {SavedRouteKey}
    {
      storage := storage - {SavedRouteKey};
      startCoords, endCoords, waypoints := None, None, [];
      startTime, endTime := None, None;
      title := [];
    }

    /** saveRoute: stores the serialised route under the one key, unless a date is invalid and toISOString throws. */
    method SaveRoute() returns (saved: bool)
      modifies this`storage
      ensures saved <==> !HasInvalidDate(Current())
      ensures saved ==> storage == old(storage)[SavedRouteKey := ObjectText(SaveRecord(Current(), title).value)]
      ensures !saved ==> storage == old(storage)
    {
      var rec := SaveRecord(Current(), title);
      if rec.None? {
        return false;
      }
      storage := storage[SavedRouteKey := ObjectText(rec.value)];
      saved := true;
    }

    /**
      loadFromLocalStorage: nothing happens without a stored text, when the text does not
      parse, or when it is `null` (reading a field of null throws before any assignment).
     */
    method LoadFromLocalStorage()
      modifies this
      ensures storage == old(storage)
      ensures SavedRouteKey in storage && storage[SavedRouteKey].ObjectText? ==>
        Restored(Current(), title) == Restore(storage[SavedRouteKey].record)
      ensures !(SavedRouteKey in storage && storage[SavedRouteKey].ObjectText?) ==>
        Current() == old(Current()) && title == old(title)
    {
      if SavedRouteKey !in storage || storage[SavedRouteKey] == Malformed([]) {
        return;
      }
      var data := storage[SavedRouteKey];
      if !data.ObjectText? {
        return;
      }
      var restored := Restore(data.record);
      title := restored.title;
      startCoords, endCoords := restored.route.start, restored.route.end;
      waypoints := restored.route.waypoints;
      startTime, endTime := restored.route.startTime, restored.route.endTime;
    }

    /**
      importRoute, once the file has been read: a text that does not parse leaves everything
      untouched; otherwise clearData runs first, also removing the saved route, and the
      object's fields are assigned after it. For `null` the first field read throws after
      the clear.
     */
    method ImportRoute(file: Option<JsonText>) returns (outcome: ImportOutcome)
      modifies this
      ensures file.None? ==> outcome == NoFile
      ensures file.Some? && file.value.Malformed? ==> outcome == ImportError
      ensures file.Some? && file.value.NullText? ==> outcome == ImportError
      ensures file.Some? && file.value.ObjectText? ==> outcome == Imported
      ensures outcome != Imported && !(file.Some? && file.value.NullText?) ==>
        Current() == old(Current()) && title == old(title) && storage == old(storage)
      ensures file.Some? && file.value.NullText? ==>
        Current() == EmptyRoute && title == [] && storage == old(storage) - {SavedRouteKey}
      ensures outcome == Imported ==>
        Restored(Current(), title) == Restore(file.value.record) &&
        storage == old(storage) - {SavedRouteKey}
    {
      if file.None? {
        return NoFile;
      }
      var data := file.value;
      if data.Malformed? {
        return ImportError;
      }
      ClearData();
      if data.NullText? {
        return ImportError;
      }
      var restored := Restore(data.record);
      startCoords, endCoords := restored.route.start, restored.route.end;
      waypoints := restored.route.waypoints;
      startTime, endTime := restored.route.startTime, restored.route.endTime;
      title := restored.title;
      outcome := Imported;
    }

    /** exportRoute: the download's file name and the document written to it. */
    method ExportRoute() returns (fileName: string, doc: JsonText)
      ensures fileName == ExportFileName(title)
      ensures doc == ObjectText(ExportRecord(Current(), title))
      ensures NoSpace(fileName) && fileName[|fileName| - 5..] == ".json"
    {
      fileName := ExportFileName(title);
      doc := ObjectText(ExportRecord(Current(), title));
    }
  }

  /** A save followed by a load leaves the route as it was and the title as the saved name. */
  method SaveThenLoad(t: RouteTracker) returns (saved: bool)
    modifies t
    ensures saved <==> !HasInvalidDate(old(t.Current()))
    ensures saved ==> t.Current() == old(t.Current()) && t.title == SaveName(old(t.title))
    ensures !saved ==> t.Current() == old(t.Current())
  {
    saved := t.SaveRoute();
    if saved {
      SaveLoadRoundTrip(t.Current(), t.title);
      t.LoadFromLocalStorage();
    }
  }

  /** Three waypoints and a clear leave the empty route and no saved route. */
  method CaptureThenClear(t: RouteTracker, p: Point, q: Point, s: Point)
    modifies t
    ensures t.Current() == EmptyRoute && SavedRouteKey !in t.storage
  {
    var _ := t.AddWaypoint(p);
    var _ := t.AddWaypoint(q);
    var _ := t.AddWaypoint(s);
    t.ClearData();
  }
}
