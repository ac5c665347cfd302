/**
  The route as a value, and the JSON object it is saved, exported, loaded and imported
  as (script.js:98-127, script.js:137-144, script.js:214-224).
  JSON.stringify and JSON.parse are abstracted: a text is either the serialisation of a
  record, the JSON literal `null`, or text JSON.parse rejects.
 */
module Persist {
  import opened Wrappers
  import opened Geo
  import opened Clock
  import opened Names

  /** The live route state: the module-level variables of the source. */
  datatype Route = Route(
    start: Option<Point>,
    end: Option<Point>,
    waypoints: seq<Point>,
    startTime: Option<Date>,
    endTime: Option<Date>)

  const EmptyRoute := Route(None, None, [], None, None)

  /** The pairing a capture establishes: a point and its time are present together. */
  predicate Paired(r: Route)
  {
    r.start.Some? == r.startTime.Some? && r.end.Some? == r.endTime.Some?
  }

  /** The stored object; a field that is missing or `null` is None. */
  datatype RouteRecord = RouteRecord(
    name: Option<string>,
    startCoords: Option<Point>,
    endCoords: Option<Point>,
    waypoints: Option<seq<Point>>,
    startTime: Option<string>,
    endTime: Option<string>)

  /**
    A JSON text. Any JSON value other than an object or `null` reads as an object whose
    fields are all missing, so it is written `ObjectText` with every field None.
   */
  datatype JsonText = ObjectText(record: RouteRecord) | NullText | Malformed(text: string)

  predicate HasInvalidDate(r: Route)
  {
    r.startTime == Some(InvalidDate) || r.endTime == Some(InvalidDate)
  }

  /** `d ? d.toISOString() : null`, for a date that is not invalid. */
  function SavedTime(d: Option<Date>): (s: Option<string>)
    requires d != Some(InvalidDate)
    ensures s.Some? <==> d.Some?
    ensures s.Some? ==> s.value != [] && ParseDate(s.value) == d.value
  {
    if d.None? then None
    else
      IsoStringRoundTrip(d.value.millis);
      Some(IsoString(d.value.millis))
  }

  /**
    The object saveRoute stores, or None when toISOString throws on an invalid date
    and nothing is stored.
   */
  function SaveRecord(r: Route, title: string): (rec: Option<RouteRecord>)
    ensures rec.None? <==> HasInvalidDate(r)
    ensures rec.Some? ==> rec.value.name == Some(SaveName(title))
    ensures rec.Some? ==> rec.value.waypoints == Some(r.waypoints)
    ensures rec.Some? ==> rec.value.startCoords == r.start && rec.value.endCoords == r.end
  {
    if HasInvalidDate(r) then None
    else Some(RouteRecord(Some(SaveName(title)), r.start, r.end, Some(r.waypoints),
                          SavedTime(r.startTime), SavedTime(r.endTime)))
  }

  /** How JSON.stringify writes a Date: its ISO text, or `null` for an invalid date. */
  function ExportedTime(d: Option<Date>): (s: Option<string>)
    ensures d.Some? && d.value.At? <==> s.Some?
  {
    if d.Some? && d.value.At? then SavedTime(d) else None
  }

  /** The object exportRoute writes to the downloaded file. */
  function ExportRecord(r: Route, title: string): (rec: RouteRecord)
    ensures rec.name == Some(ExportName(title))
    ensures rec.waypoints == Some(r.waypoints)
    ensures rec.startCoords == r.start && rec.endCoords == r.end
  {
    RouteRecord(Some(ExportName(title)), r.start, r.end, Some(r.waypoints),
                ExportedTime(r.startTime), ExportedTime(r.endTime))
  }

  /** `text ? new Date(text) : null`: an empty string is falsy. */
  function Revive(s: Option<string>): (d: Option<Date>)
    ensures d.Some? <==> s.Some? && s.value != []
  {
    if s.Some? && s.value != [] then Some(ParseDate(s.value)) else None
  }

  /** A route and the title-field text restored from a parsed object. */
  datatype Restored = Restored(route: Route, title: string)

  /** The assignments of loadFromLocalStorage and importRoute once the text has parsed. */
  function Restore(rec: RouteRecord): (r: Restored)
    ensures r.route.start == rec.startCoords && r.route.end == rec.endCoords
    ensures rec.waypoints.None? ==> r.route.waypoints == []
    ensures rec.waypoints.Some? ==> r.route.waypoints == rec.waypoints.value
    ensures r.route.startTime.Some? <==> rec.startTime.Some? && rec.startTime.value != []
    ensures r.route.endTime.Some? <==> rec.endTime.Some? && rec.endTime.value != []
    ensures rec.name.None? ==> r.title == []
    ensures rec.name.Some? ==> r.title == rec.name.value
    ensures r.route.startTime.Some? ==> r.route.startTime.value == ParseDate(rec.startTime.value)
    ensures r.route.endTime.Some? ==> r.route.endTime.value == ParseDate(rec.endTime.value)
  {
    Restored(Route(rec.startCoords, rec.endCoords, rec.waypoints.GetOr([]),
                   Revive(rec.startTime), Revive(rec.endTime)),
             rec.name.GetOr(""))
  }

  /** Saving a route and loading it back restores the route, and the title becomes the stored name. */
  lemma SaveLoadRoundTrip(r: Route, title: string)
    requires !HasInvalidDate(r)
    ensures SaveRecord(r, title).Some?
    ensures Restore(SaveRecord(r, title).value) == Restored(r, SaveName(title))
  {
    var rec := SaveRecord(r, title).value;
    assert Revive(rec.startTime) == r.startTime;
    assert Revive(rec.endTime) == r.endTime;
  }

  /** Importing an exported file restores the route; an invalid date comes back absent. */
  lemma ExportImportRoundTrip(r: Route, title: string)
    ensures Restore(ExportRecord(r, title)).title == ExportName(title)
    ensures Restore(ExportRecord(r, title)).route ==
      r.(startTime := if r.startTime == Some(InvalidDate) then None else r.startTime,
         endTime := if r.endTime == Some(InvalidDate) then None else r.endTime)
  {
    var rec := ExportRecord(r, title);
    assert r.startTime != Some(InvalidDate) ==> Revive(rec.startTime) == r.startTime;
    assert r.endTime != Some(InvalidDate) ==> Revive(rec.endTime) == r.endTime;
  }

  /** A save and load keeps a paired route paired. */
  lemma SaveLoadKeepsPairing(r: Route, title: string)
    requires Paired(r) && !HasInvalidDate(r)
    ensures Paired(Restore(SaveRecord(r, title).value).route)
  {
    SaveLoadRoundTrip(r, title);
  }

  /** Restoring does not re-establish the pairing: a stored point without a time loads unpaired. */
  lemma RestoreMayUnpair(p: Point)
    ensures !Paired(Restore(RouteRecord(None, Some(p), None, None, None, None)).route)
  {
  }
}
