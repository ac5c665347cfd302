# GPS route tracker: verified model of the route state

This project models the route logic of a small browser page that records a route.
The route has a start point, waypoints in capture order and an end point. The page
reports the distance along the route and the time between start and end. It can save
the route to `localStorage`, load it back, export it to a JSON file and import one.
All of that lives in `script.js`. The model covers the state the page keeps in
module-level variables and every operation that reads or changes it:

- `wrappers.dfy` (`Wrappers`): `Option`, which stands for JavaScript `null`/`undefined`.
- `geo.dfy` (`Geo`): points (integer micro-degrees), the path `[start?, waypoints..., end?]`,
  and the sum of the pair distance over consecutive path points. The pair distance
  (haversine in the source) is a parameter `dist`. Its only assumed property is
  non-negativity, and only the lemmas that need it assume it.
- `clock.dfy` (`Clock`): `Date` as a millisecond instant or the Invalid Date.
  `TimeDiff` is `getTimeDiff`. `ShownTime` is the time text of `calculateDistance`.
  The text a timestamp is stored as is an injective encoding that `ParseDate` reads back.
- `names.dfy` (`Names`): JavaScript whitespace, `trim`, the default names, and the
  rewrite `replace(/\s+/g, '_')` used for the export file name.
- `persist.dfy` (`Persist`): the route as a value, the stored JSON object, and what
  save, export, load and import turn into each other, with the round trips.
- `tracker.dfy` (`Tracker`): class `RouteTracker`. It holds the variables `startCoords`,
  `endCoords`, `waypoints`, `startTime` and `endTime`, the text of the title field, and
  the `localStorage` map. Its methods are the source's handlers.

Behaviour of the code that the model keeps:

- The code checks no coordinate bounds, so the model has no `InvalidCoordinate` error.
- A capture sets a point and its time together. Load and import copy whatever fields
  the stored object has, so a loaded route can have a point without a time
  (`Persist.RestoreMayUnpair`). A start or end time therefore cannot be a class invariant.
- Import parses first. Text that does not parse leaves everything unchanged.
  A parsed text makes `clearData` run before any field is assigned, which also deletes
  the saved route. For the JSON text `null`, the first field read after the clear
  throws. The route and the saved copy are then gone, and the error alert is shown.
  Load reads `parsed.name` before it assigns anything, so the same text leaves the route as it was.
- `toISOString` throws on an Invalid Date, so such a route is not saved at all.
  `JSON.stringify` writes an Invalid Date as `null`, so export writes it as missing.
- Each whitespace class follows JavaScript: `trim` and `\s` both match the white-space
  and line-terminator characters, including no-break and ideographic spaces.

## Model

| member | source | states |
|---|---|---|
| `Geo.AssemblePath` | script.js:70-73 | the path holds \|waypoints\| points plus one per present endpoint; the start comes first, the end last, and the waypoints in capture order in between |
| `Geo.PathSum` | script.js:88-91 | the reference sum over consecutive pairs: 0 for fewer than two points, and non-negative whenever the pair distance is |
| `Geo.PathSumAppend` | script.js:88-91 | appending a point adds exactly the distance from the old last point to it |
| `Geo.AppendNeverDecreases` | script.js:88-91 | appending a point never decreases the total distance |
| `Geo.PathSumPrepend` | script.js:88-91 | prepending a point adds exactly the distance from it to the old first point |
| `Geo.PrependNeverDecreases` | script.js:88-91 | prepending a point never decreases the total distance |
| `Geo.AddWaypointNeverShortens` | script.js:82-85 | with no end point set, a new waypoint is appended to the path and the distance does not drop |
| `Geo.SetEndNeverShortens` | script.js:82-85 | setting the first end point appends it to the path and the distance does not drop |
| `Geo.SetStartNeverShortens` | script.js:82-85 | setting the first start point prepends it to the path and the distance does not drop |
| `Clock.SplitMillis` | script.js:209-210 | the seconds part is below 60, and minutes·60 + seconds is the whole seconds of the delta |
| `Clock.TimeDiff` | script.js:207-211 | seconds < 60 and minutes·60 + seconds == floor(\|end − start\| / 1000) |
| `Clock.TimeDiffSymmetric` | script.js:208 | swapping the two instants gives the same result; equal instants give 0 min 0 sec |
| `Clock.ShownTime` | script.js:93 | the placeholder exactly when a date is missing; minutes and seconds exactly when both dates are valid, equal to TimeDiff |
| `Clock.IsoString` | script.js:105-106 | the stored text of an instant (toISOString, abstracted) is never empty, so a stored time is truthy |
| `Clock.ParseDate` | script.js:223-224 | `new Date(text)`: empty text gives the Invalid Date; an instant comes only from text that opens with a digit or with a sign followed by more text |
| `Clock.IsoStringRoundTrip` | script.js:105-106 | reading back the stored text of an instant gives that instant |
| `Clock.IsoStringInjective` | script.js:105-106 | distinct instants are stored as distinct texts |
| `Names.TrimStart` | script.js:99 | the result is empty exactly for all-whitespace text, and otherwise does not start with whitespace |
| `Names.TrimStartSuffix` | script.js:99 | the kept part is a suffix of the text, and the dropped prefix is all whitespace |
| `Names.TrimEnd` | script.js:99 | the result is empty exactly for all-whitespace text, and otherwise does not end with whitespace |
| `Names.TrimEndPrefix` | script.js:99 | the kept part is a prefix of the text, and the dropped suffix is all whitespace |
| `Names.Trim` | script.js:99 | the result is empty exactly when the text is all whitespace, and otherwise begins and ends with non-whitespace |
| `Names.TrimIsSlice` | script.js:99 | the trimmed text is the slice of the text that starts where the leading whitespace ends |
| `Names.TrimDropsSpaceSuffix` | script.js:99 | everything after the trimmed text is whitespace |
| `Names.TrimMiddle` | script.js:99 | the trimmed text is the text's own middle part, between a whitespace prefix and a whitespace suffix |
| `Names.TrimOr` | script.js:99-113 | `trim() \|\| fallback` at lines 99 and 113: the fallback for blank text, otherwise the trimmed text; never empty and never bounded by whitespace |
| `Names.SaveName` | script.js:99 | the stored name is the trimmed title, or "Без названия" when the title is blank |
| `Names.ExportName` | script.js:113 | the exported name is the trimmed title, or "Маршрут" when the title is blank |
| `Names.CollapseSpaces` | script.js:125 | the rewritten text contains no whitespace, is no longer than the input, and is empty only for empty input |
| `Names.CollapseKeepsWords` | script.js:125 | text without whitespace is not changed |
| `Names.CollapseRun` | script.js:125 | a maximal whitespace run becomes exactly one `_` |
| `Names.CollapseAtWordEnd` | script.js:125 | text that ends at a word boundary is rewritten independently of what follows it |
| `Names.ExportFileName` | script.js:125 | the file name contains no whitespace and ends in `.json` after a non-empty name |
| `Persist.SavedTime` | script.js:105-106 | a present valid date is stored as non-empty text that reads back as that date; an absent date as null |
| `Persist.SaveRecord` | script.js:99-107 | nothing is saved exactly when a date is invalid; otherwise the name is SaveName(title), and the points and waypoints are copied |
| `Persist.ExportedTime` | script.js:119-120 | a date is written exactly when it is present and valid |
| `Persist.ExportRecord` | script.js:113-121 | the name is ExportName(title), and the points and waypoints are copied |
| `Persist.Revive` | script.js:223-224 | a date is restored exactly when the stored text is present and non-empty |
| `Persist.Restore` | script.js:219-224 | the points are copied, missing waypoints become the empty list, a time comes back exactly when its text is non-empty and is then `new Date(text)`, and the title is the stored name or empty when it is missing |
| `Persist.SaveLoadRoundTrip` | script.js:98-108 | save then load restores start, end, waypoints and both times, and sets the title to the saved name |
| `Persist.ExportImportRoundTrip` | script.js:140-144 | importing an exported file restores the route, with an invalid date coming back absent |
| `Persist.SaveLoadKeepsPairing` | script.js:39-40 | a route whose points and times are paired stays paired through save and load |
| `Persist.RestoreMayUnpair` | script.js:220-224 | a stored start point without a time loads unpaired |
| `Tracker.RouteTracker.constructor` | script.js:2-6 | the top-level state: no points, no waypoints and no times (the load run by `window.onload` is a separate LoadFromLocalStorage call) |
| `Tracker.RouteTracker.SaveStart` | script.js:37-45 | the start point and start time are replaced together and nothing else changes |
| `Tracker.RouteTracker.SaveEnd` | script.js:48-56 | the end point and end time are replaced together and nothing else changes |
| `Tracker.RouteTracker.AddWaypoint` | script.js:59-65 | exactly one point is appended, nothing else changes, and the 1-based label is the new waypoint count |
| `Tracker.RouteTracker.BuildPath` | script.js:82-85 | the pushed list equals the path start?, waypoints, end? |
| `Tracker.RouteTracker.DrawRoute` | script.js:68-79 | a line is drawn exactly when the path has at least two points, and it runs through the path |
| `Tracker.RouteTracker.CalculateDistance` | script.js:81-96 | there is no result exactly when the path has fewer than two points; otherwise the pair-distance sum over the path, non-negative when dist is, plus ShownTime of the two dates |
| `Tracker.RouteTracker.ClearData` | script.js:166-186 | no points, no waypoints, no times, an empty title, and no saved-route key; other keys are kept |
| `Tracker.RouteTracker.SaveRoute` | script.js:98-110 | the saved-route key is overwritten with SaveRecord unless a date is invalid, in which case the store is unchanged |
| `Tracker.RouteTracker.LoadFromLocalStorage` | script.js:214-240 | with no stored object nothing changes; with one, the route and title become Restore of it; the store is never changed |
| `Tracker.RouteTracker.ImportRoute` | script.js:129-164 | unparsable text changes nothing; a parsed object clears (removing the saved route) and then restores its fields; `null` clears and reports the error |
| `Tracker.RouteTracker.ExportRoute` | script.js:112-127 | the file name is ExportFileName(title), with no whitespace and a `.json` ending; the document is ExportRecord of the route |
| `Tracker.SaveThenLoad` | script.js:98-108 | after a successful save and a load the route is unchanged and the title is the saved name |
| `Tracker.CaptureThenClear` | script.js:166-179 | three waypoints and a clear leave the empty route and no saved-route key |

## Left out

- Leaflet (map, tiles, markers, the polyline, `fitBounds`, `removeLayer`) and the marker and line handles. They render through a library not modelled here. `DrawRoute` returns the points the line would run through.
- `navigator.geolocation` and its callbacks. Capture methods take the point and the capture time (`now`, in milliseconds) as parameters. The race between two captures in flight is concurrency and is not modelled.
- The haversine trigonometry and `toRad`. They are floating point. The pair distance is the parameter `dist`, and its symmetry and zero-iff-equal properties are not modelled.
- Floating-point rounding of the distance sum. The sum is over `real`. Coordinates are integers in micro-degrees, not doubles.
- `toFixed` formatting of coordinates and distance, and the page texts, `alert` and `console.error`. `CalculateDistance` returns the values shown instead of text. The `calculateDistance` and `drawRoute` calls at the end of load and import only render, and the model does not repeat them.
- `FileReader`, `Blob`, `URL.createObjectURL` and the download anchor. `ImportRoute` takes the file's text as a parameter. `ExportRoute` returns the file name and the document.
- The internals of `JSON.parse` and `JSON.stringify`, including the indentation of the exported file. A text is the serialisation of a record, `null`, or text that does not parse. Stored fields of the wrong JSON type (a coordinate that is not a number, say) are not modelled, and neither are the Leaflet exceptions they would cause.
- ISO-8601 formatting and parsing. They are abstracted as an injective text encoding of the millisecond count. The range limit of JavaScript dates (±8.64e15 ms) is not modelled.
- The initial value of the title field comes from the page's HTML. The constructor takes it as empty.
