# Drone survey frontend: mission-plan editor and report dashboard

This project models two pages of a drone-survey web client.
A "New Mission" page builds a survey plan. Each click on the map appends a waypoint, and each marker's own click handler removes its waypoint (see "Marker clicks" under "## Left out"). A form checks the capture parameters: altitude, overlap percentage and coverage pattern. Submitting needs at least two waypoints and packages the list and the parameters as a mission plan. The map shows one marker per waypoint and a route line from two waypoints on.
A "Reports" page fetches a summary of past missions and spreads it over a zero default. It then derives four chart series and the average-duration text shown on a card.

Layout:
- `wrappers.dfy`: `Option` and `Result`.
- `text.dfy`: decimal printing of integers, as a JavaScript template literal prints them when their magnitude is at most 2^53. It also holds a parser that proves the printing injective.
- `dtos.dfy`: `Waypoint`, the pattern enum with its wire names, `Params` and `MissionDto`.
- `new_mission.dfy`: the form schema, the `MissionEditor` class holding the waypoint list, the submit guard, and the map projections.
- `reports.dfy`: the summary and its partial JSON form, the merge, the token guard, the chart series and the duration formatting.

Notes on the model:
- Latitude, longitude, altitude and overlap are `real`. They are only copied, swapped and compared.
- The summary's numbers are whole numbers (`int`).
- `Summary` is imported from `src/types/dtos.ts` but not declared there. Its shape is taken from `defaultSummary` in `src/app/reports/page.tsx:37-46`.
- The page's `waypoints` state is the `waypoints` field of `MissionEditor`. Each handler replaces it as `setWaypoints` does.
- The form library runs the schema before `onSubmit`. `MissionEditor.Submit` models both steps: an invalid form gives `InvalidForm` and never reaches the two-waypoint guard.
- `token` is falsy when it is empty or missing, so `!token` returns early in both cases. `HasToken` requires a non-empty string.
- `Math.floor(s / 60)` is Dafny's `s / 60`: Euclidean division by a positive divisor rounds down. JavaScript's `%` keeps the sign of the dividend, and `JsRemainder60` writes that out.

## Model

| member | source | states |
|---|---|---|
| `Dtos.ParsePattern` | src/types/dtos.ts:12 | a wire name denotes a pattern iff it is one of `grid`, `crosshatch`, `perimeter`, and the pattern's name is that string |
| `Dtos.PatternRoundTrip` | src/types/dtos.ts:12 | parsing a pattern's wire name gives the pattern back |
| `NewMission.Validate` | src/app/missions/new/page.tsx:16-20 | the schema accepts iff altitude ≥ 1, 0 ≤ overlap ≤ 100 and the pattern is in the enum; an accepted form yields exactly its values; a rejected one lists a field iff that field's constraint fails, and the list is never empty |
| `NewMission.ValidParams` | src/app/missions/new/page.tsx:16-20 | the schema holds iff altitude ≥ 1, 0 ≤ overlap ≤ 100 and the pattern string names one of the enum's patterns |
| `NewMission.DefaultsValid` | src/app/missions/new/page.tsx:28 | the defaults (100, 20, grid) pass the schema and yield those parameters |
| `NewMission.RemoveAt` | src/app/missions/new/page.tsx:34 | filtering out index `i` removes exactly element `i` and shortens the list by one when `i` is in range, keeping the others in order; otherwise the list is unchanged |
| `NewMission.CanSubmit` | src/app/missions/new/page.tsx:37 | the guard passes (at least two waypoints) exactly when the map draws the route line (line 87) |
| `NewMission.MissionEditor.constructor` | src/app/missions/new/page.tsx:24 | the page starts with no waypoints |
| `NewMission.MissionEditor.HandleMapClick` | src/app/missions/new/page.tsx:31-33 | a map click appends exactly one waypoint at the end with the clicked lat/lng; earlier waypoints are unchanged |
| `NewMission.MissionEditor.RemoveWaypoint` | src/app/missions/new/page.tsx:34 | the new list is `RemoveAt` of the old list at the given index |
| `NewMission.MissionEditor.Submit` | src/app/missions/new/page.tsx:36-38 | an invalid form is rejected with the schema's errors; a valid form with fewer than two waypoints is rejected and builds no mission; otherwise the mission has no id, its waypoints are exactly the current list and its params are exactly the validated values |
| `NewMission.PathCoords` | src/app/missions/new/page.tsx:59 | one coordinate per waypoint, and coordinate `i` is `[lng_i, lat_i]` |
| `NewMission.PathCoordsRoundTrip` | src/app/missions/new/page.tsx:59 | swapping each `[lng, lat]` pair back recovers the waypoint list exactly |
| `NewMission.PathCoordsAppend` | src/app/missions/new/page.tsx:31-33 | after a map click the route is the old route plus the clicked point as `[lng, lat]` |
| `NewMission.Markers` | src/app/missions/new/page.tsx:78-85 | one marker per waypoint, in list order, keyed by its index and placed at that waypoint's lat/lng |
| `NewMission.MarkerClickRemovesItsWaypoint` | src/app/missions/new/page.tsx:81 | clicking marker `k` removes exactly waypoint `k`; the markers drawn afterwards sit at the remaining waypoints in their original order |
| `NewMission.Render` | src/app/missions/new/page.tsx:78-91 | the map always shows the markers; the route is drawn iff there are at least two waypoints, and then it is the path coordinates |
| `NewMission.MarkerClickAlsoAppending` | src/app/missions/new/page.tsx:31-34 | if a marker click also ran the map's click handler first, the list would keep its length: waypoint `k` leaves its place and the clicked position is added at the end |
| `NewMission.ClickThenRemoveLast` | src/app/missions/new/page.tsx:32-34 | appending a waypoint and removing the last index restores the list |
| `Text.NatToString` | src/app/reports/page.tsx:65 | the printed form of a number is a non-empty string of decimal digits; that it reads back as the number is `Text.NatToStringRoundTrip`, and that distinct numbers print differently is `Text.NatToStringInjective` |
| `Text.NatToStringRoundTrip` | src/app/reports/page.tsx:65 | a number prints as a non-empty digit string that parses back to the number |
| `Text.IntToString` | src/app/reports/page.tsx:139-141 | a non-negative integer prints as digits that parse back to it; a negative one prints as `-` followed by digits that parse back to its magnitude |
| `Text.NatToStringInjective` | src/app/reports/page.tsx:65 | distinct numbers print as distinct strings |
| `Reports.Merge` | src/app/reports/page.tsx:59 | each field present in the fetched data overrides the default; each absent field keeps its default |
| `Reports.MergeExtremes` | src/app/reports/page.tsx:37-46 | a response carrying every field gives exactly that summary; an empty response gives the defaults |
| `Reports.HasToken` | src/app/reports/page.tsx:54 | the token guard fails exactly for a missing token or the empty string, the falsy token values |
| `Reports.SummaryAfterLoad` | src/app/reports/page.tsx:49-59 | without a token (missing or empty) the summary stays the default; with one it is the merged response |
| `Reports.MissionLabel` | src/app/reports/page.tsx:65 | the label is `Mission ` followed by decimal digits that read back as `i+1` |
| `Reports.MissionLabels` | src/app/reports/page.tsx:65 | one label per element, and label `i` is `"Mission " + (i+1)` |
| `Reports.MissionLabelsDistinct` | src/app/reports/page.tsx:65 | no two missions get the same label |
| `Reports.BarData` | src/app/reports/page.tsx:64-73 | the bar data is exactly `durations`, with one `Mission i+1` label per duration |
| `Reports.AltitudeData` | src/app/reports/page.tsx:75-84 | the bar data is exactly `altitudes`, with one `Mission i+1` label per altitude |
| `Reports.PieData` | src/app/reports/page.tsx:86-94 | two slices: `Completed` carries `completed`, then `Aborted` carries `aborted` |
| `Reports.DurationSeries` | src/app/reports/page.tsx:103 | the line data is `durationSec` of each point, with the same length and order |
| `Reports.DateLabels` | src/app/reports/page.tsx:97-99 | one label per point, each the formatted `createdAt` of that point, in order |
| `Reports.LineData` | src/app/reports/page.tsx:96-109 | the line chart has as many labels as data points; point `i` is the `i`-th duration, labelled by the `i`-th date |
| `Reports.DefaultCharts` | src/app/reports/page.tsx:37-46 | with the default summary the bar and line charts are empty and the pie shows `[0, 0]` |
| `Reports.JsRemainder60` | src/app/reports/page.tsx:140 | JavaScript's `% 60`: in [0, 60) for a non-negative dividend, in (-60, 0] for a negative one, and congruent to the dividend |
| `Reports.DurationParts` | src/app/reports/page.tsx:139-141 | minutes is the floor of `s/60`; for `s ≥ 0` the seconds are in [0, 60) and minutes*60 + seconds = s |
| `Reports.AvgDurationText` | src/app/reports/page.tsx:139-141 | the card reads the floored minutes, `m `, JavaScript's signed remainder modulo 60, then `s`; for a whole, non-negative `s` that is `<s/60>m <s%60>s` |

## Left out

- Live mission view (`src/app/missions/[id]/page.tsx`): the status state machine, hydration, the telemetry socket and the control commands are not part of this model. The `Telemetry` interface is a shape only.
- Network and navigation: the POST of the mission, the GET of the summary, `res.ok`, the redirect to the new mission's page and the alerts are I/O. `Submit` stops at the built mission or the rejection, and `SummaryAfterLoad` takes the response body as a parameter.
- Authentication: obtaining the ID token is a call into the identity library. It appears only as the `token` parameter.
- Map and chart rendering: the map widget, `viewState` panning and chart registration are left out. Markers and the route are modelled as the data passed to the map. Chart inputs are modelled as data records.
- `toLocaleDateString` depends on the locale. It is the `dateLabel` parameter of `LineData`.
- The summary cards other than Avg Duration (total, completed, aborted, and `${averageAltitude}m`) are presentational and not modelled.
- The form library's own machinery is not modelled, including field wiring and error messages. Only the schema's constraint is modelled, on numeric inputs.
- Form value types: the fields are `<input type="number" {...field}>` wired through `Controller`, and no numeric conversion is applied. Once the user edits a field, the field's value is likely the input's string, which `z.number()` rejects. The real-valued `FormInput` covers only the untouched numeric defaults, or a conversion the page does not perform.
- Marker clicks: the marker's handler calls `e.stopPropagation()` on React's synthetic event. The model assumes this keeps the map's own click handler (`handleMapClick`) from running, so a marker click only removes its waypoint. Whether the native map listener still fires is not settled here. `MarkerClickAlsoAppending` states the outcome if it did.
- Number printing: `NatToString` and `IntToString` always print plain decimal digits. JavaScript numbers are doubles, so the two agree only up to magnitude 2^53. Above 2^53 JavaScript prints the shortest digits that round back to the double (`${2**64}` gives `18446744073709552000`). From 10^21 upward it uses exponent notation (`1e+21`). Neither case is modelled.
- Reports.Merge: it models a JSON body whose fields are either absent or of the right type. Extra keys that the spread would also copy are not modelled. Values of the wrong type are not modelled either. In `durations`, `altitudes` or `durationsOverTime` such a value (for example `null`) makes the page throw at the `.map` calls. In a scalar field it is shown or coerced as JavaScript does: `null` total renders an empty card, and `null` or `"90"` as the average duration renders "0m 0s" or "1m 30s".
- Reports.DurationParts: non-integer averages and floating-point `%` are not modelled. Every summary number is a whole number.
- Waypoint coordinates follow real arithmetic, not IEEE doubles. They are never computed with, only copied.
