/**
 * The "New Mission" page: a waypoint list edited by clicks on the map, a form
 * whose schema checks the capture parameters, a guarded submit that builds a
 * mission plan, and the map's markers and route line derived from the list.
 */
module NewMission {
  import opened Wrappers
  import opened Dtos

  // ---------------------------------------------------------------------------
  // The form schema
  // ---------------------------------------------------------------------------

  /** The raw form values: two numbers and the selected option's value. */
  datatype FormInput = FormInput(altitude: real, overlap: real, pattern: string)

  /** A form field that can carry a validation error. */
  datatype Field = AltitudeField | OverlapField | PatternField

  /** The form's starting values. */
  const DefaultForm: FormInput := FormInput(100.0, 20.0, "grid")

  /**
   * The schema: altitude at least 1, overlap between 0 and 100, a known pattern.
   * The definition transcribes the schema; the ensures restates it through the pattern parser.
   */
  predicate ValidParams(f: FormInput)
    ensures ValidParams(f) <==> 1.0 <= f.altitude && 0.0 <= f.overlap <= 100.0 && ParsePattern(f.pattern).Some?
  {
    1.0 <= f.altitude && 0.0 <= f.overlap <= 100.0 && f.pattern in {"grid", "crosshatch", "perimeter"}
  }

  /**
   * The resolver's verdict: the typed parameters when every constraint holds,
   * otherwise every failing field, in form order.
   */
  function Validate(f: FormInput): (r: Result<Params, seq<Field>>)
    ensures r.Ok? <==> ValidParams(f)
    ensures r.Ok? ==> r.value.altitude == f.altitude && r.value.overlap == f.overlap
                      && PatternName(r.value.pattern) == f.pattern
    ensures r.Err? ==> r.error != []
                       && (AltitudeField in r.error <==> f.altitude < 1.0)
                       && (OverlapField in r.error <==> !(0.0 <= f.overlap <= 100.0))
                       && (PatternField in r.error <==> f.pattern !in {"grid", "crosshatch", "perimeter"})
  {
    var p := ParsePattern(f.pattern);
    var errors := (if f.altitude < 1.0 then [AltitudeField] else [])
                  + (if 0.0 <= f.overlap <= 100.0 then [] else [OverlapField])
                  + (if p.None? then [PatternField] else []);
    if errors == [] then Ok(Params(f.altitude, f.overlap, p.value)) else Err(errors)
  }

  /** The default values pass the schema and yield altitude 100, overlap 20 and the grid pattern. */
  lemma DefaultsValid()
    ensures ValidParams(DefaultForm)
    ensures Validate(DefaultForm) == Ok(Params(100.0, 20.0, Grid))
  {
  }

  // ---------------------------------------------------------------------------
  // Editing the waypoint list
  // ---------------------------------------------------------------------------

  /**
   * Keeps every element whose index differs from `i`, as
   * `filter((_, idx) => idx !== i)` does: exactly element `i` goes when `i` is
   * an index of `s`, and nothing changes otherwise.
   */
  function RemoveAt<T>(s: seq<T>, i: int): (r: seq<T>)
    ensures 0 <= i < |s| ==> r == s[..i] + s[i + 1..] && |r| == |s| - 1
    ensures !(0 <= i < |s|) ==> r == s
    decreases |s|
  {
    if s == [] then []
    else
      var rest := RemoveAt(s[1..], i - 1);
      assert 0 < i < |s| ==> [s[0]] + rest == s[..i] + s[i + 1..] by {
        if 0 < i < |s| {
          assert s[..i] == [s[0]] + s[1..][..i - 1];
          assert s[i + 1..] == s[1..][i..];
        }
      }
      (if i == 0 then [] else [s[0]]) + rest
  }

  /** The submit guard: a mission needs at least two waypoints, exactly when the map draws a route. */
  predicate CanSubmit(w: seq<Waypoint>)
    ensures CanSubmit(w) <==> Render(w).route.Some?
  {
    |w| >= 2
  }

  /** What pressing "Create Mission" leads to. */
  datatype SubmitOutcome =
    | InvalidForm(errors: seq<Field>)
    | TooFewWaypoints
    | Submitted(mission: MissionDto)

  /** The page's waypoint state and the handlers that replace it. */
  class MissionEditor {
    var waypoints: seq<Waypoint>

    /** The page opens with no waypoints. */
    constructor ()
      ensures waypoints == []
    {
      waypoints := [];
    }

    /** A click on the map appends one waypoint at the clicked position. */
    method HandleMapClick(lat: real, lng: real)
      modifies this
      ensures waypoints == old(waypoints) + [Waypoint(lat, lng)]
    {
      waypoints := waypoints + [Waypoint(lat, lng)];
    }

    /** A click on marker `i` drops waypoint `i`; any other index leaves the list alone. */
    method RemoveWaypoint(i: int)
      modifies this
      ensures waypoints == RemoveAt(old(waypoints), i)
    {
      waypoints := RemoveAt(waypoints, i);
    }

    /**
     * Form submission: the schema runs first and an invalid form never reaches
     * the handler; the handler then refuses fewer than two waypoints and
     * otherwise builds the plan from the current list and the validated values.
     */
    method Submit(form: FormInput) returns (r: SubmitOutcome)
      ensures r.InvalidForm? <==> !ValidParams(form)
      ensures r.InvalidForm? ==> Validate(form) == Err(r.errors)
      ensures r.TooFewWaypoints? <==> ValidParams(form) && |waypoints| < 2
      ensures r.Submitted? <==> ValidParams(form) && |waypoints| >= 2
      ensures r.Submitted? ==> r.mission.id == None && r.mission.waypoints == waypoints
                               && Validate(form) == Ok(r.mission.params)
    {
      var v := Validate(form);
      if v.Err? {
        return InvalidForm(v.error);
      }
      if !CanSubmit(waypoints) {
        return TooFewWaypoints;
      }
      r := Submitted(MissionDto(None, waypoints, v.value));
    }
  }

  // ---------------------------------------------------------------------------
  // What the map shows
  // ---------------------------------------------------------------------------

  /** The route's GeoJSON coordinates: each waypoint as `[lng, lat]`, in list order. */
  function PathCoords(w: seq<Waypoint>): (c: seq<seq<real>>)
    ensures |c| == |w|
    ensures forall i :: 0 <= i < |w| ==> c[i] == [w[i].lng, w[i].lat]
    decreases |w|
  {
    if w == [] then [] else [[w[0].lng, w[0].lat]] + PathCoords(w[1..])
  }

  predicate IsCoordPairs(c: seq<seq<real>>)
  {
    forall i :: 0 <= i < |c| ==> |c[i]| == 2
  }

  /** Reads `[lng, lat]` pairs back as waypoints. */
  function WaypointsOfPath(c: seq<seq<real>>): (w: seq<Waypoint>)
    requires IsCoordPairs(c)
    decreases |c|
  {
    if c == [] then [] else [Waypoint(c[0][1], c[0][0])] + WaypointsOfPath(c[1..])
  }

  /** The projection loses nothing: swapping each pair back recovers the waypoints. */
  lemma {:induction false} PathCoordsRoundTrip(w: seq<Waypoint>)
    ensures IsCoordPairs(PathCoords(w))
    ensures WaypointsOfPath(PathCoords(w)) == w
    decreases |w|
  {
    if w != [] {
      PathCoordsRoundTrip(w[1..]);
      assert PathCoords(w)[1..] == PathCoords(w[1..]);
    }
  }

  /** A map click extends the route by the clicked point and leaves the earlier coordinates. */
  lemma PathCoordsAppend(w: seq<Waypoint>, x: Waypoint)
    ensures PathCoords(w + [x]) == PathCoords(w) + [[x.lng, x.lat]]
  {
  }

  /** A marker: its React key (the waypoint's index, also what a click on it removes) and its position. */
  datatype Marker = Marker(key: nat, latitude: real, longitude: real)

  function MarkersFrom(w: seq<Waypoint>, start: nat): (m: seq<Marker>)
    ensures |m| == |w|
    ensures forall i :: 0 <= i < |w| ==> m[i] == Marker(start + i, w[i].lat, w[i].lng)
    decreases |w|
  {
    if w == [] then [] else [Marker(start, w[0].lat, w[0].lng)] + MarkersFrom(w[1..], start + 1)
  }

  /** One marker per waypoint, in list order, keyed by its index and placed at the waypoint. */
  function Markers(w: seq<Waypoint>): (m: seq<Marker>)
    ensures |m| == |w|
    ensures forall i :: 0 <= i < |w| ==> m[i].key == i && m[i].latitude == w[i].lat && m[i].longitude == w[i].lng
  {
    MarkersFrom(w, 0)
  }

  /** Clicking marker `k` removes exactly its waypoint; the remaining markers are the other waypoints in order. */
  lemma MarkerClickRemovesItsWaypoint(w: seq<Waypoint>, k: nat)
    requires k < |w|
    ensures RemoveAt(w, Markers(w)[k].key) == w[..k] + w[k + 1..]
    ensures var m := Markers(RemoveAt(w, Markers(w)[k].key));
            |m| == |w| - 1
            && forall j :: 0 <= j < |m| ==>
                 var o := if j < k then j else j + 1;
                 m[j].latitude == w[o].lat && m[j].longitude == w[o].lng
  {
  }

  /** What the map draws: the markers, and the route line when there is one. */
  datatype MapView = MapView(markers: seq<Marker>, route: Option<seq<seq<real>>>)

  /** The map for a waypoint list: always its markers; the route only from two waypoints on. */
  function Render(w: seq<Waypoint>): (v: MapView)
    ensures v.markers == Markers(w)
    ensures v.route.Some? <==> |w| >= 2
    ensures v.route.Some? ==> v.route.value == PathCoords(w)
  {
    MapView(Markers(w), if |w| >= 2 then Some(PathCoords(w)) else None)
  }

  /**
   * Should one click both reach the marker's handler and the map's own click
   * handler, with the append queued first, waypoint `k` would not disappear:
   * it would move to the end, replaced there by the clicked position.
   */
  lemma MarkerClickAlsoAppending(w: seq<Waypoint>, k: nat, x: Waypoint)
    requires k < |w|
    ensures RemoveAt(w + [x], Markers(w)[k].key) == w[..k] + w[k + 1..] + [x]
    ensures |RemoveAt(w + [x], Markers(w)[k].key)| == |w|
  {
  }

  /** Appending then removing the new last waypoint restores the list. */
  lemma ClickThenRemoveLast(w: seq<Waypoint>, x: Waypoint)
    ensures RemoveAt(w + [x], |w|) == w
  {
  }
}
