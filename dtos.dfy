/** The data transfer shapes shared by the pages: a waypoint and a mission plan. */
module Dtos {
  import opened Wrappers

  /** A map position. Coordinates are only copied and reordered, never computed with. */
  datatype Waypoint = Waypoint(lat: real, lng: real)

  /** The coverage patterns a mission plan may use. */
  datatype Pattern = Grid | Crosshatch | Perimeter

  /** The wire name of each pattern. */
  function PatternName(p: Pattern): (s: string)
  {
    match p
    case Grid => "grid"
    case Crosshatch => "crosshatch"
    case Perimeter => "perimeter"
  }

  /** The pattern a wire name denotes, if any. */
  function ParsePattern(s: string): (r: Option<Pattern>)
    ensures r.Some? <==> s in {"grid", "crosshatch", "perimeter"}
    ensures r.Some? ==> PatternName(r.value) == s
  {
    if s == "grid" then Some(Grid)
    else if s == "crosshatch" then Some(Crosshatch)
    else if s == "perimeter" then Some(Perimeter)
    else None
  }

  /** Naming a pattern and parsing the name gives the pattern back. */
  lemma PatternRoundTrip(p: Pattern)
    ensures ParsePattern(PatternName(p)) == Some(p)
  {
  }

  /** The capture parameters of a mission. */
  datatype Params = Params(altitude: real, overlap: real, pattern: Pattern)

  /** A mission plan; `id` is absent until the backend assigns one. */
  datatype MissionDto = MissionDto(id: Option<string>, waypoints: seq<Waypoint>, params: Params)
}
