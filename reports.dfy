/**
 * The reports dashboard: a summary fetched from the backend merged over
 * defaults, the chart series derived from it, and the average-duration text.
 * Every number of the summary is modelled as a whole number.
 */
module Reports {
  import opened Wrappers
  import opened Text

  /** One point of the duration-over-time series. */
  datatype DurationPoint = DurationPoint(createdAt: string, durationSec: int)

  /** The report summary the dashboard renders. */
  datatype Summary = Summary(
    totalMissions: int,
    completed: int,
    aborted: int,
    averageDurationSec: int,
    averageAltitude: int,
    durations: seq<int>,
    altitudes: seq<int>,
    durationsOverTime: seq<DurationPoint>)

  /** The fetched JSON object: any of the summary's fields may be missing. */
  datatype SummaryJson = SummaryJson(
    totalMissions: Option<int>,
    completed: Option<int>,
    aborted: Option<int>,
    averageDurationSec: Option<int>,
    averageAltitude: Option<int>,
    durations: Option<seq<int>>,
    altitudes: Option<seq<int>>,
    durationsOverTime: Option<seq<DurationPoint>>)

  /** Zero counts and empty series: what the page shows before, or without, a fetch. */
  const DefaultSummary: Summary := Summary(0, 0, 0, 0, 0, [], [], [])

  /** A JSON object with no summary field at all. */
  const EmptyJson: SummaryJson := SummaryJson(None, None, None, None, None, None, None, None)

  /** The object spread `{...defaultSummary, ...data}`: a field of `data` that is present wins. */
  function Merge(data: SummaryJson): (s: Summary)
    ensures data.totalMissions.Some? ==> s.totalMissions == data.totalMissions.value
    ensures data.totalMissions.None? ==> s.totalMissions == DefaultSummary.totalMissions
    ensures data.completed.Some? ==> s.completed == data.completed.value
    ensures data.completed.None? ==> s.completed == DefaultSummary.completed
    ensures data.aborted.Some? ==> s.aborted == data.aborted.value
    ensures data.aborted.None? ==> s.aborted == DefaultSummary.aborted
    ensures data.averageDurationSec.Some? ==> s.averageDurationSec == data.averageDurationSec.value
    ensures data.averageDurationSec.None? ==> s.averageDurationSec == DefaultSummary.averageDurationSec
    ensures data.averageAltitude.Some? ==> s.averageAltitude == data.averageAltitude.value
    ensures data.averageAltitude.None? ==> s.averageAltitude == DefaultSummary.averageAltitude
    ensures data.durations.Some? ==> s.durations == data.durations.value
    ensures data.durations.None? ==> s.durations == DefaultSummary.durations
    ensures data.altitudes.Some? ==> s.altitudes == data.altitudes.value
    ensures data.altitudes.None? ==> s.altitudes == DefaultSummary.altitudes
    ensures data.durationsOverTime.Some? ==> s.durationsOverTime == data.durationsOverTime.value
    ensures data.durationsOverTime.None? ==> s.durationsOverTime == DefaultSummary.durationsOverTime
  {
    var d := DefaultSummary;
    Summary(
      data.totalMissions.GetOr(d.totalMissions),
      data.completed.GetOr(d.completed),
      data.aborted.GetOr(d.aborted),
      data.averageDurationSec.GetOr(d.averageDurationSec),
      data.averageAltitude.GetOr(d.averageAltitude),
      data.durations.GetOr(d.durations),
      data.altitudes.GetOr(d.altitudes),
      data.durationsOverTime.GetOr(d.durationsOverTime))
  }

  /** The summary written out as a JSON object carrying every field. */
  function ToJson(s: Summary): (j: SummaryJson)
  {
    SummaryJson(Some(s.totalMissions), Some(s.completed), Some(s.aborted),
                Some(s.averageDurationSec), Some(s.averageAltitude),
                Some(s.durations), Some(s.altitudes), Some(s.durationsOverTime))
  }

  /** A complete response replaces every default; an empty one keeps them all. */
  lemma MergeExtremes(s: Summary)
    ensures Merge(ToJson(s)) == s
    ensures Merge(EmptyJson) == DefaultSummary
  {
  }

  /**
   * The token guard: a missing or empty token is falsy in JavaScript. The definition
   * transcribes `!token`; the ensures lists the falsy values.
   */
  predicate HasToken(token: Option<string>)
    ensures !HasToken(token) <==> token == None || token == Some("")
  {
    token.Some? && token.value != ""
  }

  /**
   * The summary state after the page's one fetch attempt; `response` stands
   * for the body the backend would return. The definition transcribes the
   * early return and the merge; the ensures states each case on its own.
   */
  function SummaryAfterLoad(token: Option<string>, response: SummaryJson): (s: Summary)
    ensures !HasToken(token) ==> s == DefaultSummary
    ensures HasToken(token) ==> s == Merge(response)
  {
    if !HasToken(token) then DefaultSummary else Merge(response)
  }

  // ---------------------------------------------------------------------------
  // Chart series
  // ---------------------------------------------------------------------------

  /** The category label of the mission at index `i`: `Mission ` and its 1-based number. */
  function MissionLabel(i: nat): (l: string)
    ensures |l| > 8 && l[..8] == "Mission " && IsDigits(l[8..]) && ParseNat(l[8..]) == i + 1
  {
    NatToStringRoundTrip(i + 1);
    var l := "Mission " + NatToString(i + 1);
    assert l[8..] == NatToString(i + 1);
    l
  }

  function LabelsFrom<T>(xs: seq<T>, start: nat): (l: seq<string>)
    ensures |l| == |xs|
    ensures forall i :: 0 <= i < |xs| ==> l[i] == MissionLabel(start + i)
    decreases |xs|
  {
    if xs == [] then [] else [MissionLabel(start)] + LabelsFrom(xs[1..], start + 1)
  }

  /** `xs.map((_, i) => `Mission ${i + 1}`)`: one label per element, numbered from one. */
  function MissionLabels<T>(xs: seq<T>): (l: seq<string>)
    ensures |l| == |xs|
    ensures forall i :: 0 <= i < |xs| ==> l[i] == MissionLabel(i)
  {
    LabelsFrom(xs, 0)
  }

  /** No two missions share a label. */
  lemma MissionLabelsDistinct<T>(xs: seq<T>, i: nat, j: nat)
    requires i < j < |xs|
    ensures MissionLabels(xs)[i] != MissionLabels(xs)[j]
  {
  }

  datatype BarChart = BarChart(labels: seq<string>, datasetLabel: string, data: seq<int>, color: string)
  datatype PieChart = PieChart(labels: seq<string>, data: seq<int>, colors: seq<string>)
  datatype LineChart = LineChart(labels: seq<string>, datasetLabel: string, data: seq<int>,
                                 fill: bool, color: string, tension: real)

  /** Durations per mission: one bar per duration, labelled by mission number. */
  function BarData(s: Summary): (c: BarChart)
    ensures c.data == s.durations && |c.labels| == |s.durations|
    ensures forall i :: 0 <= i < |c.labels| ==> c.labels[i] == MissionLabel(i)
  {
    BarChart(MissionLabels(s.durations), "Duration (sec)", s.durations, "#3B82F6")
  }

  /** Altitudes per mission: one bar per altitude, labelled by mission number. */
  function AltitudeData(s: Summary): (c: BarChart)
    ensures c.data == s.altitudes && |c.labels| == |s.altitudes|
    ensures forall i :: 0 <= i < |c.labels| ==> c.labels[i] == MissionLabel(i)
  {
    BarChart(MissionLabels(s.altitudes), "Altitude (m)", s.altitudes, "#10B981")
  }

  /** The completion ratio: completed first, aborted second. */
  function PieData(s: Summary): (c: PieChart)
    ensures |c.data| == |c.labels| == |c.colors| == 2
    ensures c.labels[0] == "Completed" && c.data[0] == s.completed
    ensures c.labels[1] == "Aborted" && c.data[1] == s.aborted
  {
    PieChart(["Completed", "Aborted"], [s.completed, s.aborted], ["#10B981", "#EF4444"])
  }

  /** `durationsOverTime.map(d => d.durationSec)`. */
  function DurationSeries(ps: seq<DurationPoint>): (d: seq<int>)
    ensures |d| == |ps|
    ensures forall i :: 0 <= i < |ps| ==> d[i] == ps[i].durationSec
    decreases |ps|
  {
    if ps == [] then [] else [ps[0].durationSec] + DurationSeries(ps[1..])
  }

  /** Each point's creation time through the date formatter, in order. */
  function DateLabels(ps: seq<DurationPoint>, dateLabel: string -> string): (l: seq<string>)
    ensures |l| == |ps|
    ensures forall i :: 0 <= i < |ps| ==> l[i] == dateLabel(ps[i].createdAt)
    decreases |ps|
  {
    if ps == [] then [] else [dateLabel(ps[0].createdAt)] + DateLabels(ps[1..], dateLabel)
  }

  /**
   * Duration over time. `dateLabel` stands for the locale-dependent
   * `new Date(createdAt).toLocaleDateString()`.
   */
  function LineData(s: Summary, dateLabel: string -> string): (c: LineChart)
    ensures |c.data| == |c.labels| == |s.durationsOverTime|
    ensures forall i :: 0 <= i < |c.data| ==>
              c.data[i] == s.durationsOverTime[i].durationSec
              && c.labels[i] == dateLabel(s.durationsOverTime[i].createdAt)
  {
    LineChart(DateLabels(s.durationsOverTime, dateLabel), "Mission Duration (sec)",
              DurationSeries(s.durationsOverTime), false, "#F59E0B", 0.3)
  }

  /** With nothing fetched every chart is empty except the pie, which shows two zeros. */
  lemma DefaultCharts(dateLabel: string -> string)
    ensures BarData(DefaultSummary).labels == [] && AltitudeData(DefaultSummary).labels == []
    ensures PieData(DefaultSummary).data == [0, 0]
    ensures LineData(DefaultSummary, dateLabel).data == []
  {
  }

  // ---------------------------------------------------------------------------
  // Average duration
  // ---------------------------------------------------------------------------

  /** JavaScript's `a % 60`: the remainder takes the sign of the dividend. */
  function JsRemainder60(a: int): (r: int)
    ensures a >= 0 ==> 0 <= r < 60
    ensures a < 0 ==> -60 < r <= 0
    ensures (a - r) % 60 == 0
  {
    if a >= 0 then a % 60 else -((-a) % 60)
  }

  /** `Math.floor(s / 60)` and `s % 60` of the average duration. */
  function DurationParts(s: int): (p: (int, int))
    ensures p.0 * 60 <= s < p.0 * 60 + 60
    ensures s >= 0 ==> p.0 >= 0 && 0 <= p.1 < 60 && p.0 * 60 + p.1 == s
  {
    (s / 60, JsRemainder60(s))
  }

  /**
   * The Avg Duration card's text, `${minutes}m ${seconds}s`: for a whole,
   * non-negative average its minutes and leftover seconds; for a negative one
   * the floored minutes and JavaScript's signed remainder.
   */
  function AvgDurationText(s: int): (t: string)
    ensures t == IntToString(s / 60) + "m " + IntToString(JsRemainder60(s)) + "s"
    ensures s >= 0 ==> t == NatToString(s / 60) + "m " + NatToString(s % 60) + "s"
  {
    var p := DurationParts(s);
    IntToString(p.0) + "m " + IntToString(p.1) + "s"
  }
}
