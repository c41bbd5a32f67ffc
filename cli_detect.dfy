/** `helios detect`: the request sent to `/detect`, and how the table view classifies the
    answer (the status colour and text, one row per anomaly with its severity style,
    the recommendations and the health-score colour). */
module CliDetect {

  import opened Wrappers
  import opened CliCommon
  import Text

  /** `--sensitivity`, restricted by `click.Choice` to three values. */
  datatype Sensitivity = Low | Medium | High {
    function Name(): (s: string)
      ensures s in {"low", "medium", "high"}
    {
      match this
      case Low => "low"
      case Medium => "medium"
      case High => "high"
    }
  }

  /** Different choices are sent as different strings. */
  lemma SensitivityNameInjective(a: Sensitivity, b: Sensitivity)
    requires a.Name() == b.Name()
    ensures a == b
  {
  }

  /** The `POST {endpoint}/detect` call. */
  function DetectRequest(ctx: Context, deployment: string, namespace: string, lookback: int, sensitivity: Sensitivity): (r: Request)
    ensures r.verb == "POST" && r.url == ctx.endpoint + "/detect"
    ensures r.body.Keys == {"deployment", "namespace", "lookback_hours", "sensitivity"}
    ensures r.body["deployment"] == Str(deployment) && r.body["namespace"] == Str(namespace)
    ensures r.body["lookback_hours"] == Int(lookback) && r.body["sensitivity"] == Str(sensitivity.Name())
    ensures r.headers == AuthHeaders(ctx.apiKey)
  {
    Request("POST", ctx.endpoint + "/detect",
            map["deployment" := Str(deployment), "namespace" := Str(namespace),
                "lookback_hours" := Int(lookback), "sensitivity" := Str(sensitivity.Name())],
            AuthHeaders(ctx.apiKey))
  }

  /** `--lookback` and `--sensitivity` when they are not given. */
  const DefaultLookback: int := 1
  const DefaultSensitivity: Sensitivity := Medium

  /** The options as typed, `None` for one left out. */
  datatype DetectOptions = DetectOptions(namespace: Option<string>, lookback: Option<int>, sensitivity: Option<Sensitivity>)

  /** The request for the options as typed: each one left out takes its default, the
      `default` namespace, one hour and `medium`. */
  function DetectRequestFor(ctx: Context, deployment: string, opts: DetectOptions): (r: Request)
    ensures r.body.Keys == {"deployment", "namespace", "lookback_hours", "sensitivity"}
    ensures r.body["deployment"] == Str(deployment)
    ensures r.body["namespace"] == Str(if opts.namespace.Some? then opts.namespace.value else "default")
    ensures r.body["lookback_hours"] == Int(if opts.lookback.Some? then opts.lookback.value else 1)
    ensures r.body["sensitivity"] == Str(if opts.sensitivity.Some? then opts.sensitivity.value.Name() else "medium")
  {
    DetectRequest(ctx, deployment, opts.namespace.GetOr(DefaultNamespace), opts.lookback.GetOr(DefaultLookback),
                  opts.sensitivity.GetOr(DefaultSensitivity))
  }

  /** Green for none, yellow for one to three, red for more. */
  function StatusColour(count: nat): (c: string)
    ensures c == "green" <==> count == 0
    ensures c == "yellow" <==> 1 <= count <= 3
    ensures c == "red" <==> count > 3
  {
    if count == 0 then "green" else if count > 3 then "red" else "yellow"
  }

  /** More anomalies never give a better colour. */
  lemma StatusColourAntitone(m: nat, n: nat)
    requires m <= n
    ensures ColourRank(StatusColour(n)) <= ColourRank(StatusColour(m))
  {
  }

  function StatusText(count: nat): (t: string)
    ensures count == 0 ==> t == "No anomalies detected"
    ensures count > 0 ==> t == Text.NatToString(count) + " anomalies detected"
  {
    if count == 0 then "No anomalies detected" else Text.NatToString(count) + " anomalies detected"
  }

  /** The count can be read back from the status text. */
  lemma StatusTextCount(count: nat)
    requires count > 0
    ensures var t := StatusText(count);
      var digits := t[..|t| - |" anomalies detected"|];
      (forall i :: 0 <= i < |digits| ==> Text.IsDigit(digits[i])) && Text.DigitsValue(digits) == count
  {
    var t := StatusText(count);
    assert t[..|t| - |" anomalies detected"|] == Text.NatToString(count);
    Text.NatToStringRoundTrip(count);
  }

  /** One entry of `anomalies`; an absent key is `None`. */
  datatype Anomaly = Anomaly(
    timestamp: Option<string>,
    metric: Option<string>,
    severity: Option<string>,
    actualValue: Option<real>,
    expectedValue: Option<real>,
    description: Option<string>)

  /** `{"low": "yellow", "medium": "orange1", "high": "red", "critical": "bold red"}.get(severity, "white")`. */
  function SeverityStyle(severity: string): (style: string)
    ensures severity !in {"low", "medium", "high", "critical"} <==> style == "white"
  {
    if severity == "low" then "yellow"
    else if severity == "medium" then "orange1"
    else if severity == "high" then "red"
    else if severity == "critical" then "bold red"
    else "white"
  }

  /** `str.upper()` for ASCII letters. */
  function Upper(s: string): (u: string)
    ensures |u| == |s|
    ensures forall i :: 0 <= i < |s| ==> u[i] == (if 'a' <= s[i] <= 'z' then (s[i] as int - 32) as char else s[i])
  {
    if s == [] then [] else [if 'a' <= s[0] <= 'z' then (s[0] as int - 32) as char else s[0]] + Upper(s[1..])
  }

  /** One table row: the time cell, metric, severity shown in upper case with its style,
      the actual and expected values, and the description. */
  datatype AnomalyRow = AnomalyRow(time: string, metric: string, severity: string, style: string,
                                   actual: real, expected: real, description: string)

  function RowOf(a: Anomaly, reformat: string -> Option<string>): (row: AnomalyRow)
    ensures row.time == TimeCell(a.timestamp, reformat)
    ensures row.metric == a.metric.GetOr("unknown")
    ensures row.severity == Upper(a.severity.GetOr("medium"))
    ensures row.style == SeverityStyle(a.severity.GetOr("medium"))
    ensures row.actual == a.actualValue.GetOr(0.0) && row.expected == a.expectedValue.GetOr(0.0)
    ensures row.description == a.description.GetOr("")
  {
    var severity := a.severity.GetOr("medium");
    AnomalyRow(TimeCell(a.timestamp, reformat), a.metric.GetOr("unknown"), Upper(severity), SeverityStyle(severity),
               a.actualValue.GetOr(0.0), a.expectedValue.GetOr(0.0), a.description.GetOr(""))
  }

  /** An anomaly without a severity is shown as a medium one. */
  lemma MissingSeverityIsMedium(a: Anomaly, reformat: string -> Option<string>)
    requires a.severity.None?
    ensures RowOf(a, reformat).severity == "MEDIUM"
    ensures RowOf(a, reformat).style == "orange1"
  {
    var u := Upper("medium");
    assert u == "MEDIUM";
  }

  /** The `for anomaly in anomalies` loop: one row per anomaly, in order. */
  function Rows(anomalies: seq<Anomaly>, reformat: string -> Option<string>): (rows: seq<AnomalyRow>)
    ensures |rows| == |anomalies|
    ensures forall i :: 0 <= i < |anomalies| ==> rows[i] == RowOf(anomalies[i], reformat)
  {
    if anomalies == [] then [] else [RowOf(anomalies[0], reformat)] + Rows(anomalies[1..], reformat)
  }

  /** The parts of the answer the table view reads; an absent key is `None`. */
  datatype Answer = Answer(anomalies: Option<seq<Anomaly>>, recommendations: Option<seq<string>>, healthScore: Option<real>)

  /** What `_display_anomalies` shows: the panel's colour and text, then either the table
      (with recommendations if any) or the all-clear line, then the health score colour. */
  datatype View = View(
    statusColour: string,
    statusText: string,
    rows: seq<AnomalyRow>,
    allClear: bool,
    recommendations: Option<seq<string>>,
    healthColour: Option<string>)

  function Display(a: Answer, reformat: string -> Option<string>): (v: View)
    ensures var anomalies := a.anomalies.GetOr([]);
      && v.statusColour == StatusColour(|anomalies|)
      && v.statusText == StatusText(|anomalies|)
      && v.rows == Rows(anomalies, reformat)
      && (v.allClear <==> anomalies == [])
      && (v.recommendations.Some? <==> anomalies != [] && a.recommendations.Some?)
      && (v.recommendations.Some? ==> v.recommendations == a.recommendations)
    ensures v.healthColour.Some? <==> a.healthScore.Some?
    ensures a.healthScore.Some? ==> v.healthColour == Some(BandColour(a.healthScore.value))
  {
    var anomalies := a.anomalies.GetOr([]);
    View(StatusColour(|anomalies|), StatusText(|anomalies|), Rows(anomalies, reformat), anomalies == [],
         if anomalies != [] then a.recommendations else None,
         if a.healthScore.Some? then Some(BandColour(a.healthScore.value)) else None)
  }

  /** What the command ends with. */
  datatype Result = ExitOne(error: string) | Dumped(format: Rendering, data: Answer) | Viewed(view: View)

  /** `detect`: the request, then the error exit, the dump, or the table view. */
  function Detect(ctx: Context, deployment: string, namespace: string, lookback: int, sensitivity: Sensitivity,
                  answer: HttpAnswer<Answer>, reformat: string -> Option<string>): (res: (Request, Result))
    ensures res.0 == DetectRequest(ctx, deployment, namespace, lookback, sensitivity)
    ensures answer.HttpError? <==> res.1.ExitOne?
    ensures answer.HttpError? ==> res.1.error == ConnectError(answer.msg)
    ensures answer.Answered? && RenderingOf(ctx.output) != TableView ==> res.1 == Dumped(RenderingOf(ctx.output), answer.body)
    ensures answer.Answered? && RenderingOf(ctx.output) == TableView ==> res.1 == Viewed(Display(answer.body, reformat))
  {
    var request := DetectRequest(ctx, deployment, namespace, lookback, sensitivity);
    match answer
    case HttpError(msg) => (request, ExitOne(ConnectError(msg)))
    case Answered(body) =>
      var format := RenderingOf(ctx.output);
      if format != TableView then (request, Dumped(format, body)) else (request, Viewed(Display(body, reformat)))
  }
}
