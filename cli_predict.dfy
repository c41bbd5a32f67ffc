/** `helios predict cpu` and `helios predict memory`: the request sent to `/predict`, and
    the table view's first ten rows, its trailer and the summary. */
module CliPredict {

  import opened Wrappers
  import opened CliCommon

  /** The two subcommands. */
  datatype MetricType = Cpu | Memory {
    function Name(): string {
      match this
      case Cpu => "cpu"
      case Memory => "memory"
    }
    /** The title of the panel: `"CPU"` or `"Memory"`. */
    function Title(): string {
      match this
      case Cpu => "CPU"
      case Memory => "Memory"
    }
  }

  /** The options of either subcommand; `None` where the option was not given. */
  datatype Options = Options(deployment: string, namespace: Option<string>, horizon: Option<int>, interval: Option<string>)

  const DefaultHorizon: int := 24
  const DefaultInterval: string := "1h"

  /** The `POST {endpoint}/predict` call, with the click defaults for missing options. */
  function PredictRequest(ctx: Context, metric: MetricType, opts: Options): (r: Request)
    ensures r.verb == "POST" && r.url == ctx.endpoint + "/predict"
    ensures r.body.Keys == {"metric_type", "deployment", "namespace", "horizon_hours", "interval"}
    ensures r.body["metric_type"] == Str(metric.Name())
    ensures r.body["deployment"] == Str(opts.deployment)
    ensures r.body["namespace"] == Str(opts.namespace.GetOr(DefaultNamespace))
    ensures r.body["horizon_hours"] == Int(opts.horizon.GetOr(DefaultHorizon))
    ensures r.body["interval"] == Str(opts.interval.GetOr(DefaultInterval))
    ensures r.headers == AuthHeaders(ctx.apiKey)
  {
    Request("POST", ctx.endpoint + "/predict",
            map["metric_type" := Str(metric.Name()), "deployment" := Str(opts.deployment),
                "namespace" := Str(opts.namespace.GetOr(DefaultNamespace)),
                "horizon_hours" := Int(opts.horizon.GetOr(DefaultHorizon)),
                "interval" := Str(opts.interval.GetOr(DefaultInterval))],
            AuthHeaders(ctx.apiKey))
  }

  /** The two subcommands send the same body except for `metric_type`. */
  lemma CpuMemoryDiffer(ctx: Context, opts: Options)
    ensures PredictRequest(ctx, Cpu, opts).body - {"metric_type"} == PredictRequest(ctx, Memory, opts).body - {"metric_type"}
    ensures PredictRequest(ctx, Cpu, opts).body["metric_type"] != PredictRequest(ctx, Memory, opts).body["metric_type"]
  {
    var a := PredictRequest(ctx, Cpu, opts).body - {"metric_type"};
    var b := PredictRequest(ctx, Memory, opts).body - {"metric_type"};
    assert a.Keys == b.Keys;
  }

  /** One entry of `predictions`; an absent key is `None`. */
  datatype Prediction = Prediction(timestamp: Option<string>, value: Option<real>, lowerBound: Option<real>,
                                   upperBound: Option<real>, confidence: Option<real>)

  /** One table row; the confidence column shows `confidence * 100`. */
  datatype PredictionRow = PredictionRow(time: string, predicted: real, lower: real, upper: real, confidencePercent: real)

  function RowOf(p: Prediction, reformat: string -> Option<string>): (row: PredictionRow)
    ensures row.time == TimeCell(p.timestamp, reformat)
    ensures row.predicted == p.value.GetOr(0.0) && row.lower == p.lowerBound.GetOr(0.0) && row.upper == p.upperBound.GetOr(0.0)
    ensures row.confidencePercent == p.confidence.GetOr(0.0) * 100.0
  {
    PredictionRow(TimeCell(p.timestamp, reformat), p.value.GetOr(0.0), p.lowerBound.GetOr(0.0),
                  p.upperBound.GetOr(0.0), p.confidence.GetOr(0.0) * 100.0)
  }

  const ShownRows: nat := 10

  /** `data["predictions"][:10]`, one row each. */
  function Rows(predictions: seq<Prediction>, reformat: string -> Option<string>): (rows: seq<PredictionRow>)
    ensures |rows| == if |predictions| < ShownRows then |predictions| else ShownRows
    ensures forall i :: 0 <= i < |rows| ==> rows[i] == RowOf(predictions[i], reformat)
  {
    var shown := if |predictions| < ShownRows then predictions else predictions[..ShownRows];
    seq(|shown|, i requires 0 <= i < |shown| => RowOf(shown[i], reformat))
  }

  /** `... and N more predictions`, present iff more than ten. */
  function Trailer(predictions: seq<Prediction>): (more: Option<nat>)
    ensures more.Some? <==> |predictions| > ShownRows
  {
    if |predictions| > ShownRows then Some(|predictions| - ShownRows) else None
  }

  /** The rows shown and the trailer's count together account for every prediction. */
  lemma RowsAndTrailerCoverAll(predictions: seq<Prediction>, reformat: string -> Option<string>)
    ensures |Rows(predictions, reformat)| + Trailer(predictions).GetOr(0) == |predictions|
    ensures Trailer(predictions).Some? ==> Trailer(predictions).value > 0
  {
  }

  /** `summary`; absent keys are `None`. */
  datatype Summary = Summary(peak: Option<real>, average: Option<real>, trend: Option<string>)

  /** The parts of the answer the table view reads. */
  datatype Answer = Answer(predictions: Option<seq<Prediction>>, summary: Option<Summary>)

  /** The summary lines: peak and average default to 0, the trend to `"stable"`. */
  datatype SummaryLines = SummaryLines(peak: real, average: real, trend: string)

  /** What `_display_prediction_table` shows. */
  datatype View = View(title: string, rows: Option<seq<PredictionRow>>, more: Option<nat>, summary: Option<SummaryLines>)

  function Display(a: Answer, metric: MetricType, reformat: string -> Option<string>): (v: View)
    ensures v.title == metric.Title() + " Prediction"
    ensures v.rows.Some? <==> a.predictions.Some?
    ensures a.predictions.Some? ==> v.rows == Some(Rows(a.predictions.value, reformat)) && v.more == Trailer(a.predictions.value)
    ensures a.predictions.None? ==> v.more.None?
    ensures v.summary.Some? <==> a.summary.Some?
    ensures a.summary.Some? ==>
      v.summary.value == SummaryLines(a.summary.value.peak.GetOr(0.0), a.summary.value.average.GetOr(0.0), a.summary.value.trend.GetOr("stable"))
  {
    View(metric.Title() + " Prediction",
         if a.predictions.Some? then Some(Rows(a.predictions.value, reformat)) else None,
         if a.predictions.Some? then Trailer(a.predictions.value) else None,
         if a.summary.Some? then
           Some(SummaryLines(a.summary.value.peak.GetOr(0.0), a.summary.value.average.GetOr(0.0), a.summary.value.trend.GetOr("stable")))
         else None)
  }

  /** What the command ends with. */
  datatype Result = ExitOne(error: string) | Dumped(format: Rendering, data: Answer) | Viewed(view: View)

  /** `predict cpu` / `predict memory`: the request, then the error exit, the dump, or the
      table view. */
  function Predict(ctx: Context, metric: MetricType, opts: Options, answer: HttpAnswer<Answer>,
                   reformat: string -> Option<string>): (res: (Request, Result))
    ensures res.0 == PredictRequest(ctx, metric, opts)
    ensures answer.HttpError? <==> res.1.ExitOne?
    ensures answer.HttpError? ==> res.1.error == ConnectError(answer.msg)
    ensures answer.Answered? && RenderingOf(ctx.output) != TableView ==> res.1 == Dumped(RenderingOf(ctx.output), answer.body)
    ensures answer.Answered? && RenderingOf(ctx.output) == TableView ==> res.1 == Viewed(Display(answer.body, metric, reformat))
  {
    var request := PredictRequest(ctx, metric, opts);
    match answer
    case HttpError(msg) => (request, ExitOne(ConnectError(msg)))
    case Answered(body) =>
      var format := RenderingOf(ctx.output);
      if format != TableView then (request, Dumped(format, body)) else (request, Viewed(Display(body, metric, reformat)))
  }
}
