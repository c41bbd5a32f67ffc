/** `prescale status`: the two probes (`/health`, then `/metrics`) and the results they
    leave, and how the table view classifies those results. */
module CliStatus {

  import opened Wrappers
  import opened CliCommon

  /** The parts of a `/health` body the view reads; absent keys are `None`. The body of a
      response other than 200 is never read, which leaves both absent (`{}`). */
  datatype Details = Details(version: Option<string>, models: Option<seq<string>>)

  const NoDetails: Details := Details(None, None)

  /** What a probe saw: a response (status code, elapsed milliseconds and, for the health
      probe, the decoded body), or a transport error. */
  datatype Probe = Responded(code: int, elapsedMs: real, body: Details) | Unreachable(msg: string)

  /** `results["inference"]`: the status with response time and details, or the status
      with the error string. */
  datatype Inference = Inference(status: string, responseTimeMs: Option<real>, details: Option<Details>, error: Option<string>)

  /** `results`: each key is absent (`None`) until its probe has run; `metrics` holds the
      status string of the metrics probe. */
  datatype Results = Results(inference: Option<Inference>, metrics: Option<string>)

  /** The two `GET` calls, both with the same optional bearer header. */
  function ProbeRequests(ctx: Context): (rs: seq<Request>)
    ensures |rs| == 2
    ensures rs[0] == Request("GET", ctx.endpoint + "/health", map[], AuthHeaders(ctx.apiKey))
    ensures rs[1] == Request("GET", ctx.endpoint + "/metrics", map[], AuthHeaders(ctx.apiKey))
  {
    [Request("GET", ctx.endpoint + "/health", map[], AuthHeaders(ctx.apiKey)),
     Request("GET", ctx.endpoint + "/metrics", map[], AuthHeaders(ctx.apiKey))]
  }

  /** What `results` holds once both probes ran: a 200 health answer is healthy with its
      details, any other code unhealthy with none, a transport error unreachable with its
      message; the metrics are available exactly on a 200 answer. */
  predicate Probed(health: Probe, metrics: Probe, results: Results) {
    && results.inference.Some? && results.metrics.Some?
    && (health.Responded? ==> results.inference.value == Inference(
          if health.code == 200 then "healthy" else "unhealthy", Some(health.elapsedMs),
          Some(if health.code == 200 then health.body else NoDetails), None))
    && (health.Unreachable? ==> results.inference.value == Inference("unreachable", None, None, Some(health.msg)))
    && (results.metrics.value == "available" <==> metrics.Responded? && metrics.code == 200)
    && results.metrics.value in {"available", "unavailable"}
  }

  /** The probes of `status`: fills `results` key by key from what the two probes saw. */
  method CheckServices(ctx: Context, health: Probe, metrics: Probe) returns (requests: seq<Request>, results: Results)
    ensures requests == ProbeRequests(ctx)
    ensures Probed(health, metrics, results)
  {
    var headers := AuthHeaders(ctx.apiKey);
    results := Results(None, None);
    requests := [Request("GET", ctx.endpoint + "/health", map[], headers)];
    match health {
      case Responded(code, elapsed, body) =>
        results := results.(inference := Some(Inference(
          if code == 200 then "healthy" else "unhealthy", Some(elapsed),
          Some(if code == 200 then body else NoDetails), None)));
      case Unreachable(msg) =>
        results := results.(inference := Some(Inference("unreachable", None, None, Some(msg))));
    }
    requests := requests + [Request("GET", ctx.endpoint + "/metrics", map[], headers)];
    match metrics {
      case Responded(code, _, _) =>
        results := results.(metrics := Some(if code == 200 then "available" else "unavailable"));
      case Unreachable(_) =>
        results := results.(metrics := Some("unavailable"));
    }
  }

  /** `{"healthy": "green", "unhealthy": "yellow", "unreachable": "red"}.get(status, "white")`. */
  function StatusColour(status: string): (c: string)
    ensures status !in {"healthy", "unhealthy", "unreachable"} <==> c == "white"
    ensures status == "healthy" <==> c == "green"
  {
    if status == "healthy" then "green"
    else if status == "unhealthy" then "yellow"
    else if status == "unreachable" then "red"
    else "white"
  }

  /** `{"healthy": "✓", "unhealthy": "⚠", "unreachable": "✗"}.get(status, "?")`. */
  function StatusEmoji(status: string): (e: string)
    ensures status !in {"healthy", "unhealthy", "unreachable"} <==> e == "?"
    ensures status == "healthy" <==> e == "✓"
  {
    if status == "healthy" then "✓"
    else if status == "unhealthy" then "⚠"
    else if status == "unreachable" then "✗"
    else "?"
  }

  /** The response-time cell: `"N/A"` for a missing or zero time. */
  datatype TimeCell = NotAvailable | Millis(ms: real)

  function ResponseTimeCell(ms: Option<real>): (c: TimeCell)
    ensures c.NotAvailable? <==> ms.GetOr(0.0) == 0.0
    ensures c.Millis? ==> c.ms == ms.value
  {
    var t := ms.GetOr(0.0);
    if t != 0.0 then Millis(t) else NotAvailable
  }

  /** What `_display_status` shows. */
  datatype View = View(
    colour: string,
    emoji: string,
    status: string,
    responseTime: TimeCell,
    details: string,
    metricsColour: string,
    metricsStatus: string,
    models: Option<seq<string>>)

  function Display(results: Results): (v: View)
    ensures var inf := results.inference;
      var status := if inf.Some? then inf.value.status else "unknown";
      && v.status == status && v.colour == StatusColour(status) && v.emoji == StatusEmoji(status)
      && v.responseTime == ResponseTimeCell(if inf.Some? then inf.value.responseTimeMs else None)
    ensures var inf := results.inference;
      var details := if inf.Some? then inf.value.details.GetOr(NoDetails) else NoDetails;
      && (v.status == "healthy" ==> v.details == "v" + details.version.GetOr("unknown"))
      && (v.status != "healthy" ==> v.details == (if inf.Some? then inf.value.error.GetOr("") else ""))
      && (v.models.Some? <==> v.status == "healthy" && details.models.Some?)
      && (v.models.Some? ==> v.models == details.models)
    ensures var m := results.metrics.GetOr("unknown");
      v.metricsStatus == m && (v.metricsColour == "green" <==> m == "available")
  {
    var inf := results.inference.GetOr(Inference("unknown", None, None, None));
    var status := inf.status;
    var details := inf.details.GetOr(NoDetails);
    var m := results.metrics.GetOr("unknown");
    View(StatusColour(status), StatusEmoji(status), status, ResponseTimeCell(inf.responseTimeMs),
         if status == "healthy" then "v" + details.version.GetOr("unknown") else inf.error.GetOr(""),
         if m == "available" then "green" else "red", m,
         if status == "healthy" then details.models else None)
  }

  /** After the probes, the view's status is healthy exactly when `/health` answered 200,
      models are listed only then, and an unreachable service shows its error. */
  lemma ProbesThenDisplay(health: Probe, results: Results)
    requires results.inference.Some? && results.metrics.Some?
    requires health.Responded? ==> results.inference.value == Inference(
      if health.code == 200 then "healthy" else "unhealthy", Some(health.elapsedMs),
      Some(if health.code == 200 then health.body else NoDetails), None)
    requires health.Unreachable? ==> results.inference.value == Inference("unreachable", None, None, Some(health.msg))
    ensures Display(results).status == "healthy" <==> health.Responded? && health.code == 200
    ensures Display(results).models.Some? ==> health.Responded? && health.code == 200 && Display(results).models == health.body.models
    ensures health.Unreachable? ==> Display(results).details == health.msg && Display(results).colour == "red"
    ensures health.Unreachable? ==> Display(results).responseTime == NotAvailable
  {
  }

  /** What the command ends with. There is no error exit: both probes catch
      `httpx.HTTPError` and record it in `results`. */
  datatype Result = Dumped(format: Rendering, data: Results) | Viewed(view: View)

  /** `status`: the two probes, then the JSON/YAML dump of `results` or the table view. */
  method Status(ctx: Context, health: Probe, metrics: Probe) returns (requests: seq<Request>, results: Results, res: Result)
    ensures requests == ProbeRequests(ctx)
    ensures Probed(health, metrics, results)
    ensures RenderingOf(ctx.output) != TableView ==> res == Dumped(RenderingOf(ctx.output), results)
    ensures RenderingOf(ctx.output) == TableView ==> res == Viewed(Display(results))
    ensures res.Viewed? ==> (res.view.status == "healthy" <==> health.Responded? && health.code == 200)
  {
    requests, results := CheckServices(ctx, health, metrics);
    var format := RenderingOf(ctx.output);
    if format != TableView {
      res := Dumped(format, results);
    } else {
      res := Viewed(Display(results));
      ProbesThenDisplay(health, results);
    }
  }
}
