/** `helios recommend`: the strategy chosen from the flags, the request sent to
    `/recommend`, and what the table view makes of the answer (the replica change, which
    resources change, the cost line and the confidence colour). */
module CliRecommend {

  import opened Wrappers
  import opened CliCommon

  /** `strategy = "balanced"; if cost_optimize: "cost" elif performance: "performance"`. */
  function Strategy(costOptimize: bool, performance: bool): (s: string)
    ensures s == "cost" <==> costOptimize
    ensures s == "performance" <==> !costOptimize && performance
    ensures s == "balanced" <==> !costOptimize && !performance
  {
    if costOptimize then "cost" else if performance then "performance" else "balanced"
  }

  /** The `POST {endpoint}/recommend` call. */
  function RecommendRequest(ctx: Context, deployment: string, namespace: string, costOptimize: bool, performance: bool): (r: Request)
    ensures r.verb == "POST" && r.url == ctx.endpoint + "/recommend"
    ensures r.body.Keys == {"deployment", "namespace", "strategy"}
    ensures r.body["deployment"] == Str(deployment) && r.body["namespace"] == Str(namespace)
    ensures r.body["strategy"] == Str(Strategy(costOptimize, performance))
    ensures r.headers == AuthHeaders(ctx.apiKey)
  {
    Request("POST", ctx.endpoint + "/recommend",
            map["deployment" := Str(deployment), "namespace" := Str(namespace),
                "strategy" := Str(Strategy(costOptimize, performance))],
            AuthHeaders(ctx.apiKey))
  }

  /** The request for the options as typed: a left-out `--namespace` is `default`, and
      with neither flag given the strategy is `balanced`. */
  function RecommendRequestFor(ctx: Context, deployment: string, namespace: Option<string>,
                               costOptimize: bool, performance: bool): (r: Request)
    ensures r.body.Keys == {"deployment", "namespace", "strategy"}
    ensures r.body["namespace"] == Str(if namespace.Some? then namespace.value else "default")
    ensures !costOptimize && !performance ==> r.body["strategy"] == Str("balanced")
    ensures r.body["deployment"] == Str(deployment)
  {
    RecommendRequest(ctx, deployment, namespace.GetOr(DefaultNamespace), costOptimize, performance)
  }

  /** `{"balanced": "⚖️", "cost": "💰", "performance": "🚀"}.get(strategy, "⚖️")`. */
  function StrategyEmoji(strategy: string): (e: string)
    ensures strategy == "cost" ==> e == "💰"
    ensures strategy == "performance" ==> e == "🚀"
    ensures strategy != "cost" && strategy != "performance" ==> e == "⚖️"
  {
    if strategy == "cost" then "💰" else if strategy == "performance" then "🚀" else "⚖️"
  }

  /** A value in the `current` or `recommended` object: a count or a quantity string. */
  datatype Field = Count(n: int) | Quantity(q: string)

  /** The parts of the answer the table view reads; an absent key is `None`. */
  datatype Answer = Answer(
    current: Option<map<string, Field>>,
    recommended: Option<map<string, Field>>,
    monthlySavings: Option<Option<real>>,   // `cost_impact` absent, or present with or without `monthly_savings`
    reasoning: Option<seq<string>>,
    applyCommand: Option<string>,
    confidence: Option<real>)

  /** `d.get(key, default)`. */
  function GetField(d: map<string, Field>, key: string, default: Field): Field {
    if key in d then d[key] else default
  }

  /** The change cell of the replicas row. */
  datatype ReplicaChange = Up(step: nat) | Down(step: nat) | NoChange

  /** `replica_change = rec - curr`: an arrow up in green, down in red, with the absolute
      change, or "no change". */
  function ReplicaCell(curr: int, rec: int): (c: ReplicaChange)
    ensures c.NoChange? <==> rec == curr
    ensures c.Up? <==> rec > curr
    ensures c.Down? <==> rec < curr
  {
    var change := rec - curr;
    if change > 0 then Up(change) else if change < 0 then Down(-change) else NoChange
  }

  /** The cell gives the change back: applying it to the current count gives the
      recommended one. */
  lemma ReplicaCellInverse(curr: int, rec: int)
    ensures match ReplicaCell(curr, rec)
      case Up(step) => curr + step == rec
      case Down(step) => curr - step == rec
      case NoChange => curr == rec
  {
  }

  /** One resource row: its label, the two values (`"N/A"` when absent), and whether it is
      marked as changing. */
  datatype ResourceRow = ResourceRow(resource: string, current: Field, recommended: Field, changed: bool)

  function ResourceRowOf(resource: string, key: string, current: map<string, Field>, recommended: map<string, Field>): (row: ResourceRow)
    ensures row.resource == resource
    ensures row.current == GetField(current, key, Quantity("N/A"))
    ensures row.recommended == GetField(recommended, key, Quantity("N/A"))
    ensures row.changed <==> row.current != row.recommended
  {
    var c := GetField(current, key, Quantity("N/A"));
    var r := GetField(recommended, key, Quantity("N/A"));
    ResourceRow(resource, c, r, c != r)
  }

  /** The table rows: the replica counts and change, then the four resources. */
  datatype ResourceTable = ResourceTable(currentReplicas: int, recommendedReplicas: int, replicas: ReplicaChange, rows: seq<ResourceRow>)

  /** `current.get("replicas", 0)`, when it is a count; subtracting anything else raises. */
  function Replicas(d: map<string, Field>): Option<int> {
    match GetField(d, "replicas", Count(0))
    case Count(n) => Some(n)
    case Quantity(_) => None
  }

  const ResourceKeys: seq<(string, string)> := [
    ("CPU Request", "cpu_request"), ("Memory Request", "memory_request"),
    ("CPU Limit", "cpu_limit"), ("Memory Limit", "memory_limit")
  ]

  /** The `Resource Configuration` table, shown only when both objects are non-empty;
      `TypeError` when a replica value is not a count. */
  function Table(a: Answer): (t: Outcome<Option<ResourceTable>>)
    ensures t.Returned? && t.value.Some? <==>
      a.current.Some? && a.recommended.Some? && |a.current.value| > 0 && |a.recommended.value| > 0
      && Replicas(a.current.value).Some? && Replicas(a.recommended.value).Some?
    ensures t.Thrown? <==>
      a.current.Some? && a.recommended.Some? && |a.current.value| > 0 && |a.recommended.value| > 0
      && (Replicas(a.current.value).None? || Replicas(a.recommended.value).None?)
    ensures t == Returned(None) <==>
      a.current.None? || a.recommended.None? || |a.current.value| == 0 || |a.recommended.value| == 0
    ensures t.Returned? && t.value.Some? ==>
      && t.value.value.currentReplicas == Replicas(a.current.value).value
      && t.value.value.recommendedReplicas == Replicas(a.recommended.value).value
      && t.value.value.replicas == ReplicaCell(t.value.value.currentReplicas, t.value.value.recommendedReplicas)
      && |t.value.value.rows| == |ResourceKeys|
      && forall i :: 0 <= i < |ResourceKeys| ==>
           t.value.value.rows[i] == ResourceRowOf(ResourceKeys[i].0, ResourceKeys[i].1, a.current.value, a.recommended.value)
  {
    var current := a.current.GetOr(map[]);
    var recommended := a.recommended.GetOr(map[]);
    if |current| == 0 || |recommended| == 0 then Returned(None)
    else match (Replicas(current), Replicas(recommended))
      case (Some(c), Some(r)) =>
        Returned(Some(ResourceTable(c, r, ReplicaCell(c, r),
          seq(|ResourceKeys|, i requires 0 <= i < |ResourceKeys| =>
            ResourceRowOf(ResourceKeys[i].0, ResourceKeys[i].1, current, recommended)))))
      case _ => Thrown("TypeError: unsupported operand type(s) for -")
  }

  /** The cost impact line. */
  datatype CostLine = Savings(amount: real) | Increase(amount: real) | NoCostChange

  /** `monthly_savings = cost.get("monthly_savings", 0)`: savings when positive, an increase
      of the absolute value when negative. */
  function CostLineOf(monthlySavings: Option<real>): (l: CostLine)
    ensures l.NoCostChange? <==> monthlySavings.GetOr(0.0) == 0.0
    ensures l.Savings? ==> l.amount == monthlySavings.value > 0.0
    ensures l.Increase? ==> l.amount == -monthlySavings.value > 0.0
  {
    var s := monthlySavings.GetOr(0.0);
    if s > 0.0 then Savings(s) else if s < 0.0 then Increase(-s) else NoCostChange
  }

  /** The line gives the signed savings back. */
  lemma CostLineInverse(monthlySavings: Option<real>)
    ensures match CostLineOf(monthlySavings)
      case Savings(x) => x == monthlySavings.GetOr(0.0)
      case Increase(x) => -x == monthlySavings.GetOr(0.0)
      case NoCostChange => 0.0 == monthlySavings.GetOr(0.0)
  {
  }

  /** The colour of `confidence * 100`. */
  function ConfidenceColour(confidence: real): (c: string)
    ensures c == BandColour(confidence * 100.0)
    ensures c == "green" <==> confidence >= 0.8
    ensures c == "red" <==> confidence < 0.6
  {
    BandColour(confidence * 100.0)
  }

  /** What `_display_recommendations` shows. */
  datatype View = View(
    emoji: string,
    strategy: string,
    table: Option<ResourceTable>,
    cost: Option<CostLine>,
    reasons: seq<string>,
    applyCommand: Option<string>,
    confidenceColour: Option<string>)

  function Display(a: Answer, strategy: string): (v: Outcome<View>)
    ensures v.Returned? <==> Table(a).Returned?
    ensures v.Returned? ==>
      && v.value.emoji == StrategyEmoji(strategy)
      && v.value.table == Table(a).value
      && (v.value.cost.Some? <==> a.monthlySavings.Some?)
      && (a.monthlySavings.Some? ==> v.value.cost == Some(CostLineOf(a.monthlySavings.value)))
      && v.value.reasons == a.reasoning.GetOr([])
      && v.value.applyCommand == a.applyCommand
      && (v.value.confidenceColour.Some? <==> a.confidence.Some?)
      && (a.confidence.Some? ==> v.value.confidenceColour == Some(ConfidenceColour(a.confidence.value)))
  {
    match Table(a)
    case Thrown(msg) => Thrown(msg)
    case Returned(table) =>
      Returned(View(StrategyEmoji(strategy), strategy, table,
        if a.monthlySavings.Some? then Some(CostLineOf(a.monthlySavings.value)) else None,
        a.reasoning.GetOr([]), a.applyCommand,
        if a.confidence.Some? then Some(ConfidenceColour(a.confidence.value)) else None))
  }

  /** What the command ends with. */
  datatype Result = ExitOne(error: string) | Dumped(format: Rendering, data: Answer) | Viewed(view: Outcome<View>)

  /** `recommend`: the request, then the error exit, the dump, or the table view. */
  function Recommend(ctx: Context, deployment: string, namespace: string, costOptimize: bool, performance: bool,
                     answer: HttpAnswer<Answer>): (res: (Request, Result))
    ensures res.0 == RecommendRequest(ctx, deployment, namespace, costOptimize, performance)
    ensures answer.HttpError? <==> res.1.ExitOne?
    ensures answer.HttpError? ==> res.1.error == ConnectError(answer.msg)
    ensures answer.Answered? && RenderingOf(ctx.output) != TableView ==> res.1 == Dumped(RenderingOf(ctx.output), answer.body)
    ensures answer.Answered? && RenderingOf(ctx.output) == TableView ==>
      res.1 == Viewed(Display(answer.body, Strategy(costOptimize, performance)))
  {
    var request := RecommendRequest(ctx, deployment, namespace, costOptimize, performance);
    match answer
    case HttpError(msg) => (request, ExitOne(ConnectError(msg)))
    case Answered(body) =>
      var format := RenderingOf(ctx.output);
      if format != TableView then (request, Dumped(format, body))
      else (request, Viewed(Display(body, Strategy(costOptimize, performance))))
  }

  /** `--cost-optimize` wins over `--performance`. */
  lemma CostWins(performance: bool)
    ensures Strategy(true, performance) == "cost"
    ensures StrategyEmoji(Strategy(true, performance)) == "💰"
  {
  }
}
