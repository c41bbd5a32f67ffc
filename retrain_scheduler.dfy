/** The bookkeeping of the automated retraining scheduler: one retrain cycle's decision
    chain (skip, fail or complete), the deploy-or-not rule, the choice of training target,
    and the bounded history of training runs with its status and history views.

    Fetching, training and the model manager are not run: each call receives what they
    returned (or the exception they raised) as an input, and clock readings likewise. */
module RetrainScheduler {

  import opened Wrappers
  import opened Text

  /** A timezone-aware `datetime`, as a point on an abstract clock. */
  type Timestamp = int

  /** `TrainingRun.status`. */
  datatype Status = Pending | Running | Completed | Failed | Skipped

  /** Per-model metric dictionaries, `{"baseline": {"rmse": …, "mae": …}, …}`. */
  type Metrics = map<string, map<string, real>>

  /** The `config.retraining` settings the scheduler reads. */
  datatype RetrainConfig = RetrainConfig(
    enabled: bool,
    intervalHours: int,
    trainingHours: int,
    dataSource: string,
    minDataPoints: int,
    autoDeploy: bool,
    minImprovement: real)

  /** `TrainingRun.to_dict()`. */
  datatype RunRecord = RunRecord(
    startedAt: Option<Timestamp>,
    completedAt: Option<Timestamp>,
    status: Status,
    dataSource: string,
    dataPoints: int,
    trainingHours: int,
    metrics: Metrics,
    deployed: bool,
    error: Option<string>)

  /** Record of a single training run; `_execute_retrain` fills it in step by step. */
  class TrainingRun {
    var startedAt: Option<Timestamp>
    var completedAt: Option<Timestamp>
    var status: Status
    var dataSource: string
    var dataPoints: int
    var trainingHours: int
    var metrics: Metrics
    var deployed: bool
    var error: Option<string>

    constructor ()
      ensures ToDict() == RunRecord(None, None, Pending, "", 0, 0, map[], false, None)
    {
      startedAt := None;
      completedAt := None;
      status := Pending;
      dataSource := "";
      dataPoints := 0;
      trainingHours := 0;
      metrics := map[];
      deployed := false;
      error := None;
    }

    function ToDict(): RunRecord
      reads this
    {
      RunRecord(startedAt, completedAt, status, dataSource, dataPoints, trainingHours, metrics, deployed, error)
    }
  }

  // ---------------------------------------------------------------- deploy rule

  /** What `_validate_and_deploy` learns from the model manager: no manager at all, or
      whether it has models loaded and the metrics dictionary of the first listed model's
      info (None when there is no info or it has no `metrics`). */
  datatype ManagerView = NoManager | Manager(isLoaded: bool, currentMetrics: Option<map<string, real>>)

  /** `new_metrics.get("baseline", {}).get("rmse")`. */
  function NewRmse(metrics: Metrics): Option<real> {
    if "baseline" in metrics && "rmse" in metrics["baseline"] then Some(metrics["baseline"]["rmse"]) else None
  }

  /** `(current - new) / current` when the current RMSE is positive, else 1.0. */
  function Improvement(current: real, newRmse: real): real {
    if current > 0.0 then (current - newRmse) / current else 1.0
  }

  /** `_validate_and_deploy`. A current model whose metrics lack "rmse" compares against
      infinity; the improvement is then NaN, `NaN < min` is false, and the model deploys. */
  function Validate(metrics: Metrics, manager: ManagerView, minImprovement: real): bool {
    if manager.NoManager? || !manager.isLoaded then true
    else
      var newRmse := NewRmse(metrics);
      if newRmse.None? || newRmse.value == 0.0 then true
      else if manager.currentMetrics.None? || "rmse" !in manager.currentMetrics.value then true
      else !(Improvement(manager.currentMetrics.value["rmse"], newRmse.value) < minImprovement)
  }

  /** The rule refuses a deploy in exactly one situation: a loaded current model with an
      RMSE, a non-zero new baseline RMSE, and too small an improvement. */
  lemma ValidateRefusesIff(metrics: Metrics, manager: ManagerView, minImprovement: real)
    ensures !Validate(metrics, manager, minImprovement) <==>
      && manager.Manager? && manager.isLoaded
      && NewRmse(metrics).Some? && NewRmse(metrics).value != 0.0
      && manager.currentMetrics.Some? && "rmse" in manager.currentMetrics.value
      && Improvement(manager.currentMetrics.value["rmse"], NewRmse(metrics).value) < minImprovement
  {
  }

  lemma ImprovementAntitone(current: real, a: real, b: real)
    requires a <= b
    ensures Improvement(current, b) <= Improvement(current, a)
  {
    if current > 0.0 {
      var x, y := (current - b) / current, (current - a) / current;
      assert x * current == current - b;
      assert y * current == current - a;
      assert (y - x) * current == b - a;
    }
  }

  /** A candidate that would be deployed stays deployable if its (positive) baseline RMSE
      is lower. */
  lemma ValidateMonotone(metrics: Metrics, better: Metrics, manager: ManagerView, minImprovement: real)
    requires NewRmse(metrics).Some? && NewRmse(better).Some?
    requires 0.0 < NewRmse(better).value <= NewRmse(metrics).value
    requires Validate(metrics, manager, minImprovement)
    ensures Validate(better, manager, minImprovement)
  {
    if manager.Manager? && manager.isLoaded && NewRmse(better).value != 0.0
       && manager.currentMetrics.Some? && "rmse" in manager.currentMetrics.value
    {
      ImprovementAntitone(manager.currentMetrics.value["rmse"], NewRmse(better).value, NewRmse(metrics).value);
    }
  }

  // ---------------------------------------------------------------- target column

  /** The preferred training targets, in order. */
  const TargetCandidates: seq<string> := ["cpu_utilization", "saleor_cpu", "ec2_cpu_utilization", "rps"]

  /** The first of `candidates` that occurs in `columns`. */
  function FirstPresent(candidates: seq<string>, columns: seq<string>): (r: Option<string>)
    ensures r.Some? ==> r.value in candidates && r.value in columns
    ensures r.None? <==> forall c :: c in candidates ==> c !in columns
  {
    if candidates == [] then None
    else if candidates[0] in columns then Some(candidates[0])
    else FirstPresent(candidates[1..], columns)
  }

  /** No candidate before the chosen one is present. */
  lemma {:induction false} FirstPresentIsFirst(candidates: seq<string>, columns: seq<string>, j: nat)
    requires FirstPresent(candidates, columns).Some?
    requires j < |candidates| && candidates[j] == FirstPresent(candidates, columns).value
    requires forall i, k :: 0 <= i < k < |candidates| ==> candidates[i] != candidates[k]
    ensures forall i :: 0 <= i < j ==> candidates[i] !in columns
  {
    if candidates[0] !in columns {
      assert j > 0;
      assert candidates[1..][j - 1] == candidates[j];
      FirstPresentIsFirst(candidates[1..], columns, j - 1);
      forall i | 0 <= i < j
        ensures candidates[i] !in columns
      {
        if i > 0 {
          assert candidates[1..][i - 1] == candidates[i];
        }
      }
    }
  }

  /** The target chosen by `_run_training`: a preferred candidate, else the first numeric
      column, else none (and training returns None). */
  function TargetColumn(numericColumns: seq<string>): Option<string> {
    var preferred := FirstPresent(TargetCandidates, numericColumns);
    if preferred.Some? then preferred
    else if |numericColumns| > 0 then Some(numericColumns[0])
    else None
  }

  /** The candidate loop of `_run_training`, with its `break`. */
  method SelectTarget(numericColumns: seq<string>) returns (target: Option<string>)
    ensures target == TargetColumn(numericColumns)
  {
    target := None;
    var i := 0;
    while i < |TargetCandidates|
      invariant 0 <= i <= |TargetCandidates|
      invariant target.None? ==> FirstPresent(TargetCandidates, numericColumns) == FirstPresent(TargetCandidates[i..], numericColumns)
      invariant target.Some? ==> target == FirstPresent(TargetCandidates, numericColumns)
    {
      var candidate := TargetCandidates[i];
      if candidate in numericColumns {
        target := Some(candidate);
        break;
      }
      assert TargetCandidates[i..][1..] == TargetCandidates[i + 1..];
      i := i + 1;
    }
    if target.None? && |numericColumns| > 0 {
      target := Some(numericColumns[0]);
    }
  }

  /** A target exists exactly when there is a numeric column; a preferred name always wins. */
  lemma TargetColumnSpec(numericColumns: seq<string>)
    ensures TargetColumn(numericColumns).Some? <==> |numericColumns| > 0
    ensures TargetColumn(numericColumns).Some? ==> TargetColumn(numericColumns).value in numericColumns
    ensures (exists c :: c in TargetCandidates && c in numericColumns) ==>
      TargetColumn(numericColumns).value in TargetCandidates
  {
    var preferred := FirstPresent(TargetCandidates, numericColumns);
    if preferred.None? && |numericColumns| > 0 {
      assert numericColumns[0] in numericColumns;
    }
  }

  // ---------------------------------------------------------------- history

  const MaxHistory: nat := 20

  /** `h[-n:]` when `h` is longer than `n`, else `h`. */
  function KeepLast<T>(h: seq<T>, n: nat): (r: seq<T>)
    ensures |r| == if |h| > n then n else |h|
    ensures forall i :: 0 <= i < |r| ==> r[i] == h[|h| - |r| + i]
  {
    if |h| > n then h[|h| - n..] else h
  }

  /** Trimming after every append equals trimming once at the end: the history is always
      the last (at most) `n` runs in the order they were recorded. */
  lemma KeepLastAppend<T>(h: seq<T>, a: seq<T>, b: seq<T>, n: nat)
    ensures KeepLast(KeepLast(h + a, n) + b, n) == KeepLast(h + a + b, n)
  {
    var x := KeepLast(KeepLast(h + a, n) + b, n);
    var y := KeepLast(h + a + b, n);
    assert |x| == |y|;
    forall i | 0 <= i < |x|
      ensures x[i] == y[i]
    {
    }
  }

  /** The default `limit` of `get_history`. */
  const DefaultHistoryLimit := 10

  /** Python's `h[:limit]` for any integer limit (a negative one counts from the end). */
  function SliceEnd(len: nat, limit: int): (e: nat)
    ensures e <= len
    ensures limit >= 0 ==> e == (if limit < len then limit else len)
    ensures limit < 0 ==> e == (if len + limit > 0 then len + limit else 0)
  {
    if limit >= 0 then (if limit < len then limit else len)
    else if len + limit > 0 then len + limit else 0
  }

  function Reverse<T>(s: seq<T>): (r: seq<T>)
    ensures |r| == |s|
    ensures forall i :: 0 <= i < |s| ==> r[i] == s[|s| - 1 - i]
  {
    if s == [] then [] else Reverse(s[1..]) + [s[0]]
  }

  function Records(runs: seq<TrainingRun>): (r: seq<RunRecord>)
    reads set x | x in runs
    ensures |r| == |runs|
    ensures forall i :: 0 <= i < |runs| ==> r[i] == runs[i].ToDict()
  {
    if runs == [] then [] else [runs[0].ToDict()] + Records(runs[1..])
  }

  /** `get_status()`. */
  datatype SchedulerStatus = SchedulerStatus(
    enabled: bool,
    running: bool,
    dataSource: string,
    intervalHours: int,
    trainingHours: int,
    nextRun: Option<Timestamp>,
    totalRuns: nat,
    lastRun: Option<RunRecord>)

  /** How a fetch came back: it raised, it gave `None`, or it gave a data frame of the
      given shape (`df.empty` when either dimension is 0). */
  datatype FetchOutcome = FetchRaised(msg: string) | NoFrame | Frame(rows: nat, columns: nat)

  /** What `_run_training` did: it raised, it returned None, or it returned a result
      carrying these metrics. */
  datatype TrainOutcome = TrainRaised(msg: string) | NoResult | Result(metrics: Metrics)

  /** Which call of the deploy stage raises, if it is made: `_validate_and_deploy` (made
      only under auto-deploy) or the hot reload `load_models` (made only after a deploy,
      with a manager present). */
  datatype DeployFault = NoFault | ValidateRaised(msg: string) | LoadRaised(msg: string)

  /** The data frame is there, non-empty, and has enough rows to train on. */
  predicate Sufficient(cfg: RetrainConfig, fetch: FetchOutcome) {
    fetch.Frame? && fetch.rows > 0 && fetch.columns > 0 && fetch.rows >= cfg.minDataPoints
  }

  const NoDataMessage: string := "No data returned from monitoring platform"
  const NoResultMessage: string := "Training pipeline returned no results"

  function InsufficientMessage(got: int, need: int): string {
    "Insufficient data: got " + IntToString(got) + ", need " + IntToString(need)
  }

  /** `run.completed_at or now`, as `_record_run` sets it. */
  function Stamped(r: RunRecord, now: Timestamp): RunRecord {
    if r.completedAt.Some? then r else r.(completedAt := Some(now))
  }

  /** The run as `_execute_retrain` leaves it just before recording it. `t0` is the start
      time and `t1` the time taken on completion or on an exception. */
  function CycleRecord(cfg: RetrainConfig, manager: ManagerView, hours: int, fetch: FetchOutcome,
                       train: TrainOutcome, fault: DeployFault, t0: Timestamp, t1: Timestamp): RunRecord
  {
    var base := RunRecord(Some(t0), None, Running, cfg.dataSource, 0, hours, map[], false, None);
    match fetch
    case FetchRaised(msg) => base.(status := Failed, error := Some(msg), completedAt := Some(t1))
    case NoFrame => base.(status := Skipped, error := Some(NoDataMessage))
    case Frame(rows, cols) => FrameRecord(base, cfg, manager, rows, cols, train, fault, t1)
  }

  /** The rest of a cycle that got a data frame of `rows` by `cols`. */
  function FrameRecord(r: RunRecord, cfg: RetrainConfig, manager: ManagerView, rows: int, cols: int,
                       train: TrainOutcome, fault: DeployFault, t1: Timestamp): RunRecord
  {
    if rows == 0 || cols == 0 then r.(status := Skipped, error := Some(NoDataMessage))
    else if rows < cfg.minDataPoints then
      r.(dataPoints := rows, status := Skipped, error := Some(InsufficientMessage(rows, cfg.minDataPoints)))
    else if train.TrainRaised? then r.(dataPoints := rows, status := Failed, error := Some(train.msg), completedAt := Some(t1))
    else if train.NoResult? then r.(dataPoints := rows, status := Failed, error := Some(NoResultMessage))
    else Trained(r.(dataPoints := rows), cfg, manager, train.metrics, fault, t1)
  }

  /** The end of a cycle that got a training result: the metrics are kept, the deploy rule
      runs when auto-deploy is on, and a validation or reload that raises fails the run. */
  function Trained(r: RunRecord, cfg: RetrainConfig, manager: ManagerView, metrics: Metrics,
                   fault: DeployFault, t1: Timestamp): RunRecord
  {
    var withMetrics := r.(metrics := metrics);
    if cfg.autoDeploy && fault.ValidateRaised? then
      withMetrics.(status := Failed, error := Some(fault.msg), completedAt := Some(t1))
    else
      var deployed := cfg.autoDeploy && Validate(metrics, manager, cfg.minImprovement);
      var trained := withMetrics.(deployed := deployed);
      if deployed && manager.Manager? && fault.LoadRaised? then
        trained.(status := Failed, error := Some(fault.msg), completedAt := Some(t1))
      else trained.(status := Completed, completedAt := Some(t1))
  }

  /** The record of one retrain cycle once `_record_run` has stamped it at time `t2`. */
  function RetrainRecord(cfg: RetrainConfig, manager: ManagerView, hours: int, fetch: FetchOutcome,
                         train: TrainOutcome, fault: DeployFault,
                         t0: Timestamp, t1: Timestamp, t2: Timestamp): RunRecord
  {
    Stamped(CycleRecord(cfg, manager, hours, fetch, train, fault, t0, t1), t2)
  }

  /** Every cycle ends skipped, failed or completed, with both timestamps set; it carries an
      error message exactly when it did not complete. */
  lemma RetrainEnds(cfg: RetrainConfig, manager: ManagerView, hours: int, fetch: FetchOutcome,
                    train: TrainOutcome, fault: DeployFault, t0: Timestamp, t1: Timestamp, t2: Timestamp)
    ensures var r := RetrainRecord(cfg, manager, hours, fetch, train, fault, t0, t1, t2);
      && r.status in {Skipped, Failed, Completed}
      && r.startedAt == Some(t0) && r.completedAt.Some?
      && (r.error.Some? <==> r.status != Completed)
      && r.dataSource == cfg.dataSource && r.trainingHours == hours
  {
    if Sufficient(cfg, fetch) && train.Result? {
      var r := CycleRecord(cfg, manager, hours, fetch, train, fault, t0, t1);
      assert r.completedAt == Some(t1);
    }
  }

  /** A cycle is skipped exactly when the platform gave no data or fewer rows than required. */
  lemma RetrainSkippedIff(cfg: RetrainConfig, manager: ManagerView, hours: int, fetch: FetchOutcome,
                          train: TrainOutcome, fault: DeployFault, t0: Timestamp, t1: Timestamp, t2: Timestamp)
    ensures RetrainRecord(cfg, manager, hours, fetch, train, fault, t0, t1, t2).status == Skipped <==>
      fetch.NoFrame? || (fetch.Frame? && (fetch.rows == 0 || fetch.columns == 0 || fetch.rows < cfg.minDataPoints))
  {
  }

  /** A cycle completes exactly when enough data came back, training produced a result, and
      no hot reload of a deployed model raised. */
  lemma RetrainCompletedIff(cfg: RetrainConfig, manager: ManagerView, hours: int, fetch: FetchOutcome,
                            train: TrainOutcome, fault: DeployFault, t0: Timestamp, t1: Timestamp, t2: Timestamp)
    ensures var r := RetrainRecord(cfg, manager, hours, fetch, train, fault, t0, t1, t2);
      r.status == Completed <==>
        && Sufficient(cfg, fetch)
        && train.Result?
        && !(cfg.autoDeploy && fault.ValidateRaised?)
        && !(r.deployed && manager.Manager? && fault.LoadRaised?)
    ensures var r := RetrainRecord(cfg, manager, hours, fetch, train, fault, t0, t1, t2);
      r.status == Completed ==> r.completedAt == Some(t1) && r.dataPoints == fetch.rows && r.metrics == train.metrics
  {
  }

  /** An exception from training, validation or the reload fails the run with its message
      and the time it was caught, keeping the data points (and, after training, the
      metrics); a validation that raised deploys nothing. */
  lemma RetrainRaisedFails(cfg: RetrainConfig, manager: ManagerView, hours: int, fetch: FetchOutcome,
                           train: TrainOutcome, fault: DeployFault, t0: Timestamp, t1: Timestamp, t2: Timestamp)
    ensures var r := RetrainRecord(cfg, manager, hours, fetch, train, fault, t0, t1, t2);
      Sufficient(cfg, fetch) && train.TrainRaised? ==>
        && r.status == Failed && r.error == Some(train.msg) && r.completedAt == Some(t1)
        && r.dataPoints == fetch.rows && r.metrics == map[] && !r.deployed
    ensures var r := RetrainRecord(cfg, manager, hours, fetch, train, fault, t0, t1, t2);
      Sufficient(cfg, fetch) && train.Result? && cfg.autoDeploy && fault.ValidateRaised? ==>
        && r.status == Failed && r.error == Some(fault.msg) && r.completedAt == Some(t1)
        && r.dataPoints == fetch.rows && r.metrics == train.metrics && !r.deployed
    ensures var r := RetrainRecord(cfg, manager, hours, fetch, train, fault, t0, t1, t2);
      Sufficient(cfg, fetch) && train.Result? && r.deployed && manager.Manager? && fault.LoadRaised? ==>
        && r.status == Failed && r.error == Some(fault.msg) && r.completedAt == Some(t1)
        && r.dataPoints == fetch.rows && r.metrics == train.metrics
  {
  }

  /** A model is only ever deployed with auto-deploy on and the deploy rule agreeing. */
  lemma RetrainDeployedOnlyIfValidated(cfg: RetrainConfig, manager: ManagerView, hours: int, fetch: FetchOutcome,
                                       train: TrainOutcome, fault: DeployFault, t0: Timestamp, t1: Timestamp, t2: Timestamp)
    ensures RetrainRecord(cfg, manager, hours, fetch, train, fault, t0, t1, t2).deployed <==>
      && Sufficient(cfg, fetch) && train.Result? && cfg.autoDeploy && !fault.ValidateRaised?
      && Validate(train.metrics, manager, cfg.minImprovement)
  {
  }

  /** `trigger_retrain`'s `hours or config.retraining.training_hours`: None and 0 fall back. */
  function EffectiveHours(hours: Option<int>, configured: int): (h: int)
    ensures hours.Some? && hours.value != 0 ==> h == hours.value
    ensures hours.None? || hours.value == 0 ==> h == configured
  {
    if hours.Some? && hours.value != 0 then hours.value else configured
  }

  /** The steps of `_execute_retrain` before the run is recorded: starting from a new run,
      they leave it holding the cycle's outcome. */
  method RunCycle(run: TrainingRun, cfg: RetrainConfig, manager: ManagerView, hours: int, fetch: FetchOutcome,
                  train: TrainOutcome, fault: DeployFault, t0: Timestamp, t1: Timestamp)
    requires run.ToDict() == RunRecord(None, None, Pending, "", 0, 0, map[], false, None)
    modifies run
    ensures run.ToDict() == CycleRecord(cfg, manager, hours, fetch, train, fault, t0, t1)
  {
    run.startedAt := Some(t0);
    run.status := Running;
    run.dataSource := cfg.dataSource;
    run.trainingHours := hours;
    match fetch {
      case FetchRaised(msg) =>
        run.status := Failed;
        run.error := Some(msg);
        run.completedAt := Some(t1);
      case NoFrame =>
        run.status := Skipped;
        run.error := Some(NoDataMessage);
      case Frame(rows, cols) =>
        RunFrame(run, cfg, manager, rows, cols, train, fault, t1);
    }
  }

  /** The steps of `_execute_retrain` once a data frame came back: an empty frame or too
      few rows skip the run, a missing training result fails it, and otherwise it trains. */
  method RunFrame(run: TrainingRun, cfg: RetrainConfig, manager: ManagerView, rows: int, cols: int,
                  train: TrainOutcome, fault: DeployFault, t1: Timestamp)
    requires !run.deployed
    modifies run
    ensures run.ToDict() == FrameRecord(old(run.ToDict()), cfg, manager, rows, cols, train, fault, t1)
  {
    if rows == 0 || cols == 0 {
      run.status := Skipped;
      run.error := Some(NoDataMessage);
      return;
    }
    run.dataPoints := rows;
    if run.dataPoints < cfg.minDataPoints {
      run.status := Skipped;
      run.error := Some(InsufficientMessage(run.dataPoints, cfg.minDataPoints));
      return;
    }
    if train.TrainRaised? {
      run.status := Failed;
      run.error := Some(train.msg);
      run.completedAt := Some(t1);
      return;
    }
    if train.NoResult? {
      run.status := Failed;
      run.error := Some(NoResultMessage);
      return;
    }
    Train(run, cfg, manager, train.metrics, fault, t1);
  }

  /** The training stage of `_execute_retrain`, on a run not yet marked deployed. */
  method Train(run: TrainingRun, cfg: RetrainConfig, manager: ManagerView, metrics: Metrics,
               fault: DeployFault, t1: Timestamp)
    requires !run.deployed
    modifies run
    ensures run.ToDict() == Trained(old(run.ToDict()), cfg, manager, metrics, fault, t1)
  {
    run.metrics := metrics;
    var raised := false;
    if cfg.autoDeploy {
      if fault.ValidateRaised? {
        raised := true;
        run.status := Failed;
        run.error := Some(fault.msg);
        run.completedAt := Some(t1);
      } else {
        var deployed := Validate(metrics, manager, cfg.minImprovement);
        run.deployed := deployed;
        if deployed && manager.Manager? && fault.LoadRaised? {
          raised := true;
          run.status := Failed;
          run.error := Some(fault.msg);
          run.completedAt := Some(t1);
        }
      }
    }
    if !raised {
      run.status := Completed;
      run.completedAt := Some(t1);
    }
  }

  /** The scheduler: its flags, its background task and its bounded history. */
  class Scheduler {
    const config: RetrainConfig
    var running: bool
    var taskActive: bool
    var history: seq<TrainingRun>
    var nextRun: Option<Timestamp>

    predicate Valid()
      reads this
    {
      |history| <= MaxHistory
    }

    constructor (config: RetrainConfig)
      ensures this.config == config && Valid()
      ensures !running && !taskActive && history == [] && nextRun == None
    {
      this.config := config;
      running := false;
      taskActive := false;
      history := [];
      nextRun := None;
    }

    /** `is_running`. */
    function IsRunning(): bool
      reads this
    {
      running
    }

    /** `start()`: a no-op when retraining is disabled. */
    method Start()
      modifies this
      ensures config.enabled ==> running && taskActive
      ensures !config.enabled ==> running == old(running) && taskActive == old(taskActive)
      ensures history == old(history) && nextRun == old(nextRun)
    {
      if !config.enabled {
        return;
      }
      running := true;
      taskActive := true;
    }

    /** `stop()`: clears the flag and cancels a task that has not finished; afterwards no
        task is live either way. */
    method Stop()
      modifies this
      ensures !running && !taskActive
      ensures history == old(history) && nextRun == old(nextRun)
    {
      running := false;
      taskActive := false;
    }

    /** `_record_run`. */
    method RecordRun(run: TrainingRun, now: Timestamp)
      requires Valid()
      modifies this, run
      ensures Valid()
      ensures history == KeepLast(old(history) + [run], MaxHistory)
      ensures history[|history| - 1] == run
      ensures run.ToDict() == Stamped(old(run.ToDict()), now)
      ensures running == old(running) && taskActive == old(taskActive) && nextRun == old(nextRun)
    {
      if run.completedAt.None? {
        run.completedAt := Some(now);
      }
      history := history + [run];
      if |history| > MaxHistory {
        history := history[|history| - MaxHistory..];
      }
    }

    /** `get_status()`. */
    function GetStatus(): (s: SchedulerStatus)
      reads this, (if history == [] then {} else {history[|history| - 1]})
      ensures s.totalRuns == |history|
      ensures Valid() ==> s.totalRuns <= MaxHistory
      ensures s.lastRun.Some? <==> history != []
      ensures history != [] ==> s.lastRun.value == history[|history| - 1].ToDict()
      ensures s.running == running && s.nextRun == nextRun && s.enabled == config.enabled
    {
      SchedulerStatus(config.enabled, running, config.dataSource, config.intervalHours, config.trainingHours,
                      nextRun, |history|,
                      if history == [] then None else Some(history[|history| - 1].ToDict()))
    }

    /** `get_history(limit)`: the first `limit` retained runs (the oldest ones), newest of
        those first. */
    function GetHistory(limit: int): (r: seq<RunRecord>)
      reads this, set x | x in history
      ensures |r| == SliceEnd(|history|, limit)
      ensures forall i :: 0 <= i < |r| ==> r[i] == history[|r| - 1 - i].ToDict()
    {
      Reverse(Records(history[..SliceEnd(|history|, limit)]))
    }

    /** `get_history()` without an argument: at most the ten oldest retained runs. */
    lemma DefaultHistory()
      ensures |GetHistory(DefaultHistoryLimit)| == if |history| < DefaultHistoryLimit then |history| else DefaultHistoryLimit
      ensures forall i :: 0 <= i < |GetHistory(DefaultHistoryLimit)| ==>
                GetHistory(DefaultHistoryLimit)[i] == history[|GetHistory(DefaultHistoryLimit)| - 1 - i].ToDict()
    {
    }

    /** `_execute_retrain`: a fresh run is filled in as the cycle goes and recorded once,
        on whichever path the cycle leaves by. */
    method ExecuteRetrain(manager: ManagerView, hours: int, fetch: FetchOutcome, train: TrainOutcome,
                          fault: DeployFault, t0: Timestamp, t1: Timestamp, t2: Timestamp)
      returns (run: TrainingRun)
      requires Valid()
      modifies this
      ensures Valid() && fresh(run)
      ensures history == KeepLast(old(history) + [run], MaxHistory)
      ensures run.ToDict() == RetrainRecord(config, manager, hours, fetch, train, fault, t0, t1, t2)
      ensures running == old(running) && taskActive == old(taskActive) && nextRun == old(nextRun)
    {
      run := new TrainingRun();
      RunCycle(run, config, manager, hours, fetch, train, fault, t0, t1);
      RecordRun(run, t2);
    }

    /** `trigger_retrain(hours)`. */
    method TriggerRetrain(manager: ManagerView, hours: Option<int>, fetch: FetchOutcome, train: TrainOutcome,
                          fault: DeployFault, t0: Timestamp, t1: Timestamp, t2: Timestamp)
      returns (run: TrainingRun)
      requires Valid()
      modifies this
      ensures Valid() && fresh(run)
      ensures history == KeepLast(old(history) + [run], MaxHistory)
      ensures run.ToDict() == RetrainRecord(config, manager, EffectiveHours(hours, config.trainingHours),
                                            fetch, train, fault, t0, t1, t2)
      ensures running == old(running) && taskActive == old(taskActive) && nextRun == old(nextRun)
    {
      var trainingHours := if hours.Some? && hours.value != 0 then hours.value else config.trainingHours;
      run := ExecuteRetrain(manager, trainingHours, fetch, train, fault, t0, t1, t2);
    }
  }
}
