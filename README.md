# PreScale core, modelled in Dafny

This project models the parts of PreScale, a Kubernetes resource-prediction and scaling
system, that decide what the user sees or what the system keeps:

- **the landing page's ASCII rendering** (`AsciiViewer`, `PreScaleLogo`). One piece turns
  every rendered frame of the 3D viewer into a block of text, sampling one pixel per cell
  and picking a glyph by luma. The other builds the "PreScale" wordmark from digit-density
  letter grids and reveals it two columns per tick;
- **the retraining scheduler** (`RetrainScheduler`). It covers how one retrain cycle ends
  (skipped, failed or completed), when a new model is deployed, which training target is
  chosen, and the bounded run history with its status and history views;
- **the CloudWatch fetcher** (`CloudWatchFetcher`). It covers the `GetMetricStatistics`
  request of each default metric, the datapoints sorted by time, and the column name each
  series is stored under. Names are given both as `_camel_to_snake` computes them and with
  the word boundaries that the naming comment describes (see "## Findings");
- **the CLI commands** `config`, `recommend`, `detect`, `status` and `predict`
  (`CliConfig`, `CliRecommend`, `CliDetect`, `CliStatus`, `CliPredict`, with `CliCommon`
  for what they share). For `recommend`, `detect` and `predict` the model gives the request
  sent, the exit on a connection error, the JSON/YAML dump or the table view, and every
  cell, colour and default of that view. `status` sends two probes and never exits on a
  connection error: it records the service as `unreachable` and then dumps or shows the
  results. `config` sends no request: it reads and rewrites the settings file, and `show`
  dumps the settings or shows them as a table;
- **the dashboard's Pinia stores** `deployments`, `agents`, `anomalies`, `predictions` and
  `theme` (`Deployments`, `Agents`, `Anomalies`, `Predictions`, `Theme`). Each store is a
  class whose methods update its fields as the actions do. Each backend call is an input:
  the data it returns, or the message of the error it throws.

Effects of the outside world are parameters:

- an HTTP answer or an `HTTPError` (`HttpAnswer`, `ApiResult`);
- the datapoints CloudWatch returns;
- the frame the fetch step returns, the training result and a `load_models` error;
- the clock readings;
- the pixel buffer read back from the GPU;
- the date reformatting that `datetime.fromisoformat`/`strftime` perform.

Each state-changing method states its whole new state in terms of the old one. The
properties that matter are proved as lemmas about the functions those methods are specified
by. `Wrappers`, `Text` and `Lists` hold the option and result types, decimal rendering of
integers, and JavaScript's `filter`/`find`, with their laws.

## Model

| member | source | states |
|---|---|---|
| AsciiViewer.PresetChars | landing-page/app/components/AsciiViewer.tsx:9-14 | every ramp has at least three glyphs and ends in a blank |
| AsciiViewer.Glyph | landing-page/app/components/AsciiViewer.tsx:109 | an index inside the ramp gives that glyph; any other index gives a blank |
| AsciiViewer.Line | landing-page/app/components/AsciiViewer.tsx:100-110 | a line of `n` cells has exactly `n` glyphs |
| AsciiViewer.LineAt | landing-page/app/components/AsciiViewer.tsx:100-110 | position `c` of a line is the glyph sampled for column `c` |
| AsciiViewer.SampleCell | landing-page/app/components/AsciiViewer.tsx:101-109 | a cell's glyph is the ramp character picked by the luma of the pixel at the cell's centre |
| AsciiViewer.ConvertLine | landing-page/app/components/AsciiViewer.tsx:100-110 | the inner loop yields the glyph of every cell of one buffer row, left to right |
| AsciiViewer.ConvertFrame | landing-page/app/components/AsciiViewer.tsx:94-112 | the `ascii +=` loops build exactly the frame text (rows from bottom to top, cols per row, a newline after each row) |
| AsciiViewer.FrameLinesLength | landing-page/app/components/AsciiViewer.tsx:99-112 | `n` finished lines take `n*(cols+1)` characters |
| AsciiViewer.FrameLinesAt | landing-page/app/components/AsciiViewer.tsx:99-112 | character `c` of output line `k` is the glyph of buffer row `rows-1-k`, or the newline when `c == cols` |
| AsciiViewer.FrameLength | landing-page/app/components/AsciiViewer.tsx:94-112 | the frame has `rows*(cols+1)` characters; with no rows it is empty |
| AsciiViewer.FrameGlyphs | landing-page/app/components/AsciiViewer.tsx:99-110 | output line `k` shows buffer row `rows-1-k`, so the image is flipped vertically |
| AsciiViewer.FrameNewlines | landing-page/app/components/AsciiViewer.tsx:111 | every output line, the last included, ends in a newline |
| AsciiViewer.SampleInBounds | landing-page/app/components/AsciiViewer.tsx:94-103 | a cell's centre pixel lies inside the `w`×`h` image, and its red, green and blue bytes lie inside a `w*h*4` buffer |
| AsciiViewer.FullBufferSample | landing-page/app/components/AsciiViewer.tsx:90-109 | on a full buffer no read falls back to 0: each cell's glyph comes from the real pixel |
| AsciiViewer.GlyphIndexInRange | landing-page/app/components/AsciiViewer.tsx:107-108 | the luma index always lies in `0..L-1` for a non-empty ramp |
| AsciiViewer.GlyphIndexMonotone | landing-page/app/components/AsciiViewer.tsx:107-108 | raising any channel never lowers the glyph index |
| AsciiViewer.BlackGlyph | landing-page/app/components/AsciiViewer.tsx:107-109 | a black pixel gets the first glyph of the ramp |
| AsciiViewer.WhiteGlyph | landing-page/app/components/AsciiViewer.tsx:107-109 | a white pixel gets the last glyph of the ramp |
| AsciiViewer.BlackIndex | landing-page/app/components/AsciiViewer.tsx:107-108 | black maps to index 0 |
| AsciiViewer.WhiteIndex | landing-page/app/components/AsciiViewer.tsx:107-108 | white maps to index `L-1` |
| AsciiViewer.Without | landing-page/app/components/AsciiViewer.tsx:73 | `pre.remove()` drops that overlay and keeps every other child; without it the children are unchanged |
| AsciiViewer.WithoutChild | landing-page/app/components/AsciiViewer.tsx:73 | removing a node that is a child once takes out exactly its slot and keeps the other children in order |
| AsciiViewer.Overlay.constructor | landing-page/app/components/AsciiViewer.tsx:53-63 | a new overlay is empty |
| AsciiViewer.GlCanvas.constructor | landing-page/app/components/AsciiViewer.tsx:70 | a canvas starts with no inline opacity |
| AsciiViewer.Container.constructor | landing-page/app/components/AsciiViewer.tsx:48 | a container starts with no overlay and no inline position |
| AsciiViewer.RenderTarget.constructor | landing-page/app/components/AsciiViewer.tsx:37-40 | the target has the canvas size and is not disposed |
| AsciiViewer.AsciiEffect.constructor | landing-page/app/components/AsciiViewer.tsx:26-40 | a mounted effect keeps its props and objects, and both refs start null |
| AsciiViewer.AsciiEffect.Setup | landing-page/app/components/AsciiViewer.tsx:42-70 | the canvas ref is always set. With no container nothing else changes. Otherwise an existing overlay is reused, or a fresh empty one is appended and the container made `relative`; the ref points to that overlay and the canvas opacity becomes "0" |
| AsciiViewer.AsciiEffect.Teardown | landing-page/app/components/AsciiViewer.tsx:72-76 | the overlay is removed, the canvas is shown again (opacity "1") and the target disposed |
| AsciiViewer.AsciiEffect.Frame | landing-page/app/components/AsciiViewer.tsx:79-114 | with either ref missing nothing changes; otherwise the overlay's text becomes the frame text of the read-back pixels |
| PreScaleLogo.LogoPresetChars | landing-page/app/components/PreScaleLogo.tsx:12-17 | every logo ramp has at least four glyphs and starts with a blank |
| PreScaleLogo.Gap | landing-page/app/components/PreScaleLogo.tsx:125 | one space between letters for "sm", two otherwise |
| PreScaleLogo.LetterGrid | landing-page/app/components/PreScaleLogo.tsx:25-90 | every letter has seven rows of one common width |
| PreScaleLogo.WordLettersAreKeys | landing-page/app/components/PreScaleLogo.tsx:92 | the word has eight letters, each of them a key of the letter table |
| PreScaleLogo.DigitValue | landing-page/app/components/PreScaleLogo.tsx:100 | `parseInt` of one character is a number exactly for an ASCII digit, and gives back that digit |
| PreScaleLogo.MapRow | landing-page/app/components/PreScaleLogo.tsx:97-105 | a mapped row keeps its length, and each character is mapped on its own |
| PreScaleLogo.MapToPreset | landing-page/app/components/PreScaleLogo.tsx:94-107 | mapping keeps the grid's shape and maps every cell |
| PreScaleLogo.BlankForZeroOrNonDigit | landing-page/app/components/PreScaleLogo.tsx:101 | `0` and non-digits become blanks |
| PreScaleLogo.DigitIndexRange | landing-page/app/components/PreScaleLogo.tsx:102 | the rounded index lies in `0..maxIdx`, and is above 0 exactly when `2*d*maxIdx >= 9` |
| PreScaleLogo.DigitIndexMonotone | landing-page/app/components/PreScaleLogo.tsx:102 | a denser digit never picks an earlier glyph |
| PreScaleLogo.FullDensityIsLast | landing-page/app/components/PreScaleLogo.tsx:102-103 | density 9 picks the densest glyph |
| PreScaleLogo.DigitGlyph | landing-page/app/components/PreScaleLogo.tsx:100-103 | a digit `1..9` picks the ramp's glyph at `round(d*maxIdx/9)`, never the fallback |
| PreScaleLogo.MapCharAlphabet | landing-page/app/components/PreScaleLogo.tsx:99-104 | mapping yields only blanks or ramp glyphs |
| PreScaleLogo.Spaces | landing-page/app/components/PreScaleLogo.tsx:132 | `" ".repeat(gap)` is `gap` blanks |
| PreScaleLogo.PartialLines | landing-page/app/components/PreScaleLogo.tsx:126-133 | there are always seven lines while the letters are being appended |
| PreScaleLogo.BuildAsciiLines | landing-page/app/components/PreScaleLogo.tsx:123-136 | the memo body builds exactly the word's seven joined lines |
| PreScaleLogo.AppendLetter | landing-page/app/components/PreScaleLogo.tsx:128-134 | the callback for letter `li` extends every line by the gap and that letter's mapped row |
| PreScaleLogo.AppendStep | landing-page/app/components/PreScaleLogo.tsx:131-133 | one `lines[r] +=` extends exactly row `r` |
| PreScaleLogo.WordLineLength | landing-page/app/components/PreScaleLogo.tsx:128-134 | after `n` letters a line is the letters' widths plus `n-1` gaps |
| PreScaleLogo.AsciiLinesShape | landing-page/app/components/PreScaleLogo.tsx:123-138 | seven lines, all `65 + 7*gap` wide, and `totalCols` is that width |
| PreScaleLogo.WordLinePrefix | landing-page/app/components/PreScaleLogo.tsx:128-134 | appending letters only extends a line: an earlier line is a prefix of a later one |
| PreScaleLogo.WordLineAlphabet | landing-page/app/components/PreScaleLogo.tsx:128-134 | the wordmark is made only of blanks and ramp glyphs |
| PreScaleLogo.TotalCols | landing-page/app/components/PreScaleLogo.tsx:138 | the first line's length, or 0 with no lines |
| PreScaleLogo.VisibleLine | landing-page/app/components/PreScaleLogo.tsx:194 | the visible part is a prefix of the line, at most `revealCol` long |
| PreScaleLogo.FullyRevealed | landing-page/app/components/PreScaleLogo.tsx:194 | once `revealCol` reaches the width, the whole line shows |
| PreScaleLogo.LogoReveal.constructor | landing-page/app/components/PreScaleLogo.tsx:116-118 | `revealCol` starts at 0 when animating, else 999, and `hasAnimated` is false |
| PreScaleLogo.LogoReveal.RunEffect | landing-page/app/components/PreScaleLogo.tsx:141-148 | without animation, or once animated, the reveal jumps to `totalCols`; the first animated run sets `hasAnimated`, resets the counter and starts the interval |
| PreScaleLogo.LogoReveal.Tick | landing-page/app/components/PreScaleLogo.tsx:149-153 | each tick advances the counter and `revealCol` by 2, and the interval stops once the counter reaches `totalCols` |
| PreScaleLogo.LogoReveal.Cleanup | landing-page/app/components/PreScaleLogo.tsx:154 | the cleanup stops the interval and changes nothing else |
| RetrainScheduler.TrainingRun.constructor | ml/inference/retrain_scheduler.py:26-52 | a new run is pending, with no times, no data, no metrics and not deployed |
| RetrainScheduler.ValidateRefusesIff | ml/inference/retrain_scheduler.py:414-453 | a new model is refused exactly when a loaded manager has a current RMSE, the new RMSE exists and is non-zero, and the improvement is below the threshold |
| RetrainScheduler.ImprovementAntitone | ml/inference/retrain_scheduler.py:440-444 | a lower new RMSE never gives a smaller improvement |
| RetrainScheduler.ValidateMonotone | ml/inference/retrain_scheduler.py:414-453 | a model at least as good as an accepted one is accepted too |
| RetrainScheduler.FirstPresent | ml/inference/retrain_scheduler.py:289-292 | finds a candidate present among the columns; none only when no candidate is present |
| RetrainScheduler.FirstPresentIsFirst | ml/inference/retrain_scheduler.py:289-292 | no earlier candidate is present |
| RetrainScheduler.SelectTarget | ml/inference/retrain_scheduler.py:287-295 | the loop picks exactly the specified target column |
| RetrainScheduler.TargetColumnSpec | ml/inference/retrain_scheduler.py:287-298 | a target exists exactly when there are numeric columns, is one of them, and is a preferred candidate whenever one is present |
| RetrainScheduler.KeepLast | ml/inference/retrain_scheduler.py:461-462 | keeps the last `n` entries in order |
| RetrainScheduler.KeepLastAppend | ml/inference/retrain_scheduler.py:455-462 | trimming after each append is the same as trimming once at the end |
| RetrainScheduler.SliceEnd | ml/inference/retrain_scheduler.py:481 | where Python's `[:limit]` stops, negative limits included |
| RetrainScheduler.Reverse | ml/inference/retrain_scheduler.py:481 | `reversed` gives the elements back to front |
| RetrainScheduler.Records | ml/inference/retrain_scheduler.py:40-52 | one `to_dict` per run, in order |
| RetrainScheduler.RetrainEnds | ml/inference/retrain_scheduler.py:131-208 | every cycle ends skipped, failed or completed, with a start and an end time, an error exactly when not completed, and the configured source and hours |
| RetrainScheduler.RetrainSkippedIff | ml/inference/retrain_scheduler.py:150-167 | a cycle is skipped exactly when there is no frame, an empty frame or too few rows |
| RetrainScheduler.RetrainCompletedIff | ml/inference/retrain_scheduler.py:169-198 | a cycle completes exactly when the data suffices, training returned a result, and neither the validation nor the hot reload raised; it then records the rows and metrics |
| RetrainScheduler.RetrainRaisedFails | ml/inference/retrain_scheduler.py:169-204 | an exception from training, validation or the reload fails the run with its message and the time it was caught, keeping the data points and any metrics already set; a validation that raised deploys nothing |
| RetrainScheduler.RetrainDeployedOnlyIfValidated | ml/inference/retrain_scheduler.py:182-186 | a run is marked deployed exactly when it trained, auto-deploy is on, and validation returned and accepted the model |
| RetrainScheduler.EffectiveHours | ml/inference/retrain_scheduler.py:128 | `hours or training_hours`: a missing or zero override uses the configured window |
| RetrainScheduler.Scheduler.constructor | ml/inference/retrain_scheduler.py:61-69 | a new scheduler is stopped with an empty history |
| RetrainScheduler.Scheduler.Start | ml/inference/retrain_scheduler.py:74-85 | an enabled scheduler starts its loop; a disabled one changes nothing |
| RetrainScheduler.Scheduler.Stop | ml/inference/retrain_scheduler.py:87-92 | the loop is stopped and the history kept |
| RetrainScheduler.Scheduler.RecordRun | ml/inference/retrain_scheduler.py:455-462 | the run is stamped with its end time and appended, and the history keeps only the last 20 |
| RetrainScheduler.Scheduler.GetStatus | ml/inference/retrain_scheduler.py:464-477 | the status reports the history length (never above 20), the last run exactly when there is one, and the running and enabled flags |
| RetrainScheduler.Scheduler.GetHistory | ml/inference/retrain_scheduler.py:479-481 | the first `limit` runs, newest first, as dictionaries |
| RetrainScheduler.Scheduler.DefaultHistory | ml/inference/retrain_scheduler.py:479-481 | without a limit, at most the ten oldest retained runs, newest first |
| RetrainScheduler.Train | ml/inference/retrain_scheduler.py:179-194 | the metrics are kept; under auto-deploy a validation that raises fails the run, otherwise `deployed` is decided by the deploy rule, and a reload that raises after a deploy fails the run |
| RetrainScheduler.RunFrame | ml/inference/retrain_scheduler.py:150-194 | once a frame came back, an empty frame or too few rows skip the run, a training exception or a missing result fails it, and otherwise it trains |
| RetrainScheduler.RunCycle | ml/inference/retrain_scheduler.py:134-204 | from a new run, the cycle leaves the run holding the outcome of whichever exit it takes: a fetch, training, validation or reload exception, no data, too few points, no result, or completion |
| RetrainScheduler.Scheduler.ExecuteRetrain | ml/inference/retrain_scheduler.py:131-208 | one cycle creates a fresh run whose record is the specified outcome, and records it in the bounded history |
| RetrainScheduler.Scheduler.TriggerRetrain | ml/inference/retrain_scheduler.py:119-129 | a manual trigger runs one cycle over the effective window and leaves `running`, the task and `next_run` as they were |
| CloudWatchFetcher.Lower | ml/pipeline/cloudwatch_fetcher.py:207 | lower-casing an ASCII capital leaves no capital, keeps every other character and creates no `_` |
| CloudWatchFetcher.LowerAll | ml/pipeline/cloudwatch_fetcher.py:207 | lower-casing keeps the length |
| CloudWatchFetcher.RemoveUnderscoresAppend | ml/pipeline/cloudwatch_fetcher.py:207 | removing underscores works piece by piece |
| CloudWatchFetcher.CamelToSnakeLength | ml/pipeline/cloudwatch_fetcher.py:204-208 | one `_` is inserted before every capital after the first character |
| CloudWatchFetcher.CamelToSnakeNoUpper | ml/pipeline/cloudwatch_fetcher.py:204-208 | the result has no capitals |
| CloudWatchFetcher.CamelToSnakeIdempotent | ml/pipeline/cloudwatch_fetcher.py:204-208 | converting twice is converting once |
| CloudWatchFetcher.CamelToSnakeUnderscores | ml/pipeline/cloudwatch_fetcher.py:204-208 | removing the inserted underscores gives back the lower-cased name |
| CloudWatchFetcher.CamelToSnakeAcronymPrefix | ml/pipeline/cloudwatch_fetcher.py:207 | for any run of `k >= 1` capitals before a word without capitals, the word is kept and the run becomes its `k` letters lowered with a `_` between each two, `2k-1` characters |
| CloudWatchFetcher.CamelToSnakeSplitsAcronyms | ml/pipeline/cloudwatch_fetcher.py:204-208 | `CPUUtilization` becomes `c_p_u_utilization` |
| CloudWatchFetcher.CamelToSnakeWordsNoUpper | ml/pipeline/cloudwatch_fetcher.py:204-208 | the word-boundary conversion has no capitals |
| CloudWatchFetcher.CamelToSnakeWordsAgrees | ml/pipeline/cloudwatch_fetcher.py:204-208 | on names without acronyms the word-boundary conversion equals `_camel_to_snake` |
| CloudWatchFetcher.WordsAcronymPrefix | ml/pipeline/cloudwatch_fetcher.py:172-174 | with word boundaries, an acronym before a lower-case word stays one word: `CPUU` then the word gives `cpu_u` then the word |
| CloudWatchFetcher.CamelToSnakeWordsKeepsAcronyms | ml/pipeline/cloudwatch_fetcher.py:172-174 | with word boundaries `CPUUtilization` becomes `cpu_utilization`, as the column comment says |
| CloudWatchFetcher.EC2CpuColumn | ml/pipeline/cloudwatch_fetcher.py:172-174 | as written, the EC2 CPU column is `ec2_c_p_u_utilization`, which is no retrain target; with word boundaries it is `ec2_cpu_utilization`, which is one |
| CloudWatchFetcher.Ec2ColumnAsWritten | ml/pipeline/cloudwatch_fetcher.py:172-174 | as written, the EC2 CPU column is `ec2_c_p_u_utilization` |
| CloudWatchFetcher.Ec2ColumnWords | ml/pipeline/cloudwatch_fetcher.py:172-174 | with word boundaries, the EC2 CPU column is `ec2_cpu_utilization`, one of the retrain targets |
| CloudWatchFetcher.ColumnNameShape | ml/pipeline/cloudwatch_fetcher.py:172-174 | under either naming, a column is the lowered last namespace segment, `_`, then the converted metric name, with no capitals; under `_camel_to_snake` as written, deleting the underscores leaves the segment and the metric name, lowered |
| CloudWatchFetcher.MetricRequest | ml/pipeline/cloudwatch_fetcher.py:97-110 | the request asks for `Average` over the last `hours` hours at the given period, with dimensions only when some are given |
| CloudWatchFetcher.Shape | ml/pipeline/cloudwatch_fetcher.py:123-130 | one record per datapoint, in the same order |
| CloudWatchFetcher.SortByTimestamp | ml/pipeline/cloudwatch_fetcher.py:121 | the datapoints end up sorted by timestamp, and they are a permutation of the input |
| CloudWatchFetcher.InsertAt | ml/pipeline/cloudwatch_fetcher.py:121 | one insertion step extends the sorted prefix by one and keeps the multiset |
| CloudWatchFetcher.ShapeAppend | ml/pipeline/cloudwatch_fetcher.py:123-130 | shaping works piece by piece |
| CloudWatchFetcher.SortedRecords | ml/pipeline/cloudwatch_fetcher.py:114-130 | the records are a time-sorted permutation of the datapoints, shaped one by one |
| CloudWatchFetcher.FetchMetric | ml/pipeline/cloudwatch_fetcher.py:75-134 | the specified request is sent; the records are empty exactly when no datapoint came back, and are otherwise the sorted, shaped datapoints |
| CloudWatchFetcher.NamespaceDims | ml/pipeline/cloudwatch_fetcher.py:157-159 | a namespace gets its own dimensions only when a non-empty map names it |
| CloudWatchFetcher.Columns | ml/pipeline/cloudwatch_fetcher.py:172-178 | the column name of each kept series, in order |
| CloudWatchFetcher.NamespaceRequestsAt | ml/pipeline/cloudwatch_fetcher.py:156-167 | request `k` of a namespace is for its `k`-th default metric, at period 300, with that namespace's dimensions |
| CloudWatchFetcher.DefaultMetricsSizes | ml/pipeline/cloudwatch_fetcher.py:18-25 | three namespaces with three, three and two metrics |
| CloudWatchFetcher.AllRequestsCount | ml/pipeline/cloudwatch_fetcher.py:156-167 | one fetch of everything sends eight requests |
| CloudWatchFetcher.AllRequestsLength | ml/pipeline/cloudwatch_fetcher.py:156-167 | a table sends one request per metric it lists |
| CloudWatchFetcher.HasDataAt | ml/pipeline/cloudwatch_fetcher.py:168-169 | the data mask has an entry for every answer, set exactly when that answer carried datapoints |
| CloudWatchFetcher.NamespaceOriginsExact | ml/pipeline/cloudwatch_fetcher.py:161-170 | the places listed for a namespace are exactly its metrics that had data, in increasing order |
| CloudWatchFetcher.AllOriginsExact | ml/pipeline/cloudwatch_fetcher.py:156-170 | the places listed for a table are exactly its metrics that had data, in the order the two loops visit them |
| CloudWatchFetcher.ColumnsAtOrigins | ml/pipeline/cloudwatch_fetcher.py:156-178 | kept column `i` is the name of the `i`-th listed place, so the columns name exactly the metrics with data, in loop order |
| CloudWatchFetcher.NamespaceColumnsPrefix | ml/pipeline/cloudwatch_fetcher.py:161-178 | within a namespace, columns are only added, so those of earlier metrics are a prefix of later ones |
| CloudWatchFetcher.AllColumnsPrefix | ml/pipeline/cloudwatch_fetcher.py:156-178 | columns are only added, so the columns of earlier namespaces are a prefix of the final ones |
| CloudWatchFetcher.FirstColumn | ml/pipeline/cloudwatch_fetcher.py:156-178 | under either naming, when the mask marks EC2 CPU as having data, the first column is that metric's column name |
| CloudWatchFetcher.FirstColumnIsCpu | ml/pipeline/cloudwatch_fetcher.py:156-178 | as written, when EC2 CPU had data the first column is `ec2_c_p_u_utilization`, which is none of the retrain targets |
| CloudWatchFetcher.FirstColumnIsTarget | ml/pipeline/cloudwatch_fetcher.py:156-178 | with word-boundary names, that first column is `ec2_cpu_utilization`, the third retrain target |
| CloudWatchFetcher.NoDataNoColumns | ml/pipeline/cloudwatch_fetcher.py:168-170 | when the mask marks no metric as having data, no column is kept, whatever the names |
| CloudWatchFetcher.FetchOne | ml/pipeline/cloudwatch_fetcher.py:161-178 | one metric sends the specified request and keeps one time-ordered series under its column name, holding that metric's datapoints, when data came back, and none otherwise |
| CloudWatchFetcher.FetchNamespace | ml/pipeline/cloudwatch_fetcher.py:157-178 | the inner loop sends the namespace's requests in order and keeps exactly one series per metric with data, under its column name; series `i` holds the datapoints of the `i`-th such metric |
| CloudWatchFetcher.FetchNextMetric | ml/pipeline/cloudwatch_fetcher.py:161-178 | one turn of the inner loop extends requests, columns and series by metric `j` |
| CloudWatchFetcher.FetchTable | ml/pipeline/cloudwatch_fetcher.py:156-178 | the two loops over any table send its requests in order and keep exactly the series of the metrics with data, in order, each holding the datapoints of its own metric |
| CloudWatchFetcher.FetchNextNamespace | ml/pipeline/cloudwatch_fetcher.py:156-178 | one turn of the outer loop extends requests, columns and series by namespace `n` |
| CloudWatchFetcher.FetchAllMetrics | ml/pipeline/cloudwatch_fetcher.py:152-178 | as written: the eight default requests are sent; the kept series are named by `_camel_to_snake`, in default-metric order, and each holds the datapoints of its own metric |
| CloudWatchFetcher.FetchAllMetricsWords | ml/pipeline/cloudwatch_fetcher.py:172-178 | the same loops with word-boundary names, as the comment at line 172 describes |
| CloudWatchFetcher.Fetcher.constructor | ml/pipeline/cloudwatch_fetcher.py:40-56 | the region defaults to `us-east-1`; the keys are stored and no client exists yet |
| CloudWatchFetcher.Fetcher.GetClient | ml/pipeline/cloudwatch_fetcher.py:58-73 | the client is created once and reused; the keys are passed only when both are set |
| Text.DigitChar | ml/inference/web/src/stores/predictions.ts:42 | a digit below ten becomes its decimal character |
| Text.NatToString | ml/inference/web/src/stores/predictions.ts:42 | decimal rendering is non-empty, all digits and has no leading zero |
| Text.IntToString | ml/inference/web/src/stores/predictions.ts:42 | negative numbers get a `-` before the digits of their magnitude |
| Text.NatToStringRoundTrip | cli/src/helios_cli/commands/detect.py:72 | reading the digits back gives the number |
| Text.NatToStringInjective | cli/src/helios_cli/commands/detect.py:72 | different numbers render differently |
| Text.IntToStringInjective | ml/inference/web/src/stores/predictions.ts:42 | different integers render differently |
| Lists.Filter | ml/inference/web/src/stores/agents.ts:30-44 | `filter` keeps exactly the elements that pass and never grows the list |
| Lists.FilterAppend | ml/inference/web/src/stores/agents.ts:56-59 | filtering works piece by piece |
| Lists.FilterAll | ml/inference/web/src/stores/agents.ts:72 | when every element passes, nothing is removed |
| Lists.FilterIdempotent | ml/inference/web/src/stores/deployments.ts:67 | filtering twice is filtering once |
| Lists.FilterFilter | ml/inference/web/src/stores/agents.ts:30-44 | two filters in a row keep what passes both |
| Lists.FilterNone | ml/inference/web/src/stores/agents.ts:30-32 | when nothing passes, the result is empty |
| Lists.FindIndex | ml/inference/web/src/stores/anomalies.ts:47 | the first passing position, or none exactly when nothing passes |
| Lists.Find | ml/inference/web/src/stores/agents.ts:82 | `find` returns the first element that passes, or nothing exactly when none passes |
| CliCommon.AuthHeaders | cli/src/helios_cli/commands/detect.py:39 | the header map holds `Authorization` exactly when an API key is set |
| CliCommon.AuthHeadersCarryKey | cli/src/helios_cli/commands/detect.py:39 | the header is `Bearer ` followed by the key itself |
| CliCommon.RenderingOf | cli/src/helios_cli/commands/detect.py:57-63 | `json` and `yaml` dump; any other format shows the table |
| CliCommon.BandColour | cli/src/helios_cli/commands/detect.py:133 | green from 80, yellow from 60, red below |
| CliCommon.BandColourMonotone | cli/src/helios_cli/commands/detect.py:133 | a higher score never gets a worse colour |
| CliCommon.ReplaceZ | cli/src/helios_cli/commands/detect.py:97 | no `Z` is left: like `str.replace`, it replaces every `Z` of the timestamp, not only a trailing one |
| CliCommon.ReplaceZAppend | cli/src/helios_cli/commands/detect.py:97 | replacing works piece by piece |
| CliCommon.ReplaceZNoZ | cli/src/helios_cli/commands/detect.py:97 | a text without `Z` is unchanged |
| CliCommon.ReplaceZTrailing | cli/src/helios_cli/commands/detect.py:97 | a trailing `Z` becomes `+00:00` |
| CliCommon.TimeCell | cli/src/helios_cli/commands/detect.py:94-100 | an empty or absent timestamp shows empty; one that does not parse shows as it came; one that parses shows reformatted |
| CliConfig.Loaded | cli/src/helios_cli/commands/config.py:167-172 | a missing file or an empty YAML document reads as no settings |
| CliConfig.SetLine | cli/src/helios_cli/commands/config.py:90-91 | the confirmation never echoes the API key |
| CliConfig.InitData | cli/src/helios_cli/commands/config.py:143-149 | `init` writes the endpoint and the format, and the key only when one was typed |
| CliConfig.DisplayRows | cli/src/helios_cli/commands/config.py:184-214 | three rows: the endpoint with its source, the key masked or "(not set)", and the format or the `table` default |
| CliConfig.DisplayRowsHideKey | cli/src/helios_cli/commands/config.py:207-209 | the table never shows the stored key |
| CliConfig.Show | cli/src/helios_cli/commands/config.py:29-55 | the dumps carry the settings plus `runtime`, with a present key masked to `***` or null; the table shows the display rows |
| CliConfig.ConfigDir.constructor | cli/src/helios_cli/commands/config.py:167-172 | the directory holds the given file |
| CliConfig.ConfigDir.Set | cli/src/helios_cli/commands/config.py:60-91 | an unknown key or output format exits 1 and writes nothing; otherwise the value is stored over the loaded settings |
| CliConfig.ConfigDir.Unset | cli/src/helios_cli/commands/config.py:96-109 | a present key is removed and the file rewritten; an absent one changes nothing |
| CliConfig.ConfigDir.Init | cli/src/helios_cli/commands/config.py:113-157 | the answers replace the whole file |
| CliConfig.SetThenLoad | cli/src/helios_cli/commands/config.py:82-88 | after `set`, loading gives the value back and every other key is unchanged |
| CliConfig.UnsetUndoesSet | cli/src/helios_cli/commands/config.py:96-109 | `unset` undoes `set` of a new key |
| CliConfig.ShowMasksKey | cli/src/helios_cli/commands/config.py:44-52 | a stored key appears as `***` in the dumps and in the table |
| CliRecommend.Strategy | cli/src/helios_cli/commands/recommend.py:36-41 | `--cost-optimize` wins, then `--performance`, else `balanced` |
| CliRecommend.RecommendRequest | cli/src/helios_cli/commands/recommend.py:44-54 | a POST to `/recommend` with deployment, namespace and strategy, and the auth header |
| CliRecommend.RecommendRequestFor | cli/src/helios_cli/commands/recommend.py:16-18 | a left-out `--namespace` is sent as `default`, and with neither flag the strategy is `balanced` |
| CliRecommend.StrategyEmoji | cli/src/helios_cli/commands/recommend.py:74-78 | each strategy's emoji, with balanced for anything else |
| CliRecommend.ReplicaCell | cli/src/helios_cli/commands/recommend.py:102-111 | replicas show up, down or unchanged exactly as the recommendation compares |
| CliRecommend.ReplicaCellInverse | cli/src/helios_cli/commands/recommend.py:102-111 | the shown step gives back the recommended count |
| CliRecommend.ResourceRowOf | cli/src/helios_cli/commands/recommend.py:115-151 | a resource row shows both values, `N/A` when missing, and is marked changed exactly when they differ |
| CliRecommend.Table | cli/src/helios_cli/commands/recommend.py:91-151 | no table exactly when either side is missing or empty; a `TypeError` exactly when both are non-empty and a replica value is not a count; otherwise the table, whose rows are the four resource rows |
| CliRecommend.CostLineOf | cli/src/helios_cli/commands/recommend.py:157-169 | positive savings, a cost increase, or no change, by the sign of the amount |
| CliRecommend.CostLineInverse | cli/src/helios_cli/commands/recommend.py:157-169 | the shown amount gives back the savings |
| CliRecommend.ConfidenceColour | cli/src/helios_cli/commands/recommend.py:184-186 | green from 0.8, red below 0.6 |
| CliRecommend.Display | cli/src/helios_cli/commands/recommend.py:70-188 | the view has the emoji, the table, a cost line only with savings, the reasoning, the apply command and a confidence colour only with a confidence |
| CliRecommend.Recommend | cli/src/helios_cli/commands/recommend.py:20-68 | the request is sent; an HTTP error exits 1 with the connect message; otherwise the data is dumped or displayed |
| CliRecommend.CostWins | cli/src/helios_cli/commands/recommend.py:37-38 | `--cost-optimize` overrides `--performance` |
| CliDetect.SensitivityNameInjective | cli/src/helios_cli/commands/detect.py:19-21 | the three sensitivities have different names |
| CliDetect.DetectRequest | cli/src/helios_cli/commands/detect.py:39-50 | a POST to `/detect` with deployment, namespace, lookback hours and sensitivity, and the auth header |
| CliDetect.DetectRequestFor | cli/src/helios_cli/commands/detect.py:17-21 | each option left out is sent as its default: namespace `default`, one hour, `medium` |
| CliDetect.StatusColour | cli/src/helios_cli/commands/detect.py:71 | green for none, yellow for one to three, red above |
| CliDetect.StatusColourAntitone | cli/src/helios_cli/commands/detect.py:71 | more anomalies never give a better colour |
| CliDetect.StatusText | cli/src/helios_cli/commands/detect.py:72 | "No anomalies detected", or the count followed by "anomalies detected" |
| CliDetect.StatusTextCount | cli/src/helios_cli/commands/detect.py:72 | the count can be read back from the status text |
| CliDetect.SeverityStyle | cli/src/helios_cli/commands/detect.py:103-108 | the style is white exactly for an unknown severity |
| CliDetect.Upper | cli/src/helios_cli/commands/detect.py:113 | ASCII lower-case letters are raised and everything else is kept |
| CliDetect.RowOf | cli/src/helios_cli/commands/detect.py:93-117 | each cell of an anomaly row, with its default |
| CliDetect.MissingSeverityIsMedium | cli/src/helios_cli/commands/detect.py:102-108 | a missing severity shows as `MEDIUM` in orange |
| CliDetect.Rows | cli/src/helios_cli/commands/detect.py:93-117 | one row per anomaly, in order |
| CliDetect.Display | cli/src/helios_cli/commands/detect.py:66-135 | the status colour and text follow the count; the rows, or "all clear" exactly with none; recommendations only with anomalies; a health colour only with a score |
| CliDetect.Detect | cli/src/helios_cli/commands/detect.py:23-63 | the request is sent; an HTTP error exits 1 with the connect message; otherwise the data is dumped or displayed |
| CliStatus.ProbeRequests | cli/src/prescale_cli/commands/status.py:33-57 | a GET of `/health` and then `/metrics`, both with the auth header |
| CliStatus.CheckServices | cli/src/prescale_cli/commands/status.py:28-62 | a 200 health answer is healthy with its details, any other code unhealthy, an HTTP error unreachable with its message; metrics are available exactly on a 200 answer |
| CliStatus.StatusColour | cli/src/prescale_cli/commands/status.py:79-83 | the colour is white exactly for an unknown status, and green exactly for healthy |
| CliStatus.StatusEmoji | cli/src/prescale_cli/commands/status.py:84-88 | the emoji is `?` exactly for an unknown status, and a tick exactly for healthy |
| CliStatus.ResponseTimeCell | cli/src/prescale_cli/commands/status.py:106-107 | a missing or zero response time shows `N/A` |
| CliStatus.Display | cli/src/prescale_cli/commands/status.py:73-138 | the inference row shows the status, its colour, emoji and time; healthy shows the version, anything else the error; models are listed only when healthy; metrics are green exactly when available |
| CliStatus.ProbesThenDisplay | cli/src/prescale_cli/commands/status.py:33-138 | the status shows healthy exactly after a 200 health answer; an unreachable service shows its error in red with no time |
| CliStatus.Status | cli/src/prescale_cli/commands/status.py:14-71 | the probes' results are dumped as JSON or YAML when that format is set and shown by `_display_status` otherwise; there is no error exit, and the view shows healthy exactly after a 200 health answer |
| CliPredict.PredictRequest | cli/src/helios_cli/commands/predict.py:43-55 | a POST to `/predict` with the metric type, deployment, namespace, horizon and interval (defaults `default`, 24, `1h`) and the auth header |
| CliPredict.CpuMemoryDiffer | cli/src/helios_cli/commands/predict.py:31-114 | `cpu` and `memory` send the same body except for the metric type |
| CliPredict.RowOf | cli/src/helios_cli/commands/predict.py:138-152 | each cell of a prediction row, with 0 defaults and the confidence as a percentage |
| CliPredict.Rows | cli/src/helios_cli/commands/predict.py:137 | the first ten predictions, in order |
| CliPredict.Trailer | cli/src/helios_cli/commands/predict.py:156-157 | the "... and N more" line appears exactly beyond ten predictions |
| CliPredict.RowsAndTrailerCoverAll | cli/src/helios_cli/commands/predict.py:137-157 | the rows shown plus the count in the trailer are all the predictions |
| CliPredict.Display | cli/src/helios_cli/commands/predict.py:117-166 | the title names the metric; rows and trailer only with predictions; summary lines with their defaults only with a summary |
| CliPredict.Predict | cli/src/helios_cli/commands/predict.py:25-114 | the request is sent; an HTTP error exits 1 with the connect message; otherwise the data is dumped or displayed |
| Deployments.WithoutId | ml/inference/web/src/stores/deployments.ts:67 | removal keeps exactly the entries with another id |
| Deployments.WithoutIdAppend | ml/inference/web/src/stores/deployments.ts:67 | removal keeps the order of what is left |
| Deployments.WithoutIdAbsent | ml/inference/web/src/stores/deployments.ts:67 | deleting an id nobody has changes nothing |
| Deployments.WithoutIdIdempotent | ml/inference/web/src/stores/deployments.ts:67 | deleting twice is deleting once |
| Deployments.FindById | ml/inference/web/src/stores/deployments.ts:24-26 | the current deployment is the first with the selected id; null when none is selected or none matches |
| Deployments.FindFirstId | ml/inference/web/src/stores/deployments.ts:36-37 | selecting the first deployment's id selects that deployment |
| Deployments.FirstIdOrNull | ml/inference/web/src/stores/deployments.ts:70 | the first id, or null when the list is empty or that id is empty |
| Deployments.SelectionAfterDelete | ml/inference/web/src/stores/deployments.ts:62-71 | after a delete moves the selection, it names a remaining deployment and never the deleted id |
| Deployments.Store.constructor | ml/inference/web/src/stores/deployments.ts:19-22 | empty list, nothing selected, not loading, no error |
| Deployments.Store.FetchDeployments | ml/inference/web/src/stores/deployments.ts:28-44 | a success replaces the list and selects the first entry only when nothing was selected; a failure keeps both and records the message |
| Deployments.Store.CreateDeployment | ml/inference/web/src/stores/deployments.ts:46-60 | a success appends, selects and returns the new deployment; a failure records the message and rethrows |
| Deployments.Store.DeleteDeployment | ml/inference/web/src/stores/deployments.ts:62-78 | a success removes the id and moves the selection only when it was the deleted id; a failure records and rethrows |
| Deployments.Store.SetCurrentDeployment | ml/inference/web/src/stores/deployments.ts:80-82 | the id is selected as given, and nothing else changes |
| Agents.OfDeployment | ml/inference/web/src/stores/agents.ts:30-32 | exactly the agents of the selected deployment; none when nothing is selected |
| Agents.WithStatus | ml/inference/web/src/stores/agents.ts:34-44 | exactly the agents with that status |
| Agents.StatusPartition | ml/inference/web/src/stores/agents.ts:34-44 | the online, offline and warning lists together hold every agent of the deployment, each as often as it occurs |
| Agents.StatusDisjoint | ml/inference/web/src/stores/agents.ts:34-44 | no agent is in two of the three lists |
| Agents.Replaced | ml/inference/web/src/stores/agents.ts:56-59 | the other deployments' agents, followed by the response |
| Agents.ReplacedView | ml/inference/web/src/stores/agents.ts:46-65 | after a refresh that deployment's agents are exactly the response's; every other deployment keeps its old agents |
| Agents.WithoutId | ml/inference/web/src/stores/agents.ts:72 | removal keeps exactly the agents with another id |
| Agents.WithoutIdAppend | ml/inference/web/src/stores/agents.ts:72 | removal keeps the order of what is left |
| Agents.WithoutIdAbsent | ml/inference/web/src/stores/agents.ts:72 | deleting an id nobody has changes nothing |
| Agents.FindById | ml/inference/web/src/stores/agents.ts:81-83 | the first agent with the id, or none exactly when no agent has it |
| Agents.TargetDeployment | ml/inference/web/src/stores/agents.ts:47 | a non-empty argument wins over the selected deployment |
| Agents.Store.constructor | ml/inference/web/src/stores/agents.ts:22-28 | no agents, not loading, no error |
| Agents.Store.FetchAgents | ml/inference/web/src/stores/agents.ts:46-65 | with no usable id nothing is requested or changed; a success swaps that deployment's agents for the response; a failure records the message |
| Agents.Store.DeleteAgent | ml/inference/web/src/stores/agents.ts:67-79 | a success removes every agent with the id; a failure records and rethrows |
| Anomalies.Anomaly.constructor | ml/inference/web/src/stores/anomalies.ts:20-26 | an anomaly object holds the given fields |
| Anomalies.FirstWithId | ml/inference/web/src/stores/anomalies.ts:47 | the first position with the id, or none exactly when no anomaly has it |
| Anomalies.Target | ml/inference/web/src/stores/anomalies.ts:47 | `find` returns a listed anomaly with the id, or nothing exactly when none has it |
| Anomalies.Store.constructor | ml/inference/web/src/stores/anomalies.ts:24-26 | no anomalies, not loading, no error |
| Anomalies.Store.FetchAnomalies | ml/inference/web/src/stores/anomalies.ts:28-42 | with no usable id nothing is requested or changed; a success replaces the list; a failure records the message |
| Anomalies.Store.AcknowledgeAnomaly | ml/inference/web/src/stores/anomalies.ts:44-55 | after a success the found anomaly is acknowledged and no other flag changes; an absent id or an already acknowledged one changes nothing; a failure records, rethrows and changes no flag |
| Anomalies.Store.ResolveAnomaly | ml/inference/web/src/stores/anomalies.ts:57-68 | the same for the `resolved` flag |
| Predictions.QueryParams | ml/inference/web/src/stores/predictions.ts:38-43 | deployment and metric name first; the agent id only when non-empty; the horizon only when present and non-zero; in object-literal order |
| Predictions.QueryParamsReadBack | ml/inference/web/src/stores/predictions.ts:38-43 | reading the query back gives each argument, and the dropped ones are absent |
| Predictions.LookupAfter | ml/inference/web/src/stores/predictions.ts:38-43 | parameters with other names do not hide a key |
| Predictions.QueryParamsHorizonInjective | ml/inference/web/src/stores/predictions.ts:42 | different non-zero horizons give different queries |
| Predictions.Store.constructor | ml/inference/web/src/stores/predictions.ts:23-25 | no prediction, not loading, no error |
| Predictions.Store.GetPrediction | ml/inference/web/src/stores/predictions.ts:27-54 | with no selected deployment nothing is requested or changed; otherwise the query is sent, a success becomes current and is returned, and a failure records, rethrows and keeps the current prediction |
| Predictions.Store.ClearPrediction | ml/inference/web/src/stores/predictions.ts:56-58 | the current prediction is cleared and nothing else changes |
| Theme.ThemeName | ml/inference/web/src/stores/theme.ts:19 | `dark` exactly for the dark theme, else `light` |
| Theme.InitialDark | ml/inference/web/src/stores/theme.ts:8-13 | a stored non-empty value means dark exactly when it is `dark`; none or an empty one means dark |
| Theme.Applied | ml/inference/web/src/stores/theme.ts:29-38 | the root carries `dark` exactly in the dark theme and `light` exactly in the light one, and its other classes are untouched |
| Theme.AppliedLastWins | ml/inference/web/src/stores/theme.ts:29-38 | applying over an applied theme is applying the last one |
| Theme.Initialised | ml/inference/web/src/stores/theme.ts:7-15 | `init` reads the flag from storage, writes nothing, and applies the classes |
| Theme.WithTheme | ml/inference/web/src/stores/theme.ts:23-27 | `setTheme` sets the flag, stores its name and applies the classes |
| Theme.Toggled | ml/inference/web/src/stores/theme.ts:17-21 | `toggle` is `setTheme` of the opposite flag |
| Theme.SettingMakesConsistent | ml/inference/web/src/stores/theme.ts:17-38 | after `toggle` or `setTheme` the storage and the root agree with the flag |
| Theme.SetThemeIdempotent | ml/inference/web/src/stores/theme.ts:23-27 | setting a theme twice is setting it once |
| Theme.ToggleTwice | ml/inference/web/src/stores/theme.ts:17-21 | two toggles restore the flag, and from a consistent state the whole state |
| Theme.Storage.constructor | ml/inference/web/src/stores/theme.ts:8 | the storage holds the given items |
| Theme.Storage.SetItem | ml/inference/web/src/stores/theme.ts:19 | one key is written and nothing else |
| Theme.ClassList.constructor | ml/inference/web/src/stores/theme.ts:30 | the root holds the given classes |
| Theme.ClassList.Add | ml/inference/web/src/stores/theme.ts:32 | the class is added |
| Theme.ClassList.Remove | ml/inference/web/src/stores/theme.ts:33 | the class is removed |
| Theme.Store.constructor | ml/inference/web/src/stores/theme.ts:5 | the store starts dark |
| Theme.Store.ApplyTheme | ml/inference/web/src/stores/theme.ts:29-38 | the root's classes become the applied set for the flag |
| Theme.Store.Init | ml/inference/web/src/stores/theme.ts:7-15 | the new state is `Initialised` of the old one |
| Theme.Store.Toggle | ml/inference/web/src/stores/theme.ts:17-21 | the new state is `Toggled` of the old one |
| Theme.Store.SetTheme | ml/inference/web/src/stores/theme.ts:23-27 | the new state is `WithTheme` of the old one |

## Left out

- Rendering: three.js, WebGL and React rendering. The scene and the GPU read-back are left
  out; the pixels read back are an input.
- Styling: the overlay's CSS, `fontSize` and `letterSpacing`, the logo's glitch row (random),
  its interval period, and the theme colours.
- AsciiViewer.GlyphIndex: the luma is computed exactly in integers. JavaScript's
  floating-point product can land on the other side of an index boundary when the exact
  value is an integer; that rounding is not modelled.
- AsciiViewer.ConvertFrame: requires `cellSize >= 1`. With a cell size of 0 the source's
  arithmetic yields `Infinity` columns and never finishes.
- `Math.round` in `mapToPreset` is modelled as `floor(x + 1/2)` on exact rationals. With
  `d*m/9` there is never an exact half.
- RetrainScheduler: the asyncio parts are left out — the retrain loop and its sleeps, the
  lock, and `to_thread`.
- RetrainScheduler: data fetching (`_fetch_training_data`, `_fetch_from_gcp`,
  `_fetch_from_cloudwatch`), feature engineering, the model fitting of `_run_training`, and
  `_save_trained_models` are left out. What they produce is an input: a `FetchOutcome`
  (an exception, no frame, or a frame's size), a `TrainOutcome` (an exception, no result, or
  the metrics) and a `DeployFault` (whether `_validate_and_deploy` or `load_models` raised).
- RetrainScheduler.Validate: the RMSEs and the improvement `(current_rmse - new_rmse) /
  current_rmse` are exact reals. Python's float rounding at the threshold, and NaN or
  infinite RMSEs, are not modelled.
- RetrainScheduler.RetrainRaisedFails: `_run_training` catches every `Exception` itself and
  returns None, so `TrainRaised` stands only for an `Exception` raised around that call,
  by `asyncio.to_thread` itself.
- RetrainScheduler: the training target is chosen from the numeric column list; how pandas
  derives that list is left out.
- CloudWatchFetcher: boto3 itself is left out, along with `_get_client`'s `ImportError` and
  the `Exception` handler of `fetch_metric`; CloudWatch's answer is an input.
- CloudWatchFetcher: the pandas merge on timestamps, the rounding, and the final sort of
  `fetch_all_metrics` are left out. The model stops at the kept series and their column
  names.
- CloudWatchFetcher.SortByTimestamp: states sortedness and a permutation. It does not state
  the stability of Python's sort among equal timestamps.
- CloudWatchFetcher: the local dict `columns_map` of `fetch_all_metrics`, which is filled
  but never read, is not modelled.
- CLI: Click's option parsing and wiring, Rich's rendering, and JSON/YAML serialisation are
  left out. A view is modelled as the datatype of what is shown.
- CLI: the `.2f`/`.0f`/`.1f` number formatting is left out; the numbers are kept as reals.
- CLI: the file system is left out, including the YAML read and write, `mkdir`, `chmod`,
  and `config path`. The settings file is a field of `ConfigDir`.
- CLI: a `response.json()` that fails to decode is not modelled.
- CliCommon.TimeCell: `datetime.fromisoformat` and `strftime` are an oracle parameter
  `reformat`.
- CloudWatchFetcher.Lower: lowers ASCII capitals only. Python's `str.lower` also lowers
  other Unicode capitals; metric and namespace names are ASCII.
- CliDetect.Upper: upper-cases ASCII letters only. Python's full Unicode case mapping is not
  modelled.
- CliStatus.CheckServices: the elapsed time is given as a real number of milliseconds.
- Stores: the `isLoading == true` state during an `await` is left out. Only the state after
  each action is modelled, and there `isLoading` is always false.
- Stores: an error that is not an `Error`, and so the fallback messages, are not modelled.
  The API helper always throws an `Error`, whose message is the `Failure` payload.
- Stores: the HTTP client and `useApi` are left out; each call is its `ApiResult` answer,
  and the request path is an output.
- Predictions.Store.GetPrediction: `URLSearchParams` percent-encoding is not modelled. The
  horizon is an integer, so a non-integer or NaN `horizon_hours` is not modelled.
- Agents: the optional location fields are not modelled, because no store action reads
  them.
- Theme: `localStorage` and `document.documentElement.classList` are modelled as a string
  map and a class set; there is no persistence across page loads.

## Findings

| source | as written | input that shows it | evidently intended | confidence | as-written member | corrected member |
|---|---|---|---|---|---|---|
| ml/pipeline/cloudwatch_fetcher.py:172-174, 204-208 | `_camel_to_snake` inserts `_` before every capital, so `CPUUtilization` becomes `c_p_u_utilization` and the EC2 CPU column is stored as `ec2_c_p_u_utilization`. That name matches no retrain target (`ml/inference/retrain_scheduler.py:289`) | namespace `AWS/EC2`, metric `CPUUtilization` | the column `ec2_cpu_utilization` that the comment at line 172 names, which the retrain target list contains | not executed | CloudWatchFetcher.CamelToSnakeSplitsAcronyms, CloudWatchFetcher.EC2CpuColumn, CloudWatchFetcher.FirstColumnIsCpu, CloudWatchFetcher.FetchAllMetrics | CloudWatchFetcher.CamelToSnakeWordsKeepsAcronyms, CloudWatchFetcher.FirstColumnIsTarget, CloudWatchFetcher.FetchAllMetricsWords |
