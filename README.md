# AgriGuardian AI backend: the sensor-to-alert path, in Dafny

This project models the core of the AgriGuardian AI backend. The backend
takes raw field-sensor events and runs them through the following steps:

- a feature-engineering ETL step with four rolling windows;
- a rule-based disease-risk scorer;
- a live state that keeps the newest payload, a capped history and a capped
  alert list, and broadcasts to websocket subscribers.

A stream processor drives that path, feeding events one at a time to an
ordered list of handlers. A stream buffer decides when a batch is due.
Three helpers of the retrieval module complete the core:

- sentence chunking with a half-chunk overlap;
- top-k selection above a similarity threshold;
- the rule-based fallback answer.

Files and modules:

| file | module | what it holds |
|---|---|---|
| `wrappers.dfy` | `Wrappers` | `Option` and `Result` |
| `python.dfy` | `Python` | the Python built-ins the code relies on, stated on values (see below) |
| `risk_engine.dfy` | `RiskEngine` | `DiseaseRiskEngine` with its `lastLevel` field; the scoring rules and the specification function `Assess` |
| `etl_pipeline.dfy` | `EtlPipeline` | `PathwayEtlPipeline` with its four windows as `seq<real>` fields; event parsing, features, batches |
| `streaming.dfy` | `Streaming` | `StreamProcessor` and `StreamBuffer` |
| `api.dfy` | `Api` | `LiveState`; the report file name, the risk payload, the alert, broadcasts and the websocket replay |
| `vector_rag.dfy` | `VectorRag` | `_split_text`, the selection part of `retrieve`, the fallback branch of `answer` |

The `Python` module covers these built-ins:

- dynamically typed JSON-like values (`Value`) and their truthiness;
- `dict.get`, `float(...)` (of numbers and of decimal strings) and `str(...)`;
- ASCII `lower()`, one-character `replace` and `join`;
- the slices `s[:k]` and `s[-n:]`;
- `int(x)` of a rational, which truncates toward zero.

The imperative parts of the source are methods on classes, and each is
proved against a specification function:

- `DiseaseRiskEngine.Score` against `Assess`;
- `PathwayEtlPipeline.ProcessSingleEvent` against `ProcessEvent`, and
  `ProcessBatch` against `Batch`;
- `StreamProcessor.Start` against `StreamRun` and `Fanout`;
- `VectorRag.SplitText` against the scan `Runs`;
- `LiveState.HandleStreamEvent` against `RiskPayload`, `AlertPayload` and
  `LastN`.

The properties the code promises are then lemmas about those functions.

These things become parameters:

- time (the clock of `datetime.now` and of the event loop);
- which websocket sends fail, and which handlers raise;
- whether persistence or the report write raises;
- whether `connect()` raises;
- how the event stream ends: exhausted, cancelled, or the source raising.

A websocket and a handler are opaque identities. Successful sends and
handler calls are recorded in two log fields (`sent`, `calls`) that the source does not have, so
that contracts can say what was delivered to whom and in which order.

Two places where the model follows the code rather than its description:

- `_handle_stream_event` creates an alert for every payload whose
  `risk_level` is `"HIGH"` (backend/api.py:154). It does not test the
  engine's rising-edge `alert_triggered`. The model does the same
  (`Api.LiveState.HandleStreamEvent`, `Api.PayloadHighIffLevel`).
- In `process_batch` the sink is called after `_process_single_event`
  returned, so an event whose persistence raises has still moved the
  windows. It is only missing from the returned list (`EtlPipeline.Batch`).

## Model

| member | source | states |
|---|---|---|
| Python.Get | backend/risk_engine.py:211 | `d.get(key, default)` is the stored value when the key is present, else the default |
| Python.ToFloat | backend/etl_pipeline.py:149-157 | `float(v)` is the number itself for ints and floats, and fails (None) for None, lists and dicts |
| Python.IntTextParses | backend/etl_pipeline.py:149 | the decimal text of any integer parses back to that integer under the `float` model |
| Python.Lower | backend/risk_engine.py:28 | `lower()` keeps the length and lower-cases each character in place |
| Python.LowerIdempotent | backend/risk_engine.py:270 | lower-casing twice is lower-casing once |
| Python.JoinSnoc | backend/vector_rag.py:198 | joining one more part appends the separator and that part |
| Python.Prefix | backend/risk_engine.py:169 | `s[:k]` is a prefix of `s` of length min(k, len(s)) for k >= 0 |
| Python.LastN | backend/api.py:173 | `s[-n:]` has min(n, len(s)) items and they are the newest ones, in order |
| Python.LastNSnoc | backend/api.py:171-173 | capping after every append equals capping everything appended so far |
| Python.TruncDiv | backend/risk_engine.py:100 | `int(n / d)` truncates toward zero: the quotient brackets `n` from the side of zero |
| Python.TruncDivMonotone | backend/risk_engine.py:109 | truncating division by a positive divisor is monotone |
| Python.Clamp | backend/risk_engine.py:273 | `max(lo, min(hi, x))` lies in [lo, hi] and is `x` when `x` already does |
| RiskEngine.LevelName | backend/risk_engine.py:275-294 | only the HIGH level is named "HIGH" |
| RiskEngine.FeaturesFromDict | backend/risk_engine.py:211-221 | the snapshot read with `float(features.get(key, default))`: defaults 7 for soil pH, 500 for solar radiation, "unknown" crop; fails when a read fails |
| RiskEngine.CropBonus | backend/risk_engine.py:263-270 | the crop adjustment is between 2 and 8, and 2 for a crop not in the table |
| RiskEngine.ScoreOf | backend/risk_engine.py:223-273 | the score is in [2, 100]: the crop adjustment is at least 2 and each rule adds a non-negative weight; unclamped when the sum is at most 100 |
| RiskEngine.ScoreIsWeightOfReasons | backend/risk_engine.py:223-273 | the rule total is the summed weight of exactly the rules whose reasons were appended; the score is it plus the crop adjustment, clamped |
| RiskEngine.LevelOf | backend/risk_engine.py:275-300 | HIGH iff score >= 75, MEDIUM iff 45 <= score < 75, LOW iff score < 45 |
| RiskEngine.GenericActions | backend/risk_engine.py:277-300 | LOW carries 2 generic actions, MEDIUM and HIGH carry 3 |
| RiskEngine.GatedDiagnosis | backend/risk_engine.py:34-87 | in a fungal window with a listed crop the crop's disease, confidence and three suggestions; otherwise general moisture stress at 45 with the two general suggestions |
| RiskEngine.FallbackDisease | backend/risk_engine.py:90-97 | the high-score fallback is never moisture stress: the crop's own disease for a listed crop, and "Fungal disease complex risk" for cotton or an unknown crop |
| RiskEngine.HighScoreFallback | backend/risk_engine.py:89-98 | at score >= 75 moisture stress is replaced and confidence only rises; otherwise the diagnosis is unchanged |
| RiskEngine.ScaledConfidence | backend/risk_engine.py:100 | `min(95, max(c, int(score * 0.85)))` is at most 95 and at least min(95, c) and min(95, int(score * 0.85)) |
| RiskEngine.PredictDisease | backend/risk_engine.py:27-101 | confidence in [45, 95] and at least min(95, int(score * 0.85)); never moisture stress at score >= 75; 2 or 3 suggestions; the crop's disease, suggestions and scaled confidence in a fungal window with a listed crop; otherwise at score >= 75 the crop's fallback disease with the general suggestions at confidence min(95, max(68, int(score * 0.85))); moisture stress outside a fungal window below 75 |
| RiskEngine.OutbreakEta | backend/risk_engine.py:109-119 | the outbreak ETA is always in [6, 72] |
| RiskEngine.EtaMonotone | backend/risk_engine.py:109-119 | a higher score never gives a later ETA |
| RiskEngine.WindowOf | backend/risk_engine.py:121-128 | the window label is Critical iff ETA <= 12, High iff 12 < ETA <= 24, Moderate iff 24 < ETA <= 48, Watch iff ETA > 48 |
| RiskEngine.Projected | backend/risk_engine.py:149-151 | each projected point is clamped into [5, 100] |
| RiskEngine.ForecastShape | backend/risk_engine.py:137-154 | the forecast has 4 points at hours 12, 24, 48, 72 in order, each in [5, 100], non-increasing |
| RiskEngine.BuildActionPlan | backend/risk_engine.py:156-204 | HIGH do-now is the protocol line and the first <= 2 disease suggestions, today the first 2 actions and the photo line; MEDIUM do-now is the scouting line and the first action, today the first 2 suggestions and the irrigation line |
| RiskEngine.LowPlanIsFixed | backend/risk_engine.py:192-198 | the LOW plan does not depend on the actions or the suggestions |
| RiskEngine.AssessedPlan | backend/risk_engine.py:166-198 | the plan of a whole assessment per level, with the level's generic actions filled in |
| RiskEngine.ReasonIffFires | backend/risk_engine.py:223-261 | a rule's reason is present iff that rule's condition holds |
| RiskEngine.ReasonsInRuleOrder | backend/risk_engine.py:223-261 | the reasons appear in rule order, at most one per rule |
| RiskEngine.AlertOnRisingEdge | backend/risk_engine.py:302 | `alert_triggered` iff score >= 75 and the previous level was not HIGH |
| RiskEngine.Run | backend/risk_engine.py:302-303 | scoring a sequence of snapshots gives one result per snapshot |
| RiskEngine.RunStep | backend/risk_engine.py:302-303 | the i-th result of a run is the assessment against the level the (i-1)-th snapshot left behind |
| RiskEngine.RunAlerts | backend/risk_engine.py:302-303 | in a run, snapshot i alerts iff it scores >= 75 and its predecessor (or the initial level) was below HIGH |
| RiskEngine.TwoHighAlertOnce | backend/risk_engine.py:302-303 | two consecutive HIGH snapshots alert only on the first |
| RiskEngine.DropRearmsAlert | backend/risk_engine.py:302-303 | HIGH, then below HIGH, then HIGH again alerts again |
| RiskEngine.CropOfLower | backend/risk_engine.py:270 | the crop lookup sees the same crop whatever the case of the name |
| RiskEngine.RulesIgnoreCrop | backend/risk_engine.py:223-261 | the ten weighted rules do not look at the crop name |
| RiskEngine.CropCaseInsensitive | backend/risk_engine.py:263-270 | lower-casing the crop name changes neither the score nor the predicted disease |
| RiskEngine.AssessCaseInsensitive | backend/risk_engine.py:206-324 | lower-casing the crop name changes nothing in the whole assessment |
| RiskEngine.SameInputsSameAssessment | backend/risk_engine.py:311-324 | the result is determined by the score, the reasons, the diagnosis, the ETA and the forecast |
| RiskEngine.Check | backend/risk_engine.py:223-225 | one weighted check adds the rule's weight and its reason exactly when it fires |
| RiskEngine.ApplyRules | backend/risk_engine.py:207-261 | the ten checks in order leave the rule total and the fired reasons |
| RiskEngine.DiseaseRiskEngine.constructor | backend/risk_engine.py:24-25 | a new engine's last level is LOW |
| RiskEngine.DiseaseRiskEngine.EstimateOutbreakEta | backend/risk_engine.py:103-129 | the decrementing method computes the ETA in [6, 72] and its window label |
| RiskEngine.DiseaseRiskEngine.ForecastTrajectory | backend/risk_engine.py:131-154 | the horizon loop builds the 4-point, ordered, bounded, non-increasing forecast |
| RiskEngine.DiseaseRiskEngine.Score | backend/risk_engine.py:206-324 | `score()` returns the assessment against the previous level and stores the new level |
| EtlPipeline.Field | backend/etl_pipeline.py:149-157 | `float(payload[key])`: missing key and non-numeric value are distinct errors; success gives the parsed number |
| EtlPipeline.Fields | backend/etl_pipeline.py:149-157 | all numeric fields parse iff each one does, with the values in key order |
| EtlPipeline.ParseEvent | backend/etl_pipeline.py:149-158 | an event parses iff its nine numeric fields do and `crop_type` is present; the crop is `str(payload["crop_type"])` |
| EtlPipeline.FieldsFirstError | backend/etl_pipeline.py:149-157 | a failed read of the numeric fields reports the error of one of its fields |
| EtlPipeline.ParseErrorIsFirst | backend/etl_pipeline.py:149-158 | the error reported is that of the first failing field in read order, `crop_type` last |
| EtlPipeline.Push | backend/etl_pipeline.py:68-71 | `deque(maxlen=n).append(x)`: x is the newest item, and nothing is dropped while there is room |
| EtlPipeline.PushBounded | backend/etl_pipeline.py:68-71 | a window never holds more than `window_size` values |
| EtlPipeline.SumBounds | backend/etl_pipeline.py:165-168 | a sum lies between count times the lower and upper bounds of its items |
| EtlPipeline.MeanBounds | backend/etl_pipeline.py:165-168 | a rolling mean lies within the bounds of its window |
| EtlPipeline.MeanOfOne | backend/etl_pipeline.py:165-168 | the mean of one value is that value |
| EtlPipeline.Classify | backend/etl_pipeline.py:173-178 | Wet-Warm needs the humidity alert, and Heat-Dry is chosen only when Wet-Warm does not hold |
| EtlPipeline.ClassifyExact | backend/etl_pipeline.py:173-178 | exactly one of Wet-Warm, Heat-Dry, Stable, in that priority, each iff its condition holds |
| EtlPipeline.Abs | backend/etl_pipeline.py:182-185 | `abs` is non-negative and equals x or -x |
| EtlPipeline.Anomaly | backend/etl_pipeline.py:181-186 | the anomaly score is non-negative, and zero iff all four readings equal their means |
| EtlPipeline.ReadingFields | backend/etl_pipeline.py:188-205 | the `__dict__` of a processed reading carries the crop type and the anomaly score |
| EtlPipeline.Append | backend/etl_pipeline.py:160-163 | after the four appends every window is non-empty (for a positive window size) |
| EtlPipeline.Derive | backend/etl_pipeline.py:165-205 | the derived reading keeps the raw values, raises the humidity alert iff humidity > 80 or the rolling humidity mean > 78, and has a non-negative anomaly score |
| EtlPipeline.ParseFailureLeavesWindows | backend/etl_pipeline.py:149-163 | an event with a missing or uncoercible field leaves every window unchanged |
| EtlPipeline.NewReadingInItsMeans | backend/etl_pipeline.py:160-168 | the new values are the newest items of their windows and the rolling means are over those windows |
| EtlPipeline.ProcessEventSucceeds | backend/etl_pipeline.py:147-205 | an event succeeds iff it parses and the window size is positive |
| EtlPipeline.WindowOfOneNoAnomaly | backend/etl_pipeline.py:181-186 | with window size 1 the anomaly score is 0 |
| EtlPipeline.ProcessEventBounded | backend/etl_pipeline.py:160-163 | processing an event keeps every window within `window_size` |
| EtlPipeline.BatchStep | backend/etl_pipeline.py:100-108 | one more event of a batch processes it on the current windows and appends its reading if it and its persistence succeed |
| EtlPipeline.Outcomes | backend/etl_pipeline.py:100-108 | the batch has one outcome per event |
| EtlPipeline.LastStep | backend/etl_pipeline.py:100-108 | the last event's outcome and output extend those of the events before it |
| EtlPipeline.BatchKeepsSuccesses | backend/etl_pipeline.py:96-110 | the returned list is exactly the successful readings, in input order |
| EtlPipeline.SuccessesCount | backend/etl_pipeline.py:96-110 | the successes are at most the events, and all of them iff every event succeeded |
| EtlPipeline.BatchBound | backend/etl_pipeline.py:96-110 | a batch returns at most as many readings as it got events |
| EtlPipeline.BatchAllGood | backend/etl_pipeline.py:96-110 | with a positive window size, valid events and no persistence failure, every event yields a reading |
| EtlPipeline.Parsed | backend/etl_pipeline.py:149-163 | the readings that moved the windows are at most the events |
| EtlPipeline.ParsedStep | backend/etl_pipeline.py:149-163 | one more event adds its reading to the parsed ones iff it parses |
| EtlPipeline.ChannelsSnoc | backend/etl_pipeline.py:160-163 | one more reading adds one value to the end of each channel |
| EtlPipeline.AppendWindowsOf | backend/etl_pipeline.py:160-163 | appending to the windows of some readings gives the windows of those readings plus the new one |
| EtlPipeline.BatchWindows | backend/etl_pipeline.py:68-71 | after a batch each window holds the newest min(parsed so far, window_size) values of its channel, in arrival order |
| EtlPipeline.PathwayEtlPipeline.constructor | backend/etl_pipeline.py:65-71 | four empty windows of the given maximum length |
| EtlPipeline.PathwayEtlPipeline.ProcessSingleEvent | backend/etl_pipeline.py:147-205 | the in-place appends, means and features agree with `ProcessEvent` and keep the window bounds |
| EtlPipeline.PathwayEtlPipeline.ProcessBatch | backend/etl_pipeline.py:96-110 | the batch loop agrees with `Batch`, keeps the bounds and returns at most one reading per event |
| Streaming.Calls | backend/streaming.py:204-208 | one call per handler, in registration order, each with the same message |
| Streaming.FanoutLength | backend/streaming.py:198-208 | a stream of m messages and h handlers makes m * h calls |
| Streaming.FanoutIndex | backend/streaming.py:198-208 | call number i * h + j is handler j receiving message i: every handler sees every event, in order |
| Streaming.FanoutSnoc | backend/streaming.py:198-208 | one more event appends one round of handler calls |
| Streaming.StreamRun | backend/streaming.py:198-209 | the stream gives one handler message per event read |
| Streaming.StreamRunStep | backend/streaming.py:200-207 | each event is a one-event batch on the current windows, and its message follows |
| Streaming.BatchOfOne | backend/streaming.py:201 | a one-event batch is one `_process_single_event` plus the sink |
| Streaming.StreamRunWindows | backend/streaming.py:198-209 | feeding events one by one moves the windows as one batch of all of them would |
| Streaming.MessagesForIndex | backend/streaming.py:205-207 | message k carries event k raw and its processed reading, or None |
| Streaming.StreamRunMessages | backend/streaming.py:198-209 | the stream's messages are those of the events' outcomes |
| Streaming.HandlerMessageProcessed | backend/streaming.py:205-207 | a handler message has exactly the keys raw and processed, and processed is None iff the batch returned nothing |
| Streaming.Consumed | backend/streaming.py:198-212 | the processor reads no more events than the source has |
| Streaming.StreamProcessor.constructor | backend/streaming.py:176-186 | no handlers, not running |
| Streaming.StreamProcessor.AddHandler | backend/streaming.py:188-190 | the handler is appended and nothing else changes |
| Streaming.StreamProcessor.CallHandler | backend/streaming.py:222-230 | the handler is called whether it raises or not, and its failure is contained |
| Streaming.StreamProcessor.CallHandlers | backend/streaming.py:204-208 | the handler loop calls every handler in order with the message |
| Streaming.StreamProcessor.ProcessEvents | backend/streaming.py:198-210 | the event loop moves the windows as `StreamRun` does and makes exactly the calls of `Fanout` |
| Streaming.StreamProcessor.Stop | backend/streaming.py:232-236 | not running and the source closed |
| Streaming.StreamProcessor.Start | backend/streaming.py:192-215 | a failed connect does nothing; otherwise the events read before the end are processed and fanned out, and `stop` runs whether the stream ends, is cancelled or raises |
| Streaming.StreamBuffer.constructor | backend/streaming.py:242-246 | an empty buffer flushed at creation time |
| Streaming.StreamBuffer.Add | backend/streaming.py:248-259 | the buffer grows by exactly the event; a flush is due iff length >= max_size or elapsed time >= timeout |
| Streaming.StreamBuffer.Flush | backend/streaming.py:261-266 | returns exactly the events added since the last flush, in order, empties the buffer and resets the flush time |
| Streaming.StreamBuffer.IsEmpty | backend/streaming.py:268-270 | empty iff every added event has been flushed |
| Api.ReportFileNameClean | backend/api.py:79-85 | the report name is "high_risk_" + s + ".json", s holds no ':', '+' or '.', and s is the timestamp character by character with ':' as '-', '+' as "_plus_", '.' as '_' |
| Api.SafeTimestampPerChar | backend/api.py:80-84 | the three chained replacements equal one substitution per character |
| Api.SubstituteAllClean | backend/api.py:80-84 | no substituted character is ':', '+' or '.' |
| Api.ReplaceCharAppend | backend/api.py:81 | `replace` distributes over concatenation |
| Api.ReplaceCharNone | backend/api.py:81-83 | `replace` of an absent character changes nothing |
| Api.SafeChar | backend/api.py:80-84 | one character goes through the three replacements to its substitute |
| Api.AdviceList | backend/api.py:133 | a list of advice becomes a JSON list of the same length |
| Api.ReasonList | backend/api.py:132 | a list of reasons becomes a JSON list of the same length |
| Api.PayloadTimestamp | backend/api.py:124 | the event's timestamp if truthy, else the current time |
| Api.PayloadPrecedence | backend/api.py:126-142 | a key is in the payload iff it is in the event, the processed reading or the risk fields, and later sources win |
| Api.PayloadFields | backend/api.py:129-134 | the payload's timestamp, risk level, score and disease are those of the assessment |
| Api.PayloadHasAlertKeys | backend/api.py:126-142 | the payload carries every field an alert copies |
| Api.PayloadHighIffLevel | backend/api.py:154 | the payload's risk level is "HIGH" iff the assessment's level is HIGH |
| Api.WeatherLookups | backend/risk_engine.py:211-216 | the scorer reads back from the processed reading the values it carried |
| Api.SkyLookups | backend/risk_engine.py:211-219 | the scorer reads back the rain, wind and sun values of the processed reading |
| Api.SoilLookups | backend/risk_engine.py:214-218 | the scorer reads back the soil values of the processed reading |
| Api.ScoredFeatures | backend/api.py:123 | a processed reading always parses as a feature snapshot, with its own values |
| Api.AlertPayloadFields | backend/api.py:156-167 | an alert copies its eight fields from the payload, adds the message and names the report file, and has no other keys |
| Api.CapKeepsNewest | backend/api.py:171-178 | after an append and the cap, the new item is last, nothing is dropped while there is room, and on overflow exactly the oldest goes |
| Api.AlertMessages | backend/api.py:275-276 | one alert message per stored alert, in order |
| Api.ReplayShape | backend/api.py:272-276 | the replay is `latest` first if non-empty, then the newest <= 5 alerts in order |
| Api.ReplaySent | backend/api.py:272-276 | the replay stops short exactly when a send fails within it |
| Api.SendsTo | backend/api.py:274-276 | one delivery to the socket per replayed message, in order |
| Api.SendsToSnoc | backend/api.py:274-276 | one more send adds one delivery |
| Api.Deliveries | backend/api.py:50-54 | a pass delivers at most one message per connection |
| Api.VisitStep | backend/api.py:50-54 | visiting one more socket adds its delivery or its stale entry |
| Api.StaleMembers | backend/api.py:49-54 | the stale list holds exactly the visited sockets whose send failed |
| Api.DeliveriesReachSurvivors | backend/api.py:50-54 | only sockets that did not fail are delivered to, and each of them is |
| Api.IterationOrder | backend/api.py:50 | iterating a set visits each member once |
| Api.PendingStep | backend/api.py:50 | moving one socket from pending to visited keeps the iteration's bookkeeping |
| Api.LiveState.constructor | backend/api.py:35-45 | a window-15 pipeline, a fresh engine, no connections, empty latest, history and alerts |
| Api.LiveState.SendAll | backend/api.py:49-54 | the send pass tries every connection and collects the failed ones |
| Api.LiveState.DiscardAll | backend/api.py:56-57 | exactly the stale sockets are discarded |
| Api.LiveState.Broadcast | backend/api.py:47-57 | every connection is tried, the survivors received the message, and exactly the failed ones are removed |
| Api.LiveState.Publish | backend/api.py:153-182 | report and alert iff HIGH; then `latest`, the capped history and the capped alerts; then the telemetry broadcast to every connection, before the alert broadcast to the connections that survived it; every surviving subscriber received each message; on a failed report write nothing is sent |
| Api.LiveState.HandleStreamEvent | backend/api.py:145-182 | no or empty processed data: nothing changes; otherwise the payload is `_risk_payload`, an alert is made iff the level is HIGH, the lists are capped at 400 and 100 keeping the newest, and the two broadcasts follow, reaching every surviving subscriber; the engine's level is the new assessment's whenever the features parsed, even if the handler then raised, and unchanged otherwise |
| Api.LiveState.GetState | backend/api.py:236-244 | the latest payload, exactly the newest 60 history items and the newest 20 alerts, reading nothing else |
| Api.LiveState.SendReplay | backend/api.py:272-276 | the replay loop delivers the replay up to the first failing send |
| Api.LiveState.Connect | backend/api.py:266-284 | the new socket is added, gets the replay up to a failure, and is discarded if a send failed |
| Api.LiveState.Disconnect | backend/api.py:280-281 | the socket is discarded and nothing else changes |
| VectorRag.SentenceTexts | backend/vector_rag.py:198 | the texts of the sentences, one per sentence, in order |
| VectorRag.WordsBetweenSum | backend/vector_rag.py:201 | the running word count over a range equals the sum over that slice |
| VectorRag.WordSumSnoc | backend/vector_rag.py:204 | appending a sentence adds its word count |
| VectorRag.Scan | backend/vector_rag.py:194-204 | the start of the open chunk never passes the current sentence |
| VectorRag.ScanStep | backend/vector_rag.py:195-204 | after one sentence the open chunk still starts no later than that sentence |
| VectorRag.ChunkTexts | backend/vector_rag.py:198 | one chunk text per run |
| VectorRag.ScanKeepsInvariant | backend/vector_rag.py:194-204 | the emitted runs are chained, each closed only because the next sentence overflowed it, and the open run starts where the last carry began |
| VectorRag.SplitShape | backend/vector_rag.py:194-208 | the chunks are contiguous runs inside the input, chained in order; the last ends at the last sentence; none iff no sentences; every closed run overflowed |
| VectorRag.SentenceCovered | backend/vector_rag.py:194-208 | every input sentence appears in some chunk |
| VectorRag.OverflowingInside | backend/vector_rag.py:196-198 | every closed run is a non-empty range of the input |
| VectorRag.EmitScan | backend/vector_rag.py:196-200 | an overflowing sentence closes the open chunk and the next starts ceil(m/2) sentences back |
| VectorRag.EmitKept | backend/vector_rag.py:200-204 | the carried part plus the next sentence is a contiguous run, and its word count is the recomputed sum plus that sentence |
| VectorRag.SplitStateEmit | backend/vector_rag.py:196-204 | emitting, carrying the last ceil(m/2) sentences and appending keeps the loop state |
| VectorRag.SplitStateKeep | backend/vector_rag.py:203-204 | appending a sentence that fits, or to an empty chunk, keeps the loop state |
| VectorRag.SplitStateDone | backend/vector_rag.py:206-208 | after the loop, the final append gives all chunk texts |
| VectorRag.AddSentence | backend/vector_rag.py:195-204 | one loop pass keeps the loop state: the running count equals the words of the open chunk |
| VectorRag.SplitText | backend/vector_rag.py:187-209 | the chunks are the texts of the scan's runs; a non-empty input yields at least one chunk and an empty one none |
| VectorRag.WordsBetweenMonotone | backend/vector_rag.py:201 | a longer range never has fewer words |
| VectorRag.ClosedFromStart | backend/vector_rag.py:196-198 | a chunk is emitted from the start only if the text holds more words than a chunk |
| VectorRag.FitsInOneChunk | backend/vector_rag.py:194-208 | sentences whose words fit in one chunk give exactly one chunk of all of them |
| VectorRag.InsertCounts | backend/vector_rag.py:121 | inserting one candidate adds exactly it |
| VectorRag.InsertBelow | backend/vector_rag.py:121 | inserting keeps an upper bound on the scores |
| VectorRag.InsertRanked | backend/vector_rag.py:121 | inserting into a ranked list keeps it ranked |
| VectorRag.RankByScoreRanks | backend/vector_rag.py:121 | the sort yields non-increasing scores and is a permutation of its input |
| VectorRag.InsertWithScore | backend/vector_rag.py:121 | insertion puts the new candidate ahead of every candidate with its score and leaves their order alone |
| VectorRag.RankByScoreStable | backend/vector_rag.py:121 | for every score, the candidates with that score appear in the sorted list in their input order (stability) |
| VectorRag.RankByScoreAllTied | backend/vector_rag.py:121 | when all candidates score the same, the sort leaves the list as it is |
| VectorRag.Excerpt | backend/vector_rag.py:126-131 | the kept text is a prefix of the chunk of at most 1500 characters, and all of it when shorter |
| VectorRag.AboveThresholdPasses | backend/vector_rag.py:124-131 | no more results than candidates, and each result scores > 0.1 |
| VectorRag.AboveThresholdAtLeast | backend/vector_rag.py:124-131 | a lower bound on the candidates' scores holds for the results |
| VectorRag.AboveThresholdRanked | backend/vector_rag.py:124-131 | ranked candidates give ranked results |
| VectorRag.AboveThresholdMembers | backend/vector_rag.py:124-131 | exactly the candidates above 0.1 appear, as excerpts |
| VectorRag.SelectBounds | backend/vector_rag.py:121-131 | at most `top_k` results, at most the candidates, each > 0.1, in non-increasing score order |
| VectorRag.SelectMembers | backend/vector_rag.py:121-131 | a result is an excerpt of a candidate above 0.1, and every top-k candidate above 0.1 is a result |
| VectorRag.Retrieve | backend/vector_rag.py:108-133 | the selection loop over the sorted top-k returns `Select` |
| VectorRag.Texts | backend/vector_rag.py:171-172 | `join` succeeds iff every item is a string, with their texts in order |
| VectorRag.Chars | backend/vector_rag.py:171-172 | a string's characters, each on its own |
| VectorRag.Sources | backend/vector_rag.py:182 | one file name per retrieved chunk, in order |
| VectorRag.FirstTwoOfStrings | backend/vector_rag.py:171-172 | the first <= 2 strings space-joined, or the default text for an empty list |
| VectorRag.FallbackDefaults | backend/vector_rag.py:165-185 | missing fields give "UNKNOWN", "N/A", "crop" and the two default texts |
| VectorRag.FallbackQuotes | backend/vector_rag.py:164-185 | for string lists, the answer quotes the first two reasons and actions, with method "rule-based" and confidence "medium" |

## Left out

- Floating point: sensor values and similarity scores are exact reals. 0.85, 1.15 and 0.22 are exact rationals, so Python's binary floats may differ from the model at exact integer boundaries of `int(...)`.
- EtlPipeline.Derive: the `round(..., 2)` of the rolling means and the `round(..., 3)` of the anomaly score are not modelled. The reading carries the unrounded values.
- VectorRag.Excerpt: the `round(score, 3)` of the similarity score is not modelled. The score is kept unrounded.
- Python.ToFloat: `float(str)` accepts only an optional sign and a decimal numeral. Exponents, whitespace, "inf" and "nan" are not modelled.
- Python.Render: `str()` of a non-integral float and of containers gives fixed placeholders. Python's shortest-repr algorithm and container repr are not modelled.
- Python.Lower: lower-casing covers ASCII letters only.
- Dictionary key order is not modelled. Payloads are maps, so the order of keys in the JSON is not represented.
- The iteration order of the connection set is left open (`Api.IterationOrder`). The contracts hold for every order.
- Persistence of sensor readings and processed features, database sessions and `get_statistics` are not modelled. The sink is an abstract call whose failure is a parameter (`persistFails`).
- The JSON file write of `persist_high_risk_report` is not modelled. Only the file name is computed, and whether the write raises is a parameter.
- The asyncio lock, tasks and cancellation are not modelled. `_handle_stream_event`, `get_state` and the replay run as atomic sequential steps. A cancellation takes effect only between two events.
- Real I/O is not modelled. This covers the Kafka, HTTP and file sources (`connect`, `read_events`, `close`), the websocket transport and `receive_text`, and the event-loop clock. The source is a finite sequence with a given ending; sends that fail and the time are parameters.
- Api.LiveState.Connect: the loop that receives text after the replay is not modelled. A disconnect later is the separate `Disconnect`.
- Sentence-transformer embeddings, cosine similarity, the database query of `retrieve`, the language-model call and `load_and_index_documents` are not modelled. Scores are given, and the fallback branch is taken as when no language-model reply came.
- VectorRag.SplitText: `re.split` on sentence ends and `len(s.split())` are not modelled. The input is the split sentences with their word counts.
- VectorRag.RankByScore: the in-place `list.sort(reverse=True)` is modelled as a stable insertion sort function on values. It gives the same order as Python's stable sort: non-increasing scores, a permutation of the input, and ties in input order (`VectorRag.RankByScoreStable`).
- The `chunk_overlap = 50` attribute is never read by `_split_text`, so it is not modelled.
- FastAPI routing, CORS, static mounting, startup and shutdown wiring, and `_build_stream_source` are not modelled.
- The Pathway library calls are not modelled: `process_stream`, `_init_pathway` and the streaming table example.
- `pathway_pipeline.py`, `rag_assistant.py` and the two example scripts are not part of this model.
