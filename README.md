# vibralyzer_v3 early-fault pipeline in Dafny

This project models the per-sensor core of the vibralyzer_v3 vibration
monitoring service: the L1 early-fault pipeline that `on_raw_data` in
runner.py drives for every raw MQTT message, and the gate through which it
escalates to the L2 rule-based diagnosis. The model has one Dafny module
per source file:

- `RingBuffer` (core/ring_buffer.py) keeps one bounded FIFO of samples per
  `asset:point` key.
- `Baseline` (early_fault/baseline.py) learns an EWMA mean and variance per
  `asset:point:feature` key, gated by a flag, and computes z-scores.
- `TrendDetection` (early_fault/trend_detector.py) holds the guard for a
  missing `acc_hf_rms_g`, a bounded history, a three-level classifier and
  the dominant feature.
- `Persistence` (early_fault/persistence.py) counts consecutive non-NORMAL
  levels.
- `Scoring` (early_fault/scoring.py) is the NORMAL / WATCH / WARNING / ALARM
  machine with its clear-counter and confidence.
- `Cooldown` (diagnostic_l2/cooldown.py) and `JobQueue`
  (diagnostic_l2/l2_queue.py) form the L2 throttle and the bounded job
  queue with its worker loop.
- `Diagnostics` (diagnostic_l2/diagnostic_engine.py) is the L2 rule
  evaluator.
- `MqttListener` and `MqttPublisher` cover topic parsing and topic
  building, including their round trip.
- `Recommendation` and `Interpretation` cover the analytics lookups.
- `Liveness` (utils/heartbeat.py) holds the service counters and the
  staleness rule.
- `L1Features` (core/l1_feature_pipeline.py) fixes which features the L1
  pipeline emits. Its numerics are parameters.
- `Runner` (runner.py) builds the pipeline (`main`) and runs one
  `on_raw_data` call.
- `Features` holds shared vocabulary: feature vectors as name/value
  sequences in insertion order, `dict.get`, the first-maximum choice of
  Python's `max(..., key=...)`, the bounded-deque suffix and the `:`-joined
  keys.

Components that the source updates in place are classes with `modifies`
frames. Each class carries ghost history (every sample received, every
vector recorded, every trend level seen, every job accepted and taken). Its
`Valid()` invariant ties the stored state to that history:

- a buffer is the last `window_size` samples received;
- a persistence counter is the trailing non-NORMAL run of the levels;
- the queue holds the accepted jobs not yet taken.

The early-fault stages of one ready window are also given as a function,
`Runner.Analysis`. The `Pipeline` methods are proved to realise it. Lemmas
about it show two things. First, the machine's memory for a sensor is always
`Scoring.Run` of that sensor's trend levels. Second, as wired, the pipeline
never leaves NORMAL.

### Early-fault FSM behaviour

`EarlyFaultFSM.update` (early_fault/scoring.py:36-74) behaves as follows.

- There are no critical overrides. The state comes from the trend level and
  the persistence alone (`Scoring.NextState`).
- A NORMAL trend clears straight to NORMAL once the clear-counter reaches
  `hysteresis_clear`, and the counter is not reset on clearing
  (`Scoring.ClearsToNormal`, `Scoring.NextState`).
- A non-normal trend that matches no rule leaves the clear-counter
  unchanged (`Scoring.NextClear`).
- Confidence is `min(1, persistence / max(alarm_persistence, 1))`
  (`Scoring.Confidence`).

### Other behaviour of the wired pipeline

- The trend levels use the fixed thresholds 0.05 and 0.12 on
  `|acc_hf_rms_g|`, with no derived flags.
- `L1FeaturePipeline.compute` emits only `rms`, `ptp`, `energy_low` and
  `energy_high`. So, as wired, both trend updates of every window take the
  guard:
  - the baseline learns on every window;
  - the trend histories never grow;
  - a NORMAL machine stays NORMAL with confidence 0
    (`Runner.WiredAnalysisIsNormal`, `L1Features.TrendOfL1IsGuarded`).

  For the same reason, provided `trend.feature_trend` returns, the bearing
  branch of `interpret` raises `KeyError` for `envelope_rms`
  (`Interpretation.BearingReadingFailsOnL1Features`). `TrendResult` itself
  has no `feature_trend` method, so with it that branch raises
  `AttributeError` first.
- The heartbeat is published only at the end of the ready-window path of
  `on_raw_data`, not on every message.
- The `asset:point` string keys of the ring buffer, the cooldown and the
  baseline can collide when a name contains `:`
  (`Features.JoinKeyCollision`, `Cooldown.SharedCooldownOnKeyCollision`).
  The trend detector, the persistence checker and the FSM key by tuples.

## Model

| member | source | states |
|---|---|---|
| Features.Abs | early_fault/trend_detector.py:35 | `abs` is non-negative and is `x` or `-x` |
| Features.Get | diagnostic_l2/diagnostic_engine.py:11-12 | `dict.get` returns nothing exactly when the name is not a key |
| Features.GetFound | diagnostic_l2/diagnostic_engine.py:11-12 | a value `get` finds is the one stored under the name, at the first position holding it |
| Features.ArgMax | early_fault/trend_detector.py:44-47 | `max(d, key=...)` picks a position of the non-empty dict |
| Features.ArgMaxIsFirstLargest | early_fault/trend_detector.py:44-47 | the picked position has a largest key and every earlier position a strictly smaller one (first maximum wins ties) |
| Features.LastN | core/ring_buffer.py:15 | a deque with `maxlen` n holds min(length, n) elements |
| Features.LastNOfLastN | core/ring_buffer.py:17 | extending the bounded deque is keeping the last n of everything received |
| Features.LastNSnoc | core/ring_buffer.py:15-17 | one bounded append drops the oldest element exactly when the deque is full |
| Features.JoinKey | core/ring_buffer.py:9-10 | `f"{asset}:{point}"` is the asset, a `:` and the point |
| Features.JoinKeyInjective | diagnostic_l2/cooldown.py:15-16 | joined keys determine asset and point when the asset holds no `:` |
| Features.JoinKeyCollision | core/ring_buffer.py:9-10 | two different sensors can share one joined key |
| RingBuffer.Extend | core/ring_buffer.py:17 | `deque.extend` leaves the last `maxlen` samples of old contents followed by the new ones |
| RingBuffer.RingBufferManager.constructor | core/ring_buffer.py:5-7 | no buffers; the window size is stored |
| RingBuffer.RingBufferManager.Append | core/ring_buffer.py:12-17 | only this key changes; its buffer is the last `window_size` samples received, or it is created empty and `KeyError` is reported without `acceleration` |
| RingBuffer.RingBufferManager.IsWindowReady | core/ring_buffer.py:19-21 | ready iff the key has a buffer of exactly `window_size` samples, iff at least `window_size` samples were received |
| RingBuffer.RingBufferManager.GetWindow | core/ring_buffer.py:23-25 | the window is the last `window_size` samples received, oldest first, at most `window_size` long |
| Baseline.StatKeyInjective | early_fault/baseline.py:19-20 | for one sensor, different feature names give different keys |
| Baseline.EwmaVarianceNonNegative | early_fault/baseline.py:41-43 | the variance step keeps a non-negative variance non-negative for alpha in [0, 1] |
| Baseline.ObserveStep | early_fault/baseline.py:32-43 | one learned observation: count + 1; first one sets mean = value, variance = 0; later ones apply the EWMA steps |
| Baseline.ObserveKeepsInvariant | early_fault/baseline.py:32-43 | the three dicts keep the same keys, and variances stay non-negative for alpha in [0, 1] |
| Baseline.ObserveLocal | early_fault/baseline.py:32-43 | the effect on a key depends only on that key's entry |
| Baseline.ObserveOther | early_fault/baseline.py:32-43 | every other key's entry is unchanged |
| Baseline.ObserveAllKeepsInvariant | early_fault/baseline.py:26-43 | a whole learned vector keeps both invariants |
| Baseline.ObserveAllElsewhere | early_fault/baseline.py:26-43 | keys of other features are untouched by `update` |
| Baseline.ObserveAllAt | early_fault/baseline.py:26-43 | each feature's key sees exactly its own observation |
| Baseline.LearnedFeature | early_fault/baseline.py:26-43 | per feature of an allowed `update`: count + 1, first mean = value and variance 0, later mean + alpha·delta and (1 - alpha)(var + alpha·delta²) |
| Baseline.Normalized | early_fault/baseline.py:45-62 | `normalize` returns exactly the input's feature names, in order |
| Baseline.NormalizedValues | early_fault/baseline.py:45-62 | 0.0 below `min_samples`; else (value - mean) / sqrt(var), or / 1e-6 when var <= 0 |
| Baseline.ColdStartNormalizesToZero | early_fault/baseline.py:32-57 | right after a feature's first learned observation (min_samples > 1) it normalises to 0.0 |
| Baseline.AdaptiveBaseline.constructor | early_fault/baseline.py:11-17 | empty statistics, alpha and min_samples stored |
| Baseline.AdaptiveBaseline.Update | early_fault/baseline.py:22-43 | with the flag off nothing changes; otherwise every feature is learned in order; the invariant is kept |
| Baseline.AdaptiveBaseline.Learn | early_fault/baseline.py:32-43 | one loop pass is one observation of the key |
| Baseline.AdaptiveBaseline.Normalize | early_fault/baseline.py:45-62 | returns the normalised vector and changes no state |
| TrendDetection.Classify | early_fault/trend_detector.py:37-42 | NORMAL iff score < 0.05, WATCH iff 0.05 <= score < 0.12, WARNING iff score >= 0.12 |
| TrendDetection.ClassifyMonotone | early_fault/trend_detector.py:37-42 | a larger score never gives a lower level |
| TrendDetection.Evaluate | early_fault/trend_detector.py:13-53 | without `acc_hf_rms_g`: NORMAL, 0.0, no dominant feature; otherwise score = abs(acc_hf_rms_g), its level and some dominant feature |
| TrendDetection.DominantIsLargest | early_fault/trend_detector.py:44-47 | the dominant feature has a largest absolute value, the first such in insertion order |
| TrendDetection.PushKeepsMostRecent | early_fault/trend_detector.py:26-30 | append-then-pop keeps the most recent `history_size` vectors |
| TrendDetection.TrendDetector.constructor | early_fault/trend_detector.py:9-11 | empty history, size stored |
| TrendDetection.TrendDetector.Update | early_fault/trend_detector.py:13-53 | the result is `Evaluate`; the guard leaves the history alone; otherwise only this key's history is pushed |
| TrendDetection.TrendDetector.Remember | early_fault/trend_detector.py:26-30 | the key's history holds the last `history_size` vectors received |
| Persistence.TrailingRun | early_fault/persistence.py:8-11 | the run is no longer than the levels seen |
| Persistence.TrailingRunIsMaximal | early_fault/persistence.py:8-11 | the trailing run is all non-NORMAL and preceded by a NORMAL level, if any |
| Persistence.PersistenceChecker.constructor | early_fault/persistence.py:2-3 | no counters |
| Persistence.PersistenceChecker.Update | early_fault/persistence.py:5-13 | non-NORMAL adds one, NORMAL resets to 0, other keys unchanged; the returned counter is the trailing non-NORMAL run |
| Scoring.NextState | early_fault/scoring.py:39-61 | NORMAL trend clears to NORMAL iff clear + 1 >= hysteresis_clear, else holds; ALARM / WARNING / WATCH by persistence; below watch the state holds |
| Scoring.Confidence | early_fault/scoring.py:68 | in [0, 1]; 1 iff persistence >= max(alarm, 1); else persistence / max(alarm, 1) |
| Scoring.ConfidenceMonotone | early_fault/scoring.py:68 | more persistence never lowers confidence |
| Scoring.Run | early_fault/scoring.py:36-63 | the clear-counter a sequence of levels leads to is never negative |
| Scoring.RunNormals | early_fault/scoring.py:44-46 | each NORMAL trend adds one to the clear-counter |
| Scoring.ClearsToNormal | early_fault/scoring.py:44-49 | `hysteresis_clear` NORMAL trends in a row clear any state straight to NORMAL |
| Scoring.HoldsDuringHysteresis | early_fault/scoring.py:44-49 | after a rule fired, fewer than `hysteresis_clear` NORMAL trends keep the state |
| Scoring.AlarmAfterPersistentRun | early_fault/scoring.py:51-53 | a trailing non-NORMAL run of `alarm_persistence` gives ALARM with clear-counter 0 |
| Scoring.EarlyFaultFSM.constructor | early_fault/scoring.py:21-34 | thresholds stored, no state, no clear-counter |
| Scoring.EarlyFaultFSM.Update | early_fault/scoring.py:36-74 | the key's memory takes one `Step`; the clear-counter is written only on NORMAL or a fired rule; the stored state is returned with the confidence and the trend's dominant feature |
| Cooldown.L2CooldownManager.constructor | diagnostic_l2/cooldown.py:10-13 | both cooldowns stored, no triggers |
| Cooldown.L2CooldownManager.CooldownForState | diagnostic_l2/cooldown.py:35-40 | a cooldown exactly for WARNING and ALARM, each its own |
| Cooldown.L2CooldownManager.CanTrigger | diagnostic_l2/cooldown.py:18-30 | never for other states; always for a key never triggered; else iff the state's cooldown elapsed |
| Cooldown.L2CooldownManager.MarkTriggered | diagnostic_l2/cooldown.py:32-33 | one time per key, shared by both severities; other keys unchanged |
| Cooldown.ThrottledUntilCooldown | diagnostic_l2/cooldown.py:18-30 | after a trigger at t, the key triggers again iff now - t reaches the state's cooldown |
| Cooldown.CanTriggerLater | diagnostic_l2/cooldown.py:26-30 | once allowed, triggering stays allowed as time passes |
| Cooldown.SharedCooldownOnKeyCollision | diagnostic_l2/cooldown.py:15-16 | a trigger of one sensor throttles another with the same joined key |
| JobQueue.L2JobQueue.constructor | diagnostic_l2/l2_queue.py:9-12 | empty queue, no worker, stop flag clear |
| JobQueue.L2JobQueue.Start | diagnostic_l2/l2_queue.py:14-23 | installs the worker only when none is set (idempotent) |
| JobQueue.L2JobQueue.Stop | diagnostic_l2/l2_queue.py:25-26 | sets the stop flag, nothing else |
| JobQueue.L2JobQueue.Enqueue | diagnostic_l2/l2_queue.py:28-34 | true iff there is room, and the job is then at the tail; a full queue is unchanged; size never exceeds `maxsize` |
| JobQueue.L2JobQueue.Pass | diagnostic_l2/l2_queue.py:36-48 | stop flag ends the loop; empty queue times out; else the oldest job is taken, run, and marked done even when it raises |
| JobQueue.L2JobQueue.Run | diagnostic_l2/l2_queue.py:36-48 | the jobs handled are the oldest waiting ones, in FIFO order; none after stop; a failing job does not end the loop |
| Diagnostics.ClassifyFault | diagnostic_l2/diagnostic_engine.py:37-47 | BEARING_OUTER_RACE iff BPFI fired; MECHANICAL_SEVERITY_HIGH iff only zone C; None iff neither |
| Diagnostics.RuleConfidence | diagnostic_l2/diagnostic_engine.py:49-57 | in [0, 1]; 0 iff no rule; 0.8 for one rule; 1 for two |
| Diagnostics.RuleConfidenceMonotone | diagnostic_l2/diagnostic_engine.py:49-57 | more rules never lower the confidence |
| Diagnostics.DominantFeature | diagnostic_l2/diagnostic_engine.py:59-66 | None exactly when there are no metrics |
| Diagnostics.DominantIsLargest | diagnostic_l2/diagnostic_engine.py:59-66 | the dominant metric has a largest value, the first such in insertion order |
| Diagnostics.DominantOfTwo | diagnostic_l2/diagnostic_engine.py:59-66 | of two metrics the second wins only when strictly larger |
| Diagnostics.DistinctRuleFeatures | diagnostic_l2/diagnostic_engine.py:11-12 | the two rules read different features |
| Diagnostics.TriggeredRules | diagnostic_l2/diagnostic_engine.py:15-21 | each rule is listed iff it fires (present and strictly above 7.1 / 0.35), zone C first |
| Diagnostics.RulesInOrder | diagnostic_l2/diagnostic_engine.py:15-21 | the list built from the two outcomes holds each rule iff it fired, in that order |
| Diagnostics.TriggeredMetrics | diagnostic_l2/diagnostic_engine.py:15-21 | one metric per listed rule: that rule's feature with the value the features hold for it |
| Diagnostics.MetricsInOrder | diagnostic_l2/diagnostic_engine.py:15-21 | the metrics list pairs with the rules list entry by entry |
| Diagnostics.Run | diagnostic_l2/diagnostic_engine.py:5-31 | a snapshot without "features" gives no rule, no fault, confidence 0, no dominant feature |
| Diagnostics.RunClassifies | diagnostic_l2/diagnostic_engine.py:15-47 | the fault type follows the rules that fire; confidence 0 iff none fires |
| Diagnostics.BothRulesRecorded | diagnostic_l2/diagnostic_engine.py:15-21 | with both rules firing, both are listed and both metrics recorded, zone C first |
| Diagnostics.BothRulesFire | diagnostic_l2/diagnostic_engine.py:5-66 | both rules: bearing fault, confidence 1, velocity dominant iff envelope <= velocity |
| Liveness.Truncate | utils/heartbeat.py:59 | `int(x)` truncates toward zero |
| Liveness.Heartbeat.constructor | utils/heartbeat.py:6-22 | all counters 0 and all last-event times None |
| Liveness.Heartbeat.MarkRawRx | utils/heartbeat.py:25-27 | only its own counter + 1 and its time = now |
| Liveness.Heartbeat.MarkWindowReady | utils/heartbeat.py:29-31 | only its own counter + 1 and its time = now |
| Liveness.Heartbeat.MarkL1Exec | utils/heartbeat.py:33-35 | only its own counter + 1 and its time = now |
| Liveness.Heartbeat.MarkEarlyFaultExec | utils/heartbeat.py:37-39 | only its own counter + 1 and its time = now |
| Liveness.Heartbeat.MarkL2Exec | utils/heartbeat.py:41-43 | only its own counter + 1 and its time = now |
| Liveness.Heartbeat.Status | utils/heartbeat.py:50-53 | STALE iff raw data was seen and more than 10 s ago, else OK |
| Liveness.SnapshotReportsCounters | utils/heartbeat.py:46-74 | the snapshot reports the status, whole seconds of uptime, and every counter and time as stored |
| Liveness.StaleStaysStale | utils/heartbeat.py:50-53 | STALE stays STALE as time passes without raw data |
| Liveness.NeverStaleWithoutData | utils/heartbeat.py:50-51 | without raw data the status is OK |
| MqttListener.Split | raw_ingest/mqtt_listener.py:52 | `str.split` always returns at least one segment |
| MqttListener.SplitSegments | raw_ingest/mqtt_listener.py:52 | no segment holds the separator; one more segment than separators |
| MqttListener.JoinSplit | raw_ingest/mqtt_listener.py:52 | joining the segments gives the string back |
| MqttListener.SplitWithoutSep | raw_ingest/mqtt_listener.py:52 | a separator-free string is one segment |
| MqttListener.SplitAppend | raw_ingest/mqtt_listener.py:52 | splitting at a separator concatenates both sides' segments |
| MqttListener.SplitJoin | raw_ingest/mqtt_listener.py:52 | splitting the join of separator-free segments gives them back |
| MqttListener.ParseTopic | raw_ingest/mqtt_listener.py:47-56 | `ValueError("Invalid topic: ...")` iff fewer than three `/` |
| MqttListener.ParseTopicRoundTrip | raw_ingest/mqtt_listener.py:47-56 | `p0/p1/asset/point` parses to (asset, point) whatever p0 and p1 are |
| MqttListener.ParseTopicIgnoresTail | raw_ingest/mqtt_listener.py:52-56 | segments after the fourth do not change the result |
| MqttPublisher.PublishedTopicParses | publish/mqtt_publisher.py:54 | every per-sensor topic built parses back to its asset and point when they hold no `/` |
| MqttPublisher.SlashInAssetMisparses | publish/mqtt_publisher.py:54 | with `/` in the asset the topic parses to other names |
| MqttPublisher.Publisher.constructor | publish/mqtt_publisher.py:15-21 | nothing published yet |
| MqttPublisher.Publisher.Publish | publish/mqtt_publisher.py:32-44 | the message is handed over and the call always returns |
| MqttPublisher.Publisher.PublishEarlyFault | publish/mqtt_publisher.py:49-55 | one message on `vibration/early_fault/<asset>/<point>` |
| MqttPublisher.Publisher.PublishL2Result | publish/mqtt_publisher.py:60-66 | one message on `vibration/l2_result/<asset>/<point>` |
| MqttPublisher.Publisher.PublishScada | publish/mqtt_publisher.py:71-83 | one message on `vibration/scada/<asset>/<point>` |
| MqttPublisher.Publisher.PublishHealthAlarm | publish/mqtt_publisher.py:88-94 | one message on `vibration/health_alarm/<asset>/<point>` |
| MqttPublisher.Publisher.PublishRecommendation | publish/mqtt_publisher.py:99-105 | one message on `vibration/recommendation/<asset>/<point>` |
| MqttPublisher.Publisher.PublishHeartbeat | publish/mqtt_publisher.py:110-115 | one message on the fixed `vibration/heartbeat` |
| MqttPublisher.Publisher.PublishJson | publish/mqtt_publisher.py:120-129 | the topic is passed through unchanged |
| Recommendation.Merged | analytics/recommendation/recommendation_engine.py:48-61 | keys are the union; the override wins except for "text", where both dicts merge with the override's sentences winning |
| Recommendation.Merge | analytics/recommendation/recommendation_engine.py:48-61 | the loop over the override computes `Merged`, changing neither argument |
| Recommendation.MergeIdentities | analytics/recommendation/recommendation_engine.py:48-61 | an empty block on either side, or a block merged onto itself, changes nothing |
| Recommendation.MergeAssociative | analytics/recommendation/recommendation_engine.py:48-61 | layering two overrides one after the other is layering their merge |
| Recommendation.MergeOtherAssociative | analytics/recommendation/recommendation_engine.py:54-60 | a non-text entry of a double merge does not depend on the grouping |
| Recommendation.MergeTextAssociative | analytics/recommendation/recommendation_engine.py:55-58 | the "text" entry of a double merge does not depend on the grouping |
| Recommendation.PickLang | analytics/recommendation/recommendation_engine.py:44-46 | the non-empty sentence in `lang`, else the English one, else ""; always one of the sentences or "" |
| Recommendation.Chosen | analytics/recommendation/recommendation_engine.py:27-33 | the chosen block's "text" entry is always a dict |
| Recommendation.Recommend | analytics/recommendation/recommendation_engine.py:16-42 | fault type and state echoed; level, priority and action code read from the chosen block (None when absent); text picked by language |
| Recommendation.FaultBlockOverridesDefaults | analytics/recommendation/recommendation_engine.py:27-33 | an entry of the fault's block wins; a missing one falls back to the state default |
| Interpretation.Require | analytics/interpretation/interpretation_engine.py:22 | `l1_features[name]` succeeds iff the name is present, with its value; else `KeyError` |
| Interpretation.Interpret | analytics/interpretation/interpretation_engine.py:4-71 | bearing branch: supporting features exactly energy_high and envelope_rms from the L1 features, or `KeyError`; otherwise no supporting features and the general entry; confidence, phi, state, FSM state and dominant feature echoed |
| Interpretation.BearingReadingFailsOnL1Features | analytics/interpretation/interpretation_engine.py:29 | on the L1 pipeline's features, provided `trend.feature_trend` returns, the bearing branch raises `KeyError` for `envelope_rms` |
| L1Features.Compute | core/l1_feature_pipeline.py:9-22 | exactly `rms`, `ptp`, `energy_low` (10-100 Hz), `energy_high` (1000-5000 Hz), in that order |
| L1Features.NoTrendOrEnvelopeFeature | core/l1_feature_pipeline.py:12-20 | neither `acc_hf_rms_g` nor `envelope_rms` is emitted |
| L1Features.TrendOfL1IsGuarded | early_fault/trend_detector.py:19-24 | the trend of the L1 features always takes the guard |
| Runner.AnalysisFollowsLevels | runner.py:129-142 | after each window every sensor's machine memory is `Scoring.Run` of its normalised-space trend levels |
| Runner.WiredAnalysisIsNormal | runner.py:96-142 | as wired, the baseline learns every window, the histories stay, and a NORMAL machine stays NORMAL with confidence 0 and no dominant feature |
| Runner.Pipeline.constructor | runner.py:27-75 | every component built from the configuration with its defaults (interval 10, alpha 0.01, min_samples 100, queue of 10, history 10), the worker started, the machine following its levels |
| Runner.Pipeline.OnRawData | runner.py:80-176 | not ready: only the append and the raw-rx mark; ready: the early-fault stages as `Analysis`, one early-fault publish, the L2 gate, the marks and the heartbeat |
| Runner.Pipeline.ProcessWindow | runner.py:93-176 | the stages of a ready window followed by their report |
| Runner.Pipeline.Analyse | runner.py:96-142 | the early-fault stages realise `Analysis`, with the l1 and early-fault marks |
| Runner.Pipeline.Learn | runner.py:96-126 | the raw-space trend gates learning, normalisation follows learning, and both trends record their vector |
| Runner.Pipeline.Score | runner.py:129-142 | persistence sees the normalised-space trend and the machine steps with it |
| Runner.Pipeline.Report | runner.py:145-176 | one early-fault publish first, then the L2 gate, then the heartbeat |
| Runner.Pipeline.Escalate | runner.py:157-170 | a job is enqueued iff L2 is enabled, the state is WARNING or ALARM, the cooldown allows it and the queue has room; cooldown and l2 mark only then |
| Runner.Pipeline.PublishHeartbeatIfDue | runner.py:173-176 | a heartbeat is published iff `interval` seconds passed, and the time is then reset |

## Left out

- core/signal_utils.py is not part of this model. The numerics of the L1
  pipeline (RMS, peak-to-peak, band-pass energy) are function parameters,
  and so is `math.sqrt`. `sqrt` is applied only to positive variances.
  Feature values are exact reals, not IEEE floats.
- Clocks: every `time.time()` reading is a `now` parameter. One call of
  `on_raw_data` uses a single `now`, where the source reads the clock
  several times.
- The ISO `"timestamp"` string of the heartbeat snapshot is not modelled,
  and neither are the `reasoning` strings of `interpret`.
- MQTT transport is not modelled:
  - `start_mqtt_listener`, `on_connect`, `on_message` with its JSON
    decoding, and the paho client;
  - `MQTTPublisher.__init__` and `client.publish`, which are modelled as a
    log of the messages handed to the client.
- Of a raw payload, only `acceleration` is read.
- Threading in l2_queue.py is not modelled: the daemon thread, the stop
  `Event` and the blocking `get(timeout=1)`. The worker loop runs as
  sequential passes, and per-key locking across concurrent messages is not
  modelled.
- diagnostic_l2/worker.py is not part of this model. The L2 worker is a
  function seen only through whether it raises.
- The `publisher` reference in the L2 job is left out.
- config/config_loader.py is not part of this model. It does YAML reading
  and caching; the configuration is a `Config` value. The YAML read in
  `RecommendationEngine.__init__` is likewise replaced by a given `Mapping`.
- `trend.feature_trend`, used by `interpret`, is an abstract function; no
  trend class defines it.
- The `rpm` of the L1 pipeline is left out; the pipeline never uses it.
- tools/ is not part of this model: test harnesses with random signals and
  a live broker.
- Baseline.AdaptiveBaseline.Normalize: the source reads `_var[key]` and
  `_mean[key]` through `defaultdict`, which inserts 0.0 entries for a key
  read with `min_samples <= 0`. The model reads the same values without
  the insertion.
- RingBuffer.RingBufferManager.constructor: the window size is a `nat`.
  The source accepts a negative `window_size`, and the first `append` under
  a key then raises `ValueError` from `deque(maxlen=...)`
  (core/ring_buffer.py:15). That configuration error is excluded by the type
  and not modelled.
- Recommendation.Merged, Recommendation.Merge, Recommendation.Recommend:
  the mapping's "text" entries are required to be dicts (`WellFormed`,
  `WellFormedMapping`). A non-dict "text" makes `_merge` or `_pick_lang`
  raise (recommendation_engine.py:44-46, 55-58). That configuration error is
  excluded by the requires and not modelled.
- Default arguments are not modelled: `EarlyFaultFSM(watch_persistence=3,
  alarm_persistence=5, hysteresis_clear=3, ...)`, `RingBufferManager(window_size=4096)`,
  `TrendDetector(history_size=10)` and `recommend(..., lang="en")`. The
  model's members take these values as parameters. runner.py passes
  explicit values to the FSM and the ring buffers and never calls
  `recommend`. It builds `TrendDetector()` with the default, and
  `Runner.Pipeline.constructor` passes that default, 10, explicitly.
- RingBuffer.RingBufferManager.GetWindow: the `KeyError` for a key never
  appended to is a precondition. The runner calls it only on a ready key.
