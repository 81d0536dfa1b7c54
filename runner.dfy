/** The service wiring (runner.py): `main` builds every component from the
    configuration, and `on_raw_data`, called once per raw MQTT message, drives
    them in a fixed order: buffer, L1 features, raw-space trend, gated
    baseline learning, normalisation, normalised-space trend, persistence,
    early-fault state, one early-fault publish, the L2 trigger and the
    periodic heartbeat. Every `time.time()` reading of one call is `now`. */
module Runner {
  import opened Features
  import opened RingBuffer
  import opened Baseline
  import opened TrendDetection
  import opened Persistence
  import Scoring
  import Cooldown
  import JobQueue
  import MqttPublisher
  import Liveness
  import L1Features

  /** The configuration keys `main` reads; those read with `.get` and a
      default are optional. */
  datatype Config = Config(
    heartbeatIntervalSec: Option<real>,
    baselineAlpha: Option<real>,
    baselineMinSamples: Option<int>,
    cooldownWarningSec: int,
    cooldownAlarmSec: int,
    l2Enable: bool,
    windowSize: nat,
    samplingRate: real,
    rpmDefault: real,
    watchPersistence: int,
    warningPersistence: int,
    alarmPersistence: int,
    hysteresisClear: int)

  function OrElse<T>(o: Option<T>, default: T): T {
    if o.Some? then o.value else default
  }

  /** The job handed to the L2 worker (the publisher reference it also
      carries is left out). */
  datatype L2Job = L2Job(asset: string, point: string, window: seq<real>)

  /** The early-fault message body. */
  function EarlyFaultPayload(r: Scoring.EarlyFaultResult): Json {
    JObj([("state", JStr(Scoring.StateValue(r.state))),
          ("confidence", JNum(r.confidence)),
          ("dominant_feature", if r.dominantFeature.Some? then JStr(r.dominantFeature.value) else JNull),
          ("timestamp", JNum(r.timestamp))])
  }

  /** The trend detector's record after an `update` with `fv`: the guard
      leaves it alone. */
  function Recorded(m: map<(string, string), seq<FeatureVec>>, key: (string, string), fv: FeatureVec)
    : map<(string, string), seq<FeatureVec>>
  {
    if ScoreFeature in Names(fv) then m[key := Entries(m, key) + [fv]] else m
  }

  /** The constants the early-fault stages run with. */
  datatype Settings = Settings(
    extract: seq<real> -> FeatureVec, alpha: real, minSamples: int, sqrt: Positive -> Positive,
    thresholds: Scoring.Thresholds)

  /** The state of the early-fault stages: the baseline statistics, the
      vectors the trend detector recorded, the levels persistence saw, and
      the early-fault machine's two maps. */
  datatype Stages = Stages(
    stats: Stats,
    seen: map<(string, string), seq<FeatureVec>>,
    levels: map<(string, string), seq<TrendLevel>>,
    fsmState: map<(string, string), Scoring.EarlyFaultState>,
    fsmClear: map<(string, string), int>)

  /** The early-fault machine's memory of `key`. */
  function MemoryOf(st: Stages, key: (string, string)): Scoring.KeyMemory {
    Scoring.KeyMemory(Scoring.StateOf(st.fsmState, key), Scoring.ClearOf(st.fsmClear, key))
  }

  /** The learning half of the early-fault stages: the raw-space trend of the
      L1 features gates baseline learning, the features are normalised
      against the updated baseline, and the normalised-space trend is taken.
      Both trend updates record their vector unless the guard fires. */
  function LearnStage(s: Settings, stats: Stats, seen: map<(string, string), seq<FeatureVec>>,
                      asset: string, point: string, window: seq<real>)
    : (Stats, map<(string, string), seq<FeatureVec>>, TrendResult)
  {
    var key := (asset, point);
    var features := s.extract(window);
    var learned := if Evaluate(features).level == Normal then ObserveAll(stats, asset, point, features, s.alpha)
                   else stats;
    var normalized := Normalized(learned, s.minSamples, asset, point, features, s.sqrt);
    (learned, Recorded(Recorded(seen, key, features), key, normalized), Evaluate(normalized))
  }

  /** The scoring half: the trend level extends the key's persistence levels,
      and the machine steps with the resulting persistence. */
  function ScoreStage(th: Scoring.Thresholds, st: Stages, key: (string, string), trend: TrendResult, now: real)
    : (Stages, Scoring.EarlyFaultResult)
  {
    var levels := LevelsOf(st.levels, key) + [trend.level];
    var persistence := TrailingRun(levels);
    var memory := Scoring.Step(th, MemoryOf(st, key), trend.level, persistence);
    var clear := if trend.level == Normal || Scoring.Escalates(th, persistence)
                 then st.fsmClear[key := memory.clear] else st.fsmClear;
    (st.(levels := st.levels[key := levels], fsmState := st.fsmState[key := memory.state], fsmClear := clear),
     Scoring.EarlyFaultResult(memory.state, Scoring.Confidence(persistence, th.alarm), trend.dominantFeature, now))
  }

  /** The stages of `on_raw_data` from the L1 features to the early-fault
      result, for one ready window. */
  function Analysis(s: Settings, st: Stages, asset: string, point: string, window: seq<real>, now: real)
    : (Stages, Scoring.EarlyFaultResult)
  {
    var (stats, seen, trend) := LearnStage(s, st.stats, st.seen, asset, point, window);
    ScoreStage(s.thresholds, st.(stats := stats, seen := seen), (asset, point), trend, now)
  }

  /** Every key's machine memory is the one its persistence levels lead to. */
  ghost predicate FsmFollowsLevels(th: Scoring.Thresholds, st: Stages) {
    forall key :: MemoryOf(st, key) == Scoring.Run(th, LevelsOf(st.levels, key))
  }

  /** Per sensor, the early-fault machine is a function of the normalised-space
      trend levels seen so far, so the hysteresis, clearing and escalation
      lemmas about `Scoring.Run` hold of the running pipeline. */
  lemma AnalysisFollowsLevels(s: Settings, st: Stages, asset: string, point: string, window: seq<real>, now: real)
    requires FsmFollowsLevels(s.thresholds, st)
    ensures FsmFollowsLevels(s.thresholds, Analysis(s, st, asset, point, window, now).0)
  {
    var after := Analysis(s, st, asset, point, window, now).0;
    forall key
      ensures MemoryOf(after, key) == Scoring.Run(s.thresholds, LevelsOf(after.levels, key))
    {
      if key == (asset, point) {
        var levels := LevelsOf(after.levels, key);
        assert levels[..|levels| - 1] == LevelsOf(st.levels, key);
      } else {
        assert MemoryOf(after, key) == MemoryOf(st, key);
      }
    }
  }

  /** A feature extractor that never emits the trend detector's score feature. */
  ghost predicate NeverScored(extract: seq<real> -> FeatureVec) {
    forall w :: ScoreFeature !in Names(extract(w))
  }

  /** Every sensor the early-fault machine knows is NORMAL. */
  predicate AllNormal(fsmState: map<(string, string), Scoring.EarlyFaultState>) {
    forall k :: k in fsmState ==> fsmState[k] == Scoring.Normal
  }

  /** As wired, with the L1 pipeline's four features: both trends take the
      guard, the baseline learns every window, and a machine whose sensors are
      all NORMAL stays so, with a NORMAL result that names no dominant
      feature and has confidence 0. */
  lemma WiredAnalysisIsNormal(s: Settings, st: Stages, asset: string, point: string, window: seq<real>, now: real)
    requires NeverScored(s.extract) && AllNormal(st.fsmState)
    ensures var (after, result) := Analysis(s, st, asset, point, window, now);
      && AllNormal(after.fsmState)
      && result.state == Scoring.Normal && result.dominantFeature == None && result.confidence == 0.0
      && after.stats == ObserveAll(st.stats, asset, point, s.extract(window), s.alpha)
      && after.seen == st.seen
  {
    var key := (asset, point);
    var features := s.extract(window);
    assert Evaluate(features) == MissingSignal by {
      assert ScoreFeature !in Names(features);
    }
    var stats := ObserveAll(st.stats, asset, point, features, s.alpha);
    var normalized := Normalized(stats, s.minSamples, asset, point, features, s.sqrt);
    assert Evaluate(normalized) == MissingSignal by {
      assert Names(normalized) == Names(features);
    }
    var levels := LevelsOf(st.levels, key) + [Normal];
    assert TrailingRun(levels) == 0;
    var memory := Scoring.Step(s.thresholds, MemoryOf(st, key), Normal, 0);
    assert memory.state == Scoring.Normal;
    var r := Analysis(s, st, asset, point, window, now);
    assert r.0.fsmState == st.fsmState[key := memory.state];
  }

  class Pipeline {
    const heartbeat: Liveness.Heartbeat
    const heartbeatInterval: real
    const baseline: AdaptiveBaseline
    const cooldown: Cooldown.L2CooldownManager
    const l2Queue: JobQueue.L2JobQueue<L2Job>
    const ringBuffers: RingBufferManager
    /** `l1_pipeline.compute`. */
    const extract: seq<real> -> FeatureVec
    const trendDetector: TrendDetector
    const persistenceChecker: PersistenceChecker
    const fsm: Scoring.EarlyFaultFSM
    const publisher: MqttPublisher.Publisher
    const l2Enable: bool
    /** `math.sqrt`, as `normalize` uses it: on positive variances only. */
    const sqrt: Positive -> Positive
    /** The `nonlocal last_heartbeat_ts` of `on_raw_data`. */
    var lastHeartbeatTs: real

    function Setup(): Settings {
      Settings(extract, baseline.alpha, baseline.minSamples, sqrt, fsm.Config())
    }

    ghost function Core(): Stages
      reads baseline, trendDetector, persistenceChecker, fsm
    {
      Stages(baseline.State(), trendDetector.seen, persistenceChecker.levels, fsm.state, fsm.clearCounter)
    }

    /** Every component keeps its invariant. */
    ghost predicate Valid()
      reads ringBuffers, baseline, trendDetector, persistenceChecker, fsm, l2Queue
    {
      StagesValid() && l2Queue.Valid()
    }

    /** The part of `Valid` about the buffers and the early-fault stages. */
    ghost predicate StagesValid()
      reads ringBuffers, baseline, trendDetector, persistenceChecker, fsm
    {
      && ringBuffers.Valid() && baseline.Valid() && trendDetector.Valid()
      && persistenceChecker.Valid()
    }

    /** `main`'s construction, at time `now`; `workerRaises` is the L2 worker
        function, seen through whether it raises on a job. */
    constructor (config: Config, numerics: L1Features.Numerics, sqrt: Positive -> Positive,
                 workerRaises: L2Job -> bool, now: real)
      ensures Valid() && NeverScored(extract) && AllNormal(fsm.state)
      ensures FsmFollowsLevels(fsm.Config(), Core())
      ensures fresh(heartbeat) && fresh(baseline) && fresh(cooldown) && fresh(l2Queue) && fresh(ringBuffers)
      ensures fresh(trendDetector) && fresh(persistenceChecker) && fresh(fsm) && fresh(publisher)
      ensures lastHeartbeatTs == now && heartbeatInterval == OrElse(config.heartbeatIntervalSec, 10.0)
      ensures baseline.alpha == OrElse(config.baselineAlpha, 0.01)
      ensures baseline.minSamples == OrElse(config.baselineMinSamples, 100)
      ensures l2Queue.maxsize == 10 && l2Queue.worker == Some(workerRaises) && l2Queue.items == []
      ensures ringBuffers.windowSize == config.windowSize && trendDetector.historySize == 10
      ensures fsm.Config() == Scoring.Thresholds(config.watchPersistence, config.warningPersistence,
                                                 config.alarmPersistence, config.hysteresisClear)
      ensures forall w :: extract(w) == L1Features.Compute(numerics, config.samplingRate, w)
      ensures l2Enable == config.l2Enable && publisher.log == []
    {
      heartbeat := new Liveness.Heartbeat("vibralyzer", now);
      lastHeartbeatTs := now;
      heartbeatInterval := OrElse(config.heartbeatIntervalSec, 10.0);
      baseline := new AdaptiveBaseline(OrElse(config.baselineAlpha, 0.01), OrElse(config.baselineMinSamples, 100));
      cooldown := new Cooldown.L2CooldownManager(config.cooldownWarningSec, config.cooldownAlarmSec);
      l2Queue := new JobQueue.L2JobQueue(10);
      ringBuffers := new RingBufferManager(config.windowSize);
      extract := w => L1Features.Compute(numerics, config.samplingRate, w);
      trendDetector := new TrendDetector(10);
      persistenceChecker := new PersistenceChecker();
      fsm := new Scoring.EarlyFaultFSM(config.watchPersistence, config.warningPersistence,
                                       config.alarmPersistence, config.hysteresisClear);
      publisher := new MqttPublisher.Publisher();
      l2Enable := config.l2Enable;
      this.sqrt := sqrt;
      new;
      l2Queue.Start(workerRaises);
      forall w
        ensures ScoreFeature !in Names(extract(w))
      {
        L1Features.NoTrendOrEnvelopeFeature(numerics, config.samplingRate, w);
      }
    }

    /** The L2 gate let a job through: L2 is enabled, the state is WARNING or
        ALARM, the cooldown allows it and the queue has room. */
    predicate Admits(asset: string, point: string, result: Scoring.EarlyFaultResult, now: real)
      reads cooldown, l2Queue
    {
      var state := Scoring.StateValue(result.state);
      && l2Enable && (state == "WARNING" || state == "ALARM")
      && cooldown.CanTrigger(asset, point, state, now)
      && JobQueue.HasRoom(l2Queue.maxsize, |l2Queue.items|)
    }

    /** A heartbeat is due when `interval` seconds passed since the last one. */
    predicate HeartbeatDue(last: real, now: real) {
      now - last >= heartbeatInterval
    }

    /** `on_raw_data(asset, point, raw)` at time `now`. A payload without
        `acceleration` raises in `append` after the key's buffer was created,
        and nothing after it runs. `earlyFault` is the early-fault result of
        a ready window, `None` when the call stopped before the machine. */
    method OnRawData(asset: string, point: string, raw: RawPayload, now: real)
      returns (ghost earlyFault: Option<Scoring.EarlyFaultResult>)
      requires Valid()
      modifies this, heartbeat, ringBuffers, baseline, trendDetector, persistenceChecker, fsm, publisher,
               cooldown, l2Queue
      ensures Valid()
      ensures ringBuffers.received ==
        old(ringBuffers.received)[JoinKey(asset, point) := Received(old(ringBuffers.received), asset, point) + Arrived(raw)]
      ensures earlyFault.Some? <==> raw.acceleration.Some? && ringBuffers.IsWindowReady(asset, point)
      ensures earlyFault.None? ==>
        && heartbeat.Counters() == Liveness.Marked(old(heartbeat.Counters()), 0, now)
        && Core() == old(Core())
        && unchanged(publisher, cooldown, l2Queue)
        && lastHeartbeatTs == old(lastHeartbeatTs)
      ensures earlyFault.Some? ==>
        var window := ringBuffers.buffers[JoinKey(asset, point)];
        var result := earlyFault.value;
        var job := L2Job(asset, point, window);
        var enqueued := old(Admits(asset, point, result, now));
        var marked := Liveness.Marked(Liveness.Marked(Liveness.Marked(Liveness.Marked(
                        old(heartbeat.Counters()), 0, now), 1, now), 2, now), 3, now);
        && window == LastN(ringBuffers.received[JoinKey(asset, point)], ringBuffers.windowSize)
        && (Core(), result) == Analysis(Setup(), old(Core()), asset, point, window, now)
        && l2Queue.items == old(l2Queue.items) + (if enqueued then [job] else [])
        && l2Queue.accepted == old(l2Queue.accepted) + (if enqueued then [job] else [])
        && cooldown.lastTrigger ==
             (if enqueued then old(cooldown.lastTrigger)[JoinKey(asset, point) := now] else old(cooldown.lastTrigger))
        && heartbeat.Counters() == (if enqueued then Liveness.Marked(marked, 4, now) else marked)
        && publisher.log == old(publisher.log)
             + [MqttPublisher.Message(MqttPublisher.AssetTopic(MqttPublisher.EarlyFaultKind, asset, point),
                                      EarlyFaultPayload(result))]
             + (if HeartbeatDue(old(lastHeartbeatTs), now)
                then [MqttPublisher.Message(MqttPublisher.HeartbeatTopic, heartbeat.Snapshot(now))] else [])
        && lastHeartbeatTs == if HeartbeatDue(old(lastHeartbeatTs), now) then now else old(lastHeartbeatTs)
    {
      earlyFault := None;
      heartbeat.MarkRawRx(now);
      var appended := ringBuffers.Append(asset, point, raw);
      if !appended {
        return;
      }
      if !ringBuffers.IsWindowReady(asset, point) {
        return;
      }
      heartbeat.MarkWindowReady(now);
      var window := ringBuffers.GetWindow(asset, point);
      var result := ProcessWindow(asset, point, window, now);
      earlyFault := Some(result);
    }

    /** Everything `on_raw_data` does with a ready window: the early-fault
        stages, then their report. */
    method ProcessWindow(asset: string, point: string, window: seq<real>, now: real)
      returns (result: Scoring.EarlyFaultResult)
      requires Valid()
      modifies this, heartbeat, baseline, trendDetector, persistenceChecker, fsm, publisher, cooldown, l2Queue
      ensures Valid()
      ensures (Core(), result) == Analysis(Setup(), old(Core()), asset, point, window, now)
      ensures Reported(asset, point, window, result, now, old(Marked23(now)), old(Admits(asset, point, result, now)),
                       old(l2Queue.items), old(l2Queue.accepted), old(cooldown.lastTrigger), old(publisher.log),
                       old(lastHeartbeatTs))
      ensures unchanged(ringBuffers)
    {
      ghost var counters := Marked23(now);
      result := Analyse(asset, point, window, now);
      assert heartbeat.Counters() == counters;
      Report(asset, point, window, result, now);
    }

    /** The heartbeat counters after the `l1_exec` and `early_fault_exec` marks. */
    function Marked23(now: real): seq<(nat, Option<real>)>
      reads heartbeat
    {
      Liveness.Marked(Liveness.Marked(heartbeat.Counters(), 2, now), 3, now)
    }

    /** The effects of `Report`, against the state it started from: the queue,
        cooldown, heartbeat counters, published messages and heartbeat time. */
    ghost predicate Reported(asset: string, point: string, window: seq<real>, result: Scoring.EarlyFaultResult,
                             now: real, counters: seq<(nat, Option<real>)>, enqueued: bool,
                             items: seq<L2Job>, accepted: seq<L2Job>, lastTrigger: map<string, real>,
                             log: seq<MqttPublisher.Message>, lastHeartbeat: real)
      reads this, heartbeat, l2Queue, cooldown, publisher
    {
      var job := L2Job(asset, point, window);
      && l2Queue.items == items + (if enqueued then [job] else [])
      && l2Queue.accepted == accepted + (if enqueued then [job] else [])
      && cooldown.lastTrigger == (if enqueued then lastTrigger[JoinKey(asset, point) := now] else lastTrigger)
      && |counters| == 5
      && heartbeat.Counters() == (if enqueued then Liveness.Marked(counters, 4, now) else counters)
      && publisher.log == log
           + [MqttPublisher.Message(MqttPublisher.AssetTopic(MqttPublisher.EarlyFaultKind, asset, point),
                                    EarlyFaultPayload(result))]
           + (if HeartbeatDue(lastHeartbeat, now)
              then [MqttPublisher.Message(MqttPublisher.HeartbeatTopic, heartbeat.Snapshot(now))] else [])
      && lastHeartbeatTs == if HeartbeatDue(lastHeartbeat, now) then now else lastHeartbeat
    }

    /** One early-fault publish, the L2 trigger and the heartbeat. */
    method Report(asset: string, point: string, window: seq<real>, result: Scoring.EarlyFaultResult, now: real)
      requires l2Queue.Valid()
      modifies this, heartbeat, publisher, cooldown, l2Queue
      ensures l2Queue.Valid()
      ensures Reported(asset, point, window, result, now, old(heartbeat.Counters()), old(Admits(asset, point, result, now)),
                       old(l2Queue.items), old(l2Queue.accepted), old(cooldown.lastTrigger), old(publisher.log),
                       old(lastHeartbeatTs))
      ensures unchanged(ringBuffers, baseline, trendDetector, persistenceChecker, fsm)
    {
      publisher.PublishEarlyFault(asset, point, EarlyFaultPayload(result));
      Escalate(asset, point, window, result, now);
      PublishHeartbeatIfDue(now);
    }

    /** From the L1 features to the early-fault result. */
    method Analyse(asset: string, point: string, window: seq<real>, now: real) returns (result: Scoring.EarlyFaultResult)
      requires StagesValid()
      modifies heartbeat, baseline, trendDetector, persistenceChecker, fsm
      ensures StagesValid()
      ensures (Core(), result) == Analysis(Setup(), old(Core()), asset, point, window, now)
      ensures heartbeat.Counters() == Liveness.Marked(Liveness.Marked(old(heartbeat.Counters()), 2, now), 3, now)
    {
      heartbeat.MarkL1Exec(now);
      var trend := Learn(asset, point, window);
      result := Score(asset, point, trend, now);
    }

    /** The L1 features, the raw-space trend, gated baseline learning,
        normalisation and the normalised-space trend. */
    method Learn(asset: string, point: string, window: seq<real>) returns (trend: TrendResult)
      requires baseline.Valid() && trendDetector.Valid()
      modifies baseline, trendDetector
      ensures baseline.Valid() && trendDetector.Valid()
      ensures (baseline.State(), trendDetector.seen, trend)
              == LearnStage(Setup(), old(baseline.State()), old(trendDetector.seen), asset, point, window)
    {
      var l1Features := extract(window);
      var rawTrend := trendDetector.Update(asset, point, l1Features);
      baseline.Update(asset, point, l1Features, rawTrend.level == Normal);
      var normalized := baseline.Normalize(asset, point, l1Features, sqrt);
      trend := trendDetector.Update(asset, point, normalized);
    }

    /** Persistence, the `early_fault_exec` mark and the early-fault machine. */
    method Score(asset: string, point: string, trend: TrendResult, now: real) returns (result: Scoring.EarlyFaultResult)
      requires persistenceChecker.Valid()
      modifies heartbeat, persistenceChecker, fsm
      ensures persistenceChecker.Valid() && baseline.State() == old(baseline.State())
      ensures trendDetector.seen == old(trendDetector.seen)
      ensures heartbeat.Counters() == Liveness.Marked(old(heartbeat.Counters()), 3, now)
      ensures (Core(), result) == ScoreStage(fsm.Config(), old(Core()), (asset, point), trend, now)
    {
      var persistence := persistenceChecker.Update(asset, point, trend);
      heartbeat.MarkEarlyFaultExec(now);
      result := fsm.Update(asset, point, trend, persistence, now);
    }

    /** The L2 trigger: a job is enqueued only past the gate, and the
        cooldown and the `l2_exec` counter move only when the queue took it. */
    method Escalate(asset: string, point: string, window: seq<real>, result: Scoring.EarlyFaultResult, now: real)
      requires l2Queue.Valid()
      modifies heartbeat, cooldown, l2Queue
      ensures l2Queue.Valid()
      ensures var job := L2Job(asset, point, window);
        var enqueued := old(Admits(asset, point, result, now));
        && l2Queue.items == old(l2Queue.items) + (if enqueued then [job] else [])
        && l2Queue.accepted == old(l2Queue.accepted) + (if enqueued then [job] else [])
        && cooldown.lastTrigger ==
             (if enqueued then old(cooldown.lastTrigger)[JoinKey(asset, point) := now] else old(cooldown.lastTrigger))
        && heartbeat.Counters() ==
             (if enqueued then Liveness.Marked(old(heartbeat.Counters()), 4, now) else old(heartbeat.Counters()))
    {
      var state := Scoring.StateValue(result.state);
      if l2Enable && (state == "WARNING" || state == "ALARM") {
        if cooldown.CanTrigger(asset, point, state, now) {
          var queued := l2Queue.Enqueue(L2Job(asset, point, window));
          if queued {
            heartbeat.MarkL2Exec(now);
            cooldown.MarkTriggered(asset, point, now);
          }
        }
      }
    }

    /** The heartbeat publish at the end of a ready window. */
    method PublishHeartbeatIfDue(now: real)
      modifies this, publisher
      ensures lastHeartbeatTs == if HeartbeatDue(old(lastHeartbeatTs), now) then now else old(lastHeartbeatTs)
      ensures publisher.log == old(publisher.log)
        + (if HeartbeatDue(old(lastHeartbeatTs), now)
           then [MqttPublisher.Message(MqttPublisher.HeartbeatTopic, heartbeat.Snapshot(now))] else [])
    {
      if now - lastHeartbeatTs >= heartbeatInterval {
        publisher.PublishHeartbeat(heartbeat.Snapshot(now));
        lastHeartbeatTs := now;
      }
    }
  }
}
