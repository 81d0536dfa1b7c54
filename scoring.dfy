/** The early-fault state machine (early_fault/scoring.py): per sensor, a
    severity NORMAL / WATCH / WARNING / ALARM chosen from the trend level and
    the persistence count, a clear-counter of NORMAL trends, and a confidence
    that depends on persistence alone. */
module Scoring {
  import opened Features
  import TrendDetection
  import Persistence

  /** `EarlyFaultState`. */
  datatype EarlyFaultState = Normal | Watch | Warning | Alarm

  /** The enum's `.value`, the string that is published. */
  function StateValue(s: EarlyFaultState): string {
    match s
    case Normal => "NORMAL"
    case Watch => "WATCH"
    case Warning => "WARNING"
    case Alarm => "ALARM"
  }

  /** `EarlyFaultResult`; `timestamp` is the `time.time()` reading taken when it
      is built. */
  datatype EarlyFaultResult = EarlyFaultResult(
    state: EarlyFaultState, confidence: real, dominantFeature: Option<string>, timestamp: real)

  /** The four constructor parameters of `EarlyFaultFSM`. */
  datatype Thresholds = Thresholds(watch: int, warning: int, alarm: int, hysteresisClear: int)

  /** A non-NORMAL trend with this persistence matches one of the three
      persistence rules, which all reset the clear-counter. */
  predicate Escalates(th: Thresholds, persistence: int) {
    persistence >= th.alarm || persistence >= th.warning || persistence >= th.watch
  }

  /** The transition of `update` (first matching branch wins). `clear` is the
      key's clear-counter as read before the call (0 when absent). */
  function NextState(th: Thresholds, current: EarlyFaultState, clear: int,
                     level: TrendDetection.TrendLevel, persistence: int): (s: EarlyFaultState)
    ensures level == TrendDetection.Normal ==>
      (s == Normal <==> clear + 1 >= th.hysteresisClear || current == Normal)
      && (s != Normal ==> s == current)
    ensures level != TrendDetection.Normal && persistence >= th.alarm ==> s == Alarm
    ensures level != TrendDetection.Normal && th.warning <= persistence < th.alarm ==> s == Warning
    ensures level != TrendDetection.Normal && th.watch <= persistence < th.warning && persistence < th.alarm
      ==> s == Watch
    ensures level != TrendDetection.Normal && !Escalates(th, persistence) ==> s == current
  {
    if level == TrendDetection.Normal then
      if clear + 1 >= th.hysteresisClear then Normal else current
    else if persistence >= th.alarm then Alarm
    else if persistence >= th.warning then Warning
    else if persistence >= th.watch then Watch
    else current
  }

  /** The clear-counter after `update`: one more on a NORMAL trend, 0 when a
      persistence rule fired, unchanged otherwise. It is never reset when the
      state clears. */
  function NextClear(th: Thresholds, clear: int, level: TrendDetection.TrendLevel, persistence: int): int {
    if level == TrendDetection.Normal then clear + 1
    else if Escalates(th, persistence) then 0
    else clear
  }

  /** `min(1.0, persistence / max(alarm_persistence, 1))`. */
  function Confidence(persistence: int, alarm: int): (c: real)
    ensures persistence >= 0 ==> 0.0 <= c <= 1.0
    ensures c == 1.0 <==> persistence >= (if alarm < 1 then 1 else alarm)
    ensures c < 1.0 ==> c * (if alarm < 1 then 1 else alarm) as real == persistence as real
  {
    var denominator := if alarm < 1 then 1 else alarm;
    var ratio := persistence as real / denominator as real;
    if ratio < 1.0 then ratio else 1.0
  }

  /** A larger persistence never gives a lower confidence. */
  lemma ConfidenceMonotone(p1: int, p2: int, alarm: int)
    requires p1 <= p2
    ensures Confidence(p1, alarm) <= Confidence(p2, alarm)
  {
    var d := (if alarm < 1 then 1 else alarm) as real;
    assert p1 as real / d <= p2 as real / d;
  }

  /** One key's memory: its state and its clear-counter. */
  datatype KeyMemory = KeyMemory(state: EarlyFaultState, clear: int)

  /** The memory of a key the machine has never seen. */
  const Fresh: KeyMemory := KeyMemory(Normal, 0)

  function Step(th: Thresholds, m: KeyMemory, level: TrendDetection.TrendLevel, persistence: int): KeyMemory {
    KeyMemory(NextState(th, m.state, m.clear, level, persistence), NextClear(th, m.clear, level, persistence))
  }

  /** A key's memory after the pipeline fed it `levels`, each with the
      persistence the persistence checker returns for it. */
  function Run(th: Thresholds, levels: seq<TrendDetection.TrendLevel>): (m: KeyMemory)
    ensures m.clear >= 0
    decreases |levels|
  {
    if levels == [] then Fresh
    else
      Step(th, Run(th, levels[..|levels| - 1]), levels[|levels| - 1], Persistence.TrailingRun(levels))
  }

  /** `n` NORMAL trend levels. */
  function Normals(n: nat): (s: seq<TrendDetection.TrendLevel>)
    ensures |s| == n && forall i :: 0 <= i < n ==> s[i] == TrendDetection.Normal
  {
    if n == 0 then [] else Normals(n - 1) + [TrendDetection.Normal]
  }

  /** Each NORMAL level adds one to the clear-counter. */
  lemma {:induction false} RunNormals(th: Thresholds, levels: seq<TrendDetection.TrendLevel>, n: nat)
    ensures Run(th, levels + Normals(n)).clear == Run(th, levels).clear + n
    decreases n
  {
    if n > 0 {
      var s := levels + Normals(n);
      assert s[..|s| - 1] == levels + Normals(n - 1);
      RunNormals(th, levels, n - 1);
    } else {
      assert levels + Normals(0) == levels;
    }
  }

  /** Clearing: after `hysteresis_clear` NORMAL trends in a row the state is
      NORMAL, whatever it was before; it falls straight to NORMAL, not one
      severity step. */
  lemma ClearsToNormal(th: Thresholds, levels: seq<TrendDetection.TrendLevel>, n: nat)
    requires n >= 1 && n >= th.hysteresisClear
    ensures Run(th, levels + Normals(n)).state == Normal
  {
    var s := levels + Normals(n);
    assert s[..|s| - 1] == levels + Normals(n - 1);
    RunNormals(th, levels, n - 1);
  }

  /** Hysteresis: once a persistence rule has fired (clear-counter 0), fewer
      than `hysteresis_clear` NORMAL trends leave the state as it was. */
  lemma {:induction false} HoldsDuringHysteresis(th: Thresholds, levels: seq<TrendDetection.TrendLevel>, n: nat)
    requires Run(th, levels).clear == 0 && n < th.hysteresisClear
    ensures Run(th, levels + Normals(n)).state == Run(th, levels).state
    decreases n
  {
    if n > 0 {
      var s := levels + Normals(n);
      assert s[..|s| - 1] == levels + Normals(n - 1);
      HoldsDuringHysteresis(th, levels, n - 1);
      RunNormals(th, levels, n - 1);
    } else {
      assert levels + Normals(0) == levels;
    }
  }

  /** Escalation: when the trailing run of non-NORMAL levels reaches
      `alarm_persistence`, the state is ALARM and the clear-counter 0. */
  lemma AlarmAfterPersistentRun(th: Thresholds, levels: seq<TrendDetection.TrendLevel>)
    requires levels != [] && Persistence.TrailingRun(levels) >= th.alarm
    requires levels[|levels| - 1] != TrendDetection.Normal
    ensures Run(th, levels) == KeyMemory(Alarm, 0)
  {
  }

  /** The state held for `key`, NORMAL when unseen. */
  function StateOf(m: map<(string, string), EarlyFaultState>, key: (string, string)): EarlyFaultState {
    if key in m then m[key] else Normal
  }

  /** The clear-counter held for `key`, 0 when unseen. */
  function ClearOf(m: map<(string, string), int>, key: (string, string)): int {
    if key in m then m[key] else 0
  }

  class EarlyFaultFSM {
    const watchPersistence: int
    const warningPersistence: int
    const alarmPersistence: int
    const hysteresisClear: int
    /** `_state` and `_clear_counter`, keyed by the tuple `(asset, point)`. */
    var state: map<(string, string), EarlyFaultState>
    var clearCounter: map<(string, string), int>

    function Config(): Thresholds {
      Thresholds(watchPersistence, warningPersistence, alarmPersistence, hysteresisClear)
    }

    /** The memory this machine holds for `key`. */
    function Memory(key: (string, string)): KeyMemory
      reads this
    {
      KeyMemory(StateOf(state, key), ClearOf(clearCounter, key))
    }

    constructor (watchPersistence: int, warningPersistence: int, alarmPersistence: int, hysteresisClear: int)
      ensures Config() == Thresholds(watchPersistence, warningPersistence, alarmPersistence, hysteresisClear)
      ensures state == map[] && clearCounter == map[]
    {
      this.watchPersistence := watchPersistence;
      this.warningPersistence := warningPersistence;
      this.alarmPersistence := alarmPersistence;
      this.hysteresisClear := hysteresisClear;
      state := map[];
      clearCounter := map[];
    }

    /** `update`: one transition for the key; the state is stored and returned
        with the confidence and the trend's dominant feature. The clear-counter
        is written only on a NORMAL trend or when a persistence rule fires. */
    method Update(asset: string, point: string, trend: TrendDetection.TrendResult, persistence: int, now: real)
      returns (r: EarlyFaultResult)
      modifies this
      ensures Memory((asset, point)) == Step(Config(), old(Memory((asset, point))), trend.level, persistence)
      ensures state == old(state)[(asset, point) := r.state]
      ensures clearCounter ==
        if trend.level == TrendDetection.Normal || Escalates(Config(), persistence)
        then old(clearCounter)[(asset, point) := Memory((asset, point)).clear]
        else old(clearCounter)
      ensures r == EarlyFaultResult(Memory((asset, point)).state, Confidence(persistence, alarmPersistence),
                                    trend.dominantFeature, now)
    {
      var key := (asset, point);
      var current := if key in state then state[key] else Normal;
      if trend.level == TrendDetection.Normal {
        var clear := (if key in clearCounter then clearCounter[key] else 0) + 1;
        clearCounter := clearCounter[key := clear];
        if clear >= hysteresisClear {
          current := Normal;
        }
      } else if persistence >= alarmPersistence {
        current := Alarm;
        clearCounter := clearCounter[key := 0];
      } else if persistence >= warningPersistence {
        current := Warning;
        clearCounter := clearCounter[key := 0];
      } else if persistence >= watchPersistence {
        current := Watch;
        clearCounter := clearCounter[key := 0];
      }
      state := state[key := current];
      var denominator := if alarmPersistence < 1 then 1 else alarmPersistence;
      var ratio := persistence as real / denominator as real;
      var confidence := if ratio < 1.0 then ratio else 1.0;
      r := EarlyFaultResult(current, confidence, trend.dominantFeature, now);
    }
  }
}
