/** Trend scoring (early_fault/trend_detector.py): a guard for a missing
    `acc_hf_rms_g`, a bounded per-sensor history of feature vectors, a
    three-level classification of `|acc_hf_rms_g|` and the dominant feature. */
module TrendDetection {
  import opened Features

  /** `TrendResult.level`: one of the strings "NORMAL", "WATCH", "WARNING". */
  datatype TrendLevel = Normal | Watch | Warning

  datatype TrendResult = TrendResult(level: TrendLevel, score: real, dominantFeature: Option<string>)

  /** The feature whose magnitude is the trend score. */
  const ScoreFeature: string := "acc_hf_rms_g"
  const WatchThreshold: real := 0.05
  const WarningThreshold: real := 0.12

  /** The position of a level in the order NORMAL < WATCH < WARNING. */
  function Rank(l: TrendLevel): nat {
    match l
    case Normal => 0
    case Watch => 1
    case Warning => 2
  }

  /** The two ascending thresholds: NORMAL below 0.05, WATCH below 0.12,
      WARNING from 0.12 on. */
  function Classify(score: real): (l: TrendLevel)
    ensures l == Normal <==> score < WatchThreshold
    ensures l == Watch <==> WatchThreshold <= score < WarningThreshold
    ensures l == Warning <==> WarningThreshold <= score
  {
    if score < WatchThreshold then Normal
    else if score < WarningThreshold then Watch
    else Warning
  }

  /** A larger score never gives a lower level. */
  lemma ClassifyMonotone(s1: real, s2: real)
    requires s1 <= s2
    ensures Rank(Classify(s1)) <= Rank(Classify(s2))
  {
  }

  /** What the defensive guard returns when `acc_hf_rms_g` is missing. */
  const MissingSignal: TrendResult := TrendResult(Normal, 0.0, None)

  /** The result of `update` for a feature vector: the guard, the score
      `|acc_hf_rms_g|`, its level and the feature of largest magnitude (the
      first one in insertion order on a tie). */
  function Evaluate(features: FeatureVec): (r: TrendResult)
    ensures ScoreFeature !in Names(features) ==> r == MissingSignal
    ensures ScoreFeature in Names(features) ==>
      && r.score == Abs(Get(features, ScoreFeature).value)
      && r.level == Classify(r.score)
      && r.dominantFeature.Some?
  {
    match Get(features, ScoreFeature)
    case None => MissingSignal
    case Some(v) =>
      var score := Abs(v);
      var i := ArgMax(features, Abs);
      TrendResult(Classify(score), score, Some(features[i].0))
  }

  /** The dominant feature of a scored vector is one of largest magnitude,
      and the first such in insertion order. */
  lemma DominantIsLargest(features: FeatureVec)
    requires ScoreFeature in Names(features)
    ensures var r := Evaluate(features);
      exists i :: 0 <= i < |features| && features[i].0 == r.dominantFeature.value
        && (forall j :: 0 <= j < |features| ==> Abs(features[j].1) <= Abs(features[i].1))
        && (forall j :: 0 <= j < i ==> Abs(features[j].1) < Abs(features[i].1))
  {
    var i := ArgMax(features, Abs);
    ArgMaxIsFirstLargest(features, Abs);
    assert features[i].0 == Evaluate(features).dominantFeature.value;
  }

  /** One history step: append, then drop the oldest entry once the history
      is longer than `size`. */
  function Push(hist: seq<FeatureVec>, fv: FeatureVec, size: int): seq<FeatureVec> {
    var h := hist + [fv];
    if |h| > size then h[1..] else h
  }

  /** The number of entries a history of size `size` can hold. */
  function Capacity(size: int): nat {
    if size < 0 then 0 else size
  }

  /** Pushing onto the retained entries retains the most recent ones of the
      longer sequence. */
  lemma PushKeepsMostRecent(seen: seq<FeatureVec>, fv: FeatureVec, size: int)
    ensures Push(LastN(seen, Capacity(size)), fv, size) == LastN(seen + [fv], Capacity(size))
  {
    var n := Capacity(size);
    if n > 0 {
      LastNSnoc(seen, fv, n);
    } else {
      assert LastN(seen, n) == [];
    }
  }

  /** The entries stored under `key`, none when the key is absent. */
  function Entries(m: map<(string, string), seq<FeatureVec>>, key: (string, string)): seq<FeatureVec> {
    if key in m then m[key] else []
  }

  class TrendDetector {
    const historySize: int
    /** `_history`, keyed by the tuple `(asset, point)`. */
    var history: map<(string, string), seq<FeatureVec>>
    /** Every vector that passed the guard, per key, in arrival order. */
    ghost var seen: map<(string, string), seq<FeatureVec>>

    /** Each history holds the most recent `historySize` vectors of its key. */
    ghost predicate Valid()
      reads this
    {
      && history.Keys == seen.Keys
      && forall k :: k in history ==> history[k] == LastN(seen[k], Capacity(historySize))
    }

    constructor (historySize: int)
      ensures Valid() && this.historySize == historySize
      ensures history == map[] && seen == map[]
    {
      this.historySize := historySize;
      history := map[];
      seen := map[];
    }

    /** `update`: the guard leaves the history alone; otherwise the vector is
        pushed onto the key's history (created on first use). */
    method Update(asset: string, point: string, features: FeatureVec) returns (r: TrendResult)
      requires Valid()
      modifies this
      ensures Valid()
      ensures r == Evaluate(features)
      ensures ScoreFeature !in Names(features) ==> history == old(history) && seen == old(seen)
      ensures ScoreFeature in Names(features) ==>
        && seen == old(seen)[(asset, point) := Entries(old(seen), (asset, point)) + [features]]
        && history == old(history)[(asset, point) := Push(Entries(old(history), (asset, point)), features, historySize)]
    {
      var acc := Get(features, ScoreFeature);
      if acc.None? {
        return MissingSignal;
      }
      Remember((asset, point), features);
      var score := Abs(acc.value);
      var level := Classify(score);
      var dominant := ArgMax(features, Abs);
      r := TrendResult(level, score, Some(features[dominant].0));
    }

    /** `hist = self._history.setdefault(key, [])`, `hist.append(features)`,
        then `hist.pop(0)` when the history grew past `history_size`. */
    method Remember(key: (string, string), features: FeatureVec)
      requires Valid()
      modifies this
      ensures Valid()
      ensures seen == old(seen)[key := Entries(old(seen), key) + [features]]
      ensures history == old(history)[key := Push(Entries(old(history), key), features, historySize)]
    {
      var hist := if key in history then history[key] else [];
      ghost var before := Entries(seen, key);
      PushKeepsMostRecent(before, features, historySize);
      hist := hist + [features];
      if |hist| > historySize {
        hist := hist[1..];
      }
      history := history[key := hist];
      seen := seen[key := before + [features]];
    }
  }
}
