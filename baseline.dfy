/** Adaptive per-feature baseline (early_fault/baseline.py): an exponentially
    weighted mean and variance per `asset:point:feature` key, learned only
    when the caller allows it, and a z-score normalisation that reports 0.0
    until a key has seen `min_samples` learned observations. */
module Baseline {
  import opened Features

  /** `_key`: the string `f"{asset}:{point}:{feature}"`. */
  function StatKey(asset: string, point: string, feature: string): string {
    JoinKey(JoinKey(asset, point), feature)
  }

  /** For one sensor, different feature names give different keys. */
  lemma StatKeyInjective(asset: string, point: string, f1: string, f2: string)
    requires StatKey(asset, point, f1) == StatKey(asset, point, f2)
    ensures f1 == f2
  {
    var prefix := JoinKey(asset, point);
    assert f1 == StatKey(asset, point, f1)[|prefix| + 1..];
    assert f2 == StatKey(asset, point, f2)[|prefix| + 1..];
  }

  /** The three `defaultdict`s `_mean`, `_var` and `_count`. */
  datatype Stats = Stats(mean: map<string, real>, variance: map<string, real>, count: map<string, nat>)

  // Reading a defaultdict: an absent key reads as zero.
  function MeanOf(st: Stats, key: string): real { if key in st.mean then st.mean[key] else 0.0 }
  function VarOf(st: Stats, key: string): real { if key in st.variance then st.variance[key] else 0.0 }
  function CountOf(st: Stats, key: string): nat { if key in st.count then st.count[key] else 0 }

  /** A key's mean, variance and count as they read. */
  function Entry(st: Stats, key: string): (real, real, nat) {
    (MeanOf(st, key), VarOf(st, key), CountOf(st, key))
  }

  /** The three dicts always gain keys together. */
  predicate KeysAgree(st: Stats) {
    st.mean.Keys == st.count.Keys && st.variance.Keys == st.count.Keys
  }

  predicate NonNegativeVariances(st: Stats) {
    forall k :: k in st.variance ==> st.variance[k] >= 0.0
  }

  /** The EWMA step of the mean: `mean + alpha * delta` with `delta = value - mean`. */
  function EwmaMean(mean: real, value: real, alpha: real): real {
    mean + alpha * (value - mean)
  }

  /** The EWMA step of the variance: `(1 - alpha) * (var + alpha * delta * delta)`. */
  function EwmaVariance(variance: real, mean: real, value: real, alpha: real): real {
    var delta := value - mean;
    (1.0 - alpha) * (variance + alpha * delta * delta)
  }

  /** The variance step never makes a non-negative variance negative. */
  lemma EwmaVarianceNonNegative(alpha: real, v: real, delta: real)
    ensures 0.0 <= alpha <= 1.0 && v >= 0.0 ==> (1.0 - alpha) * (v + alpha * delta * delta) >= 0.0
  {
    if 0.0 <= alpha <= 1.0 && v >= 0.0 {
      assert delta * delta >= 0.0;
      assert alpha * (delta * delta) >= 0.0;
      assert v + alpha * delta * delta >= 0.0;
    }
  }

  /** One learned observation of `value` under `key`: the body of `update`'s
      loop when learning is allowed. */
  function Observe(st: Stats, key: string, value: real, alpha: real): Stats {
    var c := CountOf(st, key) + 1;
    if c == 1 then
      Stats(st.mean[key := value], st.variance[key := 0.0], st.count[key := c])
    else
      Stats(st.mean[key := EwmaMean(MeanOf(st, key), value, alpha)],
            st.variance[key := EwmaVariance(VarOf(st, key), MeanOf(st, key), value, alpha)],
            st.count[key := c])
  }

  /** An observation keeps the three dicts' keys together and, for `alpha`
      in [0, 1], every variance non-negative. */
  lemma ObserveKeepsInvariant(st: Stats, key: string, value: real, alpha: real)
    ensures KeysAgree(st) ==> KeysAgree(Observe(st, key, value, alpha))
    ensures NonNegativeVariances(st) && 0.0 <= alpha <= 1.0 ==> NonNegativeVariances(Observe(st, key, value, alpha))
  {
    if NonNegativeVariances(st) && 0.0 <= alpha <= 1.0 {
      var r := Observe(st, key, value, alpha);
      EwmaVarianceNonNegative(alpha, VarOf(st, key), value - MeanOf(st, key));
      assert r.variance[key] >= 0.0;
      forall k | k in r.variance ensures r.variance[k] >= 0.0 {
        if k != key {
          assert r.variance[k] == st.variance[k];
        }
      }
    }
  }

  /** What an observation does to a key depends only on that key's entry. */
  lemma ObserveLocal(st1: Stats, st2: Stats, key: string, value: real, alpha: real)
    requires Entry(st1, key) == Entry(st2, key)
    ensures Entry(Observe(st1, key, value, alpha), key) == Entry(Observe(st2, key, value, alpha), key)
  {
    assert MeanOf(st1, key) == MeanOf(st2, key) && VarOf(st1, key) == VarOf(st2, key);
    assert CountOf(st1, key) == CountOf(st2, key);
  }

  /** An observation under one key leaves every other key's entry alone. */
  lemma ObserveOther(st: Stats, key: string, value: real, alpha: real, other: string)
    requires other != key
    ensures Entry(Observe(st, key, value, alpha), other) == Entry(st, other)
  {
  }

  /** Every feature of one `update(..., allow_update=True)` call, learned in order. */
  function ObserveAll(st: Stats, asset: string, point: string, fv: FeatureVec, alpha: real): Stats
    decreases |fv|
  {
    if fv == [] then st
    else
      var last := fv[|fv| - 1];
      Observe(ObserveAll(st, asset, point, fv[..|fv| - 1], alpha), StatKey(asset, point, last.0), last.1, alpha)
  }

  /** Learning a whole vector keeps the invariant of each observation. */
  lemma {:induction false} ObserveAllKeepsInvariant(st: Stats, asset: string, point: string, fv: FeatureVec, alpha: real)
    ensures KeysAgree(st) ==> KeysAgree(ObserveAll(st, asset, point, fv, alpha))
    ensures NonNegativeVariances(st) && 0.0 <= alpha <= 1.0 ==> NonNegativeVariances(ObserveAll(st, asset, point, fv, alpha))
    decreases |fv|
  {
    if fv != [] {
      var last := fv[|fv| - 1];
      ObserveAllKeepsInvariant(st, asset, point, fv[..|fv| - 1], alpha);
      ObserveKeepsInvariant(ObserveAll(st, asset, point, fv[..|fv| - 1], alpha), StatKey(asset, point, last.0), last.1, alpha);
    }
  }

  /** A key that belongs to none of the features keeps its mean, variance and count. */
  lemma {:induction false} ObserveAllElsewhere(st: Stats, asset: string, point: string, fv: FeatureVec, alpha: real, key: string)
    requires forall i :: 0 <= i < |fv| ==> StatKey(asset, point, fv[i].0) != key
    ensures Entry(ObserveAll(st, asset, point, fv, alpha), key) == Entry(st, key)
    decreases |fv|
  {
    if fv != [] {
      var init := fv[..|fv| - 1];
      assert forall i :: 0 <= i < |init| ==> init[i] == fv[i];
      ObserveAllElsewhere(st, asset, point, init, alpha, key);
      var last := fv[|fv| - 1];
      ObserveOther(ObserveAll(st, asset, point, init, alpha), StatKey(asset, point, last.0), last.1, alpha, key);
    }
  }

  /** With distinct feature names, the key of feature `i` sees exactly one
      observation: the one of feature `i`. */
  lemma {:induction false} ObserveAllAt(st: Stats, asset: string, point: string, fv: FeatureVec, alpha: real, i: nat)
    requires DistinctNames(fv) && i < |fv|
    ensures var key := StatKey(asset, point, fv[i].0);
      Entry(ObserveAll(st, asset, point, fv, alpha), key) == Entry(Observe(st, key, fv[i].1, alpha), key)
    decreases |fv|
  {
    var key := StatKey(asset, point, fv[i].0);
    var init := fv[..|fv| - 1];
    assert forall j :: 0 <= j < |init| ==> init[j] == fv[j];
    if i == |fv| - 1 {
      forall j | 0 <= j < |init| ensures StatKey(asset, point, init[j].0) != key {
        if StatKey(asset, point, init[j].0) == key {
          StatKeyInjective(asset, point, init[j].0, fv[i].0);
        }
      }
      ObserveAllElsewhere(st, asset, point, init, alpha, key);
      ObserveLocal(ObserveAll(st, asset, point, init, alpha), st, key, fv[i].1, alpha);
    } else {
      var lastKey := StatKey(asset, point, fv[|fv| - 1].0);
      if lastKey == key {
        StatKeyInjective(asset, point, fv[|fv| - 1].0, fv[i].0);
      }
      ObserveAllAt(st, asset, point, init, alpha, i);
      ObserveOther(ObserveAll(st, asset, point, init, alpha), lastKey, fv[|fv| - 1].1, alpha, key);
    }
  }

  /** What one observation does to its key: the count rises by one; the
      first observation sets the mean to the value and the variance to 0; a
      later one applies the EWMA steps to the mean and the variance. */
  lemma ObserveStep(st: Stats, key: string, value: real, alpha: real)
    ensures var r := Observe(st, key, value, alpha);
      && CountOf(r, key) == CountOf(st, key) + 1
      && (CountOf(st, key) == 0 ==> MeanOf(r, key) == value && VarOf(r, key) == 0.0)
      && (CountOf(st, key) > 0 ==>
            && MeanOf(r, key) == EwmaMean(MeanOf(st, key), value, alpha)
            && VarOf(r, key) == EwmaVariance(VarOf(st, key), MeanOf(st, key), value, alpha))
  {
  }

  /** What one allowed `update` does to the statistics of each of its
      features: exactly the one observation of that feature's value. */
  lemma LearnedFeature(st: Stats, asset: string, point: string, fv: FeatureVec, alpha: real, i: nat)
    requires DistinctNames(fv) && i < |fv|
    ensures var key := StatKey(asset, point, fv[i].0);
      var r := ObserveAll(st, asset, point, fv, alpha);
      && CountOf(r, key) == CountOf(st, key) + 1
      && (CountOf(st, key) == 0 ==> MeanOf(r, key) == fv[i].1 && VarOf(r, key) == 0.0)
      && (CountOf(st, key) > 0 ==>
            && MeanOf(r, key) == EwmaMean(MeanOf(st, key), fv[i].1, alpha)
            && VarOf(r, key) == EwmaVariance(VarOf(st, key), MeanOf(st, key), fv[i].1, alpha))
  {
    var key := StatKey(asset, point, fv[i].0);
    ObserveAllAt(st, asset, point, fv, alpha, i);
    ObserveStep(st, key, fv[i].1, alpha);
  }

  /** `1e-6`, the standard deviation used when the variance is not positive. */
  const Epsilon: real := 0.000001

  /** The positive reals: `math.sqrt` is applied only to a positive
      variance, and its result there is positive. */
  type Positive = x: real | x > 0.0 witness 1.0

  /** The normalised value of one feature: 0.0 while the key has fewer than
      `minSamples` learned observations, else `(value - mean) / std`. */
  function NormValue(st: Stats, minSamples: int, key: string, value: real, sqrt: Positive -> Positive): real
  {
    if CountOf(st, key) < minSamples then 0.0
    else
      var std: real := if VarOf(st, key) > 0.0 then sqrt(VarOf(st, key)) else Epsilon;
      (value - MeanOf(st, key)) / std
  }

  /** The vector `normalize` returns: the same names, each value normalised
      against its key's statistics. */
  function Normalized(st: Stats, minSamples: int, asset: string, point: string, features: FeatureVec,
                      sqrt: Positive -> Positive): (r: FeatureVec)
    ensures |r| == |features| && forall i :: 0 <= i < |r| ==> r[i].0 == features[i].0
    decreases |features|
  {
    if features == [] then []
    else
      var n := |features| - 1;
      Normalized(st, minSamples, asset, point, features[..n], sqrt)
        + [(features[n].0, NormValue(st, minSamples, StatKey(asset, point, features[n].0), features[n].1, sqrt))]
  }

  /** In the vector `normalize` returns, a feature with fewer
      than `minSamples` learned observations normalises to 0.0; one whose
      variance is not positive is divided by `Epsilon`; otherwise it is the
      z-score against the learned mean and standard deviation. */
  lemma {:induction false} NormalizedValues(st: Stats, minSamples: int, asset: string, point: string,
                                            features: FeatureVec, sqrt: Positive -> Positive, i: nat)
    requires i < |features|
    ensures var r := Normalized(st, minSamples, asset, point, features, sqrt);
      var key := StatKey(asset, point, features[i].0);
      && (CountOf(st, key) < minSamples ==> r[i].1 == 0.0)
      && (CountOf(st, key) >= minSamples && VarOf(st, key) <= 0.0 ==>
            r[i].1 == (features[i].1 - MeanOf(st, key)) / Epsilon)
      && (CountOf(st, key) >= minSamples && VarOf(st, key) > 0.0 ==>
            r[i].1 == (features[i].1 - MeanOf(st, key)) / sqrt(VarOf(st, key)))
    decreases |features|
  {
    var r := Normalized(st, minSamples, asset, point, features, sqrt);
    var n := |features| - 1;
    var init := Normalized(st, minSamples, asset, point, features[..n], sqrt);
    if i < n {
      NormalizedValues(st, minSamples, asset, point, features[..n], sqrt, i);
      assert r[i] == init[i];
    } else {
      assert r[i] == (features[n].0, NormValue(st, minSamples, StatKey(asset, point, features[n].0), features[n].1, sqrt));
    }
  }

  /** Right after a feature's first learned observation (with `minSamples`
      above 1) it still normalises to 0.0: learning and normalising the same
      vector never divides by a variance of a single sample. */
  lemma ColdStartNormalizesToZero(st: Stats, minSamples: int, asset: string, point: string, fv: FeatureVec,
                                  alpha: real, sqrt: Positive -> Positive, i: nat)
    requires DistinctNames(fv) && i < |fv| && minSamples > 1
    requires CountOf(st, StatKey(asset, point, fv[i].0)) == 0
    ensures Normalized(ObserveAll(st, asset, point, fv, alpha), minSamples, asset, point, fv, sqrt)[i].1 == 0.0
  {
    LearnedFeature(st, asset, point, fv, alpha, i);
    NormalizedValues(ObserveAll(st, asset, point, fv, alpha), minSamples, asset, point, fv, sqrt, i);
  }

  class AdaptiveBaseline {
    const alpha: real
    const minSamples: int
    var mean: map<string, real>
    var variance: map<string, real>
    var count: map<string, nat>

    function State(): Stats
      reads this
    {
      Stats(mean, variance, count)
    }

    ghost predicate Valid()
      reads this
    {
      && KeysAgree(State())
      && (0.0 <= alpha <= 1.0 ==> NonNegativeVariances(State()))
    }

    constructor (alpha: real, minSamples: int)
      ensures Valid() && this.alpha == alpha && this.minSamples == minSamples
      ensures State() == Stats(map[], map[], map[])
    {
      this.alpha := alpha;
      this.minSamples := minSamples;
      mean, variance, count := map[], map[], map[];
    }

    /** `update`: with `allowUpdate` false nothing changes; otherwise every
        feature is learned, in order. */
    method Update(asset: string, point: string, features: FeatureVec, allowUpdate: bool)
      requires Valid()
      modifies this
      ensures Valid()
      ensures State() == if allowUpdate then ObserveAll(old(State()), asset, point, features, alpha)
                         else old(State())
    {
      for i := 0 to |features|
        invariant Valid()
        invariant State() == if allowUpdate then ObserveAll(old(State()), asset, point, features[..i], alpha)
                             else old(State())
      {
        assert features[..i + 1][..i] == features[..i];
        var (name, value) := features[i];
        var key := StatKey(asset, point, name);
        if !allowUpdate {
          continue;
        }
        Learn(key, value);
      }
      assert features[..|features|] == features;
    }

    /** One pass of `update`'s loop with learning allowed. */
    method Learn(key: string, value: real)
      requires Valid()
      modifies this
      ensures Valid()
      ensures State() == Observe(old(State()), key, value, alpha)
    {
      count := count[key := (if key in count then count[key] else 0) + 1];
      if count[key] == 1 {
        mean := mean[key := value];
        variance := variance[key := 0.0];
        return;
      }
      var m := mean[key];
      EwmaVarianceNonNegative(alpha, variance[key], value - m);
      mean := mean[key := EwmaMean(m, value, alpha)];
      variance := variance[key := EwmaVariance(variance[key], m, value, alpha)];
    }

    /** `normalize`: a fresh vector with the same feature names, each value
        normalised against the key's statistics; reads the state only. */
    method Normalize(asset: string, point: string, features: FeatureVec, sqrt: Positive -> Positive)
      returns (normalized: FeatureVec)
      ensures normalized == Normalized(State(), minSamples, asset, point, features, sqrt)
    {
      normalized := [];
      for i := 0 to |features|
        invariant normalized == Normalized(State(), minSamples, asset, point, features[..i], sqrt)
      {
        assert features[..i + 1][..i] == features[..i];
        var (name, value) := features[i];
        var key := StatKey(asset, point, name);
        var c := if key in count then count[key] else 0;
        if c < minSamples {
          normalized := normalized + [(name, 0.0)];
          continue;
        }
        var v := if key in variance then variance[key] else 0.0;
        var m := if key in mean then mean[key] else 0.0;
        var std: real := if v > 0.0 then sqrt(v) else Epsilon;
        normalized := normalized + [(name, (value - m) / std)];
      }
      assert features[..|features|] == features;
    }
  }
}
