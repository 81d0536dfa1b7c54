/** The L1 feature pipeline (core/l1_feature_pipeline.py) with its numerics
    (RMS, peak-to-peak and band-pass energy from core/signal_utils.py) given as
    functions: what is modelled is which features it emits, in which order,
    and from which band limits. */
module L1Features {
  import opened Features
  import TrendDetection

  /** The numeric routines of core/signal_utils.py. */
  datatype Numerics = Numerics(
    rms: seq<real> -> real,
    peakToPeak: seq<real> -> real,
    bandpassEnergy: (seq<real>, real, real, real) -> real)

  /** `L1FeaturePipeline.compute`: the four features `rms`, `ptp`,
      `energy_low` (10-100 Hz) and `energy_high` (1000-5000 Hz), in that order. */
  function Compute(numerics: Numerics, fs: real, window: seq<real>): (features: FeatureVec)
    ensures Names(features) == ["rms", "ptp", "energy_low", "energy_high"]
    ensures features[2].1 == numerics.bandpassEnergy(window, fs, 10.0, 100.0)
    ensures features[3].1 == numerics.bandpassEnergy(window, fs, 1000.0, 5000.0)
  {
    [("rms", numerics.rms(window)),
     ("ptp", numerics.peakToPeak(window)),
     ("energy_low", numerics.bandpassEnergy(window, fs, 10.0, 100.0)),
     ("energy_high", numerics.bandpassEnergy(window, fs, 1000.0, 5000.0))]
  }

  /** The pipeline never emits `acc_hf_rms_g`, the feature the trend detector
      scores, nor `envelope_rms`. */
  lemma NoTrendOrEnvelopeFeature(numerics: Numerics, fs: real, window: seq<real>)
    ensures TrendDetection.ScoreFeature !in Names(Compute(numerics, fs, window))
    ensures "envelope_rms" !in Names(Compute(numerics, fs, window))
  {
    var names := Names(Compute(numerics, fs, window));
    assert names == ["rms", "ptp", "energy_low", "energy_high"];
    assert TrendDetection.ScoreFeature != "rms" && TrendDetection.ScoreFeature != "ptp";
    assert TrendDetection.ScoreFeature != "energy_low" && TrendDetection.ScoreFeature != "energy_high";
    assert "envelope_rms" != "rms" && "envelope_rms" != "ptp";
    assert "envelope_rms" != "energy_low" && "envelope_rms" != "energy_high";
  }

  /** Hence every trend computed on its output takes the guard and is NORMAL
      with score 0 and no dominant feature. */
  lemma TrendOfL1IsGuarded(numerics: Numerics, fs: real, window: seq<real>)
    ensures TrendDetection.Evaluate(Compute(numerics, fs, window)) == TrendDetection.MissingSignal
  {
    NoTrendOrEnvelopeFeature(numerics, fs, window);
  }
}
