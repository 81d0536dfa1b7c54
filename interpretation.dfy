/** Human-readable interpretation (analytics/interpretation/interpretation_engine.py):
    a bearing reading when the early-fault dominant feature is `energy_high`,
    with its supporting features taken from the L1 features, and a generic
    reading otherwise. */
module Interpretation {
  import opened Features
  import Scoring
  import L1Features

  /** One entry of `supporting_features`; `trend` is what the trend object's
      `feature_trend` reports for the feature. */
  datatype Supporting = Supporting(name: string, value: real, unit: string, trend: Json)

  /** The dict `interpret` returns. */
  datatype Reading = Reading(
    asset: string, point: string,
    summary: string, suspectedFaults: seq<string>, component: string,
    supporting: seq<Supporting>, confidence: real,
    phi: real, state: string, fsmState: string, dominantFeature: Option<string>,
    timestamp: real)

  const BearingFeature: string := "energy_high"
  const EnvelopeFeature: string := "envelope_rms"

  /** `l1_features[name]`: a `KeyError` when the feature is missing. */
  function Require(features: FeatureVec, name: string): (r: Result<real>)
    ensures r.Ok? <==> name in Names(features)
    ensures r.Ok? ==> Get(features, name) == Some(r.value)
    ensures r.Err? ==> r.error == "KeyError: " + name
  {
    match Get(features, name)
    case Some(v) => Ok(v)
    case None => Err("KeyError: " + name)
  }

  /** `interpret` at time `now`; `featureTrend` stands for `trend.feature_trend`. */
  function Interpret(asset: string, point: string, l1Features: FeatureVec, featureTrend: string -> Json,
                     earlyFault: Scoring.EarlyFaultResult, phi: real, state: string, now: real): (r: Result<Reading>)
    ensures earlyFault.dominantFeature != Some(BearingFeature) ==>
      && r.Ok?
      && r.value.supporting == []
      && r.value.suspectedFaults == ["General mechanical degradation"]
    ensures earlyFault.dominantFeature == Some(BearingFeature) ==>
      && (r.Ok? <==> BearingFeature in Names(l1Features) && EnvelopeFeature in Names(l1Features))
      && (r.Ok? ==>
            && r.value.supporting == [
                 Supporting(BearingFeature, Get(l1Features, BearingFeature).value, "g²", featureTrend(BearingFeature)),
                 Supporting(EnvelopeFeature, Get(l1Features, EnvelopeFeature).value, "g", featureTrend(EnvelopeFeature))]
            && r.value.suspectedFaults == ["Bearing outer race defect", "Poor lubrication"])
    ensures r.Ok? ==>
      && r.value.asset == asset && r.value.point == point
      && r.value.confidence == earlyFault.confidence
      && r.value.phi == phi && r.value.state == state
      && r.value.fsmState == Scoring.StateValue(earlyFault.state)
      && r.value.dominantFeature == earlyFault.dominantFeature
      && r.value.timestamp == now
  {
    var dominant := earlyFault.dominantFeature;
    if dominant == Some(BearingFeature) then
      match Require(l1Features, BearingFeature)
      case Err(e) => Err(e)
      case Ok(energy) =>
        match Require(l1Features, EnvelopeFeature)
        case Err(e) => Err(e)
        case Ok(envelope) =>
          var supporting := [Supporting(BearingFeature, energy, "g²", featureTrend(BearingFeature)),
                             Supporting(EnvelopeFeature, envelope, "g", featureTrend(EnvelopeFeature))];
          Ok(Reading(asset, point, "Dominasi energi frekuensi tinggi mengarah ke degradasi bearing.",
                     ["Bearing outer race defect", "Poor lubrication"], "Bearing – Drive End",
                     supporting, earlyFault.confidence, phi, state, Scoring.StateValue(earlyFault.state),
                     dominant, now))
    else
      Ok(Reading(asset, point, "Indikasi degradasi mekanis umum.", ["General mechanical degradation"],
                 "Rotating assembly", [], earlyFault.confidence, phi, state, Scoring.StateValue(earlyFault.state),
                 dominant, now))
  }

  /** On the features the L1 pipeline emits, the bearing reading always fails
      with a `KeyError` for `envelope_rms`. */
  lemma BearingReadingFailsOnL1Features(numerics: L1Features.Numerics, fs: real, window: seq<real>,
                                        asset: string, point: string, featureTrend: string -> Json,
                                        earlyFault: Scoring.EarlyFaultResult, phi: real, state: string, now: real)
    requires earlyFault.dominantFeature == Some(BearingFeature)
    ensures Interpret(asset, point, L1Features.Compute(numerics, fs, window), featureTrend, earlyFault, phi, state, now)
            == Err("KeyError: " + EnvelopeFeature)
  {
    var features := L1Features.Compute(numerics, fs, window);
    L1Features.NoTrendOrEnvelopeFeature(numerics, fs, window);
    assert Names(features)[3] == BearingFeature;
  }
}
