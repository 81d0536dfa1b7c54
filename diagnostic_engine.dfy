/** The L2 rule evaluator (diagnostic_l2/diagnostic_engine.py): two threshold
    rules on an L1 snapshot's features, the fault type they point to, a
    confidence that grows with the number of rules fired, and the fired
    metric of largest value. It keeps no state. */
module Diagnostics {
  import opened Features

  /** The two rules, in the order `run` evaluates them. */
  datatype Rule = IsoZoneC | EnvelopeBpfiPeak

  /** The rule's name in `rules_triggered`. */
  function RuleName(r: Rule): string {
    match r
    case IsoZoneC => "ISO_20816_ZONE_C"
    case EnvelopeBpfiPeak => "ENVELOPE_BPFI_PEAK"
  }

  datatype FaultType = BearingOuterRace | MechanicalSeverityHigh

  function FaultName(f: FaultType): string {
    match f
    case BearingOuterRace => "BEARING_OUTER_RACE"
    case MechanicalSeverityHigh => "MECHANICAL_SEVERITY_HIGH"
  }

  const VelocityFeature: string := "overall_vel_rms_mm_s"
  const EnvelopeFeature: string := "envelope_rms"
  /** ISO 20816 zone C boundary for overall velocity RMS, in mm/s. */
  const ZoneCVelocity: real := 7.1
  const BpfiEnvelope: real := 0.35

  /** The feature a rule reads, and the limit it must exceed strictly. */
  function RuleFeature(r: Rule): string {
    match r
    case IsoZoneC => VelocityFeature
    case EnvelopeBpfiPeak => EnvelopeFeature
  }

  function RuleLimit(r: Rule): real {
    match r
    case IsoZoneC => ZoneCVelocity
    case EnvelopeBpfiPeak => BpfiEnvelope
  }

  /** A rule fires when its feature is present and above its limit. */
  predicate Fires(features: FeatureVec, r: Rule) {
    var v := Get(features, RuleFeature(r));
    v.Some? && v.value > RuleLimit(r)
  }

  /** The part of `l1_snapshot` that `run` reads: its "features" entry. */
  datatype L1Snapshot = L1Snapshot(features: Option<FeatureVec>)

  /** The dict `run` returns. */
  datatype Diagnosis = Diagnosis(
    faultType: Option<FaultType>, confidence: real, dominantFeature: Option<string>,
    rulesTriggered: seq<Rule>, metrics: FeatureVec)

  /** `_classify_fault`: the BPFI rule takes precedence over zone C. */
  function ClassifyFault(rules: seq<Rule>): (f: Option<FaultType>)
    ensures f == Some(BearingOuterRace) <==> EnvelopeBpfiPeak in rules
    ensures f == Some(MechanicalSeverityHigh) <==> IsoZoneC in rules && EnvelopeBpfiPeak !in rules
    ensures f == None <==> IsoZoneC !in rules && EnvelopeBpfiPeak !in rules
  {
    if EnvelopeBpfiPeak in rules then Some(BearingOuterRace)
    else if IsoZoneC in rules then Some(MechanicalSeverityHigh)
    else None
  }

  /** `_confidence`: 0 with no rule, else `min(1.0, 0.6 + 0.2 * n)`. */
  function RuleConfidence(rules: seq<Rule>): (c: real)
    ensures 0.0 <= c <= 1.0
    ensures c == 0.0 <==> rules == []
    ensures |rules| == 1 ==> c == 0.8
    ensures |rules| >= 2 ==> c == 1.0
  {
    if rules == [] then 0.0
    else
      var raised := 0.6 + 0.2 * |rules| as real;
      if raised < 1.0 then raised else 1.0
  }

  /** A larger set of fired rules never lowers the confidence. */
  lemma RuleConfidenceMonotone(r1: seq<Rule>, r2: seq<Rule>)
    requires |r1| <= |r2|
    ensures RuleConfidence(r1) <= RuleConfidence(r2)
  {
  }

  /** `_dominant_feature`: the metric of largest value, the first one in
      insertion order on a tie; `None` without metrics. */
  function DominantFeature(metrics: FeatureVec): (d: Option<string>)
    ensures d.None? <==> metrics == []
  {
    if metrics == [] then None
    else Some(metrics[ArgMax(metrics, Identity)].0)
  }

  function Identity(x: real): real { x }

  /** The dominant feature is a metric of largest value, the first such in
      insertion order. */
  lemma DominantIsLargest(metrics: FeatureVec)
    requires metrics != []
    ensures exists i :: 0 <= i < |metrics| && metrics[i].0 == DominantFeature(metrics).value
                          && (forall j :: 0 <= j < |metrics| ==> metrics[j].1 <= metrics[i].1)
                          && (forall j :: 0 <= j < i ==> metrics[j].1 < metrics[i].1)
  {
    ArgMaxIsFirstLargest(metrics, Identity);
    var i := ArgMax(metrics, Identity);
    assert metrics[i].0 == DominantFeature(metrics).value;
  }

  /** The metric entry a fired rule records: its feature and that feature's value. */
  function Metric(features: FeatureVec, r: Rule): (string, real)
    requires Fires(features, r)
  {
    (RuleFeature(r), Get(features, RuleFeature(r)).value)
  }

  /** The rule checks of `run`, in evaluation order: each rule that fires is
      appended to `rules_triggered` and records its metric in `metrics`. */
  function Triggered(features: FeatureVec): (seq<Rule>, FeatureVec) {
    var zoneC := Fires(features, IsoZoneC);
    var bpfi := Fires(features, EnvelopeBpfiPeak);
    ((if zoneC then [IsoZoneC] else []) + (if bpfi then [EnvelopeBpfiPeak] else []),
     (if zoneC then [Metric(features, IsoZoneC)] else []) + (if bpfi then [Metric(features, EnvelopeBpfiPeak)] else []))
  }

  /** The rules listed are exactly those that fire, zone C first. */
  lemma TriggeredRules(features: FeatureVec)
    ensures var rules := Triggered(features).0;
      && (IsoZoneC in rules <==> Fires(features, IsoZoneC))
      && (EnvelopeBpfiPeak in rules <==> Fires(features, EnvelopeBpfiPeak))
      && (forall i, j :: 0 <= i < j < |rules| ==> rules[i] == IsoZoneC && rules[j] == EnvelopeBpfiPeak)
  {
    RulesInOrder(Fires(features, IsoZoneC), Fires(features, EnvelopeBpfiPeak));
  }

  /** The list the two checks build from their outcomes. */
  lemma RulesInOrder(zoneC: bool, bpfi: bool)
    ensures var rules := (if zoneC then [IsoZoneC] else []) + (if bpfi then [EnvelopeBpfiPeak] else []);
      && (IsoZoneC in rules <==> zoneC)
      && (EnvelopeBpfiPeak in rules <==> bpfi)
      && (forall i, j :: 0 <= i < j < |rules| ==> rules[i] == IsoZoneC && rules[j] == EnvelopeBpfiPeak)
  {
    var rules := (if zoneC then [IsoZoneC] else []) + (if bpfi then [EnvelopeBpfiPeak] else []);
    if zoneC && bpfi {
      assert rules == [IsoZoneC, EnvelopeBpfiPeak];
    }
  }

  /** One metric per listed rule, in the same order: the rule's feature and
      the value `features` holds for it. */
  lemma TriggeredMetrics(features: FeatureVec)
    ensures var (rules, metrics) := Triggered(features);
      && |metrics| == |rules|
      && (forall i :: 0 <= i < |metrics| ==>
            metrics[i].0 == RuleFeature(rules[i]) && Get(features, metrics[i].0) == Some(metrics[i].1))
  {
    var zoneC := Fires(features, IsoZoneC);
    var bpfi := Fires(features, EnvelopeBpfiPeak);
    var a := if zoneC then Metric(features, IsoZoneC) else (RuleFeature(IsoZoneC), 0.0);
    var b := if bpfi then Metric(features, EnvelopeBpfiPeak) else (RuleFeature(EnvelopeBpfiPeak), 0.0);
    MetricsInOrder(zoneC, bpfi, a, b);
  }

  /** The metrics list the two checks build, entry by entry beside the rules list. */
  lemma MetricsInOrder(zoneC: bool, bpfi: bool, a: (string, real), b: (string, real))
    ensures var rules := (if zoneC then [IsoZoneC] else []) + (if bpfi then [EnvelopeBpfiPeak] else []);
      var metrics := (if zoneC then [a] else []) + (if bpfi then [b] else []);
      && |metrics| == |rules|
      && (forall i :: 0 <= i < |metrics| ==> metrics[i] == (if rules[i] == IsoZoneC then a else b))
  {
    if zoneC && bpfi {
      assert [a] + [b] == [a, b];
      assert [IsoZoneC] + [EnvelopeBpfiPeak] == [IsoZoneC, EnvelopeBpfiPeak];
    }
  }

  /** `run`: a missing "features" entry reads as an empty dict. */
  function Run(snapshot: L1Snapshot): (d: Diagnosis)
    ensures snapshot.features.None? ==> d == Diagnosis(None, 0.0, None, [], [])
  {
    var features := if snapshot.features.Some? then snapshot.features.value else [];
    var (rules, metrics) := Triggered(features);
    Diagnosis(ClassifyFault(rules), RuleConfidence(rules), DominantFeature(metrics), rules, metrics)
  }

  /** The fault type follows the rules that fire: the envelope rule means a
      bearing fault, the zone C rule alone a mechanical one, neither none; the
      confidence is 0 exactly when no rule fires. */
  lemma RunClassifies(features: FeatureVec)
    ensures var d := Run(L1Snapshot(Some(features)));
      var zoneC := Fires(features, IsoZoneC);
      var bpfi := Fires(features, EnvelopeBpfiPeak);
      && (d.faultType == Some(BearingOuterRace) <==> bpfi)
      && (d.faultType == Some(MechanicalSeverityHigh) <==> zoneC && !bpfi)
      && (d.faultType == None <==> !zoneC && !bpfi)
      && (d.confidence == 0.0 <==> !zoneC && !bpfi)
  {
    TriggeredRules(features);
  }

  /** Both rules fire: the bearing fault wins, confidence is 1, and the
      velocity metric is dominant only when it is at least the envelope value. */
  lemma BothRulesFire(features: FeatureVec)
    requires Fires(features, IsoZoneC) && Fires(features, EnvelopeBpfiPeak)
    ensures var d := Run(L1Snapshot(Some(features)));
      && d.rulesTriggered == [IsoZoneC, EnvelopeBpfiPeak]
      && d.faultType == Some(BearingOuterRace)
      && d.confidence == 1.0
      && (d.dominantFeature == Some(VelocityFeature) <==>
            Get(features, EnvelopeFeature).value <= Get(features, VelocityFeature).value)
  {
    var d := Run(L1Snapshot(Some(features)));
    var v := Get(features, VelocityFeature).value;
    var e := Get(features, EnvelopeFeature).value;
    BothRulesRecorded(features);
    DominantOfTwo((VelocityFeature, v), (EnvelopeFeature, e));
    DistinctRuleFeatures();
  }

  /** With both rules firing, both are listed and both metrics recorded, zone C first. */
  lemma BothRulesRecorded(features: FeatureVec)
    requires Fires(features, IsoZoneC) && Fires(features, EnvelopeBpfiPeak)
    ensures var d := Run(L1Snapshot(Some(features)));
      && d.rulesTriggered == [IsoZoneC, EnvelopeBpfiPeak]
      && d.metrics == [(VelocityFeature, Get(features, VelocityFeature).value),
                       (EnvelopeFeature, Get(features, EnvelopeFeature).value)]
  {
  }

  /** The two rules read different features. */
  lemma DistinctRuleFeatures()
    ensures VelocityFeature != EnvelopeFeature
  {
    assert VelocityFeature[0] != EnvelopeFeature[0];
  }

  /** Of two metrics, the second is dominant only when strictly larger. */
  lemma DominantOfTwo(a: (string, real), b: (string, real))
    ensures DominantFeature([a, b]) == Some(if b.1 > a.1 then b.0 else a.0)
  {
    assert [a, b][..1] == [a];
  }
}
