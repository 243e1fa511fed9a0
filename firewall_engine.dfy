/**
 * The firewall engine: the decision rule of `analyze_traffic` (screen for an anomaly, then
 * classify, then block only above the hard-coded confidence threshold) and the engine
 * object that owns the block registry. The estimators' answers, the random probability
 * draw, the clock and the iptables outcomes are parameters; the cleanup thread becomes a
 * method for one pass, and the lock sections become ordinary sequential code.
 */
module Engine {
  import opened Wrappers
  import opened Statistics
  import opened AnomalyDetection
  import opened ThreatClassification
  import opened BlockRegistry

  /** A block is requested only for a confidence strictly above this. */
  const BlockThreshold: real := 0.85

  /** The triple `analyze_traffic` returns. */
  datatype Detection = Detection(isThreat: bool, threatName: string, confidence: real)

  const NormalResult: Detection := Detection(false, "Normal", 0.0)
  const ErrorResult: Detection := Detection(false, "Error", 0.0)

  /** What `analyze_traffic` returns, and whether it calls `_block_threat` first. */
  datatype Verdict = Verdict(detection: Detection, requestBlock: bool)

  /**
   * The decision of `analyze_traffic` for one feature vector. `screen` is the detector's
   * flag for it, `None` when the detector's `predict` raised; `fault` says that the
   * classifier's `predict` raised. `threatLabel` and `probabilities` are the classifier's
   * label and probability row for the vector.
   */
  function Decide(screen: Option<int>, fault: bool, threatLabel: int, probabilities: seq<real>,
                  classes: map<int, string>): Verdict
  {
    if screen.None? then Verdict(ErrorResult, false)
    else if screen.value == 0 then Verdict(NormalResult, false)
    else if fault || |probabilities| == 0 then Verdict(ErrorResult, false)
    else
      var confidence := MaxOf(probabilities);
      Verdict(Detection(true, ThreatName(classes, threatLabel), confidence), confidence > BlockThreshold)
  }

  /** A falsy screen gives the normal result and no block. */
  lemma NormalWhenNotFlagged(fault: bool, threatLabel: int, probabilities: seq<real>, classes: map<int, string>)
    ensures Decide(Some(0), fault, threatLabel, probabilities, classes) == Verdict(NormalResult, false)
  {
  }

  /** A screen that raised, or a flagged vector whose classification raised, gives the error result and no block. */
  lemma ErrorWhenRaised(screen: Option<int>, fault: bool, threatLabel: int, probabilities: seq<real>,
                        classes: map<int, string>)
    requires screen.None? || (screen.value != 0 && fault)
    ensures Decide(screen, fault, threatLabel, probabilities, classes) == Verdict(ErrorResult, false)
  {
  }

  /**
   * A flagged vector that classifies without error is reported as a threat named by the
   * class map ("Unknown" for a label it lacks), with the largest probability as confidence;
   * the block is requested exactly when that confidence exceeds 0.85.
   */
  lemma FlaggedDetection(flag: int, threatLabel: int, probabilities: seq<real>, classes: map<int, string>)
    requires flag != 0 && |probabilities| > 0
    ensures var v := Decide(Some(flag), false, threatLabel, probabilities, classes);
      v.detection.isThreat &&
      v.detection.threatName == (if threatLabel in classes then classes[threatLabel] else "Unknown") &&
      v.detection.confidence in probabilities &&
      (forall i :: 0 <= i < |probabilities| ==> probabilities[i] <= v.detection.confidence) &&
      (v.requestBlock <==> v.detection.confidence > BlockThreshold)
  {
  }

  /** A block is only ever requested for a reported threat whose confidence exceeds 0.85. */
  lemma BlockNeedsThreat(screen: Option<int>, fault: bool, threatLabel: int, probabilities: seq<real>,
                         classes: map<int, string>)
    ensures var v := Decide(screen, fault, threatLabel, probabilities, classes);
      v.requestBlock ==> v.detection.isThreat && v.detection.confidence > BlockThreshold
  {
  }

  /** A largest probability of exactly 0.85 is reported but not blocked. */
  lemma NoBlockAtThreshold(screen: Option<int>, fault: bool, threatLabel: int, probabilities: seq<real>,
                           classes: map<int, string>)
    requires |probabilities| > 0 && MaxOf(probabilities) == BlockThreshold
    ensures !Decide(screen, fault, threatLabel, probabilities, classes).requestBlock
  {
  }

  /**
   * `analyze_traffic` as the module is written: `np` is never imported, so `np.max` raises
   * `NameError` on every flagged vector and the handler turns it into the error result.
   */
  function DecideAsWritten(screen: Option<int>): Verdict {
    if screen.None? then Verdict(ErrorResult, false)
    else if screen.value == 0 then Verdict(NormalResult, false)
    else Verdict(ErrorResult, false)
  }

  /** As written, no vector is ever reported as a threat, and the engine never blocks. */
  lemma AsWrittenNeverDetects(screen: Option<int>)
    ensures !DecideAsWritten(screen).detection.isThreat && !DecideAsWritten(screen).requestBlock
    ensures screen.Some? && screen.value != 0 ==> DecideAsWritten(screen).detection == ErrorResult
  {
  }

  /**
   * A flagged vector the classifier calls DDoS with probability 0.9 is blocked by the
   * intended rule and reported as an error by the module as written.
   */
  lemma MissingImportWitness()
    ensures var v := Decide(Some(1), false, 2, [0.9, 0.025, 0.025, 0.025, 0.025], DefaultThreatClasses);
      v == Verdict(Detection(true, "DDoS", 0.9), true)
    ensures DecideAsWritten(Some(1)) == Verdict(ErrorResult, false)
  {
    var p: seq<real> := [0.9, 0.025, 0.025, 0.025, 0.025];
    assert p[1..] == [0.025, 0.025, 0.025, 0.025];
    assert p[1..][1..] == [0.025, 0.025, 0.025];
    assert p[1..][1..][1..] == [0.025, 0.025];
    assert p[1..][1..][1..][1..] == [0.025];
  }

  /** The screen `analyze_traffic` reads: the detector's flag for the one row `[features]`. */
  function Screen(detector: AnomalyDetector, features: Row, screenLabel: Row -> int, screenRaises: bool)
    : (s: Option<int>)
    reads detector
    ensures s.None? <==> !detector.isTrained || !detector.fitted || screenRaises
    ensures s.Some? ==> (s.value == 1 <==> screenLabel(features) == OutlierLabel)
    ensures s.Some? ==> (s.value == 0 <==> screenLabel(features) != OutlierLabel)
  {
    var r := detector.Predict([features], screenLabel, screenRaises);
    if r.None? then None else Some(r.value[0])
  }

  /**
   * The verdict for `features` given the two estimators' answers and whether each scaler
   * rejects the row, as `analyze_traffic` computes it.
   */
  function Analysis(detector: AnomalyDetector, classifier: ThreatClassifier, features: Row,
                   screenLabel: Row -> int, screenRaises: bool,
                   threatLabel: Row -> int, draw: seq<real>, classifyRaises: bool): Verdict
    reads detector, classifier
    requires classifier.isTrained ==> ValidDraw(draw)
  {
    var p := classifier.Predict([features], threatLabel, [draw], classifyRaises);
    Decide(Screen(detector, features, screenLabel, screenRaises), p.None?,
           if p.Some? then p.value.labels[0] else 0, if p.Some? then p.value.probabilities[0] else [],
           classifier.threatClasses)
  }

  /**
   * A detector that raises gives the error result for every vector: one that is untrained,
   * one whose estimator was rebuilt and never fitted, or one whose scaler rejects the row.
   */
  lemma DetectorFaultErrs(detector: AnomalyDetector, classifier: ThreatClassifier, features: Row,
                          screenLabel: Row -> int, screenRaises: bool,
                          threatLabel: Row -> int, draw: seq<real>, classifyRaises: bool)
    requires !detector.isTrained || !detector.fitted || screenRaises
    requires classifier.isTrained ==> ValidDraw(draw)
    ensures Analysis(detector, classifier, features, screenLabel, screenRaises, threatLabel, draw, classifyRaises)
         == Verdict(ErrorResult, false)
  {
  }

  /**
   * A flagged vector whose classification raises (a trained classifier with an unfitted
   * estimator, or a scaler that rejects the row) gives the error result and no block.
   */
  lemma ClassifierFaultErrs(detector: AnomalyDetector, classifier: ThreatClassifier, features: Row,
                            screenLabel: Row -> int, threatLabel: Row -> int, draw: seq<real>,
                            classifyRaises: bool)
    requires detector.isTrained && detector.fitted && screenLabel(features) == OutlierLabel
    requires classifier.isTrained && ValidDraw(draw) && (!classifier.fitted || classifyRaises)
    ensures Analysis(detector, classifier, features, screenLabel, false, threatLabel, draw, classifyRaises)
         == Verdict(ErrorResult, false)
  {
  }

  /**
   * With an untrained classifier a flagged vector is reported under the name of label 0
   * with confidence 0.2, whatever names the classifier holds, and nothing is ever blocked.
   */
  lemma UntrainedClassifierNeverBlocks(detector: AnomalyDetector, classifier: ThreatClassifier, features: Row,
                                       screenLabel: Row -> int, screenRaises: bool,
                                       threatLabel: Row -> int, draw: seq<real>, classifyRaises: bool)
    requires !classifier.isTrained
    ensures var v := Analysis(detector, classifier, features, screenLabel, screenRaises, threatLabel, draw, classifyRaises);
      !v.requestBlock &&
      (v.detection.isThreat ==> v.detection == Detection(true, ThreatName(classifier.threatClasses, 0), 0.2))
  {
    UniformRowFacts();
  }

  /** Under the default names, so for a new classifier, that name is "Normal". */
  lemma UntrainedDefaultClassifierSaysNormal(detector: AnomalyDetector, classifier: ThreatClassifier,
                                             features: Row, screenLabel: Row -> int, screenRaises: bool,
                                             threatLabel: Row -> int, draw: seq<real>, classifyRaises: bool)
    requires !classifier.isTrained && classifier.threatClasses == DefaultThreatClasses
    ensures var v := Analysis(detector, classifier, features, screenLabel, screenRaises, threatLabel, draw, classifyRaises);
      !v.requestBlock && (v.detection.isThreat ==> v.detection == Detection(true, "Normal", 0.2))
  {
    UntrainedClassifierNeverBlocks(detector, classifier, features, screenLabel, screenRaises, threatLabel, draw,
                                   classifyRaises);
  }

  /** One step of listing the set `all`: appending `ip`, one of those not yet listed. */
  lemma ListStep(all: set<string>, rest: set<string>, listed: seq<string>, ip: string)
    requires rest <= all && ip in rest
    requires (set x | x in listed) == all - rest && |listed| == |all - rest|
    requires forall i, j :: 0 <= i < j < |listed| ==> listed[i] != listed[j]
    ensures var listed' := listed + [ip];
      (set x | x in listed') == all - (rest - {ip}) && |listed'| == |all - (rest - {ip})| &&
      forall i, j :: 0 <= i < j < |listed'| ==> listed'[i] != listed'[j]
  {
    var done := all - rest;
    assert ip !in done && all - (rest - {ip}) == done + {ip};
    assert |done + {ip}| == |done| + 1;
    assert forall x :: x in listed + [ip] <==> x in listed || x == ip;
  }

  /** What `get_status` reports. */
  datatype Status = Status(blockedCount: nat, suspiciousCount: nat, blockedIps: seq<string>,
                           detectorTrained: bool, classifierTrained: bool)

  class FirewallEngine {
    const detector: AnomalyDetector
    const classifier: ThreatClassifier
    var blockedIps: set<string>
    /** `suspicious_ips`: the second each blocked address was blocked at. */
    var suspiciousIps: map<string, int>

    function State(): Registry
      reads this
    {
      Registry(blockedIps, suspiciousIps)
    }

    ghost predicate Valid()
      reads this
    {
      Inv(State())
    }

    constructor (detector: AnomalyDetector, classifier: ThreatClassifier)
      ensures Valid() && State() == EmptyRegistry
      ensures this.detector == detector && this.classifier == classifier
    {
      this.detector := detector;
      this.classifier := classifier;
      blockedIps := {};
      suspiciousIps := map[];
    }

    /**
     * `analyze_traffic(features, packet_info)` at second `now`: returns the verdict's
     * detection and blocks `srcIp` first when the verdict asks for it.
     */
    method AnalyzeTraffic(features: Row, srcIp: Option<string>, now: int,
                          screenLabel: Row -> int, screenRaises: bool,
                          threatLabel: Row -> int, draw: seq<real>, classifyRaises: bool, addSucceeds: bool)
      returns (d: Detection, calls: seq<RuleCall>)
      requires Valid()
      requires classifier.isTrained ==> ValidDraw(draw)
      modifies this
      ensures Valid()
      ensures var v := Analysis(detector, classifier, features, screenLabel, screenRaises, threatLabel, draw,
                                classifyRaises);
        d == v.detection &&
        State() == (if v.requestBlock then AfterBlock(old(State()), srcIp, now) else old(State())) &&
        calls == (if v.requestBlock then BlockCalls(old(State()), srcIp, addSucceeds) else [])
    {
      var isAnomaly := Screen(detector, features, screenLabel, screenRaises);
      if isAnomaly.None? {
        return ErrorResult, [];
      }
      if isAnomaly.value == 0 {
        return NormalResult, [];
      }
      var p := classifier.Predict([features], threatLabel, [draw], classifyRaises);
      if p.None? || |p.value.probabilities[0]| == 0 {
        return ErrorResult, [];
      }
      var confidence := MaxOf(p.value.probabilities[0]);
      var threatName := ThreatName(classifier.threatClasses, p.value.labels[0]);
      calls := [];
      if confidence > BlockThreshold {
        calls := BlockThreat(srcIp, now, addSucceeds);
      }
      d := Detection(true, threatName, confidence);
    }

    /**
     * `_block_threat`: past the guard, the address is recorded in both structures with time
     * `now`, then one "add rule" call is made, whose failure is only logged.
     */
    method BlockThreat(srcIp: Option<string>, now: int, addSucceeds: bool) returns (calls: seq<RuleCall>)
      requires Valid()
      modifies this
      ensures Valid()
      ensures State() == AfterBlock(old(State()), srcIp, now)
      ensures calls == BlockCalls(old(State()), srcIp, addSucceeds)
    {
      if srcIp.None? || srcIp.value == "" || srcIp.value in blockedIps {
        return [];
      }
      var ip := srcIp.value;
      blockedIps := blockedIps + {ip};
      suspiciousIps := suspiciousIps[ip := now];
      calls := [RuleCall(AddRule, ip, addSucceeds)];
    }

    /**
     * One pass of `_cleanup_loop` at second `now`: one "remove rule" call per expired
     * address, each address dropped from both structures only when its call succeeds.
     * The calls are made in an unspecified order.
     */
    method CleanupPass(now: int, removeSucceeds: string -> bool) returns (calls: seq<RuleCall>)
      requires Valid()
      modifies this
      ensures Valid()
      ensures State() == AfterCleanup(old(State()), now, removeSucceeds)
      ensures |calls| == |Expired(old(State()), now)|
      ensures CallIps(calls) == Expired(old(State()), now)
      ensures forall c :: c in calls ==> c.action == RemoveRule && c.succeeded == removeSucceeds(c.ip)
    {
      ghost var start := State();
      var expiredIps := Expired(State(), now);
      var pending := expiredIps;
      calls := [];
      while pending != {}
        invariant pending <= expiredIps
        invariant State() == Unblocked(start, Removed(expiredIps - pending, removeSucceeds))
        invariant CallIps(calls) == expiredIps - pending
        invariant |calls| == |expiredIps - pending|
        invariant forall c :: c in calls ==> c.action == RemoveRule && c.succeeded == removeSucceeds(c.ip)
        decreases |pending|
      {
        var ip :| ip in pending;
        var ok := removeSucceeds(ip);
        CleanupStep(start, expiredIps, pending, ip, calls, removeSucceeds);
        calls := calls + [RuleCall(RemoveRule, ip, ok)];
        if ok {
          Unblock(ip);
        }
        pending := pending - {ip};
      }
      assert expiredIps - pending == expiredIps;
      CleanupKeepsInv(start, now, removeSucceeds);
    }

    /** The two deletions after a successful "remove rule" call. */
    method Unblock(ip: string)
      modifies this
      ensures State() == Unblocked(old(State()), {ip})
    {
      blockedIps := blockedIps - {ip};
      suspiciousIps := suspiciousIps - {ip};
    }

    /** `get_status`: both sizes, the blocked addresses without repeats, and the two trained flags. */
    method GetStatus() returns (s: Status)
      requires Valid()
      ensures s.blockedCount == |blockedIps| && s.suspiciousCount == |suspiciousIps|
      ensures s.blockedCount == s.suspiciousCount
      ensures |s.blockedIps| == |blockedIps| && (set ip | ip in s.blockedIps) == blockedIps
      ensures forall i, j :: 0 <= i < j < |s.blockedIps| ==> s.blockedIps[i] != s.blockedIps[j]
      ensures s.detectorTrained == detector.isTrained && s.classifierTrained == classifier.isTrained
    {
      var listed: seq<string> := [];
      var rest := blockedIps;
      while rest != {}
        invariant rest <= blockedIps
        invariant (set ip | ip in listed) == blockedIps - rest
        invariant |listed| == |blockedIps - rest|
        invariant forall i, j :: 0 <= i < j < |listed| ==> listed[i] != listed[j]
        decreases |rest|
      {
        var ip :| ip in rest;
        ListStep(blockedIps, rest, listed, ip);
        listed := listed + [ip];
        rest := rest - {ip};
      }
      assert |suspiciousIps| == |suspiciousIps.Keys|;
      s := Status(|blockedIps|, |suspiciousIps|, listed, detector.isTrained, classifier.isTrained);
    }
  }
}
