/**
 * The threat classifier's contract: its class names, which estimator is built, when it
 * counts as trained, and the shape of what `predict` returns in both states. A trained
 * classifier's probabilities are not the estimator's: they are `np.random.rand` rows
 * divided by their sums, so the draws are a parameter.
 */
module ThreatClassification {
  import opened Wrappers
  import opened Statistics

  /** The number of threat classes, and so the width of every probability row. */
  const ClassCount: nat := 5

  const DefaultThreatClasses: map<int, string> :=
    map[0 := "Normal", 1 := "Port Scan", 2 := "DDoS", 3 := "Malware", 4 := "Brute Force"]

  /** `np.ones(5) * 0.2`, the probability row of an untrained classifier. */
  const UniformRow: seq<real> := [0.2, 0.2, 0.2, 0.2, 0.2]

  /** The estimators `build_model` can create. */
  datatype ClassifierModel = RandomForest | NeuralNetwork

  /**
   * What `save_model` writes: the estimator, whether it was fitted, and the class names; a
   * file written elsewhere may lack `threat_classes`.
   */
  datatype SavedClassifier = SavedClassifier(model: ClassifierModel, fitted: bool,
                                             threatClasses: Option<map<int, string>>)

  /** `predict`'s pair: one label per row and one probability row per row. */
  datatype Prediction = Prediction(labels: seq<int>, probabilities: seq<seq<real>>)

  /**
   * One row of `np.random.rand(n, 5)`: five values in `[0, 1)`. A row of five zeros, on
   * which the normalisation would divide by zero, has probability zero and is excluded.
   */
  predicate ValidDraw(d: seq<real>) {
    |d| == ClassCount && NonNegative(d) && (forall i :: 0 <= i < |d| ==> d[i] < 1.0) && Sum(d) > 0.0
  }

  /** `probabilities / probabilities.sum(axis=1, keepdims=True)` for one row. */
  function Normalised(d: seq<real>): (p: seq<real>)
    requires ValidDraw(d)
    ensures |p| == ClassCount
  {
    Scaled(d, Sum(d))
  }

  /** The estimator `model_type` names, or `None` where `build_model` raises `ValueError`. */
  function ModelFor(modelType: string): (m: Option<ClassifierModel>)
    ensures m.Some? <==> modelType == "random_forest" || modelType == "neural_network"
  {
    if modelType == "random_forest" then Some(RandomForest)
    else if modelType == "neural_network" then Some(NeuralNetwork)
    else None
  }

  /** `threat_classes.get(classId, 'Unknown')`. */
  function ThreatName(classes: map<int, string>, classId: int): (name: string)
    ensures classId in classes ==> name == classes[classId]
    ensures classId !in classes ==> name == "Unknown"
  {
    if classId in classes then classes[classId] else "Unknown"
  }

  /** The default names of labels 0 to 4; any other label is unknown. */
  lemma DefaultNames(classId: int)
    ensures ThreatName(DefaultThreatClasses, classId) ==
      if classId == 0 then "Normal" else if classId == 1 then "Port Scan" else if classId == 2 then "DDoS"
      else if classId == 3 then "Malware" else if classId == 4 then "Brute Force" else "Unknown"
  {
  }

  /** The untrained row sums to one and its largest entry is 0.2. */
  lemma UniformRowFacts()
    ensures IsDistribution(UniformRow)
    ensures MaxOf(UniformRow) == 0.2
  {
    assert UniformRow[1..] == [0.2, 0.2, 0.2, 0.2];
    assert UniformRow[1..][1..] == [0.2, 0.2, 0.2];
    assert UniformRow[1..][1..][1..] == [0.2, 0.2];
    assert UniformRow[1..][1..][1..][1..] == [0.2];
  }

  class ThreatClassifier {
    const modelType: string
    /** `None` until `build_model` or `load_model` sets an estimator. */
    var model: Option<ClassifierModel>
    /** Whether the current estimator has been fitted; a fresh one from `build_model` has not. */
    var fitted: bool
    var isTrained: bool
    var threatClasses: map<int, string>

    /** A fitted or trained classifier has an estimator. */
    ghost predicate Valid()
      reads this
    {
      (isTrained ==> model.Some?) && (fitted ==> model.Some?)
    }

    constructor (modelType: string)
      ensures Valid() && this.modelType == modelType
      ensures model.None? && !fitted && !isTrained && threatClasses == DefaultThreatClasses
    {
      this.modelType := modelType;
      model := None;
      fitted := false;
      isTrained := false;
      threatClasses := DefaultThreatClasses;
    }

    /**
     * `build_model`: creates a fresh, unfitted estimator of the kind `model_type` names and
     * returns `true`, or raises (`false`) and changes nothing. Building does not reset
     * `isTrained`, so a classifier rebuilt after training is still flagged as trained.
     */
    method BuildModel() returns (ok: bool)
      requires Valid()
      modifies this
      ensures Valid()
      ensures ok <==> modelType == "random_forest" || modelType == "neural_network"
      ensures model == (if ok then ModelFor(modelType) else old(model))
      ensures fitted == (if ok then false else old(fitted))
      ensures isTrained == old(isTrained) && threatClasses == old(threatClasses)
    {
      var built := ModelFor(modelType);
      if built.None? {
        return false;
      }
      model := built;
      fitted := false;
      ok := true;
    }

    /**
     * `train`: only a completed scale-and-fit (`fitSucceeds`, on an existing estimator)
     * marks the estimator fitted and sets `isTrained`; an exception is logged and leaves
     * every field as it was.
     */
    method Train(x: seq<Row>, y: seq<int>, fitSucceeds: bool)
      requires Valid()
      modifies this
      ensures Valid()
      ensures model == old(model) && threatClasses == old(threatClasses)
      ensures fitted == (old(fitted) || (old(model).Some? && fitSucceeds))
      ensures isTrained == (old(isTrained) || (old(model).Some? && fitSucceeds))
    {
      if model.Some? && fitSucceeds {
        fitted := true;
        isTrained := true;
      }
    }

    /**
     * `predict`: untrained, label 0 and the uniform row for every input row. Trained, it
     * raises (`None`) when the scaler rejects `x` (`transformRaises`, a row of another width
     * than it was fitted on) or the estimator was never fitted (`NotFittedError`), and
     * otherwise gives the estimator's label and the normalised random draw for each row.
     */
    function Predict(x: seq<Row>, labelOf: Row -> int, draws: seq<seq<real>>, transformRaises: bool)
      : (p: Option<Prediction>)
      reads this
      requires isTrained ==> |draws| == |x| && forall i :: 0 <= i < |draws| ==> ValidDraw(draws[i])
      ensures p.None? <==> isTrained && (transformRaises || !fitted)
      ensures p.Some? ==> |p.value.labels| == |x| && |p.value.probabilities| == |x|
      ensures p.Some? ==> forall i :: 0 <= i < |x| ==> |p.value.probabilities[i]| == ClassCount
      ensures !isTrained ==> forall i :: 0 <= i < |x| ==>
        p.value.labels[i] == 0 && p.value.probabilities[i] == UniformRow
      ensures p.Some? && isTrained ==> forall i :: 0 <= i < |x| ==> p.value.labels[i] == labelOf(x[i])
    {
      if !isTrained then
        Some(Prediction(seq(|x|, _ => 0), seq(|x|, _ => UniformRow)))
      else if transformRaises || !fitted then
        None
      else
        Some(Prediction(seq(|x|, i requires 0 <= i < |x| => labelOf(x[i])),
                        seq(|x|, i requires 0 <= i < |x| => Normalised(draws[i]))))
    }

    /** `save_model`: writes the estimator, fitted or not, and the class names only when trained. */
    method SaveModel() returns (saved: Option<SavedClassifier>)
      requires Valid()
      ensures saved.Some? <==> isTrained
      ensures saved.Some? ==> saved.value == SavedClassifier(model.value, fitted, Some(threatClasses))
    {
      if isTrained {
        return Some(SavedClassifier(model.value, fitted, Some(threatClasses)));
      }
      return None;
    }

    /**
     * `load_model`: a file that reads back installs its estimator, replaces the class
     * names only if it holds them, and sets `isTrained`; a failed read (`None`) is logged
     * and clears `isTrained`.
     */
    method LoadModel(data: Option<SavedClassifier>)
      requires Valid()
      modifies this
      ensures Valid()
      ensures isTrained == data.Some?
      ensures data.Some? ==> model == Some(data.value.model) && fitted == data.value.fitted
      ensures data.Some? ==> threatClasses == data.value.threatClasses.GetOr(old(threatClasses))
      ensures data.None? ==> model == old(model) && fitted == old(fitted) && threatClasses == old(threatClasses)
    {
      if data.None? {
        isTrained := false;
        return;
      }
      model := Some(data.value.model);
      fitted := data.value.fitted;
      threatClasses := data.value.threatClasses.GetOr(threatClasses);
      isTrained := true;
    }
  }

  /** Every probability row `predict` returns, trained or not, is a distribution over the five classes. */
  lemma PredictionsAreDistributions(c: ThreatClassifier, x: seq<Row>, labelOf: Row -> int, draws: seq<seq<real>>,
                                    transformRaises: bool)
    requires c.isTrained ==> |draws| == |x| && forall i :: 0 <= i < |draws| ==> ValidDraw(draws[i])
    requires c.Predict(x, labelOf, draws, transformRaises).Some?
    ensures forall i :: 0 <= i < |x| ==> IsDistribution(c.Predict(x, labelOf, draws, transformRaises).value.probabilities[i])
  {
    var p := c.Predict(x, labelOf, draws, transformRaises).value;
    forall i | 0 <= i < |x|
      ensures IsDistribution(p.probabilities[i])
    {
      if c.isTrained {
        NormalisedIsDistribution(draws[i]);
      } else {
        UniformRowFacts();
      }
    }
  }

  /**
   * Building, training and building again leaves a classifier that reports itself trained
   * but raises on every prediction, because the second `build_model` replaced the fitted
   * estimator with an unfitted one.
   */
  method RebuiltAfterTraining(x: seq<Row>, y: seq<int>, labelOf: Row -> int, draws: seq<seq<real>>)
    returns (trained: bool, p: Option<Prediction>)
    requires |draws| == |x| && forall i :: 0 <= i < |draws| ==> ValidDraw(draws[i])
    ensures trained && p.None?
  {
    var c := new ThreatClassifier("random_forest");
    var ok := c.BuildModel();
    c.Train(x, y, true);
    ok := c.BuildModel();
    trained := c.isTrained;
    p := c.Predict(x, labelOf, draws, false);
  }
}
