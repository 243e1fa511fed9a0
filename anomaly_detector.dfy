/**
 * The anomaly screen's contract: which estimator is built, when the detector counts as
 * trained, and how scikit-learn's outlier labels become the 0/1 flags the engine reads.
 * What an estimator learns and predicts is outside the model: prediction takes the
 * fitted estimator's label for each row as a function.
 */
module AnomalyDetection {
  import opened Wrappers
  import opened Statistics

  /** The estimators `build_model` can create. */
  datatype DetectorModel = IsolationForest | OneClassSvm

  /**
   * What `save_model` writes and `load_model` reads back: the estimator and whether it was
   * fitted (a detector rebuilt after training is saved with a fresh, unfitted estimator).
   * The scaler is not modelled.
   */
  datatype SavedDetector = SavedDetector(model: DetectorModel, fitted: bool)

  /** scikit-learn's label for an outlier. */
  const OutlierLabel: int := -1

  /** The estimator's label for every row, in order. */
  function Labels(x: seq<Row>, labelOf: Row -> int): (r: seq<int>)
    ensures |r| == |x|
  {
    seq(|x|, i requires 0 <= i < |x| => labelOf(x[i]))
  }

  /** `(predictions == -1).astype(int)`: 1 for an outlier, 0 for anything else. */
  function ToBinary(labels: seq<int>): (r: seq<int>)
    ensures |r| == |labels|
    ensures forall i :: 0 <= i < |r| ==> (r[i] == 1 <==> labels[i] == OutlierLabel)
    ensures forall i :: 0 <= i < |r| ==> r[i] == 0 || r[i] == 1
  {
    seq(|labels|, i requires 0 <= i < |labels| => if labels[i] == OutlierLabel then 1 else 0)
  }

  /** The estimator `model_type` names, or `None` where `build_model` raises `ValueError`. */
  function ModelFor(modelType: string): (m: Option<DetectorModel>)
    ensures m.Some? <==> modelType == "isolation_forest" || modelType == "svm"
  {
    if modelType == "isolation_forest" then Some(IsolationForest)
    else if modelType == "svm" then Some(OneClassSvm)
    else None
  }

  class AnomalyDetector {
    const modelType: string
    /** `None` until `build_model` or `load_model` sets an estimator. */
    var model: Option<DetectorModel>
    /** Whether the current estimator has been fitted; a fresh one from `build_model` has not. */
    var fitted: bool
    var isTrained: bool

    /** A fitted or trained detector has an estimator. */
    ghost predicate Valid()
      reads this
    {
      (isTrained ==> model.Some?) && (fitted ==> model.Some?)
    }

    constructor (modelType: string)
      ensures Valid() && this.modelType == modelType
      ensures model.None? && !fitted && !isTrained
    {
      this.modelType := modelType;
      model := None;
      fitted := false;
      isTrained := false;
    }

    /**
     * `build_model`: creates a fresh, unfitted estimator of the kind `model_type` names and
     * returns `true`, or raises (`false`) and changes nothing. Building does not reset
     * `isTrained`, so a detector rebuilt after training is still flagged as trained.
     */
    method BuildModel() returns (ok: bool)
      requires Valid()
      modifies this
      ensures Valid()
      ensures ok <==> modelType == "isolation_forest" || modelType == "svm"
      ensures model == (if ok then ModelFor(modelType) else old(model))
      ensures fitted == (if ok then false else old(fitted))
      ensures isTrained == old(isTrained)
    {
      var built := ModelFor(modelType);
      if built.None? {
        return false;
      }
      model := built;
      fitted := false;
      ok := true;
    }

    /**
     * `train`: scaling and fitting either complete (`fitSucceeds`) or raise; a detector
     * with no estimator raises at `self.model.fit`. Only a completed fit marks the estimator
     * fitted and sets `isTrained`; an exception is logged and leaves both as they were.
     */
    method Train(x: seq<Row>, fitSucceeds: bool)
      requires Valid()
      modifies this
      ensures Valid()
      ensures model == old(model)
      ensures fitted == (old(fitted) || (old(model).Some? && fitSucceeds))
      ensures isTrained == (old(isTrained) || (old(model).Some? && fitSucceeds))
    {
      if model.Some? && fitSucceeds {
        fitted := true;
        isTrained := true;
      }
    }

    /**
     * `predict`: raises (`None`) when untrained (`ValueError`), when the scaler rejects `x`
     * (`transformRaises`, a row of another width than it was fitted on), or when the
     * estimator was never fitted (`NotFittedError`); otherwise one 0/1 flag per row, 1
     * exactly where the estimator labels the row an outlier.
     */
    function Predict(x: seq<Row>, labelOf: Row -> int, transformRaises: bool): (r: Option<seq<int>>)
      reads this
      ensures r.None? <==> !isTrained || transformRaises || !fitted
      ensures r.Some? ==> |r.value| == |x|
      ensures r.Some? ==> forall i :: 0 <= i < |x| ==> (r.value[i] == 1 <==> labelOf(x[i]) == OutlierLabel)
      ensures r.Some? ==> forall i :: 0 <= i < |x| ==> r.value[i] == 0 || r.value[i] == 1
    {
      if !isTrained || transformRaises || !fitted then None else Some(ToBinary(Labels(x, labelOf)))
    }

    /** `save_model`: writes the estimator, fitted or not, only when trained. */
    method SaveModel() returns (saved: Option<SavedDetector>)
      requires Valid()
      ensures saved.Some? <==> isTrained
      ensures saved.Some? ==> saved.value == SavedDetector(model.value, fitted)
    {
      if isTrained {
        return Some(SavedDetector(model.value, fitted));
      }
      return None;
    }

    /**
     * `load_model`: does nothing when the file does not exist; when it exists and reads
     * back (`data`), installs the saved estimator and sets `isTrained`; a read that fails
     * raises out of the method (`raised`) before anything is assigned.
     */
    method LoadModel(fileExists: bool, data: Option<SavedDetector>) returns (raised: bool)
      requires Valid()
      modifies this
      ensures Valid()
      ensures raised <==> fileExists && data.None?
      ensures fileExists && data.Some? ==>
        model == Some(data.value.model) && fitted == data.value.fitted && isTrained
      ensures !(fileExists && data.Some?) ==>
        model == old(model) && fitted == old(fitted) && isTrained == old(isTrained)
    {
      if !fileExists {
        return false;
      }
      if data.None? {
        return true;
      }
      model := Some(data.value.model);
      fitted := data.value.fitted;
      isTrained := true;
      raised := false;
    }
  }

  /**
   * Building, training and building again leaves a detector that reports itself trained
   * but raises on every prediction, because the second `build_model` replaced the fitted
   * estimator with an unfitted one.
   */
  method RebuiltAfterTraining(x: seq<Row>, labelOf: Row -> int) returns (trained: bool, r: Option<seq<int>>)
    ensures trained && r.None?
  {
    var d := new AnomalyDetector("isolation_forest");
    var ok := d.BuildModel();
    d.Train(x, true);
    ok := d.BuildModel();
    trained := d.isTrained;
    r := d.Predict(x, labelOf, false);
  }
}
