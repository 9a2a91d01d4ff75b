/**
 * `MLDetector` of chat_moderation_system.py, with the classifier abstracted.
 * The served model is either missing (scikit-learn is not installed), a fresh
 * pipeline that has never been fitted, or a fitted pipeline whose
 * predictions are taken as given.
 */
module MLDetector {
  import opened ModerationConfig

  /** What the fitted pipeline gives for one message: the predicted label with
      the largest class probability, or an exception. */
  datatype Prediction = Predicted(predictedClass: int, probability: real) | Raised

  /** The served model. `Trained` is the state in which the pipeline has `classes_`. */
  datatype ModelState =
    | Unavailable
    | Untrained
    | Trained(classify: string -> Prediction)

  /** What `model_predictions` records for the call. */
  datatype Note = SklearnMissing | UntrainedModel | Scored(prediction: int, probability: real) | PredictionFailed

  /** The fields of `predict_violation`'s result that the engine reads. */
  datatype MLResult = MLResult(isViolation: bool, confidence: real, note: Note)

  /** `predict_violation` for the model state. */
  function PredictViolation(model: ModelState, message: string): (r: MLResult)
    ensures r.isViolation ==> model.Trained?
    ensures r.isViolation <==> model.Trained? && model.classify(message).Predicted? && model.classify(message).predictedClass == 1
    ensures !model.Trained? || model.classify(message).Raised? ==> r.confidence == DefaultMLConfidence && !r.isViolation
    ensures model.Trained? && model.classify(message).Predicted? ==> r.confidence == model.classify(message).probability
  {
    match model
    case Unavailable => MLResult(false, DefaultMLConfidence, SklearnMissing)
    case Untrained => MLResult(false, DefaultMLConfidence, UntrainedModel)
    case Trained(classify) =>
      match classify(message)
      case Raised => MLResult(false, DefaultMLConfidence, PredictionFailed)
      case Predicted(c, p) => MLResult(c == 1, p, Scored(c, p))
  }

  /** `get_model_info()['violation_classifier']['trained']`, with a missing entry read as false. */
  predicate ModelTrained(model: ModelState) {
    model.Trained?
  }

  /** The classifier can only report a violation when `get_model_info` calls it
      trained, so the engine's halving of an untrained model's confidence never
      applies. */
  lemma UntrainedDiscountUnreachable(model: ModelState, message: string)
    ensures PredictViolation(model, message).isViolation ==> ModelTrained(model)
    ensures !ModelTrained(model) ==> PredictViolation(model, message) == MLResult(false, 0.1, PredictViolation(model, message).note)
  {
  }

  /** How `train_models` ended: one of its three early returns, a completed refit,
      or an exception that propagates to the caller. */
  datatype TrainOutcome = SkippedUnavailable | SkippedNoData | SkippedOneLabel | Fitted | TrainingRaised

  /** What the split and the fit do, given from outside: the refitted pipeline; an
      exception from `train_test_split` before anything is touched; or an exception
      from `Pipeline.fit` part-way, leaving the served pipeline in the state `partial`
      (for instance a refitted vectorizer in front of the old classifier). */
  datatype FitResult = FitOk(classify: string -> Prediction) | SplitRaised | FitRaised(partial: ModelState)

  /** The labels of a training set. */
  function Labels(data: seq<(string, int)>): (ls: set<int>)
    ensures forall i :: 0 <= i < |data| ==> data[i].1 in ls
    ensures forall l :: l in ls ==> exists i :: 0 <= i < |data| && data[i].1 == l
  {
    set i | 0 <= i < |data| :: data[i].1
  }

  /** The state after `train_models`: untouched when scikit-learn is missing, the
      data is empty, it has one label only, or the split raises; otherwise the served
      pipeline itself is refitted, with no second copy and no swap, so an exception
      during the fit leaves whatever the fit had already changed. */
  function AfterTraining(model: ModelState, data: seq<(string, int)>, fit: FitResult): (r: (ModelState, TrainOutcome))
    ensures r.1 == Fitted <==> !model.Unavailable? && data != [] && |Labels(data)| >= 2 && fit.FitOk?
    ensures r.1 == TrainingRaised <==> !model.Unavailable? && data != [] && |Labels(data)| >= 2 && !fit.FitOk?
    ensures r.1 !in {Fitted, TrainingRaised} ==> r.0 == model
    ensures r.1 == Fitted ==> r.0 == Trained(fit.classify)
    ensures r.1 == TrainingRaised ==> r.0 == (if fit.FitRaised? then fit.partial else model)
    ensures model.Unavailable? ==> r.1 == SkippedUnavailable
  {
    if model.Unavailable? then (model, SkippedUnavailable)
    else if data == [] then (model, SkippedNoData)
    else if |Labels(data)| < 2 then (model, SkippedOneLabel)
    else match fit
      case SplitRaised => (model, TrainingRaised)
      case FitRaised(partial) => (partial, TrainingRaised)
      case FitOk(classify) => (Trained(classify), Fitted)
  }

  /** A training set with one label never changes the served model. */
  lemma OneLabelKeepsModel(model: ModelState, data: seq<(string, int)>, fit: FitResult, only: int)
    requires forall i :: 0 <= i < |data| ==> data[i].1 == only
    ensures AfterTraining(model, data, fit).0 == model
  {
    if data != [] {
      assert data[0].1 in Labels(data);
      assert forall l :: l in Labels(data) ==> l == only;
      assert Labels(data) == {only};
    }
  }

  /** The detector object: the served pipeline is its one piece of state. */
  class Detector {
    var model: ModelState

    /** A fresh detector: no model without scikit-learn, an unfitted pipeline
        otherwise, or whatever was loaded from disk. */
    constructor(loaded: ModelState)
      ensures model == loaded
    {
      model := loaded;
    }

    /** `train_models`: the guards in the order of the source, then an in-place refit. */
    method Train(data: seq<(string, int)>, fit: FitResult) returns (outcome: TrainOutcome)
      modifies this
      ensures (model, outcome) == AfterTraining(old(model), data, fit)
    {
      if model.Unavailable? || data == [] {
        outcome := if model.Unavailable? then SkippedUnavailable else SkippedNoData;
        return;
      }
      var labels := set i | 0 <= i < |data| :: data[i].1;
      if |labels| < 2 {
        outcome := SkippedOneLabel;
        return;
      }
      match fit {
        case SplitRaised =>
          outcome := TrainingRaised;
        case FitRaised(partial) =>
          model := partial;
          outcome := TrainingRaised;
        case FitOk(classify) =>
          model := Trained(classify);
          outcome := Fitted;
      }
    }
  }
}
