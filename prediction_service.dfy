/**
 * What one press of the "predict" button yields: the model file is read,
 * the encoded row is handed to the model, and the first prediction is the
 * answer. The try block and its two handlers become a pure case split over
 * the outcome of each step. The model itself, the file read and the table
 * construction are not modelled: the load step is a given Attempt, and the
 * model's prediction on a row is a given function.
 */
module PredictionService {
  import opened FeatureEncoder

  /** An exception that escapes the try block and reaches one of its two
      handlers: a missing file, or any other failure with its message. */
  datatype Failure = FileNotFound | Other(message: string)

  /** The outcome of one step inside the try block. */
  datatype Attempt<T> = Returned(value: T) | Raised(failure: Failure)

  /** What the page shows: the predicted cost, the "model file not found"
      error, or the generic prediction error with the failure's message. */
  datatype PageResult = Predicted(cost: real) | ModelFileMissing | PredictionError(message: string)

  /** The message numpy gives when index 0 of an empty prediction array is
      taken. */
  const EmptyPredictionMessage: string := "index 0 is out of bounds for axis 0 with size 0"

  /** The try block: load the model; only if that returns, predict; then
      take element 0 of the predictions. The first step that raises decides
      the outcome. */
  function TryBody<M>(load: Attempt<M>, predict: M -> Attempt<seq<real>>): (r: Attempt<real>)
    ensures load.Raised? ==> r == Raised(load.failure)
    ensures load.Returned? && predict(load.value).Raised? ==> r == Raised(predict(load.value).failure)
    ensures load.Returned? && predict(load.value) == Returned([]) ==> r == Raised(Other(EmptyPredictionMessage))
    ensures r.Returned? <==>
              load.Returned? && predict(load.value).Returned? && |predict(load.value).value| > 0
    ensures r.Returned? ==> r.value == predict(load.value).value[0]
  {
    match load
    case Raised(e) => Raised(e)
    case Returned(model) =>
      match predict(model)
      case Raised(e) => Raised(e)
      case Returned(predictions) =>
        if |predictions| == 0 then Raised(Other(EmptyPredictionMessage))
        else Returned(predictions[0])
  }

  /** The two handlers: a missing file, any other failure, or success. */
  function Handle(a: Attempt<real>): (r: PageResult)
    ensures r.Predicted? <==> a.Returned?
    ensures r.ModelFileMissing? <==> a == Raised(FileNotFound)
    ensures r.PredictionError? <==> a.Raised? && a.failure.Other?
    ensures r.Predicted? ==> r.cost == a.value
    ensures r.PredictionError? ==> r.message == a.failure.message
  {
    match a
    case Returned(cost) => Predicted(cost)
    case Raised(FileNotFound) => ModelFileMissing
    case Raised(Other(message)) => PredictionError(message)
  }

  /** Recovers the outcome of the try block from what the page shows. */
  function Unhandle(r: PageResult): Attempt<real> {
    match r
    case Predicted(cost) => Returned(cost)
    case ModelFileMissing => Raised(FileNotFound)
    case PredictionError(message) => Raised(Other(message))
  }

  /** The handlers lose nothing: distinct outcomes of the try block are shown
      as distinct results. */
  lemma HandleIsInvertible(a: Attempt<real>)
    ensures Unhandle(Handle(a)) == a
  {
  }

  /** One submission of the form: the applicant's row is encoded and the
      loaded model predicts on exactly that row; what the page shows follows
      the first step that fails, or is the first prediction. */
  function Submit<M>(x: Applicant, load: Attempt<M>, predict: (M, seq<real>) -> Attempt<seq<real>>): (r: PageResult)
    ensures load == Raised(FileNotFound) ==> r == ModelFileMissing
    ensures load.Raised? && load.failure.Other? ==> r == PredictionError(load.failure.message)
    ensures load.Returned? && predict(load.value, Encode(x)) == Raised(FileNotFound) ==> r == ModelFileMissing
    ensures load.Returned? && predict(load.value, Encode(x)).Raised? && predict(load.value, Encode(x)).failure.Other? ==>
              r == PredictionError(predict(load.value, Encode(x)).failure.message)
    ensures load.Returned? && predict(load.value, Encode(x)) == Returned([]) ==>
              r == PredictionError(EmptyPredictionMessage)
    ensures r.Predicted? <==>
              load.Returned? && predict(load.value, Encode(x)).Returned? &&
              |predict(load.value, Encode(x)).value| > 0
    ensures r.Predicted? ==> r.cost == predict(load.value, Encode(x)).value[0]
  {
    var tryPredict := model => predict(model, Encode(x));
    assert load.Returned? ==> tryPredict(load.value) == predict(load.value, Encode(x));
    Handle(TryBody(load, tryPredict))
  }

  /** A missing model file gives the same result whatever the model would
      have predicted: no prediction takes part in the result. */
  lemma MissingFileSkipsPrediction<M>(
    x: Applicant, predict: (M, seq<real>) -> Attempt<seq<real>>, other: (M, seq<real>) -> Attempt<seq<real>>)
    ensures Submit(x, Raised(FileNotFound), predict) == Submit(x, Raised(FileNotFound), other)
  {
  }
}
