/**
 * The request handling of backend/main.py: the `/predict` handler, which asks the
 * module-level loader when it holds a model and otherwise applies a fixed rule,
 * and the `/` handler's `model_loaded` flag.
 */
module Api {
  import opened Wrappers
  import opened Text
  import opened ModelLoading

  /** The request body of `/predict`; every field but `oldpeak` is an integer. */
  datatype PatientData = PatientData(
    age: int, sex: int, cp: int, trestbps: int, chol: int, fbs: int, restecg: int,
    thalach: int, exang: int, oldpeak: real, slope: int, ca: int, thal: int)

  /** The JSON response of `/predict`. */
  datatype Response = Response(disease: bool, confidence: real, message: string)

  /** The JSON response of `/`. */
  datatype RootInfo = RootInfo(message: string, modelLoaded: bool)

  /** The file the module-level loader is created with. */
  const ModelPath: string := "hear_disease_model.pkl"

  const DetectedMessage: string := "\U{26A0}\U{FE0F} Heart disease detected. Please consult a doctor."
  const HealthyMessage: string := "\U{2705} No heart disease detected. Stay healthy!"
  const ErrorMessagePrefix: string := "\U{26A0}\U{FE0F} Prediction error: "
  const DummyMessage: string := "\U{26A0}\U{FE0F} Model not found. Using dummy prediction."
  const FallbackConfidence: real := 0.85

  /** The names of the features, in the order the model receives them. */
  const FeatureNames: seq<string> :=
    ["age", "sex", "cp", "trestbps", "chol", "fbs", "restecg", "thalach", "exang", "oldpeak", "slope", "ca", "thal"]

  /** The feature vector `predict_heart_disease` builds from a request. */
  function Features(d: PatientData): (v: seq<real>)
    ensures |v| == |FeatureNames| == 13
  {
    [d.age as real, d.sex as real, d.cp as real, d.trestbps as real, d.chol as real, d.fbs as real,
     d.restecg as real, d.thalach as real, d.exang as real, d.oldpeak, d.slope as real, d.ca as real,
     d.thal as real]
  }

  /** Whether a feature value is a whole number. */
  predicate IsWhole(x: real) {
    x.Floor as real == x
  }

  /**
   * Reads a request back from a feature vector: `None` unless it has thirteen
   * entries and every entry but `oldpeak` (position 9) is a whole number.
   */
  function PatientFromFeatures(v: seq<real>): (r: Option<PatientData>)
    ensures r.Some? <==> |v| == 13 && forall i :: 0 <= i < 13 && i != 9 ==> IsWhole(v[i])
  {
    if |v| == 13 && forall i :: 0 <= i < 13 && i != 9 ==> IsWhole(v[i]) then
      Some(PatientData(v[0].Floor, v[1].Floor, v[2].Floor, v[3].Floor, v[4].Floor, v[5].Floor,
        v[6].Floor, v[7].Floor, v[8].Floor, v[9], v[10].Floor, v[11].Floor, v[12].Floor))
    else None
  }

  /** The feature vector carries every field of the request, each in its own position. */
  lemma FeaturesRoundTrip(d: PatientData)
    ensures PatientFromFeatures(Features(d)) == Some(d)
  {
    var v := Features(d);
    assert forall i :: 0 <= i < 13 && i != 9 ==> IsWhole(v[i]);
  }

  /** The response to a loader result: any non-zero class is disease, and the confidence is passed through. */
  function ModelResponse(result: Outcome): (r: Response)
    ensures result.Predicted? ==>
      && r.disease == (result.result.prediction != 0)
      && r.confidence == result.result.confidence
      && (r.message == DetectedMessage <==> result.result.prediction != 0)
    ensures result.Raised? ==>
      !r.disease && r.confidence == 0.0 && r.message == ErrorMessagePrefix + result.message
  {
    match result
    case Predicted(p) =>
      Response(p.prediction != 0, p.confidence, if p.prediction != 0 then DetectedMessage else HealthyMessage)
    case Raised(e) => Response(false, 0.0, ErrorMessagePrefix + e)
  }

  /** The dummy rule used without a model: older than 60 and cholesterol above 240, both strictly. */
  function Fallback(d: PatientData): (r: Response)
    ensures r.disease <==> d.age > 60 && d.chol > 240
    ensures r.confidence == FallbackConfidence && r.message == DummyMessage
  {
    var prediction := if d.age > 60 && d.chol > 240 then 1 else 0;
    Response(prediction != 0, FallbackConfidence, DummyMessage)
  }

  /**
   * `predict_heart_disease` as a total function of the request, whether a
   * model is loaded, and what the loader's `predict` does on the features.
   */
  function Respond(d: PatientData, loaded: bool, result: Outcome): (r: Response)
    ensures loaded ==> r == ModelResponse(result)
    ensures !loaded ==> r == Fallback(d)
  {
    if loaded then ModelResponse(result) else Fallback(d)
  }

  /** Without a model the loader's result is never consulted. */
  lemma FallbackIgnoresLoader(d: PatientData, result1: Outcome, result2: Outcome)
    ensures Respond(d, false, result1) == Respond(d, false, result2)
  {
  }

  /** A loaded model that predicts decides the response; the dummy message never appears. */
  lemma PredictionNeverFallsBack(d: PatientData, p: Prediction)
    ensures Respond(d, true, Predicted(p)).message != DummyMessage
    ensures Respond(d, true, Predicted(p)).confidence == p.confidence
  {
    assert DetectedMessage[|DetectedMessage| - 2] == 'r';
    assert DummyMessage[|DummyMessage| - 2] == 'n';
    assert HealthyMessage[|HealthyMessage| - 1] == '!';
    assert DummyMessage[|DummyMessage| - 1] == '.';
  }

  /** A failing prediction reports the error text inside its message. */
  lemma ErrorResponseShowsError(d: PatientData, e: string)
    ensures Contains(Respond(d, true, Raised(e)).message, e)
  {
    var m := Respond(d, true, Raised(e)).message;
    assert OccursAt(m, e, |ErrorMessagePrefix|);
    ContainsIffOccurs(m, e);
  }

  /**
   * `predict_heart_disease` over the module-level loader: the loader is asked
   * only when it exists and holds a model, with the request's features.
   */
  function PredictHeartDisease(d: PatientData, loader: ModelLoader?, backends: Backends): (r: Response)
    reads loader
    requires loader != null ==> loader.Valid()
    ensures loader != null && loader.IsLoaded() ==> r == Respond(d, true, loader.Predict(Features(d), backends))
    ensures loader == null || !loader.IsLoaded() ==> r == Fallback(d)
  {
    if loader != null && loader.IsLoaded() then ModelResponse(loader.Predict(Features(d), backends))
    else Fallback(d)
  }

  /**
   * A raising backend call, sklearn's `predict` or Keras's, reaches the user
   * with the loader's prefix inside the handler's own: "Prediction error: "
   * appears twice.
   */
  lemma BackendErrorPrefixedTwice(d: PatientData, loader: ModelLoader, backends: Backends, e: string)
    requires loader.Valid() && loader.model.Some?
    requires loader.modelType == Some(Keras) ==> backends.kerasOutput(loader.model.value, [Features(d)]) == Failure(e)
    requires loader.modelType == Some(Sklearn) ==> backends.sklearnLabel(loader.model.value, [Features(d)]) == Failure(e)
    ensures PredictHeartDisease(d, loader, backends).message == ErrorMessagePrefix + ErrorPrefix + e
  {
    BackendNameIdentifies(loader.modelType.value);
    assert ErrorMessagePrefix + (ErrorPrefix + e) == ErrorMessagePrefix + ErrorPrefix + e;
  }

  /** `read_root`: `model_loaded` is the loader's `is_loaded()`, and false without a loader. */
  function ReadRoot(loader: ModelLoader?): (r: RootInfo)
    reads loader
    ensures r.modelLoaded <==> loader != null && loader.model.Some?
    ensures r.message == "Heart Disease Prediction API"
  {
    RootInfo("Heart Disease Prediction API", if loader != null then loader.IsLoaded() else false)
  }

  /** The module-level loader is built from `ModelPath`, which names a joblib file. */
  method Startup(fs: FileSystem) returns (loader: ModelLoader)
    ensures fresh(loader) && loader.Valid()
    ensures if fs.pathExists(ModelPath)
      then loader.State() == LoadTransition(Unloaded, ModelPath, fs).1 && loader.attempts == [(Joblib, ModelPath)]
      else loader.State() == Unloaded
  {
    var stem := ModelPath[..|ModelPath| - 4];
    DispatchBySuffix(stem);
    assert ModelPath[|ModelPath| - 4..] == ".pkl";
    assert stem + ".pkl" == ModelPath;
    loader := new ModelLoader(Some(ModelPath), fs);
  }
}
