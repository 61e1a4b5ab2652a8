/**
 * The model loader of backend/model_loader.py: it picks a deserialiser from the
 * suffix of a model file, remembers the loaded model and its kind, and turns the
 * output of either backend into one `{prediction, confidence}` result.
 *
 * Deserialisers, the file system and the two inference backends are oracles:
 * values of function type that say what the foreign call returns or raises.
 */
module ModelLoading {
  import opened Wrappers
  import opened Text

  /** An opaque reference to a deserialised model object. */
  type Handle = nat

  /** The value of the `model_type` field once a model is loaded. */
  datatype Backend = Sklearn | Keras {
    function Name(): string {
      match this
      case Sklearn => "sklearn"
      case Keras => "keras"
    }
  }

  /** The three deserialisation paths: `joblib.load`, `pickle.load`, `keras.models.load_model`. */
  datatype Deserializer = Joblib | Pickle | KerasLoader

  /**
   * What a deserialiser does with a path: it returns a Python value (which may
   * itself be `None`) or raises.
   */
  datatype LoadResult = Loaded(value: Option<Handle>) | LoadFailed(message: string)

  /** The file-system oracle: `os.path.exists`, and the outcome of each deserialiser on each path. */
  datatype FileSystem = FileSystem(pathExists: string -> bool, deserialize: (Deserializer, string) -> LoadResult)

  /** A 2-D batch of feature rows, as numpy receives it. */
  type Batch = seq<seq<real>>

  /**
   * The inference oracles: the first label of an sklearn `predict`, the first
   * row of `predict_proba` (`None` when that call raises), and the first output
   * row of a Keras `predict`. A raising call is a `Failure` carrying `str(e)`.
   */
  datatype Backends = Backends(
    sklearnLabel: (Handle, Batch) -> Result<int>,
    sklearnProba: (Handle, Batch) -> Option<seq<real>>,
    kerasOutput: (Handle, Batch) -> Result<seq<real>>)

  /** The dictionary `{'prediction': ..., 'confidence': ...}` that `predict` returns. */
  datatype Prediction = Prediction(prediction: int, confidence: real)

  /** What a call of `predict` does: return a prediction, or raise an exception with this message. */
  datatype Outcome = Predicted(result: Prediction) | Raised(message: string)

  const NoModelMessage: string := "No model loaded. Please load a model first."
  const ErrorPrefix: string := "Prediction error: "
  /** What `np.argmax` raises on an empty array. */
  const EmptyArgMaxMessage: string := "attempt to get argmax of an empty sequence"
  /** The confidence reported when `predict_proba` is unavailable. */
  const DefaultConfidence: real := 0.85

  /** The deserialiser `load_model` picks for `path`, from its suffix alone; `None` for an unsupported one. */
  function Dispatch(path: string): Option<Deserializer> {
    if EndsWith(path, ".pkl") || EndsWith(path, ".joblib") then Some(Joblib)
    else if EndsWith(path, ".pickle") then Some(Pickle)
    else if EndsWith(path, ".h5") || EndsWith(path, ".keras") then Some(KerasLoader)
    else None
  }

  /** The `model_type` a successful load through `d` records. */
  function FormatOf(d: Deserializer): Backend {
    if d == KerasLoader then Keras else Sklearn
  }

  /** Every file name with one of the five supported suffixes is dispatched by that suffix, whatever comes before it. */
  lemma DispatchBySuffix(stem: string)
    ensures Dispatch(stem + ".pkl") == Some(Joblib)
    ensures Dispatch(stem + ".joblib") == Some(Joblib)
    ensures Dispatch(stem + ".pickle") == Some(Pickle)
    ensures Dispatch(stem + ".h5") == Some(KerasLoader)
    ensures Dispatch(stem + ".keras") == Some(KerasLoader)
  {
    var s := stem + ".pkl";
    assert s[|s| - 4..] == ".pkl";
    s := stem + ".joblib";
    assert s[|s| - 7..] == ".joblib";
    s := stem + ".pickle";
    assert s[|s| - 7..] == ".pickle";
    assert s[|s| - 4..] == "ckle";
    assert !EndsWith(s, ".joblib") by { assert s[|s| - 7..] != ".joblib"; }
    s := stem + ".h5";
    assert s[|s| - 3..] == ".h5";
    assert !EndsWith(s, ".pkl") by { assert |s| < 4 || s[|s| - 4..][1..] == ".h5"; }
    assert !EndsWith(s, ".joblib") by { assert |s| < 7 || s[|s| - 7..][4..] == ".h5"; }
    assert !EndsWith(s, ".pickle") by { assert |s| < 7 || s[|s| - 7..][4..] == ".h5"; }
    s := stem + ".keras";
    assert s[|s| - 6..] == ".keras";
    assert s[|s| - 4..] == "eras";
    assert !EndsWith(s, ".joblib") by { assert |s| < 7 || s[|s| - 7..][1..] == ".keras"; }
    assert !EndsWith(s, ".pickle") by { assert |s| < 7 || s[|s| - 7..][1..] == ".keras"; }
  }

  /** A path is dispatched only when it ends with one of the five suffixes, in lower case. */
  lemma DispatchOnlySupported(path: string)
    ensures Dispatch(path).Some? <==>
      (EndsWith(path, ".pkl") || EndsWith(path, ".joblib") || EndsWith(path, ".pickle")
        || EndsWith(path, ".h5") || EndsWith(path, ".keras"))
    ensures Dispatch(path).Some? ==> (FormatOf(Dispatch(path).value) == Keras <==> EndsWith(path, ".h5") || EndsWith(path, ".keras"))
  {
    if EndsWith(path, ".h5") || EndsWith(path, ".keras") {
      if EndsWith(path, ".h5") {
        assert !EndsWith(path, ".pkl") by { assert |path| < 4 || path[|path| - 4..][1..] == ".h5"; }
        assert !EndsWith(path, ".joblib") by { assert |path| < 7 || path[|path| - 7..][4..] == ".h5"; }
        assert !EndsWith(path, ".pickle") by { assert |path| < 7 || path[|path| - 7..][4..] == ".h5"; }
      } else {
        assert !EndsWith(path, ".pkl") by { assert |path| < 4 || path[|path| - 4..] == path[|path| - 6..][2..]; }
        assert !EndsWith(path, ".joblib") by { assert |path| < 7 || path[|path| - 7..][1..] == ".keras"; }
        assert !EndsWith(path, ".pickle") by { assert |path| < 7 || path[|path| - 7..][1..] == ".keras"; }
      }
    }
  }

  /** The two fields of a loader: the loaded object (Python `None` when absent) and its kind. */
  datatype LoaderState = LoaderState(model: Option<Handle>, modelType: Option<Backend>)

  /** The state of a freshly constructed loader. */
  const Unloaded: LoaderState := LoaderState(None, None)

  /** A loaded object always comes with a kind. */
  predicate Consistent(s: LoaderState) {
    s.model.Some? ==> s.modelType.Some?
  }

  /**
   * `load_model(path)` as a state transition: the returned flag and the new
   * fields. The fields are assigned only after the deserialiser returns.
   */
  function LoadTransition(s: LoaderState, path: string, fs: FileSystem): (bool, LoaderState) {
    match Dispatch(path)
    case None => (false, s)
    case Some(d) =>
      match fs.deserialize(d, path)
      case LoadFailed(_) => (false, s)
      case Loaded(v) => (true, LoaderState(v, Some(FormatOf(d))))
  }

  /** The `model_type` tags tell the two kinds apart, so a test of the tag is a test of the kind. */
  lemma BackendNameIdentifies(b: Backend)
    ensures b.Name() == "sklearn" <==> b == Sklearn
    ensures b.Name() == "keras" <==> b == Keras
  {
    assert "sklearn"[0] != "keras"[0];
  }

  /** The deserialiser calls `load_model(path)` makes: none for an unsupported suffix. */
  function Attempts(path: string): seq<(Deserializer, string)> {
    match Dispatch(path)
    case None => []
    case Some(d) => [(d, path)]
  }

  /** Loading keeps a consistent state consistent, whatever the file holds and whether it loads. */
  lemma LoadKeepsConsistent(s: LoaderState, path: string, fs: FileSystem)
    requires Consistent(s)
    ensures Consistent(LoadTransition(s, path, fs).1)
  {
  }

  /**
   * `load_model` returns `True` exactly when the suffix is supported and the
   * deserialiser returns; the kind then follows from the suffix alone, and the
   * object is whatever the deserialiser returned. Otherwise nothing changes.
   */
  lemma LoadOutcome(s: LoaderState, path: string, fs: FileSystem)
    ensures var (ok, t) := LoadTransition(s, path, fs);
      && (ok <==> Dispatch(path).Some? && fs.deserialize(Dispatch(path).value, path).Loaded?)
      && (ok ==> t.modelType == Some(FormatOf(Dispatch(path).value))
                 && t.model == fs.deserialize(Dispatch(path).value, path).value)
      && (!ok ==> t == s)
  {
  }

  /** An unsupported suffix is rejected before any deserialiser runs: file contents do not matter. */
  lemma UnsupportedIgnoresFiles(s: LoaderState, path: string, fs1: FileSystem, fs2: FileSystem)
    requires Dispatch(path).None?
    ensures LoadTransition(s, path, fs1) == LoadTransition(s, path, fs2) == (false, s)
    ensures Attempts(path) == []
  {
  }

  /** The first index of a maximal element, as `np.argmax` picks it. */
  function ArgMax(s: seq<real>): (k: nat)
    requires |s| > 0
    ensures k < |s|
    ensures forall j :: 0 <= j < |s| ==> s[j] <= s[k]
    ensures forall j :: 0 <= j < k ==> s[j] < s[k]
  {
    if |s| == 1 then 0
    else
      var k := ArgMax(s[..|s| - 1]);
      if s[|s| - 1] > s[k] then |s| - 1 else k
  }

  /** `max(row)`: the value of a largest element. */
  function Max(s: seq<real>): (m: real)
    requires |s| > 0
    ensures m in s && forall j :: 0 <= j < |s| ==> s[j] <= m
  {
    s[ArgMax(s)]
  }

  /** The sklearn confidence: the largest class probability, or 0.85 when `predict_proba` raised or gave an empty row. */
  function SklearnConfidence(row: Option<seq<real>>): (c: real)
    ensures row.Some? && |row.value| > 0 ==> c in row.value && forall j :: 0 <= j < |row.value| ==> row.value[j] <= c
    ensures row.None? || row.value == [] ==> c == DefaultConfidence
  {
    if row.Some? && |row.value| > 0 then Max(row.value) else DefaultConfidence
  }

  /**
   * The sklearn branch of `predict`, given what `predict` and `predict_proba`
   * do on the batch. A raising `predict` is wrapped; a raising `predict_proba`
   * is not an error.
   */
  function SklearnOutcome(predicted: Result<int>, proba: Option<seq<real>>): (r: Outcome)
    ensures predicted.Failure? ==> r == Raised(ErrorPrefix + predicted.error)
    ensures predicted.Success? ==> r.Predicted? && r.result.prediction == predicted.value
    ensures predicted.Success? ==> r.result.confidence == SklearnConfidence(proba)
  {
    match predicted
    case Failure(e) => Raised(ErrorPrefix + e)
    case Success(l) => Predicted(Prediction(l, SklearnConfidence(proba)))
  }

  /**
   * The Keras branch of `predict`, given the first output row: a single
   * sigmoid score is thresholded strictly above 0.5 and reported as it is, also
   * when the label is 0; a longer row gives the first arg-max and its value; an
   * empty row makes `np.argmax` raise.
   */
  function KerasOutcome(output: Result<seq<real>>): (r: Outcome)
    ensures output.Failure? ==> r == Raised(ErrorPrefix + output.error)
    ensures output.Success? && |output.value| == 1 ==>
      r.Predicted? && r.result.confidence == output.value[0]
      && (r.result.prediction == 1 <==> output.value[0] > 0.5)
      && (r.result.prediction == 0 <==> output.value[0] <= 0.5)
    ensures output.Success? && |output.value| > 1 ==>
      && r.Predicted?
      && 0 <= r.result.prediction < |output.value|
      && r.result.confidence == output.value[r.result.prediction]
      && (forall j :: 0 <= j < |output.value| ==> output.value[j] <= r.result.confidence)
      && (forall j :: 0 <= j < r.result.prediction ==> output.value[j] < r.result.confidence)
    ensures output.Success? && output.value == [] ==> r == Raised(ErrorPrefix + EmptyArgMaxMessage)
  {
    match output
    case Failure(e) => Raised(ErrorPrefix + e)
    case Success(row) =>
      if |row| == 1 then
        Predicted(Prediction(if row[0] > 0.5 then 1 else 0, row[0]))
      else if |row| == 0 then
        Raised(ErrorPrefix + EmptyArgMaxMessage)
      else
        var k := ArgMax(row);
        Predicted(Prediction(k, row[k]))
  }

  /** When every score the backend reports lies in [0, 1], so does every reported confidence. */
  lemma ConfidenceInUnitInterval(predicted: Result<int>, proba: Option<seq<real>>, output: Result<seq<real>>)
    requires proba.Some? ==> forall j :: 0 <= j < |proba.value| ==> 0.0 <= proba.value[j] <= 1.0
    requires output.Success? ==> forall j :: 0 <= j < |output.value| ==> 0.0 <= output.value[j] <= 1.0
    ensures SklearnOutcome(predicted, proba).Predicted? ==> 0.0 <= SklearnOutcome(predicted, proba).result.confidence <= 1.0
    ensures KerasOutcome(output).Predicted? ==> 0.0 <= KerasOutcome(output).result.confidence <= 1.0
  {
  }

  /** The worked cases of the Keras branch. */
  lemma KerasExamples()
    ensures KerasOutcome(Success([0.92])) == Predicted(Prediction(1, 0.92))
    ensures KerasOutcome(Success([0.3])) == Predicted(Prediction(0, 0.3))
    ensures KerasOutcome(Success([0.5])) == Predicted(Prediction(0, 0.5))
    ensures KerasOutcome(Success([0.1, 0.7, 0.2])) == Predicted(Prediction(1, 0.7))
    ensures KerasOutcome(Success([0.4, 0.4])) == Predicted(Prediction(0, 0.4))
  {
    assert ArgMax([0.1, 0.7, 0.2]) == 1;
    assert ArgMax([0.4, 0.4]) == 0;
  }

  /** `NoModelMessage` is never mistaken for a wrapped backend error. */
  lemma NoModelMessageIsUnwrapped()
    ensures !StartsWith(NoModelMessage, ErrorPrefix)
  {
    assert NoModelMessage[0] != ErrorPrefix[0];
  }

  /** backend/model_loader.py's `ModelLoader`. */
  class ModelLoader {
    var model: Option<Handle>
    var modelType: Option<Backend>
    /** The deserialiser calls made so far, in order. */
    ghost var attempts: seq<(Deserializer, string)>

    ghost predicate Valid()
      reads this
    {
      Consistent(State())
    }

    /** The loader's fields as a value. */
    function State(): LoaderState
      reads this
    {
      LoaderState(model, modelType)
    }

    /**
     * `ModelLoader(model_path)`: both fields start as `None`; the model is loaded
     * only when a non-empty path is given and exists.
     */
    constructor (modelPath: Option<string>, fs: FileSystem)
      ensures Valid()
      ensures if modelPath.Some? && modelPath.value != [] && fs.pathExists(modelPath.value)
        then State() == LoadTransition(Unloaded, modelPath.value, fs).1 && attempts == Attempts(modelPath.value)
        else State() == Unloaded && attempts == []
    {
      model := None;
      modelType := None;
      attempts := [];
      new;
      if modelPath.Some? && modelPath.value != [] && fs.pathExists(modelPath.value) {
        var _ := LoadModel(modelPath.value, fs);
      }
    }

    /**
     * `load_model(path)`: dispatch on the suffix, call the deserialiser, and
     * assign the fields only once it has returned. Every failure is `false`.
     */
    method LoadModel(path: string, fs: FileSystem) returns (ok: bool)
      requires Valid()
      modifies this
      ensures Valid()
      ensures (ok, State()) == LoadTransition(old(State()), path, fs)
      ensures attempts == old(attempts) + Attempts(path)
    {
      var dispatched := Dispatch(path);
      if dispatched.None? {
        return false;
      }
      var d := dispatched.value;
      attempts := attempts + [(d, path)];
      var loaded := fs.deserialize(d, path);
      if loaded.LoadFailed? {
        return false;
      }
      model := loaded.value;
      modelType := Some(FormatOf(d));
      ok := true;
    }

    /** `is_loaded()`: a (non-`None`) model object is present. */
    function IsLoaded(): (b: bool)
      reads this
      ensures b <==> model.Some?
      ensures b && Valid() ==> modelType.Some?
    {
      model.Some?
    }

    /**
     * `predict(features)`: the flat vector goes to the backend as the single row
     * of a 1 x N batch. With no model it raises `NoModelMessage` unwrapped; every
     * backend error comes back as `ErrorPrefix` followed by its message.
     */
    function Predict(features: seq<real>, backends: Backends): (r: Outcome)
      reads this
      requires Valid()
      ensures r == Raised(NoModelMessage) <==> model.None?
      ensures model.Some? && r.Raised? ==> StartsWith(r.message, ErrorPrefix)
      ensures model.Some? && modelType.value.Name() == "sklearn" ==>
        r == SklearnOutcome(backends.sklearnLabel(model.value, [features]), backends.sklearnProba(model.value, [features]))
      ensures model.Some? && modelType.value.Name() == "keras" ==>
        r == KerasOutcome(backends.kerasOutput(model.value, [features]))
    {
      NoModelMessageIsUnwrapped();
      BackendNameIdentifies(Sklearn);
      BackendNameIdentifies(Keras);
      match model
      case None => Raised(NoModelMessage)
      case Some(h) =>
        var batch := [features];
        match modelType.value
        case Sklearn => SklearnOutcome(backends.sklearnLabel(h, batch), backends.sklearnProba(h, batch))
        case Keras => KerasOutcome(backends.kerasOutput(h, batch))
    }
  }
}
