# Heart disease prediction backend: a verified model

This project models the Python backend of a small heart-disease prediction
service. The model has three parts.

- **The model loader** (`ModelLoading`, backend/model_loader.py). The loader
  picks a deserialiser from the model file's suffix. It remembers the loaded
  object and its kind (`sklearn` or `keras`). It turns either backend's output
  into one `{prediction, confidence}` result, or into an exception message.
- **The request handlers** (`Api`, backend/main.py). The `/predict` handler
  asks the module-level loader for a prediction when the loader holds a model.
  Otherwise it applies a fixed dummy rule: age over 60 and cholesterol over
  240. The `/` handler reports whether a model is loaded.
- **The notebook tools** (`NotebookConverter`, backend/notebook_converter.py).
  The converter turns a parsed `.ipynb` document into a Python script. It skips
  cells whose first non-blank character starts a shell or magic command. The
  analyser scans the code cells for library names and for a model family. It
  reports the family set by the last code cell that matches one. Within a
  cell the precedence is RandomForest, then LogisticRegression, then XGBoost,
  then Keras.

Three support modules hold what these need:

- `Wrappers` has `Option` and `Result`.
- `Text` has the Python string operations the code relies on: `startswith`,
  `endswith`, `in`, `strip` with Python's whitespace set, and decimal printing.
- `Json` has the JSON document model, `dict.get`, iteration, and `''.join`.

Everything outside the Python process is a parameter of the model. Each such
parameter is a value of function type that says what the outside call returns
or raises:

- `FileSystem` stands for `os.path.exists` and the three deserialisers. The
  model does not tie the two together. In Python a deserialiser raises on a
  missing file, but an arbitrary `FileSystem` may let it return an object for
  a path that `pathExists` rejects. No contract depends on the two agreeing.
- `Backends` stands for sklearn's `predict` and `predict_proba`, and Keras's
  `predict`.

`ModelLoader` is a class whose fields `load_model` updates in place. A ghost
field records the deserialiser calls made so far. The converter and the
analyser are methods with loops, proved equal to recursive specification
functions (`KeptCells`, `Script`, `Analyze`). Lemmas prove what those
functions mean.

## Model

| member | source | states |
|---|---|---|
| ModelLoading.ModelLoader.constructor | backend/model_loader.py:9-14 | Both fields start empty. A load is attempted only when the path is given, is non-empty and exists. The new state is then that load's outcome, and otherwise it stays unloaded. |
| ModelLoading.ModelLoader.LoadModel | backend/model_loader.py:16-50 | The returned flag and the new fields are the load transition of the old fields. At most one deserialiser call is made, the one the suffix picks. A consistent loader stays consistent. |
| ModelLoading.DispatchBySuffix | backend/model_loader.py:20-42 | `.pkl` and `.joblib` go to joblib, `.pickle` to pickle, `.h5` and `.keras` to Keras, whatever comes before the suffix. |
| ModelLoading.DispatchOnlySupported | backend/model_loader.py:20-46 | A path has a deserialiser iff it ends with one of the five suffixes. The recorded kind is `keras` iff the suffix is `.h5` or `.keras`. |
| ModelLoading.LoadKeepsConsistent | backend/model_loader.py:22-40 | Whatever the file holds and whether it loads, a loaded object always comes with a kind afterwards. |
| ModelLoading.LoadOutcome | backend/model_loader.py:18-50 | `load_model` returns True iff the suffix is supported and the deserialiser returns. The kind then follows from the suffix and the object is what the deserialiser returned. Otherwise neither field changes. |
| ModelLoading.UnsupportedIgnoresFiles | backend/model_loader.py:44-46 | An unsupported suffix returns False before any deserialiser runs, so the file system is irrelevant and no call is made. |
| ModelLoading.ArgMax | backend/model_loader.py:90 | The index is in range, its element is maximal, and every earlier element is strictly smaller (the first maximum, as `np.argmax`). |
| ModelLoading.Max | backend/model_loader.py:73 | The result is an element of the row and no element exceeds it. |
| ModelLoading.SklearnConfidence | backend/model_loader.py:70-75 | With a non-empty probability row the confidence is its largest entry. When `predict_proba` raised or gave an empty row, it is 0.85. |
| ModelLoading.SklearnOutcome | backend/model_loader.py:67-80 | A raising `predict` becomes "Prediction error: " plus its message. Otherwise the label is passed through with the sklearn confidence. A raising `predict_proba` is never an error. |
| ModelLoading.KerasOutcome | backend/model_loader.py:82-96 | A one-element row gives class 1 iff the score is strictly above 0.5, with the raw score as confidence. A longer row gives the first arg-max and its value. An empty row raises the prefixed argmax error. A backend error is prefixed. |
| ModelLoading.ConfidenceInUnitInterval | backend/model_loader.py:67-96 | When the backend's scores lie in [0, 1], every reported confidence does too, for both backends. |
| ModelLoading.KerasExamples | backend/model_loader.py:85-91 | Worked cases: 0.92 gives (1, 0.92), 0.3 gives (0, 0.3), 0.5 gives (0, 0.5), [0.1, 0.7, 0.2] gives (1, 0.7), and a tie [0.4, 0.4] gives (0, 0.4). |
| ModelLoading.NoModelMessageIsUnwrapped | backend/model_loader.py:54-55 | The no-model message does not start with the "Prediction error: " prefix, so it is told apart from a wrapped error. |
| ModelLoading.BackendNameIdentifies | backend/model_loader.py:67-82 | The `model_type` tag is "sklearn" exactly for the sklearn kind and "keras" exactly for the Keras kind, so testing the tag tests the kind. |
| ModelLoading.ModelLoader.IsLoaded | backend/model_loader.py:101-103 | True iff a model object is present. A loaded, consistent loader also knows its kind. |
| ModelLoading.ModelLoader.Predict | backend/model_loader.py:52-99 | Raises the no-model message iff no model is held. With a model, every raised message carries the prefix. The features reach the backend as the single row of a batch. The result is the sklearn outcome when the tag is "sklearn" and the Keras outcome when it is "keras". |
| Api.Features | backend/main.py:54-68 | The feature vector has thirteen entries, one per named field. |
| Api.PatientFromFeatures | backend/main.py:54-68 | A vector is read back iff it has thirteen entries and all of them except `oldpeak` are whole numbers. |
| Api.FeaturesRoundTrip | backend/main.py:54-68 | Reading the feature vector back gives the request, so each field has its own position in the vector. |
| Api.ModelResponse | backend/main.py:76-87 | A prediction is reported as disease iff its class is non-zero, with the model's confidence and the detected message iff disease. An exception is reported as no disease, confidence 0.0, and the error prefix followed by the message. |
| Api.Fallback | backend/main.py:93-98 | Dummy rule: disease iff age > 60 and cholesterol > 240, both strictly. Confidence is 0.85, with the model-not-found message. |
| Api.Respond | backend/main.py:74-98 | With a loaded model the response is the model's. Otherwise it is the dummy rule. |
| Api.FallbackIgnoresLoader | backend/main.py:89-98 | Without a model, what the loader would return never affects the response. |
| Api.PredictionNeverFallsBack | backend/main.py:74-81 | When a loaded model predicts, the dummy message never appears and the model's confidence is reported unchanged. |
| Api.ErrorResponseShowsError | backend/main.py:82-87 | When a prediction raises, the response message contains the exception's text. |
| Api.PredictHeartDisease | backend/main.py:52-98 | The loader is asked, with the request's features, only when it exists and holds a model. Otherwise the dummy rule answers. |
| Api.BackendErrorPrefixedTwice | backend/main.py:82-87 | A raising sklearn `predict` or Keras `predict` reaches the user as the handler's prefix, then the loader's "Prediction error: ", then the message. |
| Api.ReadRoot | backend/main.py:44-49 | `model_loaded` is true iff a loader exists and holds a model. The greeting is fixed. |
| Api.Startup | backend/main.py:42 | The module-level loader is built from `hear_disease_model.pkl`. When that file exists, exactly one joblib load of it is attempted. Otherwise the loader stays unloaded. |
| Text.StripStartsAtFirstNonSpace | backend/notebook_converter.py:31 | `strip()` starts with a non-space character c iff c is the first non-whitespace character of the text. |
| Text.ContainsIffOccurs | backend/notebook_converter.py:72-87 | Python's `in` on strings holds iff the needle occurs at some index. |
| Text.NatToStringRoundTrip | backend/notebook_converter.py:40 | The decimal text of a number reads back as that number, so cell numbers are printed faithfully. |
| Json.JoinString | backend/notebook_converter.py:69 | `''.join` of a string gives the string itself. |
| NotebookConverter.IsMagicIff | backend/notebook_converter.py:31 | A cell counts as a command iff its first non-whitespace character is `!` or `%`. |
| NotebookConverter.BlankCellIsKept | backend/notebook_converter.py:31-32 | A cell of whitespace only is not a command and is copied to the script. |
| NotebookConverter.Contribution | backend/notebook_converter.py:23-32 | A cell makes the conversion fail iff reading it would raise. Otherwise it contributes its code exactly when it is a code cell that is not a command. |
| NotebookConverter.KeptCellsAppend | backend/notebook_converter.py:21-32 | Collecting over a concatenation of cells collects each part in order and concatenates the results. |
| NotebookConverter.KeptCellsFails | backend/notebook_converter.py:16-32 | Collecting fails iff some cell cannot be read. |
| NotebookConverter.KeptCellsMembers | backend/notebook_converter.py:22-32 | A piece of code is kept iff some code cell has that text and it is not a command. |
| NotebookConverter.CollectCodeCells | backend/notebook_converter.py:21-32 | The collecting loop computes exactly the kept cells. |
| NotebookConverter.BlocksAreNumberedFromOne | backend/notebook_converter.py:39-42 | Appending blocks one at a time gives the same text as numbering the cells 1, 2, ... from the front, so the blocks are numbered consecutively from 1 in cell order. |
| NotebookConverter.WriteHeader | backend/notebook_converter.py:36-37 | The first two writes give the fixed first line and a line naming the notebook, followed by a blank line. |
| NotebookConverter.WriteCell | backend/notebook_converter.py:40-42 | The three writes for one cell append exactly that cell's numbered block. |
| NotebookConverter.WriteCells | backend/notebook_converter.py:39-42 | The writing loop appends the blocks of all kept cells in order, the i-th block numbered i. |
| NotebookConverter.WriteScript | backend/notebook_converter.py:35-42 | The text written is the two header lines followed by one block per kept cell, numbered from 1. |
| NotebookConverter.ConvertNotebookToScript | backend/notebook_converter.py:8-50 | The converter yields the script of the kept cells, or nothing when the notebook's cells cannot be read. |
| NotebookConverter.MentionsSimplified | backend/notebook_converter.py:72-77 | The sklearn test reduces to "sklearn" occurring, and the PyTorch test to "torch" occurring. |
| NotebookConverter.LibrariesIn | backend/notebook_converter.py:72-77 | A library is detected in a cell iff one of its names occurs in the source. |
| NotebookConverter.DetectKindPicksFirstMentioned | backend/notebook_converter.py:79-87 | A cell sets no family iff it mentions none. Otherwise the family set is the first one it mentions, in the order of the `elif` chain. |
| NotebookConverter.AnalysisReadsScriptText | backend/notebook_converter.py:24-28 | For a code cell the converter can read, the analyser reads the same text. |
| NotebookConverter.Findings | backend/notebook_converter.py:67-87 | A cell makes the analysis fail iff reading it would raise. A non-code cell finds nothing. A code cell finds its libraries and its first-mentioned family. |
| NotebookConverter.AnalyzeFails | backend/notebook_converter.py:56-99 | The analysis fails iff some cell cannot be read. The feature list is always empty. |
| NotebookConverter.LibrariesFound | backend/notebook_converter.py:67-77 | A library is reported iff some code cell mentions it. |
| NotebookConverter.ModelTypeFromLastMatch | backend/notebook_converter.py:79-87 | No family is reported iff no code cell mentions one. Otherwise the family reported is the one the last deciding cell sets. |
| NotebookConverter.DetectLibraries | backend/notebook_converter.py:71-77 | The three library tests add to the set exactly the libraries the cell's source mentions. |
| NotebookConverter.DetectModelType | backend/notebook_converter.py:79-87 | The `if`/`elif` chain replaces the family by the first one the source mentions, and leaves it unchanged when the source mentions none. |
| NotebookConverter.ScanCells | backend/notebook_converter.py:60-89 | The scanning loop computes exactly the analysis of the cells: it fails where reading a cell would raise. |
| NotebookConverter.LibraryNamesDistinct | backend/notebook_converter.py:72-77 | The three library names ("sklearn", "tensorflow", "pytorch") are distinct. |
| NotebookConverter.KindNamesDistinct | backend/notebook_converter.py:80-87 | The four family names are distinct. |
| NotebookConverter.AsDict | backend/notebook_converter.py:60-89 | The returned dictionary names a family iff one was found, and it is that family's name. It lists a library's name iff the library was found, and lists nothing else. The feature list is carried over. |
| NotebookConverter.ReportedNames | backend/notebook_converter.py:52-95 | In the returned dictionary a library's name is listed iff some code cell mentions it. A family is named iff some code cell mentions one. The feature list is always empty. |
| NotebookConverter.ExtractModelInfo | backend/notebook_converter.py:52-99 | The result is the analysis of the notebook's cells, written as the dictionary of names. It is nothing when the notebook is not an object, its `cells` entry cannot be iterated, or a cell cannot be read. |

## Left out

- File and JSON input/output are left out. This covers `open`, `json.load`, `f.write` and their failures. The notebook functions start from the parsed JSON value and return the script text instead of writing it. A write failure, which would make `convert_notebook_to_script` return False, is not modelled.
- The `output_path` parameter of `convert_notebook_to_script` only names the file written, so it is not modelled.
- All `print` logging is left out. This includes the analysis summary of `extract_model_info` and the startup banner of backend/main.py.
- The `__main__` blocks are left out.
- `convert_notebook_to_script` returns True/False. The model returns the script or `None` instead. `Some` stands for True.
- `extract_model_info` converts the library set to a list. The model keeps a set, because the list's order comes from Python's set iteration and is unspecified.
- FastAPI routing, CORS and request validation are left out. A request is modelled as an already-validated `PatientData`.
- backend/colab_integration.py, backend/test_model.py and the frontend are not part of this model.
- numpy is reduced to what `predict` uses. Feature values and scores are mathematical reals, so float rounding and NaN are not modelled.
- ModelLoading.ModelLoader.Predict: takes only a flat feature vector, the form main.py passes. Arrays that are already 2-D, or that numpy cannot convert, are not modelled.
- ModelLoading.ModelLoader.Predict: requires a consistent loader. The Python method falls through and returns `None` when a model is held without a kind. `ModelLoading.LoadKeepsConsistent` and `ModelLoading.ModelLoader.constructor` show that no loader reaches that state.
- Fault-tolerance rules inside the deserialisers and backends are folded into the oracles' Failure or LoadFailed results. These include a failing `import joblib` or `from tensorflow import keras`, and a label that `int()` rejects.
- `predict_proba` is called only after `predict` has returned. The oracles are pure functions, so the order of these calls is not observable in the model.
- Concurrent requests over the shared module-level loader are not modelled.
- JSON objects with repeated keys are not modelled. `dict.get` is modelled as returning the first binding, because the parser's last-wins rule happens before the value reaches the code.

## Behaviour worth noting

- A failed or unsupported `load_model` leaves both fields as they were, so a loader that held a model keeps it.
- A deserialiser may return `None`. `load_model` then returns True and sets the kind, but `is_loaded()` stays false.
- Confidences are not guaranteed to lie in [0, 1]. They do only when the backend's scores do (`ModelLoading.ConfidenceInUnitInterval`).
- A backend error reaches the user with "Prediction error: " twice (`Api.BackendErrorPrefixedTwice`).
- An empty Keras output row is an error, because `np.argmax` raises on it.
