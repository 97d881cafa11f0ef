# Model promotion stage, in Dafny

This project models the promotion stage of an MLOps pipeline. The stage decides whether a newly
trained classifier should replace the production model, and then copies it into the production
slot of an artifact store. It has four parts, one module each:

- **Storage** (`src/configuration/local_storage.py`). `LocalStorageService` is a store of model files
  addressed by key under a base directory. It resolves a key to a path with `os.path.join`, copies a
  file in (optionally removing the source afterwards), loads and unpickles a model, and checks
  whether a key exists. The files belong to a `FileSystem` object. Every store shares it, because
  the estimator and the pusher each create their own store over the same disk. Deserialisation
  (`pickle.load`) is an uninterpreted function `unpickle: Bytes -> Option<M>` of the stored bytes.
- **Estimator** (`src/entity/s3_estimator.py`). `Proj1Estimator` is bound to one key. Its `loadedModel`
  cache starts empty and is filled by the first prediction; a ghost counter `loads` records how
  many times `Predict` has read the model from the store (a direct `LoadModel` call does not change it).
- **DataFrames** and **Evaluation** (`src/components/model_evaluation.py`). The test set is a frame of
  named columns. The module models the preprocessing helpers (gender mapping, `_id` drop,
  Vehicle_Age renaming and integer casts) and the accept/reject rule. The production path is a soft
  fail: any exception there only removes the baseline. The trained model's F1 is read from the
  trainer's metric artifact and is never recomputed. `evaluate_model` and
  `initiate_model_evaluation` are methods proved against the specification functions `Evaluated`
  and `Decide`.
- **Pusher** (`src/components/model_pusher.py`). `ModelPusher.InitiateModelPusher` copies the trained
  model to the configured production path through the store and reports the store's full path. It
  never reads the acceptance flag.

Library calls are parameters. `pd.read_csv`, `pd.get_dummies`, `load_object`, a model's `predict`
and `f1_score` are function fields of `Evaluation.Io`. `pickle.load` is the `unpickle` function, and
the estimator's model `predict` is the `run` argument of `Predict`. Scores are exact `real`s.
`TARGET_COLUMN` is defined in `src/constants`, which is not part of this model, so it is the
parameter `target`.

## Model

| member | source | states |
|---|---|---|
| `Storage.Join` | src/configuration/local_storage.py:15-16 | An absolute key is returned as given. A relative key gives `base + key` when the base is empty or ends in `/`, and `base + "/" + key` otherwise. The result always ends with the key. |
| `Storage.LocalStorageService.FullPath` | src/configuration/local_storage.py:15-16 | `_full_path`: an absolute key passes through; a relative key becomes `base_dir + "/" + key` when the base does not end in `/`; under a non-empty base the path always has a directory part. |
| `Storage.JoinInjective` | src/configuration/local_storage.py:15-16 | Under a relative, non-empty base, two keys that resolve to the same path are the same key. |
| `Storage.JoinHasDirectory` | src/configuration/local_storage.py:20-21 | Under a non-empty base every full path contains `/`, so `os.makedirs(os.path.dirname(dest))` always has a directory to create. |
| `Storage.Upload` | src/configuration/local_storage.py:18-24 | The copy succeeds iff the source exists and is not the destination. A missing source raises FileNotFoundError; copying a file onto itself raises SameFileError. On success the destination holds the source's bytes, replacing any earlier content. The source is gone iff `remove` is set, and unchanged otherwise. No other file changes. |
| `Storage.LocalStorageService.UploadFile` | src/configuration/local_storage.py:18-24 | `from_file` is used as given and the key is resolved under the base. The new files are those `Upload` gives. On failure the error is returned and the files are unchanged (copy before delete). |
| `Storage.UploadIdempotent` | src/configuration/local_storage.py:20-22 | Repeating an upload without `remove` succeeds again and leaves the files as they were after the first. |
| `Storage.UploadThenLoad` | src/configuration/local_storage.py:18-33 | After an upload, loading the destination succeeds iff loading the source did before, and yields the same model: the deserialisation of the source's bytes. |
| `Storage.UploadKeepsOtherLoads` | src/configuration/local_storage.py:18-33 | An upload leaves the load result of every path other than source and destination unchanged. |
| `Storage.Load` | src/configuration/local_storage.py:26-33 | A load succeeds iff the file exists and its bytes unpickle, and returns the unpickled model. A missing file raises FileNotFoundError for that path before anything is read. |
| `Storage.LocalStorageService.LoadModel` | src/configuration/local_storage.py:26-33 | `load_model(key)` reads `_full_path(key)` and returns what `Load` gives. It raises FileNotFoundError when that file is absent. |
| `Storage.LocalStorageService.S3KeyPathAvailable` | src/configuration/local_storage.py:35-37 | True iff the file at `_full_path(key)` exists. It never fails. |
| `Storage.LocalStorageService.constructor` | src/configuration/local_storage.py:11-13 | The store is bound to the given filesystem and base directory. |
| `Outcomes.Reraise` | src/entity/s3_estimator.py:41-42 | `except Exception as e: raise MyException(e, sys)`: a result passes through unchanged, and an exception is raised again wrapped in MyException, which keeps it as its cause. |
| `Estimator.Proj1Estimator.constructor` | src/entity/s3_estimator.py:13-21 | The estimator owns a fresh store with the default base `local_models`. It keeps `bucket_name` and `model_path`. `loaded_model` starts as None. |
| `Estimator.Proj1Estimator.IsModelPresent` | src/entity/s3_estimator.py:23-32 | Answers the store's existence check for the argument's key, not for `model_path`. |
| `Estimator.Proj1Estimator.LoadModel` | src/entity/s3_estimator.py:34-42 | Loads the key `model_path`. A success passes through; every failure, including a missing file, is re-raised as MyException. |
| `Estimator.Proj1Estimator.SaveModel` | src/entity/s3_estimator.py:44-54 | Uploads `from_file` to the key `model_path` with the `remove` flag passed through unchanged. A failure is re-raised as MyException and changes nothing. |
| `Estimator.Proj1Estimator.Predict` | src/entity/s3_estimator.py:56-63 | With a cached model: the store is not read, the cache is kept, and the result is the model's prediction. Without one: the store is read once. On success the model is cached; on failure the cache stays empty and the error comes back wrapped twice. |
| `Estimator.PredictReusesCachedModel` | src/entity/s3_estimator.py:56-63 | Suppose the first prediction succeeded and the stored model is then overwritten. A second prediction returns the same result from the cached model, and the pair reads the store at most once. |
| `DataFrames.Without` | src/components/model_evaluation.py:48-52 | The column filter that `drop(name, axis=1)` applies when the label is present: the result keeps exactly the columns not called `name`. As a filter it leaves a frame without that column unchanged. |
| `DataFrames.Drop` | src/components/model_evaluation.py:51 | `df.drop(name, axis=1)` with pandas' default `errors='raise'` fails with KeyError iff no column bears the label. Otherwise no column of that name is left and every other column is kept. |
| `DataFrames.WithoutConcat` | src/components/model_evaluation.py:48-52 | Dropping distributes over concatenation, so the kept columns keep their relative order. |
| `DataFrames.Lookup` | src/components/model_evaluation.py:75 | `df[target]` finds a column iff one bears the name, and yields the cells of the first one. |
| `DataFrames.CastAllSpec` | src/components/model_evaluation.py:64-66 | The cast loop succeeds iff every column named in the list converts to integers. It then casts exactly those columns and leaves all others as they were. |
| `Evaluation.MapGenderColumnSpec` | src/components/model_evaluation.py:43-46 | A missing Gender column raises KeyError. Any value other than Female/Male fails the integer cast. Otherwise Gender becomes Male=1, Female=0, and the other columns and the column order are unchanged. |
| `Evaluation.DropIdColumnSpec` | src/components/model_evaluation.py:48-52 | After the drop, no `_id` column is left and every other column is kept. A frame without `_id` is returned unchanged; it is exactly the frame on which an unguarded `drop` would raise KeyError. Dropping twice equals dropping once. |
| `Evaluation.RenameName` | src/components/model_evaluation.py:60-63 | A label changes iff it is one of the two Vehicle_Age labels. |
| `Evaluation.RenamedSpec` | src/components/model_evaluation.py:58-67 | The two Vehicle_Age columns are renamed and every other name is kept. Only columns whose new name is one of the three listed are cast. The result fails iff one of them holds a value with no integer form. |
| `Evaluation.RenameColumns` | src/components/model_evaluation.py:58-67 | The loop computes `Renamed(df)`, and the same renaming and cast characterisation holds of its result. |
| `Evaluation.SplitTarget` | src/components/model_evaluation.py:75 | Succeeds iff the frame has the target column; otherwise the `drop` raises KeyError for it. The features keep exactly the columns not named after the target. The labels are the cells of the first target column. |
| `Evaluation.PreparedTestData` | src/components/model_evaluation.py:74-81 | A failure of `read_csv` is raised as is. A test set without the target column raises KeyError. On success the labels are the read frame's target column. |
| `Evaluation.ProductionF1` | src/components/model_evaluation.py:90-99 | A production score exists iff a production path is configured and loading, predicting and scoring all succeed. It is then the score `f1_score` returned; any exception on the way gives None. |
| `Evaluation.Evaluated` | src/components/model_evaluation.py:71-113 | Evaluation succeeds iff the test data can be prepared and the trained model loads; every failure is a MyException. The trained score is the metric artifact's F1. With no production path there is no production score. Acceptance holds iff the trained F1 is strictly above the production F1, or above 0 without one. |
| `Evaluation.Decide` | src/components/model_evaluation.py:101-110 | The baseline is the production F1, or 0 when there is none. The difference is trained minus baseline. The model is accepted iff the difference is positive, which is iff the trained F1 is strictly above the baseline. The trained and production scores are carried unchanged. |
| `Evaluation.EqualScoresRejected` | src/components/model_evaluation.py:102-103 | Equal trained and production scores are rejected, with difference 0. |
| `Evaluation.AcceptanceMonotone` | src/components/model_evaluation.py:101-102 | A higher trained score or a lower baseline never turns acceptance into rejection. |
| `Evaluation.DecisionScenarios` | src/components/model_evaluation.py:101-110 | 0.82 with no production model is accepted with delta 0.82. 0.70 against 0.75 is rejected with delta -0.05. |
| `Evaluation.ProductionFailureIsSoft` | src/components/model_evaluation.py:89-99 | The production path never decides whether evaluation succeeds, and never changes the trained score. When it yields no score, the response equals the response with no production path. |
| `Evaluation.UnloadableProductionModelIgnored` | src/components/model_evaluation.py:90-103 | A production model that cannot be loaded gives production score None and difference = trained F1. Acceptance then holds iff the trained F1 > 0. |
| `Evaluation.EvaluateModel` | src/components/model_evaluation.py:71-113 | Equals `Evaluated`. Any failure of reading, preprocessing or loading the trained model is wrapped in MyException. The trained score is the metric artifact's F1, not recomputed. A production score appears only when a production path is configured. Acceptance holds iff the difference is positive. |
| `Evaluation.InitiateModelEvaluation` | src/components/model_evaluation.py:117-134 | The artifact copies acceptance and difference from the response, the production path from the config, and the trained path from the trainer artifact. A failure is wrapped in MyException again. |
| `Pusher.Push` | src/components/model_pusher.py:19-51 | The push succeeds iff the destination has a directory part, the trained file exists, and the trained file is not the joined destination. On success the artifact's path is `_full_path(dst)`, which holds the trained bytes. The source is kept and nothing else changes. Every failure is a MyException. |
| `Pusher.PushIdempotent` | src/components/model_pusher.py:36-39 | Pushing again with the same inputs succeeds with the same artifact and the same files. |
| `Pusher.PushIgnoresAcceptance` | src/components/model_pusher.py:19-48 | The push is the same whatever the evaluation artifact's `is_model_accepted` says. |
| `Pusher.PushedModelLoads` | src/components/model_pusher.py:36-44 | After a push, loading the production path under the default base yields the model the trained file held. This is the path an estimator bound to it reads. |
| `Pusher.ModelPusher.constructor` | src/components/model_pusher.py:11-17 | The pusher owns a fresh default store over the given filesystem and keeps its evaluation artifact and config. |
| `Pusher.ModelPusher.InitiateModelPusher` | src/components/model_pusher.py:19-51 | The method returns the artifact and the new files that `Push` gives for the trained path and the production path. On failure it returns the MyException, no artifact, and unchanged files. |
| `Pusher.PushTwice` | src/components/model_pusher.py:36-39 | Two runs of the pusher: when the first succeeds the second returns the same artifact, and the files are those after one push. |

## Left out

- Directories are not modelled. The filesystem is the set of regular files. `os.makedirs` in the store's constructor and `upload_file` has no modelled effect. A key that names a directory is treated as a file name: this covers an empty key, a key ending in `/`, `os.path.exists` on a directory, and `shutil.copy` into a directory. Failures from a file standing where a directory is needed are not modelled.
- Paths are compared as strings. `shutil.copy` reports SameFileError only when the two strings are equal, not for two spellings of one file (`a/b` and `./a/b`, symbolic links).
- `Storage.LocalStorageService.constructor` requires a non-empty base directory. The source's `os.makedirs("")` raises there, and every caller uses the default `local_models`.
- A failure part-way through a copy (disk full, permissions) is not modelled. The model copies whole files or fails before writing.
- The pusher's `os.makedirs(os.path.dirname(dst))` runs relative to the working directory. It is modelled only through its failure for a destination with no directory part. The directory it creates is not modelled.
- `pickle.load`, `pd.read_csv`, `pd.get_dummies`, `load_object`, a model's `predict` and `f1_score` are uninterpreted functions, so floating-point F1 computation is not modelled. `astype(int)` on text is modelled as failing, although pandas would parse numeric strings. `astype(int)` converts into 64-bit integers, where a float out of range gives an undefined value; the model's integers are unbounded. The cast columns hold only 0/1 values, so nothing here depends on it.
- Data frames are values. `_map_gender_column` assigns the column in place on the caller's frame. This cannot be observed, because `x` is a fresh frame (line 75) reassigned at each step.
- When a column name is duplicated, pandas `df[name]` returns a frame. The model instead applies each drop, map and cast to every column with that name, while `Lookup` (the target `df[target]`) takes the first such column's cells.
- Logging, `print`, and the message and traceback inside `MyException` are left out; only the wrapping is kept. The estimator's `except MyException` branch in `is_model_present` is unreachable, because the store's check never raises.
- `bucket_name` is kept on the estimator but no operation reads it, so it appears in no contract. The store's `bucket_name` parameters are ignored by the source and left out.
- Concurrent promotions (last writer wins) are not modelled. The FastAPI entrypoint and the demo script are outside the modelled stage.
- The evaluator loads the production model with `load_object(production_model_path)`, a path used as given. The pusher writes to `local_models/<production_model_path>`. The two configurations are not part of this model, so nothing is claimed about whether the two paths coincide.
