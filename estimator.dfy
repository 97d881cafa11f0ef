/**
  `Proj1Estimator`: a handle on one stored model, bound to the key `modelPath` of a
  store that it creates over the process's filesystem. It loads the model lazily, on
  the first prediction, and keeps it: unloaded, then loaded for good.
*/
module Estimator {
  import opened Outcomes
  import opened Storage

  class Proj1Estimator<M> {
    /** Kept for compatibility with a remote store; no operation reads it. */
    const bucketName: string
    const s3: LocalStorageService
    const modelPath: string
    /** The deserialiser (`pickle.load`), an uninterpreted function of the stored bytes. */
    const unpickle: Bytes -> Option<M>
    var loadedModel: Option<M>
    /** How many times `Predict` has read the model from the store. */
    ghost var loads: nat

    constructor (fs: FileSystem, bucketName: string, modelPath: string, unpickle: Bytes -> Option<M>)
      ensures this.bucketName == bucketName && this.modelPath == modelPath && this.unpickle == unpickle
      ensures fresh(s3) && s3.fs == fs && s3.baseDir == DefaultBaseDir
      ensures loadedModel == None && loads == 0
    {
      this.bucketName := bucketName;
      s3 := new LocalStorageService(fs, DefaultBaseDir);
      this.modelPath := modelPath;
      this.unpickle := unpickle;
      loadedModel := None;
      loads := 0;
    }

    /**
      `is_model_present(model_path)`: whether the ARGUMENT's file exists in the store,
      whatever key the estimator is bound to. The store's check never raises, so the
      handler that answers False is never reached.
    */
    method IsModelPresent(path: string) returns (present: bool)
      ensures present <==> s3.FullPath(path) in s3.fs.files
    {
      present := s3.S3KeyPathAvailable(path);
    }

    /** `load_model()`: the model stored under `modelPath`; any failure is re-raised as MyException. */
    method LoadModel() returns (r: Result<M>)
      ensures var l := Load(s3.fs.files, s3.FullPath(modelPath), unpickle);
              (l.Ok? ==> r == l) && (l.Err? ==> r == Err(MyException(l.error)))
      ensures s3.FullPath(modelPath) !in s3.fs.files ==> r == Err(MyException(FileNotFound(s3.FullPath(modelPath))))
    {
      var l := s3.LoadModel(modelPath, unpickle);
      r := Reraise(l);
    }

    /**
      `save_model(from_file, remove)`: copies `fromFile` to the key `modelPath`, passing
      `remove` through; any failure is re-raised as MyException and changes nothing.
    */
    method SaveModel(fromFile: string, remove: bool) returns (r: Outcome)
      modifies s3.fs
      ensures var u := Upload(old(s3.fs.files), fromFile, s3.FullPath(modelPath), remove);
              (u.Ok? ==> r == Pass && s3.fs.files == u.value) &&
              (u.Err? ==> r == Fail(MyException(u.error)) && s3.fs.files == old(s3.fs.files))
    {
      var u := s3.UploadFile(fromFile, modelPath, remove);
      if u.Fail? {
        return Fail(MyException(u.error));
      }
      r := Pass;
    }

    /**
      `predict(dataframe)`: loads the model only while none is cached, then runs it
      (`run` stands for the model's own `predict`). A model once cached is reused
      without reading the store again, even if the stored file has since changed.
    */
    method Predict<X, Y>(dataframe: X, run: (M, X) -> Result<Y>) returns (r: Result<Y>)
      modifies this
      ensures old(loadedModel).Some? ==> loadedModel == old(loadedModel) && loads == old(loads)
      ensures old(loadedModel).None? ==>
                var l := Load(s3.fs.files, s3.FullPath(modelPath), unpickle);
                loads == old(loads) + 1 &&
                loadedModel == (if l.Ok? then Some(l.value) else None) &&
                (l.Err? ==> r == Err(MyException(MyException(l.error))))
      ensures loadedModel.Some? ==> r == Reraise(run(loadedModel.value, dataframe))
    {
      if loadedModel.None? {
        var l := LoadModel();
        loads := loads + 1;
        if l.Err? {
          return Err(MyException(l.error));
        }
        loadedModel := Some(l.value);
      }
      var out := run(loadedModel.value, dataframe);
      r := Reraise(out);
    }
  }

  /**
    Two predictions around an overwrite of the stored model: once the first call has
    cached a model, the second call gives the same answer from the cached model, and
    the store is read at most once for the pair.
  */
  method PredictReusesCachedModel<M, X, Y>(e: Proj1Estimator<M>, dataframe: X, run: (M, X) -> Result<Y>, newModelFile: string)
    returns (first: Result<Y>, second: Result<Y>)
    modifies e, e.s3.fs
    ensures first.Ok? ==> second == first
    ensures first.Ok? ==> e.loads <= old(e.loads) + 1
    ensures old(e.loadedModel).Some? ==> e.loads == old(e.loads) && second == first
  {
    first := e.Predict(dataframe, run);
    var saved := e.SaveModel(newModelFile, false);
    second := e.Predict(dataframe, run);
  }
}
