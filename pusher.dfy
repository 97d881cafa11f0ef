/**
  The model pusher: copies the trained model named in the evaluation artifact into the
  production slot of a store over the process's filesystem, and reports where it went.
  It does not look at the acceptance flag; gating the push on it is the caller's job.
*/
module Pusher {
  import opened Outcomes
  import opened Storage
  import opened Evaluation

  datatype ModelPusherConfig = ModelPusherConfig(productionModelPath: string)
  datatype ModelPusherArtifact = ModelPusherArtifact(savedModelPath: string)

  /** The pusher's artifact together with the files after the push. */
  datatype Pushed = Pushed(artifact: ModelPusherArtifact, files: Files)

  /** `os.path.dirname(path) != ""`: the path names a directory to create. */
  predicate HasDirectoryPart(path: string) {
    '/' in path
  }

  /**
    What `initiate_model_pusher` does to the files under a store rooted at `baseDir`.
    `os.makedirs(os.path.dirname(dst))` (relative to the working directory) raises for a
    destination with no directory part; then the trained model is copied to the joined
    destination without removing the source.
  */
  function Push(files: Files, baseDir: string, evaluation: ModelEvaluationArtifact, config: ModelPusherConfig): (r: Result<Pushed>)
    ensures var src := evaluation.trainedModelPath;
            var dest := Join(baseDir, config.productionModelPath);
            r.Ok? <==> HasDirectoryPart(config.productionModelPath) && src in files && src != dest
    ensures r.Err? ==> r.error.MyException?
    ensures r.Ok? ==>
              var src := evaluation.trainedModelPath;
              var dest := Join(baseDir, config.productionModelPath);
              && r.value.artifact.savedModelPath == dest
              && dest in r.value.files && r.value.files[dest] == files[src]
              && src in r.value.files && r.value.files[src] == files[src]
              && forall p :: p != dest ==> (p in r.value.files <==> p in files) && (p in files ==> r.value.files[p] == files[p])
  {
    var src := evaluation.trainedModelPath;
    var dst := config.productionModelPath;
    if !HasDirectoryPart(dst) then Err(MyException(FileNotFound("")))
    else
      var dest := Join(baseDir, dst);
      match Upload(files, src, dest, false)
      case Err(e) => Err(MyException(e))
      case Ok(after) => Ok(Pushed(ModelPusherArtifact(dest), after))
  }

  /** A second push with the same inputs succeeds again and leaves the same files and artifact. */
  lemma PushIdempotent(files: Files, baseDir: string, evaluation: ModelEvaluationArtifact, config: ModelPusherConfig)
    requires Push(files, baseDir, evaluation, config).Ok?
    ensures var once := Push(files, baseDir, evaluation, config).value;
            Push(once.files, baseDir, evaluation, config) == Ok(once)
  {
    UploadIdempotent(files, evaluation.trainedModelPath, Join(baseDir, config.productionModelPath));
  }

  /** The push is the same whether or not the evaluation accepted the model. */
  lemma PushIgnoresAcceptance(files: Files, baseDir: string, evaluation: ModelEvaluationArtifact, config: ModelPusherConfig, accepted: bool)
    ensures Push(files, baseDir, evaluation.(isModelAccepted := accepted), config) == Push(files, baseDir, evaluation, config)
  {
  }

  /**
    After a push by a default store, an estimator bound to the production path (whose
    store has the same default base) loads the model that the trained file held.
  */
  lemma PushedModelLoads<M>(files: Files, evaluation: ModelEvaluationArtifact, config: ModelPusherConfig, unpickle: Bytes -> Option<M>)
    requires Push(files, DefaultBaseDir, evaluation, config).Ok?
    ensures var after := Push(files, DefaultBaseDir, evaluation, config).value.files;
            var loaded := Load(after, Join(DefaultBaseDir, config.productionModelPath), unpickle);
            (loaded.Ok? <==> Load(files, evaluation.trainedModelPath, unpickle).Ok?) &&
            (loaded.Ok? ==> loaded.value == Load(files, evaluation.trainedModelPath, unpickle).value)
  {
    UploadThenLoad(files, evaluation.trainedModelPath, Join(DefaultBaseDir, config.productionModelPath), false, unpickle);
  }

  class ModelPusher {
    const localStorage: LocalStorageService
    const modelEvaluationArtifact: ModelEvaluationArtifact
    const modelPusherConfig: ModelPusherConfig

    constructor (fs: FileSystem, modelEvaluationArtifact: ModelEvaluationArtifact, modelPusherConfig: ModelPusherConfig)
      ensures fresh(localStorage) && localStorage.fs == fs && localStorage.baseDir == DefaultBaseDir
      ensures this.modelEvaluationArtifact == modelEvaluationArtifact && this.modelPusherConfig == modelPusherConfig
    {
      localStorage := new LocalStorageService(fs, DefaultBaseDir);
      this.modelEvaluationArtifact := modelEvaluationArtifact;
      this.modelPusherConfig := modelPusherConfig;
    }

    /**
      `initiate_model_pusher`: source is the evaluation artifact's trained path,
      destination the config's production path; the copy goes through the store and the
      artifact reports the store's full path. Any failure is re-raised as MyException,
      returns no artifact and leaves the files as they were.
    */
    method InitiateModelPusher() returns (r: Result<ModelPusherArtifact>)
      modifies localStorage.fs
      ensures var p := Push(old(localStorage.fs.files), localStorage.baseDir, modelEvaluationArtifact, modelPusherConfig);
              (p.Ok? ==> r == Ok(p.value.artifact) && localStorage.fs.files == p.value.files) &&
              (p.Err? ==> r == Err(p.error) && localStorage.fs.files == old(localStorage.fs.files))
    {
      var srcModelPath := modelEvaluationArtifact.trainedModelPath;
      var dstModelPath := modelPusherConfig.productionModelPath;
      if !HasDirectoryPart(dstModelPath) {
        return Err(MyException(FileNotFound("")));
      }
      var copied := localStorage.UploadFile(srcModelPath, dstModelPath, false);
      if copied.Fail? {
        return Err(MyException(copied.error));
      }
      r := Ok(ModelPusherArtifact(localStorage.FullPath(dstModelPath)));
    }
  }

  /** Running the pusher twice: the second run reports the same artifact and leaves the same files. */
  method PushTwice(pusher: ModelPusher) returns (first: Result<ModelPusherArtifact>, second: Result<ModelPusherArtifact>)
    modifies pusher.localStorage.fs
    ensures first.Ok? ==> second == first
    ensures var p := Push(old(pusher.localStorage.fs.files), pusher.localStorage.baseDir,
                          pusher.modelEvaluationArtifact, pusher.modelPusherConfig);
            (first.Ok? <==> p.Ok?) && (p.Ok? ==> pusher.localStorage.fs.files == p.value.files)
  {
    first := pusher.InitiateModelPusher();
    if first.Ok? {
      PushIdempotent(old(pusher.localStorage.fs.files), pusher.localStorage.baseDir,
                     pusher.modelEvaluationArtifact, pusher.modelPusherConfig);
    }
    second := pusher.InitiateModelPusher();
  }
}
