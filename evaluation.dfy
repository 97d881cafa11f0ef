/**
  Model evaluation: preprocess the held-out test set as training did, read the trained
  model's F1 from the trainer's metric artifact, score the production model if one can
  be loaded, and accept the trained model only if it is strictly better than that
  baseline (0 when there is no usable production model).
*/
module Evaluation {
  import opened Outcomes
  import opened DataFrames

  datatype ModelEvaluationConfig = ModelEvaluationConfig(productionModelPath: Option<string>)
  datatype DataIngestionArtifact = DataIngestionArtifact(testFilePath: string)
  datatype ClassificationMetricArtifact = ClassificationMetricArtifact(f1Score: real)
  datatype ModelTrainerArtifact = ModelTrainerArtifact(trainedModelFilePath: string, metricArtifact: ClassificationMetricArtifact)

  /** The record handed to the pusher. */
  datatype ModelEvaluationArtifact = ModelEvaluationArtifact(
    isModelAccepted: bool,
    changedAccuracy: real,
    productionModelPath: Option<string>,
    trainedModelPath: string)

  datatype EvaluateModelResponse = EvaluateModelResponse(
    trainedModelF1Score: real,
    productionModelF1Score: Option<real>,
    isModelAccepted: bool,
    difference: real)

  /**
    The library calls the evaluation makes, as uninterpreted functions: `pd.read_csv`,
    `pd.get_dummies(drop_first=True)`, `load_object`, a loaded model's `predict` and
    sklearn's `f1_score`. Each returns Err where it would raise.
  */
  datatype Io<!M> = Io(
    readCsv: string -> Result<Frame>,
    getDummies: Frame -> Frame,
    loadObject: string -> Result<M>,
    predict: (M, Frame) -> Result<seq<Cell>>,
    f1Score: (seq<Cell>, seq<Cell>) -> Result<real>)

  const GenderColumn: string := "Gender"
  const IdColumn: string := "_id"
  const VehicleAgeRenames: map<string, string> := map[
    "Vehicle_Age_< 1 Year" := "Vehicle_Age_lt_1_Year",
    "Vehicle_Age_> 2 Years" := "Vehicle_Age_gt_2_Years"]
  /** The columns `_rename_columns` casts to integers when present. */
  const IntColumns: seq<string> := ["Vehicle_Age_lt_1_Year", "Vehicle_Age_gt_2_Years", "Vehicle_Damage_Yes"]

  // ---------- Data preprocessing helpers ----------

  predicate IsGenderLabel(c: Cell) {
    c == Text("Female") || c == Text("Male")
  }

  /** The mapping `{'Female': 0, 'Male': 1}` of `Series.map`; any other value becomes NaN. */
  function GenderCode(c: Cell): Cell {
    if c == Text("Female") then Int(0)
    else if c == Text("Male") then Int(1)
    else Missing
  }

  /** `dst` is the 0/1 encoding of the labels in `src`: Male is 1, Female is 0. */
  ghost predicate EncodesGender(src: seq<Cell>, dst: seq<Cell>) {
    |dst| == |src| && forall j :: 0 <= j < |src| ==> dst[j] == Int(if src[j] == Text("Male") then 1 else 0)
  }

  /** `_map_gender_column`: `df['Gender'] = df['Gender'].map({'Female': 0, 'Male': 1}).astype(int)`. */
  function MapGenderColumn(df: Frame): Result<Frame> {
    if !HasColumn(df, GenderColumn) then Err(KeyError(GenderColumn))
    else CastColumn(MapCells(df, GenderColumn, GenderCode), GenderColumn)
  }

  /**
    The gender mapping raises KeyError without a Gender column and fails the cast when
    any Gender value is neither label; otherwise it encodes Gender as 0/1 in place and
    leaves every other column, and the column order, unchanged.
  */
  lemma MapGenderColumnSpec(df: Frame)
    ensures !HasColumn(df, GenderColumn) ==> MapGenderColumn(df) == Err(KeyError(GenderColumn))
    ensures MapGenderColumn(df).Ok? <==>
              HasColumn(df, GenderColumn) &&
              forall i, j :: 0 <= i < |df.columns| && df.columns[i].name == GenderColumn && 0 <= j < |df.columns[i].cells| ==>
                IsGenderLabel(df.columns[i].cells[j])
    ensures MapGenderColumn(df).Ok? ==>
              var g := MapGenderColumn(df).value;
              |g.columns| == |df.columns| &&
              forall i :: 0 <= i < |df.columns| ==>
                g.columns[i].name == df.columns[i].name &&
                (df.columns[i].name != GenderColumn ==> g.columns[i] == df.columns[i]) &&
                (df.columns[i].name == GenderColumn ==> EncodesGender(df.columns[i].cells, g.columns[i].cells))
  {
    if HasColumn(df, GenderColumn) {
      var m := MapCells(df, GenderColumn, GenderCode);
      forall i | 0 <= i < |df.columns| && df.columns[i].name == GenderColumn
        ensures Castable(m.columns[i]) <==> forall j :: 0 <= j < |df.columns[i].cells| ==> IsGenderLabel(df.columns[i].cells[j])
      {
        var src := df.columns[i].cells;
        assert forall j :: 0 <= j < |src| ==> m.columns[i].cells[j] == GenderCode(src[j]);
        assert forall j :: 0 <= j < |src| ==> (AsInt(GenderCode(src[j])).Some? <==> IsGenderLabel(src[j]));
      }
    }
  }

  /** `_drop_id_column`: drops `_id` only when the frame has it, so the drop never raises. */
  function DropIdColumn(df: Frame): Frame {
    if HasColumn(df, IdColumn) then Drop(df, IdColumn).value else df
  }

  /**
    Dropping `_id` removes every `_id` column and keeps every other column (in order, as
    `Without` does); without `_id` the frame comes back as it was, where an unguarded
    `drop` would raise KeyError; a second drop is a no-op.
  */
  lemma DropIdColumnSpec(df: Frame)
    ensures !HasColumn(df, IdColumn) <==> Drop(df, IdColumn) == Err(KeyError(IdColumn))
    ensures !HasColumn(DropIdColumn(df), IdColumn)
    ensures forall c :: c in DropIdColumn(df).columns <==> c in df.columns && c.name != IdColumn
    ensures !HasColumn(df, IdColumn) ==> DropIdColumn(df) == df
    ensures DropIdColumn(df) == Frame(Without(df.columns, IdColumn))
    ensures DropIdColumn(DropIdColumn(df)) == DropIdColumn(df)
  {
    var d := DropIdColumn(df);
    assert forall i :: 0 <= i < |d.columns| ==> d.columns[i] in d.columns;
  }

  /** `rename(columns=...)` on one label: only the two Vehicle_Age labels change. */
  function RenameName(n: string): (r: string)
    ensures r != n <==> n == "Vehicle_Age_< 1 Year" || n == "Vehicle_Age_> 2 Years"
  {
    if n in VehicleAgeRenames then VehicleAgeRenames[n] else n
  }

  /** What `_rename_columns` returns or raises. */
  function Renamed(df: Frame): Result<Frame> {
    CastAll(Rename(df, VehicleAgeRenames), IntColumns)
  }

  /**
    Renaming relabels exactly the two Vehicle_Age columns; the cast then touches only
    columns whose new name is one of the three listed, fails exactly when one of them
    has a value with no integer form, and leaves every other column as it was.
  */
  lemma RenamedSpec(df: Frame)
    ensures Renamed(df).Ok? <==>
              forall i :: 0 <= i < |df.columns| && RenameName(df.columns[i].name) in IntColumns ==> Castable(df.columns[i])
    ensures Renamed(df).Ok? ==>
              var g := Renamed(df).value;
              |g.columns| == |df.columns| &&
              forall i :: 0 <= i < |df.columns| ==>
                g.columns[i].name == RenameName(df.columns[i].name) &&
                g.columns[i].cells == if RenameName(df.columns[i].name) in IntColumns
                                      then AsIntColumn(df.columns[i]).cells
                                      else df.columns[i].cells
  {
    var renamed := Rename(df, VehicleAgeRenames);
    assert forall i :: 0 <= i < |df.columns| ==>
      renamed.columns[i] == Column(RenameName(df.columns[i].name), df.columns[i].cells);
    CastAllSpec(renamed, IntColumns);
  }

  /**
    `_rename_columns`: renames the Vehicle_Age dummies, then casts each listed column
    that is present, raising on the first that does not convert.
  */
  method RenameColumns(df: Frame) returns (r: Result<Frame>)
    ensures r == Renamed(df)
    ensures r.Ok? <==>
              forall i :: 0 <= i < |df.columns| && RenameName(df.columns[i].name) in IntColumns ==> Castable(df.columns[i])
    ensures r.Ok? ==>
              |r.value.columns| == |df.columns| &&
              forall i :: 0 <= i < |df.columns| ==>
                r.value.columns[i].name == RenameName(df.columns[i].name) &&
                r.value.columns[i].cells == if RenameName(df.columns[i].name) in IntColumns
                                            then AsIntColumn(df.columns[i]).cells
                                            else df.columns[i].cells
  {
    RenamedSpec(df);
    var x := Rename(df, VehicleAgeRenames);
    for k := 0 to |IntColumns|
      invariant CastAll(x, IntColumns[k..]) == Renamed(df)
    {
      var col := IntColumns[k];
      assert IntColumns[k..][0] == col && IntColumns[k..][1..] == IntColumns[k + 1..];
      if HasColumn(x, col) {
        var cast := CastColumn(x, col);
        if cast.Err? {
          return Err(cast.error);
        }
        x := cast.value;
      }
    }
    r := Ok(x);
  }

  /** `test_df.drop(target, axis=1), test_df[target]`: KeyError when the target column is absent. */
  function SplitTarget(df: Frame, target: string): (r: Result<(Frame, seq<Cell>)>)
    ensures r.Ok? <==> HasColumn(df, target)
    ensures r.Err? ==> r.error == KeyError(target)
    ensures r.Ok? ==> !HasColumn(r.value.0, target) &&
                      forall c :: c in r.value.0.columns <==> c in df.columns && c.name != target
    ensures r.Ok? ==> exists i :: 0 <= i < |df.columns| && df.columns[i].name == target && df.columns[i].cells == r.value.1 &&
                                  forall k :: 0 <= k < i ==> df.columns[k].name != target
  {
    match Drop(df, target)
    case Err(e) => Err(e)
    case Ok(x) =>
      match Lookup(df.columns, target)
      case None => Err(KeyError(target))
      case Some(y) => Ok((x, y))
  }

  // ---------- Model evaluation ----------

  /**
    The decision at the end of `evaluate_model`: the baseline is the production F1, or 0 when there is none; the
    trained model is accepted only when strictly better, and the difference is taken
    against the same baseline.
  */
  function Decide(trainedF1: real, productionF1: Option<real>): (r: EvaluateModelResponse)
    ensures r.trainedModelF1Score == trainedF1 && r.productionModelF1Score == productionF1
    ensures r.difference == trainedF1 - productionF1.GetOr(0.0)
    ensures r.isModelAccepted <==> r.difference > 0.0
    ensures productionF1.None? ==> (r.isModelAccepted <==> trainedF1 > 0.0)
    ensures productionF1.Some? ==> (r.isModelAccepted <==> trainedF1 > productionF1.value)
  {
    var bestScore := if productionF1.None? then 0.0 else productionF1.value;
    EvaluateModelResponse(trainedF1, productionF1, trainedF1 > bestScore, trainedF1 - bestScore)
  }

  /** Equal scores are a rejection: the comparison is strict. */
  lemma EqualScoresRejected(f1: real)
    ensures !Decide(f1, Some(f1)).isModelAccepted && Decide(f1, Some(f1)).difference == 0.0
  {
  }

  /** A better trained score, or a weaker production score, never turns an acceptance into a rejection. */
  lemma AcceptanceMonotone(t1: real, t2: real, p1: Option<real>, p2: Option<real>)
    requires t1 <= t2 && p1.GetOr(0.0) >= p2.GetOr(0.0)
    requires Decide(t1, p1).isModelAccepted
    ensures Decide(t2, p2).isModelAccepted
  {
  }

  /** Two decision scenarios: a first deployment (0.82, no production model) and a worse candidate (0.70 against 0.75). */
  lemma DecisionScenarios()
    ensures Decide(0.82, None) == EvaluateModelResponse(0.82, None, true, 0.82)
    ensures Decide(0.70, Some(0.75)) == EvaluateModelResponse(0.70, Some(0.75), false, -0.05)
  {
  }

  /**
    The production-model block of `evaluate_model`: the production model's F1, or None
    when there is no production path or when loading it, predicting with it or scoring
    its predictions raises.
  */
  function ProductionF1<M>(path: Option<string>, io: Io<M>, x: Frame, y: seq<Cell>): (r: Option<real>)
    ensures r.Some? <==>
              && path.Some?
              && io.loadObject(path.value).Ok?
              && io.predict(io.loadObject(path.value).value, x).Ok?
              && io.f1Score(y, io.predict(io.loadObject(path.value).value, x).value).Ok?
    ensures r.Some? ==> Ok(r.value) == io.f1Score(y, io.predict(io.loadObject(path.value).value, x).value)
  {
    match path
    case None => None
    case Some(productionPath) =>
      match io.loadObject(productionPath)
      case Err(_) => None
      case Ok(productionModel) =>
        match io.predict(productionModel, x)
        case Err(_) => None
        case Ok(yHatProd) =>
          match io.f1Score(y, yHatProd)
          case Err(_) => None
          case Ok(score) => Some(score)
  }

  /**
    The first steps of `evaluate_model`: read the test set, split off the target and
    preprocess the features. Exceptions come back as raised, not yet wrapped.
  */
  function PreparedTestData<M>(ingestion: DataIngestionArtifact, target: string, io: Io<M>): (r: Result<(Frame, seq<Cell>)>)
    ensures io.readCsv(ingestion.testFilePath).Err? ==> r == Err(io.readCsv(ingestion.testFilePath).error)
    ensures io.readCsv(ingestion.testFilePath).Ok? && !HasColumn(io.readCsv(ingestion.testFilePath).value, target) ==>
              r == Err(KeyError(target))
    ensures r.Ok? ==> io.readCsv(ingestion.testFilePath).Ok? &&
                      Lookup(io.readCsv(ingestion.testFilePath).value.columns, target) == Some(r.value.1)
  {
    match io.readCsv(ingestion.testFilePath)
    case Err(e) => Err(e)
    case Ok(testDf) =>
      match SplitTarget(testDf, target)
      case Err(e) => Err(e)
      case Ok(xy) =>
        match MapGenderColumn(xy.0)
        case Err(e) => Err(e)
        case Ok(mapped) =>
          match Renamed(io.getDummies(DropIdColumn(mapped)))
          case Err(e) => Err(e)
          case Ok(x) => Ok((x, xy.1))
  }

  /**
    What `evaluate_model` returns or raises: it succeeds iff the test data can be prepared
    and the trained model loads, whatever happens on the production path.
  */
  function Evaluated<M>(config: ModelEvaluationConfig, ingestion: DataIngestionArtifact, trainer: ModelTrainerArtifact,
                        target: string, io: Io<M>): (r: Result<EvaluateModelResponse>)
    ensures r.Ok? <==> PreparedTestData(ingestion, target, io).Ok? && io.loadObject(trainer.trainedModelFilePath).Ok?
    ensures r.Err? ==> r.error.MyException?
    ensures r.Ok? ==> r.value.trainedModelF1Score == trainer.metricArtifact.f1Score
    ensures r.Ok? && config.productionModelPath.None? ==> r.value.productionModelF1Score == None
    ensures r.Ok? ==> (r.value.isModelAccepted <==> r.value.trainedModelF1Score > r.value.productionModelF1Score.GetOr(0.0))
  {
    match PreparedTestData(ingestion, target, io)
    case Err(e) => Err(MyException(e))
    case Ok(xy) =>
      match io.loadObject(trainer.trainedModelFilePath)
      case Err(e) => Err(MyException(e))
      case Ok(_) => Ok(Decide(trainer.metricArtifact.f1Score, ProductionF1(config.productionModelPath, io, xy.0, xy.1)))
  }

  /**
    Whatever happens on the production path, it cannot make the evaluation fail, and
    when it yields no score the response is the one for "no production model".
  */
  lemma ProductionFailureIsSoft<M>(config: ModelEvaluationConfig, ingestion: DataIngestionArtifact, trainer: ModelTrainerArtifact,
                                   target: string, io: Io<M>)
    ensures var withPath := Evaluated(config, ingestion, trainer, target, io);
            var without := Evaluated(ModelEvaluationConfig(None), ingestion, trainer, target, io);
            (withPath.Ok? <==> without.Ok?) &&
            (withPath.Ok? ==> withPath.value.trainedModelF1Score == without.value.trainedModelF1Score) &&
            (withPath.Ok? && withPath.value.productionModelF1Score.None? ==> withPath == without)
  {
  }

  /** A production artifact that cannot be loaded (absent or corrupt) leaves the baseline at 0. */
  lemma UnloadableProductionModelIgnored<M>(config: ModelEvaluationConfig, ingestion: DataIngestionArtifact, trainer: ModelTrainerArtifact,
                                            target: string, io: Io<M>)
    requires config.productionModelPath.Some? && io.loadObject(config.productionModelPath.value).Err?
    requires Evaluated(config, ingestion, trainer, target, io).Ok?
    ensures var r := Evaluated(config, ingestion, trainer, target, io).value;
            r.productionModelF1Score == None &&
            r.difference == trainer.metricArtifact.f1Score &&
            (r.isModelAccepted <==> trainer.metricArtifact.f1Score > 0.0)
  {
  }

  /**
    `evaluate_model`: preprocess step by step, load the trained model (only to check it
    loads), take its F1 from the metric artifact, try the production model, decide.
  */
  method EvaluateModel<M>(config: ModelEvaluationConfig, ingestion: DataIngestionArtifact, trainer: ModelTrainerArtifact,
                          target: string, io: Io<M>) returns (r: Result<EvaluateModelResponse>)
    ensures r == Evaluated(config, ingestion, trainer, target, io)
    ensures r.Err? ==> r.error.MyException?
    ensures r.Ok? ==> r.value.trainedModelF1Score == trainer.metricArtifact.f1Score
    ensures r.Ok? ==> r.value.productionModelF1Score == None || config.productionModelPath.Some?
    ensures r.Ok? ==> (r.value.isModelAccepted <==> r.value.difference > 0.0)
  {
    var testDf := io.readCsv(ingestion.testFilePath);
    if testDf.Err? {
      return Err(MyException(testDf.error));
    }
    var split := SplitTarget(testDf.value, target);
    if split.Err? {
      return Err(MyException(split.error));
    }
    var x, y := split.value.0, split.value.1;
    var mapped := MapGenderColumn(x);
    if mapped.Err? {
      return Err(MyException(mapped.error));
    }
    x := mapped.value;
    x := DropIdColumn(x);
    x := io.getDummies(x);
    var renamed := RenameColumns(x);
    if renamed.Err? {
      return Err(MyException(renamed.error));
    }
    x := renamed.value;

    var trainedModel := io.loadObject(trainer.trainedModelFilePath);
    if trainedModel.Err? {
      return Err(MyException(trainedModel.error));
    }
    var trainedF1 := trainer.metricArtifact.f1Score;

    var productionF1: Option<real> := None;
    if config.productionModelPath.Some? {
      var productionModel := io.loadObject(config.productionModelPath.value);
      if productionModel.Ok? {
        var yHatProd := io.predict(productionModel.value, x);
        if yHatProd.Ok? {
          var score := io.f1Score(y, yHatProd.value);
          if score.Ok? {
            productionF1 := Some(score.value);
          }
        }
      }
    }

    r := Ok(Decide(trainedF1, productionF1));
  }

  // ---------- Final artifact ----------

  /**
    `initiate_model_evaluation`: the artifact copies acceptance and difference from the
    response, the production path from the config and the trained path from the trainer
    artifact; a failure is wrapped in MyException once more.
  */
  method InitiateModelEvaluation<M>(config: ModelEvaluationConfig, ingestion: DataIngestionArtifact, trainer: ModelTrainerArtifact,
                                    target: string, io: Io<M>) returns (r: Result<ModelEvaluationArtifact>)
    ensures var e := Evaluated(config, ingestion, trainer, target, io);
            (e.Ok? ==> r == Ok(ModelEvaluationArtifact(e.value.isModelAccepted, e.value.difference,
                                                       config.productionModelPath, trainer.trainedModelFilePath))) &&
            (e.Err? ==> r == Err(MyException(e.error)))
  {
    var response := EvaluateModel(config, ingestion, trainer, target, io);
    if response.Err? {
      return Err(MyException(response.error));
    }
    r := Ok(ModelEvaluationArtifact(
      isModelAccepted := response.value.isModelAccepted,
      changedAccuracy := response.value.difference,
      productionModelPath := config.productionModelPath,
      trainedModelPath := trainer.trainedModelFilePath));
  }
}
