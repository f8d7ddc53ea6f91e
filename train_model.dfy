/** The training script: augments the labelled dataset with noisy copies of
    its rows, trains the four model families, keeps the ones that train,
    picks the most accurate, checks it can give probabilities and saves it
    to the registry. Random draws and the fitted models' scores come from
    the outside as parameters. */
module TrainModel {
  import opened Common
  import opened Features
  import opened Registry
  import opened XaiExplainer
  import opened Model

  /** One row of the training frame: the ten features and the encoded label. */
  datatype Example = Example(features: FeatureVector, target: nat)

  /** The random draws of augmentation: the row picked in round `k`, and the
      standard-normal draw of round `k` for column `c`. The pick is taken
      modulo the row count, so it always names a row. */
  datatype Draws = Draws(pick: nat -> nat, normal: nat -> nat -> real)

  /** Why training raises. */
  datatype TrainError = EmptyPickRange

  const NoiseFactor: real := 0.1
  /** The number of synthetic rows `train_model` asks for. */
  const AugmentCount: nat := 1000

  function Abs(v: real): real {
    if v < 0.0 then -v else v
  }

  /** `max(0, v)`. */
  function AtLeastZero(v: real): real {
    if 0.0 > v then 0.0 else v
  }

  /** `max(0, min(hi, v))`. */
  function Between(v: real, hi: real): real {
    AtLeastZero(if hi < v then hi else v)
  }

  /** One noisy field: the value plus a normal draw scaled by a tenth of the
      value's magnitude. */
  function Noisy(v: real, z: real): real {
    v + z * (NoiseFactor * Abs(v))
  }

  /** The noisy row of one round, before clamping. */
  function Perturbed(x: seq<real>, z: nat -> real): seq<real> {
    seq(|x|, j requires 0 <= j < |x| => Noisy(x[j], z(j)))
  }

  /** The realistic bounds enforced after the noise. */
  function Clamped(x: seq<real>): seq<real>
    requires |x| == 10
  {
    x[Pm25Index := AtLeastZero(x[Pm25Index])]
     [Pm10Index := AtLeastZero(x[Pm10Index])]
     [HumidityIndex := Between(x[HumidityIndex], 100.0)]
     [AdherenceIndex := Between(x[AdherenceIndex], 1.0)]
  }

  /** The row the augmenter picks in round `k`. */
  function Source(df: seq<Example>, draws: Draws, k: nat): (i: nat)
    requires |df| > 0
    ensures i < |df|
  {
    draws.pick(k) % |df|
  }

  /** The synthetic row of round `k`. */
  function SyntheticRow(df: seq<Example>, draws: Draws, k: nat): Example
    requires |df| > 0
  {
    var src := df[Source(df, draws, k)];
    Example(FromArray(Clamped(Perturbed(ToArray(src.features), draws.normal(k)))), src.target)
  }

  /** The synthetic rows of rounds `0 .. n-1`, in round order. */
  function SyntheticRows(df: seq<Example>, draws: Draws, n: nat): (s: seq<Example>)
    requires n == 0 || |df| > 0
    ensures |s| == n
  {
    if n == 0 then [] else SyntheticRows(df, draws, n - 1) + [SyntheticRow(df, draws, n - 1)]
  }

  /** `augment_data`: the original rows followed by `n` synthetic ones. With
      no rows to pick from, the first pick raises. */
  function Augmented(df: seq<Example>, n: nat, draws: Draws): Result<seq<Example>, TrainError> {
    if |df| == 0 && n > 0 then Failure(EmptyPickRange)
    else Success(df + SyntheticRows(df, draws, n))
  }

  lemma SyntheticRowsStep(df: seq<Example>, draws: Draws, k: nat)
    requires |df| > 0
    ensures SyntheticRows(df, draws, k + 1) == SyntheticRows(df, draws, k) + [SyntheticRow(df, draws, k)]
  {
  }

  lemma {:induction false} SyntheticRowsAt(df: seq<Example>, draws: Draws, n: nat, j: nat)
    requires |df| > 0 && j < n
    ensures SyntheticRows(df, draws, n)[j] == SyntheticRow(df, draws, j)
  {
    if j < n - 1 {
      SyntheticRowsAt(df, draws, n - 1, j);
    }
  }

  /** A synthetic row keeps the label of the row it copies; the four bounded
      fields are within their bounds; and a field that is zero in the
      copied row is zero in the copy, since its noise has zero spread. */
  lemma SyntheticRowProperties(df: seq<Example>, draws: Draws, k: nat)
    requires |df| > 0
    ensures var s := SyntheticRow(df, draws, k);
      var src := df[Source(df, draws, k)];
      && s.target == src.target
      && s.features.pm25 >= 0.0 && s.features.pm10 >= 0.0
      && 0.0 <= s.features.humidity <= 100.0
      && 0.0 <= s.features.medicationAdherence <= 1.0
      && forall c :: 0 <= c < 10 && ToArray(src.features)[c] == 0.0 ==> ToArray(s.features)[c] == 0.0
  {
    var src := df[Source(df, draws, k)];
    var x := ToArray(src.features);
    var p := Perturbed(x, draws.normal(k));
    var y := Clamped(p);
    forall c | 0 <= c < 10 && x[c] == 0.0
      ensures p[c] == 0.0
    {
      assert p[c] == Noisy(x[c], draws.normal(k)(c));
    }
    assert ToArray(FromArray(y)) == y;
  }

  /** The noise of one round, column by column, then the clamps. */
  method MakeSample(df: seq<Example>, draws: Draws, k: nat) returns (sample: Example)
    requires |df| > 0
    ensures sample == SyntheticRow(df, draws, k)
  {
    var src := df[draws.pick(k) % |df|];
    var x := ToArray(src.features);
    var row := x;
    for c := 0 to |x|
      invariant |row| == |x|
      invariant forall j :: 0 <= j < c ==> row[j] == Noisy(x[j], draws.normal(k)(j))
      invariant forall j :: c <= j < |x| ==> row[j] == x[j]
    {
      var noise := draws.normal(k)(c) * (NoiseFactor * Abs(row[c]));
      row := row[c := row[c] + noise];
    }
    assert row == Perturbed(x, draws.normal(k));
    row := row[Pm25Index := AtLeastZero(row[Pm25Index])];
    row := row[Pm10Index := AtLeastZero(row[Pm10Index])];
    row := row[HumidityIndex := Between(row[HumidityIndex], 100.0)];
    row := row[AdherenceIndex := Between(row[AdherenceIndex], 1.0)];
    sample := Example(FromArray(row), src.target);
  }

  /** The augmentation loop. */
  method AugmentData(df: seq<Example>, n: nat, draws: Draws) returns (r: Result<seq<Example>, TrainError>)
    ensures r == Augmented(df, n, draws)
  {
    if |df| == 0 && n > 0 {
      return Failure(EmptyPickRange);
    }
    var augmented: seq<Example> := [];
    for k := 0 to n
      invariant augmented == SyntheticRows(df, draws, k)
    {
      var sample := MakeSample(df, draws, k);
      SyntheticRowsStep(df, draws, k);
      augmented := augmented + [sample];
    }
    r := Success(df + augmented);
  }

  /** The augmented frame has `|df| + n` rows; the originals come first,
      unchanged and in order; row `|df| + j` is the synthetic row of round
      `j`, which copies the label of an original row. */
  lemma AugmentedShape(df: seq<Example>, n: nat, draws: Draws, j: nat)
    ensures Augmented(df, n, draws).Success? <==> |df| > 0 || n == 0
    ensures Augmented(df, n, draws).Success? ==>
      var v := Augmented(df, n, draws).value;
      && |v| == |df| + n
      && v[..|df|] == df
      && (j < n ==>
            && v[|df| + j] == SyntheticRow(df, draws, j)
            && exists i :: 0 <= i < |df| && v[|df| + j].target == df[i].target)
  {
    if |df| > 0 && j < n {
      SyntheticRowsAt(df, draws, n, j);
      SyntheticRowProperties(df, draws, j);
      var v := Augmented(df, n, draws).value;
      assert v[|df| + j] == SyntheticRows(df, draws, n)[j];
    }
  }

  /** The four model families. */
  datatype Family = RandomForest | LogisticRegression | GradientBoosting | Svm

  /** The name a family is reported and saved under. */
  function FamilyName(f: Family): string {
    match f
    case RandomForest => "Random Forest"
    case LogisticRegression => "Logistic Regression"
    case GradientBoosting => "Gradient Boosting"
    case Svm => "SVM"
  }

  /** The families in the order they are trained. */
  const Families: seq<Family> := [RandomForest, LogisticRegression, GradientBoosting, Svm]

  /** A family whose search and evaluation completed: the tuned pipeline
      and its accuracy on the test split. */
  datatype Trained = Trained(model: Pipeline, accuracy: real)

  /** The families that trained, with their results, in training order. A
      family whose outcome is None raised and is skipped. */
  function Successful(families: seq<Family>, outcome: Family -> Option<Trained>): seq<(Family, Trained)> {
    if |families| == 0 then []
    else
      var f := families[|families| - 1];
      Successful(families[..|families| - 1], outcome)
        + (if outcome(f).Some? then [(f, outcome(f).value)] else [])
  }

  /** A family is in the results, with its own outcome, exactly when it
      trained; one family failing does not remove another. */
  lemma {:induction false} SuccessfulMembers(families: seq<Family>, outcome: Family -> Option<Trained>, f: Family, t: Trained)
    ensures (f, t) in Successful(families, outcome) <==> f in families && outcome(f) == Some(t)
  {
    if |families| > 0 {
      var init := families[..|families| - 1];
      SuccessfulMembers(init, outcome, f, t);
      assert families == init + [families[|families| - 1]];
    }
  }

  /** `train_multiple_models`: the results dictionary as its items in
      insertion order. */
  method TrainMultipleModels(outcome: Family -> Option<Trained>) returns (results: seq<(Family, Trained)>)
    ensures results == Successful(Families, outcome)
  {
    results := [];
    for i := 0 to |Families|
      invariant results == Successful(Families[..i], outcome)
    {
      var family := Families[i];
      var trained := outcome(family);
      if trained.Some? {
        results := results + [(family, trained.value)];
      }
      assert Families[..i + 1][..i] == Families[..i];
    }
    assert Families[..|Families|] == Families;
  }

  /** The position of the first entry with the highest accuracy: the head
      of the results sorted by accuracy, highest first, with a stable sort. */
  function FirstBest(results: seq<(Family, Trained)>): (i: nat)
    requires |results| > 0
    ensures i < |results|
    ensures forall j :: 0 <= j < |results| ==> results[j].1.accuracy <= results[i].1.accuracy
    ensures forall j :: 0 <= j < i ==> results[j].1.accuracy < results[i].1.accuracy
  {
    if |results| == 1 then 0
    else
      var rest := FirstBest(results[1..]);
      assert forall j :: 1 <= j < |results| ==> results[j] == results[1..][j - 1];
      if results[0].1.accuracy >= results[1 + rest].1.accuracy then 0 else 1 + rest
  }

  /** `evaluate_models`: the best family's name and model, or None when
      there is nothing to sort. */
  function EvaluateModels(results: seq<(Family, Trained)>): (r: Option<(Family, Trained)>)
    ensures r.None? <==> |results| == 0
    ensures r.Some? ==> forall e :: e in results ==> e.1.accuracy <= r.value.1.accuracy
    ensures r.Some? ==>
      exists i :: 0 <= i < |results| && r.value == results[i] &&
        forall j :: 0 <= j < i ==> results[j].1.accuracy < r.value.1.accuracy
  {
    if |results| == 0 then None else Some(results[FirstBest(results)])
  }

  /** `validate_xai_compatibility`: False exactly when the classifier has no
      `predict_proba`. */
  function ValidateXaiCompatibility(model: Pipeline): (ok: bool) {
    model.hasPredictProba
  }

  /** A compatible model is one the predictor answers with a confidence and
      per-class probabilities; an incompatible one yields neither. */
  lemma CompatibleMeansConfidence(l: Loaded, x: seq<real>, sk: Sklearn)
    requires Assemble(l, x, sk).Success?
    ensures ValidateXaiCompatibility(l.model) <==> Assemble(l, x, sk).value.confidence.Some?
    ensures ValidateXaiCompatibility(l.model) <==> Assemble(l, x, sk).value.probabilities.Some?
  {
  }

  /** Only the random forest is saved under the fallback file, and no
      family under `best_model.pkl`. */
  lemma FamilyFile(f: Family)
    ensures ModelFileName(FamilyName(f)) != BestModelFile
    ensures ModelFileName(FamilyName(f)) == DefaultModelFile <==> f == RandomForest
  {
    match f
    case RandomForest =>
      SaveAndLoadNamesAgree();
      FileNameLength(FamilyName(f), 13);
    case LogisticRegression => FileNameLength(FamilyName(f), 19);
    case GradientBoosting => FileNameLength(FamilyName(f), 17);
    case Svm => FileNameLength(FamilyName(f), 3);
  }

  /** A file name is as long as the name plus the suffix. */
  lemma FileNameLength(name: string, length: nat)
    requires |name| == length
    ensures |ModelFileName(name)| == length + |ModelSuffix|
    ensures length != 4 ==> ModelFileName(name) != BestModelFile
    ensures length != 13 ==> ModelFileName(name) != DefaultModelFile
  {
  }

  /** The training data: the augmented frame when augmentation is on. */
  function TrainingData(df: seq<Example>, augment: bool, draws: Draws): Result<seq<Example>, TrainError> {
    if augment then Augmented(df, AugmentCount, draws) else Success(df)
  }

  /** Everything `train_model` does before saving: the data, the families
      that trained on it, and the best of them, if any. The split and the
      grid searches are the `fit` oracle, which gives the outcome of each
      family on the data. */
  method SelectBest(df: seq<Example>, augment: bool, draws: Draws,
                    fit: seq<Example> -> Family -> Option<Trained>)
    returns (r: Result<Option<(Family, Trained)>, TrainError>)
    ensures TrainingData(df, augment, draws).Failure? ==> r == Failure(TrainingData(df, augment, draws).error)
    ensures TrainingData(df, augment, draws).Success? ==>
      r == Success(EvaluateModels(Successful(Families, fit(TrainingData(df, augment, draws).value))))
  {
    var data := df;
    if augment {
      var augmented := AugmentData(df, AugmentCount, draws);
      if augmented.Failure? {
        return Failure(augmented.error);
      }
      data := augmented.value;
    }
    var results := TrainMultipleModels(fit(data));
    if |results| == 0 {
      return Success(None);
    }
    var best := EvaluateModels(results);
    var compatible := ValidateXaiCompatibility(best.value.1.model);
    r := Success(best);
  }

  /** `train_model`. With no family trained it returns None and saves
      nothing; otherwise the best model is saved under its family's file
      name with the encoder and the feature columns, and returned. No
      training run writes `best_model.pkl`. */
  method Train(dir: ModelDirectory, df: seq<Example>, le: LabelEncoder, augment: bool, draws: Draws,
               fit: seq<Example> -> Family -> Option<Trained>)
    returns (r: Result<Option<(Pipeline, LabelEncoder)>, TrainError>)
    modifies dir
    ensures r.Failure? || r == Success(None) ==>
      dir.models == old(dir.models) && dir.encoder == old(dir.encoder) && dir.columns == old(dir.columns)
    ensures TrainingData(df, augment, draws).Failure? <==> r.Failure?
    ensures TrainingData(df, augment, draws).Success? ==>
      var best := EvaluateModels(Successful(Families, fit(TrainingData(df, augment, draws).value)));
      && (best.None? ==> r == Success(None))
      && (best.Some? ==>
            && r == Success(Some((best.value.1.model, le)))
            && dir.models == old(dir.models)[ModelFileName(FamilyName(best.value.0)) := best.value.1.model]
            && dir.encoder == Some(le) && dir.columns == Some(FeatureColumns))
    ensures (BestModelFile in dir.models) == (BestModelFile in old(dir.models))
  {
    var selected := SelectBest(df, augment, draws, fit);
    if selected.Failure? {
      return Failure(selected.error);
    }
    if selected.value.None? {
      return Success(None);
    }
    var (family, trained) := selected.value.value;
    FamilyFile(family);
    dir.Save(trained.model, le, FamilyName(family), FeatureColumns);
    r := Success(Some((trained.model, le)));
  }

  /** A directory holding only what one training run wrote. Loading 'best'
      finds no `best_model.pkl` and falls back to the random forest file:
      it gets the trained model only when the random forest won, and fails
      for any other winner. */
  lemma BestFallsBackToRandomForest(dir: ModelDirectory, f: Family, model: Pipeline, le: LabelEncoder)
    requires dir.models == map[ModelFileName(FamilyName(f)) := model]
    requires dir.encoder == Some(le) && dir.columns == Some(FeatureColumns)
    ensures f == RandomForest ==>
      LoadModel(dir, "best") == Success(Loaded(model, le, FeatureColumns, DefaultModelFile))
    ensures f != RandomForest ==>
      LoadModel(dir, "best") == Failure(ModelFilesNotFound(DefaultModelFile))
  {
    FamilyFile(f);
    BestModelFileName();
  }

  /** `train_model` as evidently intended: the same run, with the best model
      also saved as `best_model.pkl`, so that loading 'best' returns the
      model this run selected. */
  method TrainWithBestAlias(dir: ModelDirectory, df: seq<Example>, le: LabelEncoder, augment: bool, draws: Draws,
                            fit: seq<Example> -> Family -> Option<Trained>)
    returns (r: Result<Option<(Pipeline, LabelEncoder)>, TrainError>)
    modifies dir
    ensures TrainingData(df, augment, draws).Failure? <==> r.Failure?
    ensures r.Success? && r.value.Some? ==>
      LoadModel(dir, "best") == Success(Loaded(r.value.value.0, le, FeatureColumns, BestModelFile))
    ensures TrainingData(df, augment, draws).Success? ==>
      var best := EvaluateModels(Successful(Families, fit(TrainingData(df, augment, draws).value)));
      && (best.None? ==> r == Success(None))
      && (best.Some? ==> r == Success(Some((best.value.1.model, le))))
  {
    var selected := SelectBest(df, augment, draws, fit);
    if selected.Failure? {
      return Failure(selected.error);
    }
    if selected.value.None? {
      return Success(None);
    }
    var (family, trained) := selected.value.value;
    dir.SaveWithBestAlias(trained.model, le, FamilyName(family), FeatureColumns);
    r := Success(Some((trained.model, le)));
  }
}
