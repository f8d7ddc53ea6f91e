/** The model registry: the directory of pickled artifacts that training
    writes and prediction reads. A model is stored under a name derived from
    its family name; the label encoder and the feature-column list are stored
    under fixed names. Loading an absent model name falls back to the random
    forest file. */
module Registry {
  import opened Common

  /** A trained pipeline (scaler followed by classifier) as the rest of the
      system sees it: an identity for the fitted object and the two
      capabilities that callers test with `hasattr`. What it computes is
      supplied separately, as the `Library` oracles of the modules that call it. */
  datatype Pipeline = Pipeline(
    id: nat,
    hasPredictProba: bool,
    featureImportances: Option<seq<real>>)

  const ModelSuffix: string := "_model.pkl"
  const DefaultModelFile: string := "random_forest_model.pkl"
  const EncoderFile: string := "label_encoder.pkl"
  const ColumnsFile: string := "feature_columns.pkl"
  const BestModelFile: string := "best_model.pkl"

  /** One character of `.lower().replace(" ", "_")` (ASCII letters only). */
  function NormaliseChar(c: char): char {
    if c == ' ' then '_'
    else if 'A' <= c <= 'Z' then (c as int + 32) as char
    else c
  }

  /** `name.lower().replace(" ", "_")`, character by character. */
  function NormaliseModelName(name: string): (r: string)
    ensures |r| == |name|
    ensures forall i :: 0 <= i < |r| ==> r[i] == NormaliseChar(name[i])
  {
    if |name| == 0 then "" else [NormaliseChar(name[0])] + NormaliseModelName(name[1..])
  }

  /** The model file a family or model type is stored under and looked up by. */
  function ModelFileName(name: string): string {
    NormaliseModelName(name) + ModelSuffix
  }

  /** A normalised name has no space and no upper-case ASCII letter. */
  predicate Normalised(s: string) {
    forall i :: 0 <= i < |s| ==> s[i] != ' ' && !('A' <= s[i] <= 'Z')
  }

  /** Normalising is idempotent, its result is normalised, and it leaves
      normalised names unchanged. */
  lemma {:induction false} NormaliseIdempotent(name: string)
    ensures Normalised(NormaliseModelName(name))
    ensures NormaliseModelName(NormaliseModelName(name)) == NormaliseModelName(name)
    ensures Normalised(name) ==> NormaliseModelName(name) == name
  {
    if |name| > 0 {
      NormaliseIdempotent(name[1..]);
      assert NormaliseModelName(name)[1..] == NormaliseModelName(name[1..]);
    }
  }

  /** Normalising gives `target` when it does so character by character. */
  lemma NormalisesTo(name: string, target: string)
    requires |name| == |target|
    requires forall i :: 0 <= i < |name| ==> NormaliseChar(name[i]) == target[i]
    ensures NormaliseModelName(name) == target
  {
  }

  /** Normalised names are left as they are. */
  lemma NormalisedUnchanged(name: string)
    requires Normalised(name)
    ensures NormaliseModelName(name) == name
  {
  }

  /** The model file of a name is its normalised form followed by the suffix. */
  lemma FileNameOf(name: string, normalised: string)
    requires NormaliseModelName(name) == normalised
    ensures ModelFileName(name) == normalised + ModelSuffix
  {
  }

  lemma DefaultModelFileSpelled()
    ensures "random_forest" + ModelSuffix == DefaultModelFile
  {
  }

  lemma SavedRandomForestFile()
    ensures ModelFileName("Random Forest") == DefaultModelFile
  {
    assert NormaliseChar('R') == 'r' && NormaliseChar(' ') == '_' && NormaliseChar('F') == 'f';
    NormalisesTo("Random Forest", "random_forest");
    FileNameOf("Random Forest", "random_forest");
    DefaultModelFileSpelled();
  }

  lemma RandomForestNormalised()
    ensures NormaliseModelName("random_forest") == "random_forest"
  {
    NormalisedUnchanged("random_forest");
  }

  lemma RequestedRandomForestFile()
    ensures ModelFileName("random_forest") == DefaultModelFile
  {
    RandomForestNormalised();
    FileNameOf("random_forest", "random_forest");
    DefaultModelFileSpelled();
  }

  /** The name the trainer saves the random forest under is the name the
      predictor opens for `random_forest`, and it is the fallback file. */
  lemma SaveAndLoadNamesAgree()
    ensures ModelFileName("Random Forest") == ModelFileName("random_forest") == DefaultModelFile
  {
    SavedRandomForestFile();
    RequestedRandomForestFile();
  }

  /** `load_model('best')` asks for `best_model.pkl` first. */
  lemma BestModelFileName()
    ensures ModelFileName("best") == BestModelFile
  {
    NormalisesTo("best", "best");
  }

  /** The file `load_model` opens for a model type, given the model files present. */
  function ResolveModelFile(present: set<string>, modelType: string): (p: string)
    ensures ModelFileName(modelType) in present ==> p == ModelFileName(modelType)
    ensures ModelFileName(modelType) !in present ==> p == DefaultModelFile
  {
    var requested := ModelFileName(modelType);
    if requested in present then requested else DefaultModelFile
  }

  /** What `load_model` returns. */
  datatype Loaded = Loaded(model: Pipeline, encoder: LabelEncoder, featureColumns: seq<string>, modelFile: string)

  /** `FileNotFoundError` for the first artifact that is missing. */
  datatype LoadError = ModelFilesNotFound(path: string)

  /** The artifact directory. Each field is one kind of pickled file. */
  class ModelDirectory {
    /** Model files by file name. */
    var models: map<string, Pipeline>
    /** The contents of `label_encoder.pkl`, when that file exists. */
    var encoder: Option<LabelEncoder>
    /** The contents of `feature_columns.pkl`, when that file exists. */
    var columns: Option<seq<string>>

    constructor (models: map<string, Pipeline>, encoder: Option<LabelEncoder>, columns: Option<seq<string>>)
      ensures this.models == models && this.encoder == encoder && this.columns == columns
    {
      this.models := models;
      this.encoder := encoder;
      this.columns := columns;
    }

    /** `save_model`: the model under the name derived from its family name,
        then the encoder and the feature columns under their fixed names. */
    method Save(model: Pipeline, le: LabelEncoder, modelName: string, featureColumns: seq<string>)
      modifies this
      ensures models == old(models)[ModelFileName(modelName) := model]
      ensures encoder == Some(le) && columns == Some(featureColumns)
    {
      models := models[ModelFileName(modelName) := model];
      encoder := Some(le);
      columns := Some(featureColumns);
    }

    /** `save_model` as evidently intended: it also stores the model under
        `best_model.pkl`, the name `load_model('best')` asks for first. */
    method SaveWithBestAlias(model: Pipeline, le: LabelEncoder, modelName: string, featureColumns: seq<string>)
      modifies this
      ensures models == old(models)[ModelFileName(modelName) := model][BestModelFile := model]
      ensures encoder == Some(le) && columns == Some(featureColumns)
      ensures LoadModel(this, "best") == Success(Loaded(model, le, featureColumns, BestModelFile))
    {
      models := models[ModelFileName(modelName) := model][BestModelFile := model];
      encoder := Some(le);
      columns := Some(featureColumns);
      BestModelFileName();
    }
  }

  /** `load_model`: the requested model file if it exists, else the random
      forest file; then the encoder and the columns. Each missing file fails. */
  function LoadModel(dir: ModelDirectory, modelType: string): (r: Result<Loaded, LoadError>)
    reads dir
    ensures r.Success? <==>
      && (ModelFileName(modelType) in dir.models || DefaultModelFile in dir.models)
      && dir.encoder.Some? && dir.columns.Some?
    ensures r.Success? ==>
      && r.value.modelFile == ResolveModelFile(dir.models.Keys, modelType)
      && r.value.modelFile in dir.models
      && r.value.model == dir.models[r.value.modelFile]
      && r.value.encoder == dir.encoder.value
      && r.value.featureColumns == dir.columns.value
    ensures r.Failure? && ResolveModelFile(dir.models.Keys, modelType) !in dir.models ==>
      r.error == ModelFilesNotFound(DefaultModelFile)
  {
    var path := ResolveModelFile(dir.models.Keys, modelType);
    if path !in dir.models then Failure(ModelFilesNotFound(path))
    else if dir.encoder.None? then Failure(ModelFilesNotFound(EncoderFile))
    else if dir.columns.None? then Failure(ModelFilesNotFound(ColumnsFile))
    else Success(Loaded(dir.models[path], dir.encoder.value, dir.columns.value, path))
  }
}
