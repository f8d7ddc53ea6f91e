/** The explainer: a SHAP-style additive attribution and a LIME-style local
    surrogate over the trained pipeline. Each explainer object is created
    lazily on first use and then reused. A failure inside either method is
    returned as an error payload tagged with the method, never raised; the
    dispatcher returns one entry per requested method. */
module XaiExplainer {
  import opened Common
  import opened Registry
  import Features

  /** What scikit-learn computes for a fitted pipeline, as oracles. */
  datatype Sklearn = Sklearn(
    /** `pipeline.predict([x])[0]`: the encoded class. */
    predict: (Pipeline, seq<real>) -> nat,
    /** `pipeline.predict_proba([x])[0]`; consulted only when the pipeline has it. */
    predictProba: (Pipeline, seq<real>) -> seq<real>,
    /** `named_steps['scaler'].transform([x])[0]`; None when it raises. */
    scale: (Pipeline, seq<real>) -> Option<seq<real>>)

  /** Background rows handed to an explainer: the caller's, or a uniform
      random matrix of which only the shape is modelled. */
  datatype Background = Provided(rows: seq<seq<real>>) | UniformRandom(rowCount: nat, columnCount: nat)

  datatype ShapExplainer = TreeExplainer(model: Pipeline) | KernelExplainer(model: Pipeline, background: Background)

  datatype LimeExplainer = LimeTabular(training: Background, featureNames: seq<string>, classNames: seq<string>)

  /** The row counts of the random backgrounds and the LIME feature count. */
  const KernelBackgroundRows: nat := 10
  const LimeTrainingRows: nat := 100
  const DefaultNumFeatures: nat := 10

  /** What `shap_values` returns: a list with one array per class, or one array.
      An array has one row per explained sample. */
  datatype ShapOutput = PerClass(perClass: seq<seq<seq<real>>>) | SingleArray(values: seq<seq<real>>)

  /** A LIME explanation: the (feature, weight) list for each label it explains. */
  datatype LimeExplanation = LimeExplanation(byLabel: map<int, seq<(string, real)>>)

  /** What the SHAP and LIME libraries do, as oracles. */
  datatype XaiLibrary = XaiLibrary(
    /** True when constructing that explainer raises. */
    shapInitFails: ShapExplainer -> bool,
    limeInitFails: LimeExplainer -> bool,
    /** `explainer.shap_values(x)`; None when it raises. */
    shapValues: (ShapExplainer, seq<real>) -> Option<ShapOutput>,
    /** `explain_instance(x, predict_fn, num_features, top_labels=1)`; None when it raises. */
    explainInstance: (LimeExplainer, seq<real>, nat) -> Option<LimeExplanation>)

  /** The exception caught inside a method, by where it is raised. */
  datatype XaiFailure =
    | ScalingFailed          // the scaler's transform raised
    | ExplainerMissing       // the explainer field is still None after a failed initialisation
    | ShapValuesFailed       // shap_values raised
    | ClassIndexOutOfRange   // the predicted class has no slice in the per-class list
    | NoExplainedRow         // the SHAP array has no row
    | ExplainInstanceFailed  // explain_instance raised
    | UnknownClass           // the label encoder cannot decode the prediction
    | LabelNotExplained      // as_list was asked for a label LIME did not explain

  datatype ExplanationBody =
    | ShapBody(featureImportance: seq<(string, real)>, shapValues: seq<real>)
    | LimeBody(predictedClass: string, featureWeights: map<string, real>, explanation: seq<(string, real)>)
    | ErrorBody(error: XaiFailure)

  /** One method's result dictionary: its `explanation_method` tag and the rest. */
  datatype Explanation = Explanation(explanationMethod: string, body: ExplanationBody)

  /** The keys of a result dictionary. */
  function Keys(e: Explanation): (k: set<string>)
    ensures "explanation_method" in k
    ensures "error" in k <==> e.body.ErrorBody?
  {
    match e.body
    case ShapBody(_, _) => {"explanation_method", "feature_importance", "shap_values"}
    case LimeBody(_, _, _) => {"explanation_method", "predicted_class", "feature_weights", "explanation"}
    case ErrorBody(_) => {"error", "explanation_method"}
  }

  /** The SHAP explainer `initialize_shap` builds: a tree explainer when the
      classifier has feature importances, otherwise a kernel explainer over the
      given sample or over a random 10-row background. */
  function ShapChoice(model: Pipeline, featureColumns: seq<string>, sample: Option<seq<seq<real>>>): (ex: ShapExplainer)
    ensures ex.TreeExplainer? <==> model.featureImportances.Some?
    ensures ex.KernelExplainer? && sample.None? ==>
      ex.background == UniformRandom(KernelBackgroundRows, |featureColumns|)
  {
    if model.featureImportances.Some? then TreeExplainer(model)
    else match sample
      case Some(rows) => KernelExplainer(model, Provided(rows))
      case None => KernelExplainer(model, UniformRandom(KernelBackgroundRows, |featureColumns|))
  }

  /** The LIME explainer `initialize_lime` builds: over the given training rows
      or a random 100-row matrix, named by the feature columns and the classes. */
  function LimeChoice(encoder: LabelEncoder, featureColumns: seq<string>, training: Option<seq<seq<real>>>): (ex: LimeExplainer)
    ensures ex.featureNames == featureColumns && ex.classNames == encoder.classes
    ensures training.None? ==> ex.training == UniformRandom(LimeTrainingRows, |featureColumns|)
  {
    LimeTabular(
      match training
      case Some(rows) => Provided(rows)
      case None => UniformRandom(LimeTrainingRows, |featureColumns|),
      featureColumns, encoder.classes)
  }

  /** The SHAP field after `if self.explainer_shap is None: self.initialize_shap()`. */
  function LazyShap(current: Option<ShapExplainer>, model: Pipeline, featureColumns: seq<string>, lib: XaiLibrary): (r: Option<ShapExplainer>)
    ensures current.Some? ==> r == current
    ensures current.None? && r.Some? ==> r.value == ShapChoice(model, featureColumns, None)
  {
    if current.Some? then current
    else if lib.shapInitFails(ShapChoice(model, featureColumns, None)) then None
    else Some(ShapChoice(model, featureColumns, None))
  }

  /** The LIME field after `if self.explainer_lime is None: self.initialize_lime()`. */
  function LazyLime(current: Option<LimeExplainer>, encoder: LabelEncoder, featureColumns: seq<string>, lib: XaiLibrary): (r: Option<LimeExplainer>)
    ensures current.Some? ==> r == current
    ensures current.None? && r.Some? ==> r.value == LimeChoice(encoder, featureColumns, None)
  {
    if current.Some? then current
    else if lib.limeInitFails(LimeChoice(encoder, featureColumns, None)) then None
    else Some(LimeChoice(encoder, featureColumns, None))
  }

  /** What `explain_shap` returns, given the explainer field after lazy
      initialisation. A successful result pairs the feature columns with the
      first row of SHAP values; for per-class output that row is taken from
      the slice of the class the model predicts. */
  function ShapOutcome(model: Pipeline, featureColumns: seq<string>, ex: Option<ShapExplainer>,
                       features: seq<real>, sk: Sklearn, lib: XaiLibrary): (b: ExplanationBody)
    ensures b.ShapBody? ==> b.featureImportance == Zip(featureColumns, b.shapValues)
    ensures b.ShapBody? ==> ex.Some? && sk.scale(model, features).Some?
    ensures b.ShapBody? ==>
      match lib.shapValues(ex.value, sk.scale(model, features).value)
      case Some(PerClass(l)) =>
        var p := sk.predict(model, features);
        p < |l| && |l[p]| > 0 && b.shapValues == l[p][0]
      case Some(SingleArray(v)) => |v| > 0 && b.shapValues == v[0]
      case None => false
    ensures b.ShapBody? <==>
      && ex.Some? && sk.scale(model, features).Some?
      && match lib.shapValues(ex.value, sk.scale(model, features).value)
         case Some(PerClass(l)) => sk.predict(model, features) < |l| && |l[sk.predict(model, features)]| > 0
         case Some(SingleArray(v)) => |v| > 0
         case None => false
    ensures sk.scale(model, features).None? ==> b == ErrorBody(ScalingFailed)
    ensures ex.None? && sk.scale(model, features).Some? ==> b == ErrorBody(ExplainerMissing)
    ensures ex.Some? && sk.scale(model, features).Some? && lib.shapValues(ex.value, sk.scale(model, features).value).None? ==>
      b == ErrorBody(ShapValuesFailed)
  {
    match sk.scale(model, features)
    case None => ErrorBody(ScalingFailed)
    case Some(scaled) =>
      if ex.None? then ErrorBody(ExplainerMissing)
      else match lib.shapValues(ex.value, scaled)
        case None => ErrorBody(ShapValuesFailed)
        case Some(PerClass(l)) =>
          var p := sk.predict(model, features);
          if p >= |l| then ErrorBody(ClassIndexOutOfRange)
          else if |l[p]| == 0 then ErrorBody(NoExplainedRow)
          else ShapBody(Zip(featureColumns, l[p][0]), l[p][0])
        case Some(SingleArray(v)) =>
          if |v| == 0 then ErrorBody(NoExplainedRow)
          else ShapBody(Zip(featureColumns, v[0]), v[0])
  }

  /** What `explain_lime` returns, given the explainer field after lazy
      initialisation. A successful result names the decoded class the model
      predicts and carries LIME's weights for exactly that class. */
  function LimeOutcome(model: Pipeline, encoder: LabelEncoder, ex: Option<LimeExplainer>,
                       features: seq<real>, numFeatures: nat, sk: Sklearn, lib: XaiLibrary): (b: ExplanationBody)
    ensures b.LimeBody? ==> ex.Some? && lib.explainInstance(ex.value, features, numFeatures).Some?
    ensures b.LimeBody? ==>
      var p := sk.predict(model, features);
      && Decode(encoder, p) == Some(b.predictedClass)
      && p in lib.explainInstance(ex.value, features, numFeatures).value.byLabel
      && b.explanation == lib.explainInstance(ex.value, features, numFeatures).value.byLabel[p]
      && b.featureWeights == PairsToMap(b.explanation)
    ensures b.LimeBody? <==>
      && ex.Some? && lib.explainInstance(ex.value, features, numFeatures).Some?
      && Decode(encoder, sk.predict(model, features)).Some?
      && sk.predict(model, features) in lib.explainInstance(ex.value, features, numFeatures).value.byLabel
    ensures ex.None? ==> b == ErrorBody(ExplainerMissing)
    ensures ex.Some? && lib.explainInstance(ex.value, features, numFeatures).None? ==>
      b == ErrorBody(ExplainInstanceFailed)
    ensures ex.Some? && lib.explainInstance(ex.value, features, numFeatures).Some?
            && Decode(encoder, sk.predict(model, features)).None? ==>
      b == ErrorBody(UnknownClass)
  {
    if ex.None? then ErrorBody(ExplainerMissing)
    else match lib.explainInstance(ex.value, features, numFeatures)
      case None => ErrorBody(ExplainInstanceFailed)
      case Some(exp) =>
        var p := sk.predict(model, features);
        match Decode(encoder, p)
        case None => ErrorBody(UnknownClass)
        case Some(classLabel) =>
          if p !in exp.byLabel then ErrorBody(LabelNotExplained)
          else LimeBody(classLabel, PairsToMap(exp.byLabel[p]), exp.byLabel[p])
  }

  class XAIExplainer {
    const model: Pipeline
    const labelEncoder: LabelEncoder
    const featureColumns: seq<string>
    const modelType: string
    var explainerShap: Option<ShapExplainer>
    var explainerLime: Option<LimeExplainer>

    /** `__init__` after `load_model` has succeeded: both explainers unset. */
    constructor (loaded: Loaded, modelType: string)
      ensures model == loaded.model && labelEncoder == loaded.encoder
      ensures featureColumns == loaded.featureColumns && this.modelType == modelType
      ensures explainerShap == None && explainerLime == None
    {
      model := loaded.model;
      labelEncoder := loaded.encoder;
      featureColumns := loaded.featureColumns;
      this.modelType := modelType;
      explainerShap := None;
      explainerLime := None;
    }

    /** `initialize_shap`: sets the field unless construction raises, and
        reports which. */
    method InitializeShap(sample: Option<seq<seq<real>>>, lib: XaiLibrary) returns (ok: bool)
      modifies this
      ensures ok == !lib.shapInitFails(ShapChoice(model, featureColumns, sample))
      ensures explainerShap == if ok then Some(ShapChoice(model, featureColumns, sample)) else old(explainerShap)
      ensures explainerLime == old(explainerLime)
    {
      var candidate := ShapChoice(model, featureColumns, sample);
      if lib.shapInitFails(candidate) {
        return false;
      }
      explainerShap := Some(candidate);
      return true;
    }

    /** `initialize_lime`: as `InitializeShap`, for the LIME field. */
    method InitializeLime(training: Option<seq<seq<real>>>, lib: XaiLibrary) returns (ok: bool)
      modifies this
      ensures ok == !lib.limeInitFails(LimeChoice(labelEncoder, featureColumns, training))
      ensures explainerLime == if ok then Some(LimeChoice(labelEncoder, featureColumns, training)) else old(explainerLime)
      ensures explainerShap == old(explainerShap)
    {
      var candidate := LimeChoice(labelEncoder, featureColumns, training);
      if lib.limeInitFails(candidate) {
        return false;
      }
      explainerLime := Some(candidate);
      return true;
    }

    /** `explain_shap`: initialises the SHAP field only when it is unset, then
        shapes the result; every failure becomes an error payload. */
    method ExplainShap(features: seq<real>, sk: Sklearn, lib: XaiLibrary) returns (e: Explanation)
      modifies this
      ensures explainerShap == LazyShap(old(explainerShap), model, featureColumns, lib)
      ensures explainerLime == old(explainerLime)
      ensures e == Explanation("SHAP", ShapOutcome(model, featureColumns, explainerShap, features, sk, lib))
    {
      if explainerShap.None? {
        var _ := InitializeShap(None, lib);
      }
      var scaled := sk.scale(model, features);
      if scaled.None? {
        return Explanation("SHAP", ErrorBody(ScalingFailed));
      }
      if explainerShap.None? {
        return Explanation("SHAP", ErrorBody(ExplainerMissing));
      }
      var output := lib.shapValues(explainerShap.value, scaled.value);
      if output.None? {
        return Explanation("SHAP", ErrorBody(ShapValuesFailed));
      }
      var shapVals: seq<seq<real>>;
      match output.value {
        case PerClass(l) =>
          var classIdx := sk.predict(model, features);
          if classIdx >= |l| {
            return Explanation("SHAP", ErrorBody(ClassIndexOutOfRange));
          }
          shapVals := l[classIdx];
        case SingleArray(v) =>
          shapVals := v;
      }
      if |shapVals| == 0 {
        return Explanation("SHAP", ErrorBody(NoExplainedRow));
      }
      var featureImportance := Zip(featureColumns, shapVals[0]);
      e := Explanation("SHAP", ShapBody(featureImportance, shapVals[0]));
    }

    /** `explain_lime`: initialises the LIME field only when it is unset, then
        shapes the result; every failure becomes an error payload. */
    method ExplainLime(features: seq<real>, numFeatures: nat, sk: Sklearn, lib: XaiLibrary) returns (e: Explanation)
      modifies this
      ensures explainerLime == LazyLime(old(explainerLime), labelEncoder, featureColumns, lib)
      ensures explainerShap == old(explainerShap)
      ensures e == Explanation("LIME", LimeOutcome(model, labelEncoder, explainerLime, features, numFeatures, sk, lib))
    {
      if explainerLime.None? {
        var _ := InitializeLime(None, lib);
      }
      if explainerLime.None? {
        return Explanation("LIME", ErrorBody(ExplainerMissing));
      }
      var exp := lib.explainInstance(explainerLime.value, features, numFeatures);
      if exp.None? {
        return Explanation("LIME", ErrorBody(ExplainInstanceFailed));
      }
      var prediction := sk.predict(model, features);
      var classLabel := Decode(labelEncoder, prediction);
      if classLabel.None? {
        return Explanation("LIME", ErrorBody(UnknownClass));
      }
      if prediction !in exp.value.byLabel {
        return Explanation("LIME", ErrorBody(LabelNotExplained));
      }
      var explanation := exp.value.byLabel[prediction];
      var featureWeights := PairsToMap(explanation);
      e := Explanation("LIME", LimeBody(classLabel.value, featureWeights, explanation));
    }
  }

  /** What `get_xai_explanation` returns: a map from method key to result, or
      the single error of a failed model load. */
  datatype XaiOutcome = Explanations(byMethod: map<string, Explanation>) | XaiFailed(error: LoadError)

  predicate WantsShap(methodName: string) { methodName == "shap" || methodName == "both" }
  predicate WantsLime(methodName: string) { methodName == "lime" || methodName == "both" }

  /** The keys `get_xai_explanation` fills for a method name. */
  function RequestedKeys(methodName: string): set<string> {
    (if WantsShap(methodName) then {"shap"} else {}) + (if WantsLime(methodName) then {"lime"} else {})
  }

  /** The result of `get_xai_explanation` on a fresh explainer for the
      'best' model. */
  function XaiSpec(dir: ModelDirectory, features: Features.FeatureVector, methodName: string,
                   sk: Sklearn, lib: XaiLibrary): XaiOutcome
    reads dir
  {
    match LoadModel(dir, "best")
    case Failure(err) => XaiFailed(err)
    case Success(l) =>
      var x := Features.ToArray(features);
      var shap := Explanation("SHAP", ShapOutcome(l.model, l.featureColumns, LazyShap(None, l.model, l.featureColumns, lib), x, sk, lib));
      var lime := Explanation("LIME", LimeOutcome(l.model, l.encoder, LazyLime(None, l.encoder, l.featureColumns, lib), x, DefaultNumFeatures, sk, lib));
      Explanations(
        (if WantsShap(methodName) then map["shap" := shap] else map[])
        + (if WantsLime(methodName) then map["lime" := lime] else map[]))
  }

  /** The result keys are exactly the requested methods (both, one, or none
      for an unknown method name), each entry is tagged with its own method,
      and the only failure outside the methods is a failed model load. */
  lemma XaiSpecShape(dir: ModelDirectory, features: Features.FeatureVector, methodName: string, sk: Sklearn, lib: XaiLibrary)
    ensures XaiSpec(dir, features, methodName, sk, lib).XaiFailed? <==> LoadModel(dir, "best").Failure?
    ensures XaiSpec(dir, features, methodName, sk, lib).Explanations? ==>
      var m := XaiSpec(dir, features, methodName, sk, lib).byMethod;
      && m.Keys == RequestedKeys(methodName)
      && ("shap" in m ==> m["shap"].explanationMethod == "SHAP")
      && ("lime" in m ==> m["lime"].explanationMethod == "LIME")
    ensures methodName == "both" ==> RequestedKeys(methodName) == {"shap", "lime"}
    ensures methodName == "shap" ==> RequestedKeys(methodName) == {"shap"}
    ensures methodName == "lime" ==> RequestedKeys(methodName) == {"lime"}
    ensures !WantsShap(methodName) && !WantsLime(methodName) ==> RequestedKeys(methodName) == {}
  {
  }

  /** `get_xai_explanation`: loads the 'best' model into a fresh explainer
      and fills the result map, SHAP first, then LIME. */
  method GetXaiExplanation(dir: ModelDirectory, features: Features.FeatureVector, methodName: string,
                           sk: Sklearn, lib: XaiLibrary) returns (r: XaiOutcome)
    ensures r == XaiSpec(dir, features, methodName, sk, lib)
    ensures r.Explanations? ==> r.byMethod.Keys == RequestedKeys(methodName)
  {
    var loaded := LoadModel(dir, "best");
    if loaded.Failure? {
      return XaiFailed(loaded.error);
    }
    var x := Features.ToArray(features);
    var explainer := new XAIExplainer(loaded.value, "best");
    var explanations: map<string, Explanation> := map[];
    if methodName == "shap" || methodName == "both" {
      var shapExplanation := explainer.ExplainShap(x, sk, lib);
      explanations := explanations["shap" := shapExplanation];
    }
    if methodName == "lime" || methodName == "both" {
      var limeExplanation := explainer.ExplainLime(x, DefaultNumFeatures, sk, lib);
      explanations := explanations["lime" := limeExplanation];
    }
    r := Explanations(explanations);
  }
}
