/** The predictor: loads a model from the registry, classifies one ten-field
    feature vector, and assembles the result dictionary (risk label,
    confidence, per-class probabilities), optionally with explanations. */
module Model {
  import opened Common
  import opened Registry
  import opened Features
  import opened XaiExplainer

  /** Why `predict_asthma_risk` raises: the load fails, the encoder cannot
      decode the prediction, or `max` is taken of an empty probability row. */
  datatype PredictError = LoadFailed(cause: LoadError) | UnknownPrediction(encoded: nat) | EmptyProbabilities

  /** The explanation part of the result: absent, the explanations, or
      `xai_error` when the explainer module cannot be imported. */
  datatype XaiPart = NotRequested | XaiExplanations(outcome: XaiOutcome) | XaiImportError

  /** The result dictionary; `probabilities` is the dictionary as its items
      in insertion order. */
  datatype Prediction = Prediction(
    riskLevel: string,
    confidence: Option<real>,
    probabilities: Option<seq<(string, real)>>,
    xai: XaiPart)

  /** `max` of a non-empty probability row. */
  function MaxOf(p: seq<real>): (m: real)
    requires |p| > 0
    ensures m in p
    ensures forall i :: 0 <= i < |p| ==> p[i] <= m
  {
    if |p| == 1 then p[0]
    else
      var rest := MaxOf(p[1..]);
      if p[0] >= rest then p[0] else rest
  }

  /** The result dictionary before explanations are added, for a loaded model
      and the feature row. The risk level is the decoded prediction; the
      confidence exists exactly when probabilities do and is their maximum;
      the probabilities pair the encoder's classes with the row by position. */
  function Assemble(l: Loaded, x: seq<real>, sk: Sklearn): (r: Result<Prediction, PredictError>)
    ensures var enc := sk.predict(l.model, x);
      Decode(l.encoder, enc).None? ==> r == Failure(UnknownPrediction(enc))
    ensures r.Success? <==>
      && Decode(l.encoder, sk.predict(l.model, x)).Some?
      && (l.model.hasPredictProba ==> |sk.predictProba(l.model, x)| > 0)
    ensures r.Success? ==>
      && Decode(l.encoder, sk.predict(l.model, x)) == Some(r.value.riskLevel)
      && r.value.riskLevel in l.encoder.classes
      && r.value.xai == NotRequested
    ensures r.Success? ==>
      && (r.value.confidence.Some? <==> l.model.hasPredictProba)
      && (r.value.probabilities.Some? <==> l.model.hasPredictProba)
    ensures r.Success? && l.model.hasPredictProba ==>
      var p := sk.predictProba(l.model, x);
      && r.value.confidence.value in p
      && (forall i :: 0 <= i < |p| ==> p[i] <= r.value.confidence.value)
      && |r.value.probabilities.value| == (if |l.encoder.classes| < |p| then |l.encoder.classes| else |p|)
      && (forall i :: 0 <= i < |r.value.probabilities.value| ==>
            r.value.probabilities.value[i] == (l.encoder.classes[i], p[i]))
  {
    var enc := sk.predict(l.model, x);
    var probabilities := if l.model.hasPredictProba then Some(sk.predictProba(l.model, x)) else None;
    match Decode(l.encoder, enc)
    case None => Failure(UnknownPrediction(enc))
    case Some(prediction) =>
      match probabilities
      case None => Success(Prediction(prediction, None, None, NotRequested))
      case Some(p) =>
        if |p| == 0 then Failure(EmptyProbabilities)
        else Success(Prediction(prediction, Some(MaxOf(p)), Some(Zip(l.encoder.classes, p)), NotRequested))
  }

  /** The classifier row is the ten fields in schema order; the feature
      columns read from the registry play no part in the prediction. */
  lemma ColumnsNotConsulted(l: Loaded, columns: seq<string>, f: FeatureVector, sk: Sklearn)
    ensures Assemble(l, ToArray(f), sk) == Assemble(l.(featureColumns := columns), ToArray(f), sk)
    ensures ToArray(f)[0] == f.pm25 && ToArray(f)[9] == f.medicationAdherence
  {
  }

  /** `predict_asthma_risk`. A load failure, an undecodable prediction and
      an empty probability row raise; otherwise the assembled result is
      returned, with explanations of the 'best' model when requested, or
      `xai_error` when the explainer cannot be imported. The explanation
      never changes the prediction part. */
  method PredictAsthmaRisk(dir: ModelDirectory, f: FeatureVector, modelType: string, includeXai: bool,
                           xaiImportable: bool, sk: Sklearn, lib: XaiLibrary)
    returns (r: Result<Prediction, PredictError>)
    ensures LoadModel(dir, modelType).Failure? ==> r == Failure(LoadFailed(LoadModel(dir, modelType).error))
    ensures LoadModel(dir, modelType).Success? ==>
      var a := Assemble(LoadModel(dir, modelType).value, ToArray(f), sk);
      && (r.Success? <==> a.Success?)
      && (a.Failure? ==> r == a)
      && (a.Success? ==>
            && r.value.riskLevel == a.value.riskLevel
            && r.value.confidence == a.value.confidence
            && r.value.probabilities == a.value.probabilities)
    ensures r.Success? ==>
      r.value.xai == if !includeXai then NotRequested
                     else if !xaiImportable then XaiImportError
                     else XaiExplanations(XaiSpec(dir, f, "both", sk, lib))
    ensures r.Success? && modelType == "best" && r.value.xai.XaiExplanations? ==>
      LimeAgrees(r.value.xai.outcome, r.value.riskLevel)
  {
    var loaded := LoadModel(dir, modelType);
    if loaded.Failure? {
      return Failure(LoadFailed(loaded.error));
    }
    var assembled := Assemble(loaded.value, ToArray(f), sk);
    if assembled.Failure? {
      return assembled;
    }
    var result := assembled.value;
    if includeXai {
      if xaiImportable {
        var explanations := GetXaiExplanation(dir, f, "both", sk, lib);
        result := result.(xai := XaiExplanations(explanations));
        if modelType == "best" {
          PredictionAgreesWithLime(dir, f, sk, lib);
        }
      } else {
        result := result.(xai := XaiImportError);
      }
    }
    r := Success(result);
  }

  /** A LIME explanation, when one succeeded, names the given class. */
  predicate LimeAgrees(outcome: XaiOutcome, riskLevel: string) {
    outcome.Explanations? && "lime" in outcome.byMethod && outcome.byMethod["lime"].body.LimeBody? ==>
      outcome.byMethod["lime"].body.predictedClass == riskLevel
  }

  /** The LIME explanation of the 'best' model names the class the predictor
      returns for the same features: both load the same model and decode the
      same prediction. */
  lemma PredictionAgreesWithLime(dir: ModelDirectory, f: FeatureVector, sk: Sklearn, lib: XaiLibrary)
    ensures LoadModel(dir, "best").Success? && Assemble(LoadModel(dir, "best").value, ToArray(f), sk).Success? ==>
      LimeAgrees(XaiSpec(dir, f, "both", sk, lib), Assemble(LoadModel(dir, "best").value, ToArray(f), sk).value.riskLevel)
  {
  }

  /** `get_feature_importance`: the positional pairing of the feature columns
      with the classifier's importances, or None when the load fails or the
      classifier has no importances. */
  function GetFeatureImportance(dir: ModelDirectory, modelType: string): (r: Option<seq<(string, real)>>)
    reads dir
    ensures r.Some? <==> LoadModel(dir, modelType).Success? && LoadModel(dir, modelType).value.model.featureImportances.Some?
    ensures r.Some? ==>
      var l := LoadModel(dir, modelType).value;
      var imp := l.model.featureImportances.value;
      && |r.value| == (if |l.featureColumns| < |imp| then |l.featureColumns| else |imp|)
      && forall i :: 0 <= i < |r.value| ==> r.value[i] == (l.featureColumns[i], imp[i])
  {
    match LoadModel(dir, modelType)
    case Failure(_) => None
    case Success(l) =>
      match l.model.featureImportances
      case None => None
      case Some(importances) => Some(Zip(l.featureColumns, importances))
  }
}
