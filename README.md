# Asthmashield core in Dafny

Asthmashield predicts a person's asthma-attack risk (Low, Moderate or High)
from the local air quality, the weather and a few facts about the patient.
It explains each prediction with SHAP and LIME, collects symptom reports
from users, and serves all of this through Django views. This project models
the deterministic core of that system and proves properties of the model:

- `common.dfy` (`Common`): the risk labels, the label encoder that maps
  labels to class indices and back, and the `zip`/`dict` helpers.
- `severity.dfy` (`Severity`): the symptom severity rule. Five symptoms
  carry weights 3, 3, 2, 2 and 1. A score of at least 5 is High, 3 or 4 is
  Moderate, anything lower is Low.
- `features.dfy` (`Features`): the ten-column feature vector in the fixed
  training order.
- `registry.dfy` (`Registry`): the model directory. It covers the file
  naming (`<name lower-cased, spaces to underscores>_model.pkl`), `save_model`,
  and `load_model` with its fallback to the random-forest file.
- `preprocess.py` is modelled in `preprocess.dfy` (`Preprocess`): the
  extraction of five environment values from the weather and air-quality
  payloads.
- `xai_explainer.dfy` (`XaiExplainer`): the explainer object. It is a class
  whose SHAP and LIME explainers are created lazily. The module also has the
  per-method explanation bodies and `get_xai_explanation`.
- `model.dfy` (`Model`): `predict_asthma_risk` and `get_feature_importance`.
- `data_collection.dfy` (`DataCollection`): the symptom report store. It is
  a class whose row list is the CSV file.
- `views.dfy` (`Views`): the prediction view, the health advice, the alert
  trigger, and the symptom view's copy of the severity rule.
- `generate_data.dfy` (`GenerateData`): the synthetic data generator. It
  holds the city table, the rule that labels a sample, the escalated risk
  profiles, and the order in which the dataset is assembled.
- `validate_data.dfy` (`ValidateData`): the dataset checks. They cover
  value ranges, risk labels, required columns, samples per class and class
  balance.
- `train_model.dfy` (`TrainModel`): the trainer. It covers noise
  augmentation with clamping, training the four model families with failures
  skipped, selecting the most accurate model, the XAI compatibility test, and
  saving the result.

The model replaces every library and outside service with a parameter:

| parameter | stands for |
|---|---|
| `Sklearn` | scikit-learn prediction and scaling |
| `XaiLibrary` | the SHAP and LIME calls |
| `RandomSource` | the draws of the data generator |
| `Draws` | numpy's random draws |
| `fit` | the grid search and test-set accuracy of each family |
| the weather and air-quality payloads | the HTTP responses |
| `parseFloat` / `parseTime` | Python's `float()` and `strptime` on CSV cells |

Behaviour is stated about every value these parameters can take.

Notes on what the code does, which the model follows:

- `evaluate_models` sorts by test accuracy only, and Python's sort is
  stable. So among equally accurate models the first one trained wins. No
  cross-validation score is used to break ties (`TrainModel.EvaluateModels`).
- `train_model` accepts a `model_type` argument and never reads it.
  `TrainModel.Train` has no such parameter.
- `predict_asthma_risk` does not check the feature columns loaded with the
  model against the input. The saved column list is never consulted
  (`Model.ColumnsNotConsulted`).
- `preprocess_weather_data` returns five values, not the ten-column
  classifier row. The prediction view builds its own row
  (`Views.ViewAgreesWithPreprocess`).

## Model

| member | source | states |
|---|---|---|
| Common.ParseRisk | backend/datasets/validate_data.py:99-101 | a label parses exactly when it is one of the three valid risk names |
| Common.RiskNameRoundTrip | backend/datasets/generate_data.py:164-169 | parsing the name of a risk level gives back that level |
| Common.ParseRiskRoundTrip | backend/datasets/validate_data.py:99-101 | a label that parses is the name of the level it parses to |
| Common.Zip | backend/asthmashield_app/ml_model/model.py:65 | `zip` pairs the i-th key with the i-th value and stops at the shorter input |
| Common.PairsToMap | backend/asthmashield_app/ml_model/xai_explainer.py:126 | `dict` of a pair list has exactly the listed keys, and the last pair for a key wins |
| Common.Decode | backend/asthmashield_app/ml_model/model.py:57 | decoding succeeds exactly for an index inside the class list and yields one of the classes |
| Common.Encode | backend/train_model.py:38-39 | encoding succeeds exactly for a known class and gives an index holding that class |
| Common.EncoderRoundTrip | backend/asthmashield_app/ml_model/model.py:57 | with distinct classes, decode after encode is the identity on classes, and encode after decode is the identity on indices |
| Severity.Tier | backend/asthmashield_app/data_collection.py:84-89 | High iff the score is at least 5, Moderate iff it is 3 or 4, Low iff it is below 3 |
| Severity.ReferenceScoreAdd | backend/asthmashield_app/data_collection.py:72-82 | adding one new symptom adds exactly its points to the reference score |
| Severity.ScoreMatchesReference | backend/asthmashield_app/data_collection.py:71-82 | with distinct symptom names, the loop's score equals the weighted sum over the symptom dictionary |
| Severity.ReferenceScoreBounds | backend/asthmashield_app/data_collection.py:72-78 | the score lies in 0..11, and it is 11 exactly when all five symptoms are present |
| Severity.TierMonotone | backend/asthmashield_app/data_collection.py:84-89 | a higher score never gives a lower tier |
| Severity.AddingSymptomNeverLowersTier | backend/asthmashield_app/data_collection.py:71-89 | reporting one more symptom never lowers the score or the tier, and a newly present symptom raises the score by its weight |
| Severity.WorkedExamples | backend/asthmashield_app/data_collection.py:72-89 | wheezing plus shortness of breath scores 6 (High), coughing alone scores 2 (Low) |
| Features.ToArray | backend/asthmashield_app/ml_model/model.py:42-46 | the classifier row has exactly the ten training columns |
| Features.ArrayRoundTrip | backend/asthmashield_app/ml_model/model.py:42-46 | row and feature vector convert into each other losslessly, and pm25, pm10, humidity and adherence sit at their column positions |
| Registry.NormaliseModelName | backend/train_model.py:197 | the normalised name keeps the length, turns spaces into underscores and lower-cases ASCII capitals |
| Registry.NormaliseIdempotent | backend/train_model.py:197 | normalising gives a normalised name, normalising twice equals normalising once, and normalised names are unchanged |
| Registry.NormalisesTo | backend/train_model.py:197 | a name normalises to any target that matches it character by character |
| Registry.NormalisedUnchanged | backend/asthmashield_app/ml_model/model.py:15 | a name without spaces or capitals maps to itself |
| Registry.FileNameOf | backend/asthmashield_app/ml_model/model.py:15 | the file name is the normalised name followed by `_model.pkl` |
| Registry.DefaultModelFileSpelled | backend/asthmashield_app/ml_model/model.py:20 | the fallback file is `random_forest_model.pkl` |
| Registry.SavedRandomForestFile | backend/train_model.py:197 | "Random Forest" is saved under the fallback file name |
| Registry.RandomForestNormalised | backend/asthmashield_app/ml_model/model.py:15 | "random_forest" is already normalised |
| Registry.RequestedRandomForestFile | backend/asthmashield_app/ml_model/model.py:15 | loading "random_forest" asks for the fallback file |
| Registry.SaveAndLoadNamesAgree | backend/asthmashield_app/ml_model/model.py:15-20 | the file the trainer writes for "Random Forest" is the one the loader reads for "random_forest" and as its fallback |
| Registry.BestModelFileName | backend/asthmashield_app/ml_model/model.py:15 | loading "best" asks for `best_model.pkl` |
| Registry.ResolveModelFile | backend/asthmashield_app/ml_model/model.py:15-20 | the requested model file when it exists, the random-forest file otherwise |
| Registry.ModelDirectory.constructor | backend/asthmashield_app/ml_model/model.py:22-29 | a directory holds the given models, encoder and column list |
| Registry.ModelDirectory.Save | backend/train_model.py:192-210 | saving stores the pipeline under its normalised file name and replaces the encoder and the column list; nothing else changes |
| Registry.ModelDirectory.SaveWithBestAlias | backend/train_model.py:192-210 | the corrected save also stores the pipeline as `best_model.pkl`, so that loading "best" returns it |
| Registry.LoadModel | backend/asthmashield_app/ml_model/model.py:9-31 | loading succeeds iff the requested or fallback file exists and the encoder and columns exist; it returns the resolved file's pipeline with the stored encoder and columns, and reports the fallback file as missing when neither model file exists |
| Preprocess.PreprocessWeatherData | backend/asthmashield_app/ml_model/preprocess.py:9-45 | a payload without wind fails, an empty air-quality list fails, and otherwise the result is pm2.5, pm10, Kelvin minus 273.15, humidity and the placeholder pollen 50 |
| Preprocess.PreprocessedShape | backend/asthmashield_app/ml_model/preprocess.py:36-43 | the five values are the first five training columns, in order, and fewer than the classifier needs |
| XaiExplainer.Keys | backend/asthmashield_app/ml_model/xai_explainer.py:90-99 | every explanation names its method, and it holds an error key exactly when it failed |
| XaiExplainer.ShapChoice | backend/asthmashield_app/ml_model/xai_explainer.py:23-46 | a tree explainer exactly for a model with feature importances, otherwise a kernel explainer over the given sample, or over a 10-row uniform background when no sample is given |
| XaiExplainer.LimeChoice | backend/asthmashield_app/ml_model/xai_explainer.py:48-64 | the LIME explainer uses the feature columns and the encoder's classes, and 100 uniform rows when no training data is given |
| XaiExplainer.LazyShap | backend/asthmashield_app/ml_model/xai_explainer.py:69-70 | an existing SHAP explainer is kept, and a new one is the default choice |
| XaiExplainer.LazyLime | backend/asthmashield_app/ml_model/xai_explainer.py:104-105 | an existing LIME explainer is kept, and a new one is the default choice |
| XaiExplainer.ShapOutcome | backend/asthmashield_app/ml_model/xai_explainer.py:66-99 | a SHAP body is returned exactly when scaling succeeds, an explainer exists and `shap_values` yields a row (from the predicted class's slice for per-class output); it pairs the columns with that row; each earlier failure gives its own error |
| XaiExplainer.LimeOutcome | backend/asthmashield_app/ml_model/xai_explainer.py:101-138 | a LIME body is returned exactly when an explainer exists, `explain_instance` succeeds, the prediction decodes and LIME explained that label; it names the decoded class, its explanation list and that list as a dictionary; each earlier failure gives its own error |
| XaiExplainer.XAIExplainer.constructor | backend/asthmashield_app/ml_model/xai_explainer.py:16-21 | the explainer holds the loaded model, encoder and columns, and no SHAP or LIME explainer yet |
| XaiExplainer.XAIExplainer.InitializeShap | backend/asthmashield_app/ml_model/xai_explainer.py:23-46 | reports success iff the library accepts the chosen explainer, stores it only then, and leaves LIME alone |
| XaiExplainer.XAIExplainer.InitializeLime | backend/asthmashield_app/ml_model/xai_explainer.py:48-64 | reports success iff the library accepts the chosen explainer, stores it only then, and leaves SHAP alone |
| XaiExplainer.XAIExplainer.ExplainShap | backend/asthmashield_app/ml_model/xai_explainer.py:66-99 | initialises SHAP lazily and returns the "SHAP" explanation of the features |
| XaiExplainer.XAIExplainer.ExplainLime | backend/asthmashield_app/ml_model/xai_explainer.py:101-138 | initialises LIME lazily and returns the "LIME" explanation of the features |
| XaiExplainer.XaiSpecShape | backend/asthmashield_app/ml_model/xai_explainer.py:140-168 | the call fails exactly when the best model cannot be loaded; otherwise "shap" and "lime" are filled exactly as the method name asks, each by its own method |
| XaiExplainer.GetXaiExplanation | backend/asthmashield_app/ml_model/xai_explainer.py:140-168 | builds one explainer and returns the explanation the specification function defines, with exactly the requested keys |
| Model.MaxOf | backend/asthmashield_app/ml_model/model.py:60 | the confidence is one of the probabilities and no probability exceeds it |
| Model.Assemble | backend/asthmashield_app/ml_model/model.py:48-66 | the label is the decoded prediction; confidence and probabilities exist iff the model has `predict_proba`; the confidence is the largest probability; the probabilities pair classes with values |
| Model.ColumnsNotConsulted | backend/asthmashield_app/ml_model/model.py:39-66 | the prediction does not depend on the stored column list, only on the fixed feature order |
| Model.PredictAsthmaRisk | backend/asthmashield_app/ml_model/model.py:33-84 | a load failure is passed on; otherwise the result is the assembled prediction, with XAI left out, an import error, or the "both" explanation of the best model |
| Model.PredictionAgreesWithLime | backend/asthmashield_app/ml_model/xai_explainer.py:121-130 | for the best model, the LIME explanation names the same class as the prediction |
| Model.GetFeatureImportance | backend/asthmashield_app/ml_model/model.py:86-99 | present iff the model loads and has feature importances; then columns are paired with importances |
| DataCollection.Cells | backend/asthmashield_app/data_collection.py:15-19 | a stored report has the twelve header columns |
| DataCollection.CellsRoundTrip | backend/asthmashield_app/data_collection.py:15-19 | rows and CSV cells convert into each other losslessly, and id, symptoms, severity and verified sit under their headers |
| DataCollection.Decimal | backend/asthmashield_app/data_collection.py:35 | a number's decimal text is non-empty and all digits |
| DataCollection.DecimalLength | backend/asthmashield_app/data_collection.py:35 | a number below 10^k has at most k digits |
| DataCollection.ReportId | backend/asthmashield_app/data_collection.py:35 | a report id is `rep_` followed by at least one digit |
| DataCollection.ReportIdLength | backend/asthmashield_app/data_collection.py:35 | a report id has at most ten characters, because the hash is reduced modulo 1000000 |
| DataCollection.NewRow | backend/asthmashield_app/data_collection.py:32-58 | the defaults are an anonymous user, the current time and empty coordinates; verified is "False"; each symptom cell is its reported flag |
| DataCollection.MissingSymptomStoredFalse | backend/asthmashield_app/data_collection.py:44-48 | a symptom that was not reported is stored as False |
| DataCollection.PairsToMapKeys | backend/asthmashield_app/data_collection.py:44-48 | a name absent from the symptom list is absent from its dictionary |
| DataCollection.Keep | backend/asthmashield_app/data_collection.py:98-107 | filtering never lengthens the list |
| DataCollection.KeepMembers | backend/asthmashield_app/data_collection.py:98-107 | a report is returned iff it is stored and satisfies the filter |
| DataCollection.KeepAppend | backend/asthmashield_app/data_collection.py:98-107 | filtering keeps file order: the filter of a concatenation is the concatenation of the filters |
| DataCollection.MarkVerified | backend/asthmashield_app/data_collection.py:136-141 | the rewrite keeps every row in place and marks exactly the matching ones |
| DataCollection.MarkVerifiedEffect | backend/asthmashield_app/data_collection.py:131-151 | matching rows become verified and others are untouched; verifying twice is verifying once; an unknown id changes nothing |
| DataCollection.SymptomDataCollector.constructor | backend/asthmashield_app/data_collection.py:12-27 | a collector starts with the fixed headers and the rows already in the file, or none |
| DataCollection.SymptomDataCollector.CalculateSeverity | backend/asthmashield_app/data_collection.py:69-89 | the loop's tier is the tier of the score, and the tier of the dictionary's weighted sum when names are distinct |
| DataCollection.SymptomDataCollector.SaveReport | backend/asthmashield_app/data_collection.py:29-67 | appends exactly one new row with the scored severity and returns its report id |
| DataCollection.SymptomDataCollector.GetReportsByLocation | backend/asthmashield_app/data_collection.py:91-112 | returns, in file order, exactly the rows with parseable coordinates within radius/100 of the point |
| DataCollection.SymptomDataCollector.GetReportsByTimeframe | backend/asthmashield_app/data_collection.py:114-129 | returns, in file order, exactly the rows whose timestamp parses and lies in the window |
| DataCollection.SymptomDataCollector.VerifyReport | backend/asthmashield_app/data_collection.py:131-151 | rewrites the rows with the matching reports marked verified and reports success |
| Views.CalculateSeverity | backend/asthmashield_app/views.py:223-242 | the view's copy of the rule gives the tier of the score |
| Views.SeverityCopiesAgree | backend/asthmashield_app/views.py:223-242 | the view and the collector score every symptom list identically |
| Views.AlertOnlyForHighWithContact | backend/asthmashield_app/views.py:81 | an alert needs a High prediction and an e-mail address or a phone number, and a High prediction with an e-mail address always alerts |
| Views.FirstTen | backend/asthmashield_app/views.py:136 | at most ten reports are returned, the first ones, in order |
| Views.GetHealthAdvice | backend/asthmashield_app/views.py:143-164 | the confidence sentence appears iff the confidence is truthy; each known label gets its own guidance, and any other label the general advice |
| Views.ViewFeatures | backend/asthmashield_app/views.py:19-63 | the classifier row takes Celsius temperature, wind speed 0 when absent, and the default patient values |
| Views.ViewAgreesWithPreprocess | backend/asthmashield_app/views.py:55-63 | with wind, the preprocessor's five values are the first five entries of the view's row; without wind, the preprocessor fails while the view uses 0 |
| Views.NonEmpty | backend/asthmashield_app/views.py:131-132 | the probabilities are reported only when present and non-empty |
| Views.PredictViewGet | backend/asthmashield_app/views.py:18-141 | a weather error or an empty air-quality list is a 400; otherwise the call succeeds exactly when the best model loads and its prediction assembles, and fails with that prediction error otherwise; a successful body carries the prediction's label, its truthy confidence and its non-empty probabilities, and has the view's features, the requested city, an alert iff High with a contact, the best model's importances and explanations, the matching advice, and the first ten nearby reports |
| GenerateData.GenerateCityData | backend/datasets/generate_data.py:10-94 | ten cities, each with ordered ranges and a valid base risk |
| GenerateData.PollutionPoints | backend/datasets/generate_data.py:123-126 | 2 points iff pm2.5 is above 150 or pm10 above 200, 0 iff both are at most 75 and 125 |
| GenerateData.PollenPoints | backend/datasets/generate_data.py:134-137 | 2 points iff pollen is above 70, 0 iff it is at most 40 |
| GenerateData.ExtremePoint | backend/datasets/generate_data.py:128-132 | one point exactly for a value outside the comfortable band |
| GenerateData.EnvRiskScore | backend/datasets/generate_data.py:122-137 | the environmental score is at most 6 |
| GenerateData.AttackPoints | backend/datasets/generate_data.py:144-147 | 2 points iff more than three severe attacks, 0 iff at most one |
| GenerateData.AdherencePoints | backend/datasets/generate_data.py:149-152 | 2 points iff adherence is below 0.7, 0 iff it is at least 0.9 |
| GenerateData.PatientRiskScore | backend/datasets/generate_data.py:140-152 | the patient score is at most 5 |
| GenerateData.CityAdjustment | backend/datasets/generate_data.py:158-161 | +1 exactly for a High city, -1 exactly for a Low city |
| GenerateData.TotalRiskScore | backend/datasets/generate_data.py:155-161 | the total lies in -1..12 |
| GenerateData.LabelOf | backend/datasets/generate_data.py:164-169 | High iff the total is at least 4, Moderate iff 2 or 3, Low otherwise |
| GenerateData.LabelMonotone | backend/datasets/generate_data.py:164-169 | a higher total never gives a lower label |
| GenerateData.WorseReadingsNeverLowerLabel | backend/datasets/generate_data.py:122-169 | more pollution, pollen or attacks and less adherence never lower the score or the label |
| GenerateData.AccumulateEnvRiskScore | backend/datasets/generate_data.py:121-137 | the step-by-step environmental score equals the rule |
| GenerateData.AccumulatePatientRiskScore | backend/datasets/generate_data.py:139-152 | the step-by-step patient score equals the rule |
| GenerateData.GenerateRealisticSample | backend/datasets/generate_data.py:96-183 | the sample carries its readings and the label of their total score |
| GenerateData.Escalate | backend/datasets/generate_data.py:213-214 | escalation raises Low to Moderate and Moderate to High and keeps High; it never yields Low |
| GenerateData.EscalationCoversRecomputation | backend/datasets/generate_data.py:209-222 | raising attacks above 3 or dropping adherence below 0.7 adds at most 2 to the score, and the escalated label is at least the recomputed one |
| GenerateData.EscalationCanExceedRule | backend/datasets/generate_data.py:209-214 | a low-risk city sample with seven attacks is escalated to Moderate although the rule still labels it Low |
| GenerateData.FourProfiles | backend/datasets/generate_data.py:200-223 | each profile round yields four samples, and the two modified ones are never Low |
| GenerateData.Regulars | backend/datasets/generate_data.py:195-197 | the regular block has the requested size |
| GenerateData.ProfilesLength | backend/datasets/generate_data.py:200-223 | r profile rounds yield 4r samples |
| GenerateData.AccumulateSize | backend/datasets/generate_data.py:191-223 | each city contributes n regular and 4 × rounds profile samples |
| GenerateData.AccumulateStep | backend/datasets/generate_data.py:191-223 | one city step appends that city's regular block, then its profile block |
| GenerateData.AccumulateKeepsPrefix | backend/datasets/generate_data.py:191-223 | later cities only append: rows already generated are kept |
| GenerateData.RegularsAt | backend/datasets/generate_data.py:195-197 | the i-th regular sample is the draw at its position |
| GenerateData.ProfilesAt | backend/datasets/generate_data.py:200-223 | the sample at 4q + t is the t-th member of round q |
| GenerateData.RegularsFollowRule | backend/datasets/generate_data.py:195-197 | every regular sample is labelled by the rule applied to its readings |
| GenerateData.ModifiedProfilesNeverLow | backend/datasets/generate_data.py:209-223 | the third and fourth sample of every profile round are never Low |
| GenerateData.AccumulateFirst | backend/datasets/generate_data.py:191-197 | the dataset begins with the first city's regular block |
| GenerateData.FirstCityComesFirst | backend/datasets/generate_data.py:191-197 | the first n samples are the first city's rule-labelled draws |
| GenerateData.ProfileRound | backend/datasets/generate_data.py:200-223 | the step-by-step round equals the four-profile specification |
| GenerateData.AppendRegulars | backend/datasets/generate_data.py:195-197 | the loop appends exactly the regular block |
| GenerateData.AppendProfiles | backend/datasets/generate_data.py:200-223 | the loop appends exactly the profile block |
| GenerateData.AppendCityBlock | backend/datasets/generate_data.py:191-223 | one city appends its regular block followed by its profile block |
| GenerateData.GenerateDataset | backend/datasets/generate_data.py:185-234 | the generated list equals the dataset specification and has \|cities\| × (n + 4 × rounds) rows |
| GenerateData.GenerateDiverseDataset | backend/datasets/generate_data.py:185-234 | with the ten cities and 50 profile rounds, the dataset has 10 × (n + 200) rows |
| ValidateData.TablesCoverTheSchema | backend/datasets/validate_data.py:64-75 | the range table covers exactly the ten feature columns, in order, each with lo < hi; the required columns are those plus the label |
| ValidateData.CountOutOfRange | backend/datasets/validate_data.py:80-81 | the out-of-range count is at most the number of values |
| ValidateData.CountZeroIff | backend/datasets/validate_data.py:80-82 | the count is zero iff every value lies within its bounds |
| ValidateData.RangeIssuesMembers | backend/datasets/validate_data.py:78-83 | a column is reported with count k iff it is in the table and the data, and k > 0 of its values are out of range |
| ValidateData.RangeIssuesInTableOrder | backend/datasets/validate_data.py:78-83 | issues are reported in table order |
| ValidateData.CheckRanges | backend/datasets/validate_data.py:78-83 | the loop collects exactly the specified issues |
| ValidateData.ValidateValueRanges | backend/datasets/validate_data.py:56-91 | checks the fixed range table against the numeric columns |
| ValidateData.NoIssuesIff | backend/datasets/validate_data.py:78-91 | no issue is reported iff every checked value is within its range |
| ValidateData.InvalidRisks | backend/datasets/validate_data.py:99-104 | the invalid labels are exactly the labels outside Low, Moderate and High |
| ValidateData.ValueCounts | backend/datasets/validate_data.py:110 | counts each label's occurrences, with no zero entries |
| ValidateData.ValidateCategoricalData | backend/datasets/validate_data.py:93-110 | no counts iff the label column is missing; no invalid labels iff every label is valid |
| ValidateData.MissingFrom | backend/datasets/validate_data.py:222-225 | the missing list is exactly the required columns that are absent |
| ValidateData.MaxCount | backend/datasets/validate_data.py:244-245 | the largest class count is attained and bounds every count |
| ValidateData.MinCount | backend/datasets/validate_data.py:244-246 | the smallest class count is attained and is a lower bound |
| ValidateData.RatioBelowHalf | backend/datasets/validate_data.py:247-249 | a ratio is below one half iff twice the numerator is below the denominator |
| ValidateData.ImbalancedIff | backend/datasets/validate_data.py:242-252 | a non-empty label column is imbalanced iff twice the smallest count is below the largest |
| ValidateData.ValidateDatasetCompleteness | backend/datasets/validate_data.py:210-255 | incomplete iff a required column is missing, listing exactly those; otherwise classes below 50 samples and imbalance are reported exactly |
| ValidateData.CompletenessIgnoresCounts | backend/datasets/validate_data.py:216-225 | completeness depends only on the set of columns |
| TrainModel.Source | backend/train_model.py:53 | each synthetic row copies an existing row |
| TrainModel.SyntheticRows | backend/train_model.py:51-68 | n draws yield n synthetic rows |
| TrainModel.SyntheticRowsAt | backend/train_model.py:51-68 | the j-th synthetic row is the j-th draw's row |
| TrainModel.SyntheticRowProperties | backend/train_model.py:53-67 | a synthetic row keeps its source's label; pm values stay non-negative; humidity stays in 0..100; adherence stays in 0..1; a zero feature stays zero |
| TrainModel.MakeSample | backend/train_model.py:53-67 | the loop's noisy, clamped row equals the synthetic row |
| TrainModel.AugmentData | backend/train_model.py:43-78 | the loop's result equals the augmentation specification |
| TrainModel.AugmentedShape | backend/train_model.py:43-78 | augmentation fails iff rows are requested from an empty dataset; otherwise the originals come first, followed by n synthetic rows, each labelled like some original |
| TrainModel.SuccessfulMembers | backend/train_model.py:113-162 | a family appears with its result iff it was tried and its training succeeded |
| TrainModel.TrainMultipleModels | backend/train_model.py:80-162 | the loop keeps, in order, exactly the families whose training succeeded |
| TrainModel.FirstBest | backend/train_model.py:171 | the chosen index has maximal accuracy, and every earlier entry is strictly less accurate |
| TrainModel.EvaluateModels | backend/train_model.py:164-190 | no winner iff no family trained; the winner is a most accurate result, and the first such in training order |
| TrainModel.CompatibleMeansConfidence | backend/train_model.py:234-252 | a model is XAI-compatible iff its predictions carry a confidence and probabilities |
| TrainModel.FamilyFile | backend/train_model.py:197 | no family is saved as `best_model.pkl`, and only the random forest is saved under the fallback name |
| TrainModel.FileNameLength | backend/train_model.py:197 | a file name's length is the name's plus the suffix, so names of other lengths miss the best and fallback files |
| TrainModel.SelectBest | backend/train_model.py:254-290 | passes on an augmentation failure, and otherwise selects the best of the families that trained on the prepared data |
| TrainModel.Train | backend/train_model.py:254-295 | with a winner, saves only its own file plus the encoder and columns, and returns it; without one, or on failure, the directory is unchanged; `best_model.pkl` is never written |
| TrainModel.BestFallsBackToRandomForest | backend/asthmashield_app/ml_model/model.py:15-20 | after training into an empty directory, loading "best" returns the random forest if it won and fails otherwise |
| TrainModel.TrainWithBestAlias | backend/train_model.py:254-295 | the corrected trainer makes loading "best" return the selected model |

## Left out

- File, network and e-mail/SMS I/O: CSV and pickle files are the fields of
  `ModelDirectory` and `SymptomDataCollector`, HTTP payloads are parameters,
  and notifications are not part of this model (`notifications.py`).
- Exceptions raised by library calls, and the views' catch-all 500 response,
  are modelled only where they decide a branch. The prediction failure
  (`PredictionFailed`) is one such branch.
- Floating point: all numbers are mathematical reals, and NaN values in
  frames are not modelled. For an empty label column the source's imbalance
  ratio would be NaN and gives no warning; `Imbalanced` is false there too.
- Number rounding and string formatting in JSON bodies and advice texts:
  `Advice` records which sentence appears, not its text.
- `int()`/`float()` parsing of query parameters: the request carries
  already-parsed numbers, and malformed numbers (a 500) are not modelled.
- Python's `hash` of the timestamp and user id: it is a parameter of
  `SaveReport`, reduced modulo 1000000 as the source does.
- The statistical distribution of random draws: `Draws` and `RandomSource`
  give arbitrary values, and `pick(k) % |df|` stands for
  `np.random.randint(0, len(X))`.
- The train/test split, feature scaling, grid search and accuracy
  computation: the `fit` oracle gives each family's fitted pipeline and
  accuracy, or None when its training raises.
- TrainModel.EvaluateModels: only the head of the sorted results (the chosen
  model) is modelled, not the whole sorted list or the classification report.
- Registry.NormaliseModelName: only ASCII capitals are lower-cased. Python's
  `str.lower` also folds other alphabets, but every model name the system
  uses is ASCII.
- `normalize_features` in `preprocess.py`: a scikit-learn scaler call with no
  logic of its own.
- `load_and_preprocess_data` and `main` in `train_model.py`: CSV loading,
  label-encoder fitting, and command line parsing.
- `generate_risk_insights` in `train_model.py`: it prints per-class
  statistics. It also decodes the targets with `le.inverse_transform`, which
  may raise before `save_model` runs when augmentation has turned the targets
  into floats. That depends on pandas and scikit-learn dtype handling, which
  the model does not capture; `TrainModel.Train` assumes the call returns.
- `load_dataset`, `check_data_quality`, `analyze_feature_correlations`,
  `generate_summary_statistics`, `create_visualizations` and `main` in
  `validate_data.py`: they load, print or plot, and decide nothing.
- `save_data` and `combine_with_existing_data` in `generate_data.py`: CSV
  output, and concatenation with the existing dataset followed by removal of
  duplicate rows.
- `MedicationReminderView` and the JSON decoding in `SymptomReportView.post`:
  request plumbing around the modelled severity rule and report store.
- Model.PredictAsthmaRisk: the `xai_error` text of a failed explanation is
  recorded only as the failure case, not as the exception's message.
- GenerateData.GenerateRealisticSample: the draws of the readings come from
  the `RandomSource`, and the rounding of the readings is not modelled.
- GenerateData.GenerateDiverseDataset: the dataset is stated in generation
  order. The final shuffle (`df.sample(frac=1)`) is a random permutation that
  is not modelled, so `FirstCityComesFirst` describes the list before it.

## Findings

| source | as written | input that shows it | evidently intended | confidence | as-written member | corrected member |
|---|---|---|---|---|---|---|
| backend/train_model.py:197 with backend/asthmashield_app/ml_model/model.py:15-20 | `save_model` writes only `<family>_model.pkl`, but the web app loads `model_type='best'` (the prediction view through the defaults it uses at backend/asthmashield_app/views.py:66 and :112, and `XAIExplainer()` in `get_xai_explanation` at backend/asthmashield_app/ml_model/xai_explainer.py:154), as does the XAI training command (backend/asthmashield_app/management/commands/train_xai_model.py:71); loading 'best' reads `best_model.pkl` and otherwise falls back to `random_forest_model.pkl` | a fresh model directory in which SVM (or any family other than the random forest) has the highest test accuracy: `load_model('best')` finds neither file and fails, or serves a stale random forest left from an earlier run | the model selected by training is the one loaded as "best" | not executed | TrainModel.BestFallsBackToRandomForest | TrainModel.TrainWithBestAlias |
