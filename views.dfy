/** The HTTP views: the prediction view (environment extraction, alert
    trigger, health advice, the first ten nearby reports) and the symptom
    view's severity scorer. The weather service, the notifier and the JSON
    encoding are outside the model; their results are parameters. */
module Views {
  import opened Common
  import opened Severity
  import opened Features
  import opened Preprocess
  import opened Registry
  import opened XaiExplainer
  import opened Model
  import opened DataCollection

  /** `SymptomReportView.calculate_severity`: the view's copy of the scoring loop. */
  method CalculateSeverity(symptoms: Symptoms) returns (r: Risk)
    ensures r == Tier(Score(symptoms))
    ensures DistinctKeys(symptoms) ==> r == Tier(ReferenceScore(PairsToMap(symptoms)))
  {
    var severityScore := 0;
    for i := 0 to |symptoms|
      invariant severityScore == Score(symptoms[..i])
    {
      var (symptom, present) := symptoms[i];
      if present && symptom in SeverityMap {
        severityScore := severityScore + SeverityMap[symptom];
      }
      assert symptoms[..i + 1][..i] == symptoms[..i];
    }
    assert symptoms[..|symptoms|] == symptoms;
    if DistinctKeys(symptoms) {
      ScoreMatchesReference(symptoms);
    }
    if severityScore >= 5 {
      r := High;
    } else if severityScore >= 3 {
      r := Moderate;
    } else {
      r := Low;
    }
  }

  /** The two copies of the severity rule give the same tier on every input. */
  method SeverityCopiesAgree(collector: SymptomDataCollector, symptoms: Symptoms)
    returns (fromView: Risk, fromCollector: Risk)
    ensures fromView == fromCollector
  {
    fromView := CalculateSeverity(symptoms);
    fromCollector := collector.CalculateSeverity(symptoms);
  }

  /** The alert condition: a High prediction and at least one contact. */
  predicate ShouldSendAlert(riskLevel: string, email: string, phone: string) {
    riskLevel == "High" && (email != "" || phone != "")
  }

  /** An alert is never sent for a label other than High, nor without a contact. */
  lemma AlertOnlyForHighWithContact(riskLevel: string, email: string, phone: string)
    ensures ShouldSendAlert(riskLevel, email, phone) ==> ParseRisk(riskLevel) == Some(High)
    ensures email == "" && phone == "" ==> !ShouldSendAlert(riskLevel, email, phone)
    ensures ParseRisk(riskLevel) == Some(High) && email != "" ==> ShouldSendAlert(riskLevel, email, phone)
  {
  }

  /** `reports[:10]`. */
  function FirstTen<T>(reports: seq<T>): (r: seq<T>)
    ensures |r| == if |reports| < 10 then |reports| else 10
    ensures forall i :: 0 <= i < |r| ==> r[i] == reports[i]
  {
    if |reports| <= 10 then reports else reports[..10]
  }

  /** Python truthiness of an optional number: present and non-zero. */
  predicate Truthy(x: Option<real>) {
    x.Some? && x.value != 0.0
  }

  /** The risk-specific part of the advice; the general advice is the
      fallback for every other label. */
  datatype Guidance = StayIndoors | LimitOutdoorActivity | EnjoyOutdoors | GeneralAdvice

  /** The advice text as far as it is not number formatting: whether the
      confidence sentence appears, and which guidance follows. */
  datatype Advice = Advice(confidenceSentence: bool, guidance: Guidance)

  const RiskSpecificAdvice: map<string, Guidance> :=
    map["High" := StayIndoors, "Moderate" := LimitOutdoorActivity, "Low" := EnjoyOutdoors]

  /** The guidance written for each label. */
  function GuidanceFor(r: Risk): Guidance {
    match r
    case High => StayIndoors
    case Moderate => LimitOutdoorActivity
    case Low => EnjoyOutdoors
  }

  /** `get_health_advice`. The confidence sentence appears exactly when the
      confidence is truthy; a known label gets its own guidance and any other
      label the general advice. */
  function GetHealthAdvice(riskLevel: string, confidence: Option<real>): (a: Advice)
    ensures a.confidenceSentence <==> Truthy(confidence)
    ensures a.guidance == GeneralAdvice <==> ParseRisk(riskLevel).None?
    ensures ParseRisk(riskLevel).Some? ==> a.guidance == GuidanceFor(ParseRisk(riskLevel).value)
  {
    Advice(Truthy(confidence),
           if riskLevel in RiskSpecificAdvice then RiskSpecificAdvice[riskLevel] else GeneralAdvice)
  }

  /** The query parameters of a prediction request; each may be absent. */
  datatype PredictRequest = PredictRequest(
    city: Option<string>,
    patientAge: Option<real>,
    patientHistorySevereAttacks: Option<real>,
    medicationAdherence: Option<real>,
    email: Option<string>,
    phone: Option<string>)

  const DefaultCity: string := "Pune"
  const DefaultPatientAge: real := 35.0
  const DefaultSevereAttacks: real := 1.0
  const DefaultAdherence: real := 0.8
  /** The radius, in km, of the nearby-report query. */
  const LocalReportRadiusKm: real := 5.0

  /** The classifier input the view builds from the two payloads and the
      request: no wind entry means wind speed 0, pollen is the placeholder. */
  function ViewFeatures(weather: WeatherPayload, aqi: AqiPayload, request: PredictRequest): (f: FeatureVector)
    requires |aqi.list| > 0
    ensures f.temperature == KelvinToCelsius(weather.main.temp)
    ensures f.windSpeed == weather.wind.GetOr(0.0)
    ensures f.patientAge == request.patientAge.GetOr(DefaultPatientAge)
  {
    var c := aqi.list[0];
    FeatureVector(c.pm25, c.pm10, KelvinToCelsius(weather.main.temp), weather.main.humidity, PlaceholderPollen,
                  weather.wind.GetOr(0.0), weather.main.pressure,
                  request.patientAge.GetOr(DefaultPatientAge),
                  request.patientHistorySevereAttacks.GetOr(DefaultSevereAttacks),
                  request.medicationAdherence.GetOr(DefaultAdherence))
  }

  /** The two extractions of the environment agree: when the payload has a
      wind entry, the weather preprocessor yields exactly the first five
      entries of the view's classifier row; without one, the preprocessor
      fails while the view goes on with wind speed 0. */
  lemma ViewAgreesWithPreprocess(weather: WeatherPayload, aqi: AqiPayload, request: PredictRequest)
    requires |aqi.list| > 0
    ensures weather.wind.Some? ==>
      PreprocessWeatherData(weather, aqi) == Success(ToArray(ViewFeatures(weather, aqi, request))[..5])
    ensures weather.wind.None? ==>
      PreprocessWeatherData(weather, aqi).Failure? && ViewFeatures(weather, aqi, request).windSpeed == 0.0
  {
    var row := ToArray(ViewFeatures(weather, aqi, request));
    assert row[..5] == [row[0], row[1], row[2], row[3], row[4]];
  }

  datatype ViewError = WeatherApiError | AqiDataUnavailable | PredictionFailed(cause: PredictError)

  /** The JSON body of a successful prediction, without number rounding,
      together with `alertSent`, which is not part of the body: it records
      whether the view called `send_asthma_alert`. `xai` is None where the
      body holds an empty dictionary. */
  datatype PredictResponse = PredictResponse(
    city: string,
    features: FeatureVector,
    asthmaRisk: string,
    confidence: Option<real>,
    probabilities: Option<seq<(string, real)>>,
    advice: Advice,
    featureImportance: Option<seq<(string, real)>>,
    xai: Option<XaiOutcome>,
    localReports: seq<Row>,
    alertSent: bool)

  /** Python truthiness of the probability dictionary: present and non-empty. */
  function NonEmpty(p: Option<seq<(string, real)>>): (r: Option<seq<(string, real)>>)
    ensures r.Some? <==> p.Some? && |p.value| > 0
    ensures r.Some? ==> r == p
  {
    if p.Some? && |p.value| > 0 then p else None
  }

  /** `PredictView.get` from the moment both payloads have arrived. A failed
      weather call or an empty air-quality list is a 400; a failed prediction
      is a 500. Otherwise the alert goes out exactly for a High prediction
      with a contact, and at most ten nearby reports are returned, in file
      order. An explainer that cannot be imported leaves the explanations
      empty. */
  method PredictViewGet(request: PredictRequest, weather: WeatherPayload, aqi: AqiPayload,
                        dir: ModelDirectory, collector: SymptomDataCollector,
                        parseFloat: string -> Option<real>, xaiImportable: bool,
                        sk: Sklearn, lib: XaiLibrary)
    returns (r: Result<PredictResponse, ViewError>)
    ensures weather.cod != 200 ==> r == Failure(WeatherApiError)
    ensures weather.cod == 200 && |aqi.list| == 0 ==> r == Failure(AqiDataUnavailable)
    ensures r.Success? ==> weather.cod == 200 && |aqi.list| > 0
    ensures weather.cod == 200 && |aqi.list| > 0 && LoadModel(dir, "best").Failure? ==>
      r == Failure(PredictionFailed(LoadFailed(LoadModel(dir, "best").error)))
    ensures weather.cod == 200 && |aqi.list| > 0 && LoadModel(dir, "best").Success? ==>
      var a := Assemble(LoadModel(dir, "best").value, ToArray(ViewFeatures(weather, aqi, request)), sk);
      && (a.Failure? ==> r == Failure(PredictionFailed(a.error)))
      && (a.Success? ==>
            && r.Success?
            && r.value.asthmaRisk == a.value.riskLevel
            && r.value.confidence == (if Truthy(a.value.confidence) then a.value.confidence else None)
            && r.value.probabilities == NonEmpty(a.value.probabilities)
            && r.value.advice == GetHealthAdvice(a.value.riskLevel, a.value.confidence))
    ensures r.Success? ==>
      && r.value.features == ViewFeatures(weather, aqi, request)
      && r.value.city == request.city.GetOr(DefaultCity)
      && (r.value.alertSent <==>
            ShouldSendAlert(r.value.asthmaRisk, request.email.GetOr(""), request.phone.GetOr("")))
      && r.value.featureImportance == GetFeatureImportance(dir, "best")
      && r.value.xai == (if xaiImportable then Some(XaiSpec(dir, r.value.features, "both", sk, lib)) else None)
    ensures r.Success? ==>
      && r.value.advice.confidenceSentence == Truthy(r.value.confidence)
      && (r.value.advice.guidance == GeneralAdvice <==> ParseRisk(r.value.asthmaRisk).None?)
    ensures r.Success? ==>
      var nearby := Keep(collector.rows, row => NearRow(row, weather.lat, weather.lon, LocalReportRadiusKm, parseFloat));
      && |r.value.localReports| == (if |nearby| < 10 then |nearby| else 10)
      && forall i :: 0 <= i < |r.value.localReports| ==> r.value.localReports[i] == nearby[i]
  {
    if weather.cod != 200 {
      return Failure(WeatherApiError);
    }
    if |aqi.list| == 0 {
      return Failure(AqiDataUnavailable);
    }
    var features := ViewFeatures(weather, aqi, request);
    var prediction := PredictAsthmaRisk(dir, features, "best", true, xaiImportable, sk, lib);
    if prediction.Failure? {
      return Failure(PredictionFailed(prediction.error));
    }
    var result := prediction.value;
    var email := request.email.GetOr("");
    var phone := request.phone.GetOr("");
    var alertSent := false;
    if result.riskLevel == "High" && (email != "" || phone != "") {
      alertSent := true;
    }
    var advice := GetHealthAdvice(result.riskLevel, result.confidence);
    var featureImportance := GetFeatureImportance(dir, "best");
    var localReports := collector.GetReportsByLocation(weather.lat, weather.lon, LocalReportRadiusKm, parseFloat);
    r := Success(PredictResponse(
      request.city.GetOr(DefaultCity), features, result.riskLevel,
      if Truthy(result.confidence) then result.confidence else None,
      NonEmpty(result.probabilities), advice, featureImportance,
      if result.xai.XaiExplanations? then Some(result.xai.outcome) else None,
      FirstTen(localReports), alertSent));
  }
}
