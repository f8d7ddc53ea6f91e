/** The feature schema: the ten numeric inputs of the risk classifier, in
    the one order used both to train the model and to query it. */
module Features {

  const FeatureColumns: seq<string> :=
    ["pm25", "pm10", "temperature", "humidity", "pollen_level",
     "wind_speed", "pressure", "patient_age",
     "patient_history_severe_attacks", "medication_adherence"]

  /** Positions of the fields the augmenter clamps. */
  const Pm25Index: nat := 0
  const Pm10Index: nat := 1
  const HumidityIndex: nat := 3
  const AdherenceIndex: nat := 9

  datatype FeatureVector = FeatureVector(
    pm25: real, pm10: real, temperature: real, humidity: real, pollenLevel: real,
    windSpeed: real, pressure: real, patientAge: real,
    patientHistorySevereAttacks: real, medicationAdherence: real)

  /** The row handed to the classifier: the fields in schema order. */
  function ToArray(f: FeatureVector): (a: seq<real>)
    ensures |a| == |FeatureColumns| == 10
  {
    [f.pm25, f.pm10, f.temperature, f.humidity, f.pollenLevel,
     f.windSpeed, f.pressure, f.patientAge,
     f.patientHistorySevereAttacks, f.medicationAdherence]
  }

  /** Reads a ten-entry row back into named fields, position by position. */
  function FromArray(a: seq<real>): FeatureVector
    requires |a| == 10
  {
    FeatureVector(a[0], a[1], a[2], a[3], a[4], a[5], a[6], a[7], a[8], a[9])
  }

  /** The two conversions are inverse to each other, so every position of the
      row carries the field its column names. */
  lemma ArrayRoundTrip(f: FeatureVector, a: seq<real>)
    ensures FromArray(ToArray(f)) == f
    ensures |a| == 10 ==> ToArray(FromArray(a)) == a
    ensures ToArray(f)[Pm25Index] == f.pm25 && FeatureColumns[Pm25Index] == "pm25"
    ensures ToArray(f)[Pm10Index] == f.pm10 && FeatureColumns[Pm10Index] == "pm10"
    ensures ToArray(f)[HumidityIndex] == f.humidity && FeatureColumns[HumidityIndex] == "humidity"
    ensures ToArray(f)[AdherenceIndex] == f.medicationAdherence
    ensures FeatureColumns[AdherenceIndex] == "medication_adherence"
  {
  }
}
