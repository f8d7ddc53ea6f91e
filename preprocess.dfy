/** Extraction of the environmental features from the two weather-service
    payloads: a five-entry vector with the temperature converted from Kelvin
    to Celsius and a fixed placeholder pollen level. */
module Preprocess {
  import opened Common
  import Features

  /** The readings under the weather payload's `main` key (temperature in Kelvin). */
  datatype MainReadings = MainReadings(temp: real, humidity: real, pressure: real)

  /** The weather payload: its status code, `main`, the wind speed when the
      payload has a `wind` entry, and the station coordinates. */
  datatype WeatherPayload = WeatherPayload(cod: int, main: MainReadings, wind: Option<real>, lat: real, lon: real)

  /** One entry of the air-quality payload's `list`. */
  datatype Components = Components(pm25: real, pm10: real, no2: real, o3: real)

  /** The air-quality payload; a missing `list` is an empty one. */
  datatype AqiPayload = AqiPayload(list: seq<Components>)

  const KelvinOffset: real := 273.15
  /** The pollen level used while no pollen source exists. */
  const PlaceholderPollen: real := 50.0

  function KelvinToCelsius(k: real): real {
    k - KelvinOffset
  }

  /** The key lookups that raise: a payload without `wind`, an empty `list`. */
  datatype PreprocessError = MissingWind | NoAirQualityEntry

  /** `preprocess_weather_data`. The weather keys are read first, so a missing
      wind entry is reported before an empty air-quality list. */
  function PreprocessWeatherData(weather: WeatherPayload, aqi: AqiPayload): (r: Result<seq<real>, PreprocessError>)
    ensures weather.wind.None? ==> r == Failure(MissingWind)
    ensures weather.wind.Some? && |aqi.list| == 0 ==> r == Failure(NoAirQualityEntry)
    ensures r.Success? <==> weather.wind.Some? && |aqi.list| > 0
    ensures r.Success? ==> |r.value| == 5
    ensures r.Success? ==> r.value == [aqi.list[0].pm25, aqi.list[0].pm10,
                                      weather.main.temp - 273.15, weather.main.humidity, 50.0]
  {
    if weather.wind.None? then Failure(MissingWind)
    else if |aqi.list| == 0 then Failure(NoAirQualityEntry)
    else
      var temperature := KelvinToCelsius(weather.main.temp);
      var c := aqi.list[0];
      Success([c.pm25, c.pm10, temperature, weather.main.humidity, PlaceholderPollen])
  }

  /** The five entries follow the first five columns of the predictor's
      schema, and the vector is too short to be given to the predictor. */
  lemma PreprocessedShape(weather: WeatherPayload, aqi: AqiPayload)
    requires PreprocessWeatherData(weather, aqi).Success?
    ensures |PreprocessWeatherData(weather, aqi).value| < |Features.FeatureColumns|
    ensures Features.FeatureColumns[..5] == ["pm25", "pm10", "temperature", "humidity", "pollen_level"]
  {
  }
}
