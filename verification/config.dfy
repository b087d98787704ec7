/** The fixed parameter table of the dashboard: weather key to
    (display name, unit). The server address, port and logging level that
    sit beside it carry no behaviour and are not modelled. */
module Config {

  const ParameterMap: map<string, (string, string)> := map[
    "temperature" := ("Температура", "°C"),
    "relative_humidity" := ("Относительная влажность", "%"),
    "precipitation_probability" := ("Вероятность осадков", "%"),
    "surface_pressure" := ("Давление", "hPa"),
    "visibility" := ("Видимость", "м"),
    "wind_speed" := ("Скорость ветра", "км/ч")
  ]

  /** The parameter pre-selected when a session starts. */
  const DefaultSelection: seq<string> := ["temperature"]
}
