# Route weather dashboard — Dafny model

The dashboard lets a user build a route of `[latitude, longitude]` points,
shows the points as cards and as map markers, and charts hourly weather
forecasts of the selected parameters for every point. This project models
the part of it that has behaviour of its own:

- **Route state** (`RouteState`, from `app.py`): `update_points` appends a
  pair only when both coordinates are present and the pair is new, so the
  route never holds a repeated pair; `delete_point` removes the one point
  whose delete button has a truthy click count at the highest position
  (last wins).
- **Derived views** (`Dashboard`, from `app.py`): the point cards (numbered
  from 1, delete buttons tagged with the 0-based position), the map (nothing
  for an empty route, markers numbered from 1, centred on the first point,
  zoom 5), the map's show/hide toggle, and the chart panel (nothing for an
  empty route, the client's failure message, or the charts).
- **Chart builder** (`WeatherGraphs`, from `plotly_graphs.py`): one figure
  per selected parameter in selection order, one trace per point labelled
  "Точка k", midday markers at sample indices 12, 36, … and midnight markers
  at 0, 24, … of the first point's table, titled "display name, unit" from
  the parameter table (`Config`, from `config.py`).
- **Labels** (`Numerals`): decimal rendering of the point numbers, with its
  parsing inverse, so that distinct points provably get distinct labels.

Coordinates are a type parameter `C` with equality. The weather client is a
function parameter from latitudes, longitudes and a horizon to either one
table per point or a failure message; a table is only its number of hourly
rows. Figures are plain records of title, marker indices and traces.

Charts come in the order of the selection list. `delete_point` treats a
`None` and a `0` click count alike, because both are falsy, so its "all
counts are None" test (app.py:162) only shortcuts a case the truthiness
filter (app.py:163) already handles.

## Model

| member | source | states |
|---|---|---|
| Numerals.NatToString | app.py:116 | the rendered number is a non-empty digit string with no leading zero; it is one digit long exactly for numbers below ten |
| Numerals.ParseNatToString | app.py:116 | reading a rendered number back gives the number (the rendering has an inverse) |
| Numerals.NatToStringInjective | app.py:116 | two numbers render to the same numeral exactly when they are equal |
| Numerals.PointLabel | plotly_graphs.py:22 | a point label is "Точка " followed by digits that read back as the point number |
| Numerals.PointLabelInjective | plotly_graphs.py:22 | two point labels are equal exactly when their numbers are equal |
| WeatherGraphs.Stride | plotly_graphs.py:14-18 | the slice `dates[start::24]` of an n-row column picks indices start + 24·i, all below n, and there are ⌈(n − start)/24⌉ of them |
| WeatherGraphs.StrideMembership | plotly_graphs.py:14-18 | an index is picked by the slice exactly when it is below n and a whole number of days after start |
| WeatherGraphs.DayMarkers | plotly_graphs.py:14-18 | the markers of one kind are exactly the in-range indices at that hour of the day, ascending one day apart, and there are none exactly when the table has no row at that hour |
| WeatherGraphs.Title | plotly_graphs.py:25 | the title is the display name, then ", ", then the unit of the selected key |
| WeatherGraphs.TitleInjective | config.py:9-16 | distinct parameters of the table get distinct chart titles |
| WeatherGraphs.MakeFigure | plotly_graphs.py:8-27 | midday markers are exactly the first-table indices ≡ 12 (mod 24), none when it has at most 12 rows; midnight markers are exactly the indices ≡ 0 (mod 24), ⌈n/24⌉ of them; one trace per table in table order, named "Точка k" for k = 1..n, plotting the selected column |
| WeatherGraphs.MakeWeatherGraph | plotly_graphs.py:7-29 | one figure per selected key in selection order (none for an empty selection), each titled after its key |
| WeatherGraphs.MarkersComeFromFirstTable | plotly_graphs.py:8 | the markers of every figure depend only on the length of the first table |
| WeatherGraphs.TraceNamesDistinct | plotly_graphs.py:21-22 | the legend names within one figure are pairwise distinct |
| RouteState.UpdatePoints | app.py:144-153 | the error text is empty; the old route is a prefix of the new one; the route grows by one exactly when both coordinates are given and the pair is absent, and then the new last entry is that pair; otherwise it is unchanged |
| RouteState.UpdatePointsMissingCoordinate | app.py:146 | a missing latitude or longitude leaves the route unchanged with an empty error |
| RouteState.UpdatePointsDuplicate | app.py:147 | adding a pair already in the route leaves it unchanged |
| RouteState.UpdatePointsKeepsNoDuplicates | app.py:146-149 | a route without repeated pairs still has none after an add |
| RouteState.UpdatePointsIdempotent | app.py:146-149 | adding the same input twice gives the same result as adding it once |
| RouteState.ClickedIndices | app.py:163 | the list holds exactly the positions whose click count is truthy, in ascending order |
| RouteState.Max | app.py:166 | the maximum is an element of the list and no element exceeds it |
| RouteState.RemoveAt | app.py:167 | popping position k drops the length by one, keeps the elements before k, shifts those after k down by one, and removes exactly one copy of the k-th element |
| RouteState.DeletePoint | app.py:161-169 | the route is unchanged exactly when no click count is truthy; otherwise it loses one element and gains none |
| RouteState.DeletePointRemovesLastClicked | app.py:163-167 | when k is the highest position with a truthy count, the result is the route with position k popped |
| RouteState.DeletePointKeepsNoDuplicates | app.py:161-169 | a route without repeated pairs still has none after a delete |
| RouteState.RouteScenario | app.py:144-169 | add (10, 20) twice and (30, 40) once, then delete with both buttons clicked: the route goes [(10, 20)], unchanged, [(10, 20), (30, 40)], [(10, 20)] |
| Dashboard.ShowCards | app.py:113-132 | one card per point in route order; card i is headed "Точка i+1", shows point i and its delete button is tagged i |
| Dashboard.CardHeadersDistinct | app.py:116 | no two cards of one route share a header |
| Dashboard.OnlyClicked | app.py:119 | the click counts after pressing one fresh button are truthy at that button only |
| Dashboard.CardButtonDeletesItsPoint | app.py:119 | pressing the delete button of card k pops position k, and on a route without repeats that card's point is no longer in the route |
| Dashboard.Latitudes | app.py:190 | the latitudes column has one entry per point, in route order |
| Dashboard.Longitudes | app.py:224 | the longitudes column has one entry per point, in route order |
| Dashboard.CreateMap | app.py:187-210 | no map exactly for an empty route; otherwise one marker per point at that point, marker i numbered i+1, centred on the first point, zoom 5 |
| Dashboard.MapMarkersMatchCards | app.py:196 | marker i and card i show the same point under the same label |
| Dashboard.ShowMap | app.py:177-180 | the map is displayed exactly when the checklist value contains "show" |
| Dashboard.ShowMapToggles | app.py:94-95 | with the initial value ["show"] the map is shown; with nothing ticked it is hidden |
| Dashboard.UpdateGraphs | app.py:220-234 | no panel exactly for an empty route; on client failure the panel is the error heading followed by the failure message; on success one chart per selected key, titled after it, each with one trace per point |
| Dashboard.EmptyRouteIgnoresClient | app.py:222-223 | for an empty route the panel is empty whatever the weather client would answer |
| Dashboard.FetchErrorShowsCause | app.py:226-229 | the client's failure message occurs verbatim in the heading shown instead of the charts |
| Dashboard.TraceNamesMatchCards | plotly_graphs.py:21-22 | trace i of every chart carries the same label as card i |
| Dashboard.ChartsScenario | app.py:220-234 | two points with temperature and wind speed selected give two charts of two traces titled "Температура, °C" and "Скорость ветра, км/ч"; a client failing with "timeout", asked with the initial selection, gives that heading and leaves two cards |

## Left out

- The weather client (`open_meteo.py`): HTTP requests, response caching,
  retry with backoff and data-frame construction are not modelled; the
  client is a function parameter returning one table per point or a failure.
- Dashboard.UpdateGraphs: a `Failure(e)` of the client stands for it
  raising `RuntimeError(e)`, the only exception the chart callback catches;
  any other exception (an `IndexError` when fewer responses come back than
  points, say) escapes the callback and shows no heading, and is not
  modelled.
- Dashboard.UpdateGraphs: requires the client to answer a non-empty route
  with one table per point, as the client does by looping over the
  longitudes; the code would fail on `[0]` of an empty answer.
- WeatherGraphs.MakeWeatherGraph: requires a non-empty table list and
  selected keys from the parameter table; the code would raise otherwise,
  and its callers guarantee both (the route is non-empty, the checklist only
  offers table keys).
- RouteState.DeletePoint: requires one click count per point, because the
  cards create one delete button per point (app.py:119, 130). With other
  lengths the code raises only when a truthy count sits at a position at or
  beyond the end of the route; fewer counts than points would still pop a
  valid position, and the model does not describe that mismatch.
- RouteState.UpdatePoints: the `RuntimeError` branch around `list.append`
  and its logging are not modelled, so the error text is always empty.
- Chart values: traces record which table and column they plot and how
  many rows it has, not the weather values or the date stamps; markers are
  sample indices into the first table, not timestamps.
- The page layout, callback registration, the store that holds the route and
  the reactive dispatch of the UI framework, and all styling (colours,
  opacity, margins, map style, marker size).
- Floating-point coordinate equality (an integer and a float of equal value
  compare equal in the code); coordinates are an abstract type with equality.
- The input widgets' -90..90 range and the 1..16 horizon range: only the
  browser widgets enforce them, so the model does not assume them. The
  horizon is an optional integer (the number input is empty when cleared)
  and is passed to the client unchanged; what the client does with it is
  not modelled.
- The card body text `Широта: …; Долгота: …` is modelled by the two
  coordinates it shows, not as a formatted string.
- The server host, port and logging level in `config.py`: constants with no
  behaviour.
