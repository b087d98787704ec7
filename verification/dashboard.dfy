/** The dashboard's derived views: the point cards, the map, the map's
    visibility and the chart panel, each a pure function of the route and the
    selection controls. The weather client is a parameter; the UI framework
    that wires these callbacks together is not modelled. */
module Dashboard {
  import opened Wrappers
  import opened Numerals
  import opened Config
  import opened RouteState
  import opened WeatherGraphs

  /** One point card: header, the coordinates shown in its body, and the
      index its delete button is tagged with. */
  datatype Card<C> = Card(header: string, lat: C, lon: C, deleteIndex: nat)

  /** `show_cards`: one card per point, numbered from 1, each delete button
      tagged with the point's 0-based position. */
  function ShowCards<C>(route: seq<Point<C>>): (cards: seq<Card<C>>)
    ensures |cards| == |route|
    ensures forall i :: 0 <= i < |route| ==>
              cards[i].header == PointLabel(i + 1) &&
              (cards[i].lat, cards[i].lon) == route[i] &&
              cards[i].deleteIndex == i
  {
    seq(|route|, i requires 0 <= i < |route| => Card(PointLabel(i + 1), route[i].0, route[i].1, i))
  }

  /** The card headers of one route are pairwise distinct. */
  lemma CardHeadersDistinct<C>(route: seq<Point<C>>)
    ensures forall i, j :: 0 <= i < j < |route| ==> ShowCards(route)[i].header != ShowCards(route)[j].header
  {
  }

  /** The click counts the delete buttons report when only the button of card
      `k` has been pressed (fresh buttons start at 0). */
  function OnlyClicked(n: nat, k: nat): (clicks: seq<Option<int>>)
    requires k < n
    ensures |clicks| == n
    ensures Truthy(clicks[k])
    ensures forall j :: 0 <= j < n && j != k ==> !Truthy(clicks[j])
  {
    seq(n, j requires 0 <= j < n => if j == k then Some(1) else Some(0))
  }

  /** Pressing the delete button of a card removes exactly that card's point,
      and (on a route without repeats) that point is gone afterwards. */
  lemma CardButtonDeletesItsPoint<C>(route: seq<Point<C>>, k: nat)
    requires k < |route|
    ensures var card := ShowCards(route)[k];
            DeletePoint(route, OnlyClicked(|route|, card.deleteIndex)) == RemoveAt(route, k)
    ensures NoDuplicates(route) ==>
              var card := ShowCards(route)[k];
              (card.lat, card.lon) !in DeletePoint(route, OnlyClicked(|route|, card.deleteIndex))
  {
    var clicks := OnlyClicked(|route|, k);
    DeletePointRemovesLastClicked(route, clicks, k);
    var r := RemoveAt(route, k);
    if NoDuplicates(route) {
      forall i | 0 <= i < |r| ensures r[i] != route[k] {
        if i < k {
          assert r[i] == route[i];
        } else {
          assert r[i] == route[i + 1];
        }
      }
    }
  }

  /** The latitudes of the route, in order (the first half of `zip(*points)`). */
  function Latitudes<C>(route: seq<Point<C>>): (lats: seq<C>)
    ensures |lats| == |route|
    ensures forall i :: 0 <= i < |route| ==> lats[i] == route[i].0
  {
    seq(|route|, i requires 0 <= i < |route| => route[i].0)
  }

  /** The longitudes of the route, in order (the second half of `zip(*points)`). */
  function Longitudes<C>(route: seq<Point<C>>): (lons: seq<C>)
    ensures |lons| == |route|
    ensures forall i :: 0 <= i < |route| ==> lons[i] == route[i].1
  {
    seq(|route|, i requires 0 <= i < |route| => route[i].1)
  }

  /** The fixed zoom level of the map. */
  const MapZoom: nat := 5

  /** A map figure: marker coordinates, the number shown in each marker's
      hover text, the centre and the zoom. */
  datatype MapFigure<C> = MapFigure(lats: seq<C>, lons: seq<C>, markerNumbers: seq<nat>, center: Point<C>, zoom: nat)

  /** `create_map`: nothing for an empty route; otherwise one marker per point,
      numbered from 1, centred on the first point. */
  function CreateMap<C>(route: seq<Point<C>>): (m: Option<MapFigure<C>>)
    ensures m.None? <==> |route| == 0
    ensures m.Some? ==>
              && |m.value.lats| == |route| && |m.value.lons| == |route| && |m.value.markerNumbers| == |route|
              && (forall i :: 0 <= i < |route| ==>
                    (m.value.lats[i], m.value.lons[i]) == route[i] && m.value.markerNumbers[i] == i + 1)
              && m.value.center == route[0]
              && m.value.zoom == MapZoom
  {
    if |route| == 0 then None
    else
      var lats := Latitudes(route);
      var lons := Longitudes(route);
      Some(MapFigure(lats, lons, seq(|route|, i requires 0 <= i < |route| => i + 1), (lats[0], lons[0]), MapZoom))
  }

  /** Marker k of the map and card k of the list show the same point under
      the same number. */
  lemma MapMarkersMatchCards<C>(route: seq<Point<C>>)
    requires 0 < |route|
    ensures var m := CreateMap(route).value;
            var cards := ShowCards(route);
            forall i :: 0 <= i < |route| ==>
              PointLabel(m.markerNumbers[i]) == cards[i].header &&
              (m.lats[i], m.lons[i]) == (cards[i].lat, cards[i].lon)
  {
  }

  /** The CSS display of the map container. */
  datatype Display = Block | Hidden

  /** The option value of the map checklist that means "show". */
  const ShowOption: string := "show"

  /** `show_map`: the map is displayed exactly when "show" is ticked. */
  function ShowMap(value: seq<string>): (d: Display)
    ensures d == Block <==> ShowOption in value
  {
    if ShowOption in value then Block else Hidden
  }

  /** The map starts out visible, and unticking the only option hides it. */
  lemma ShowMapToggles()
    ensures ShowMap([ShowOption]) == Block
    ensures ShowMap([]) == Hidden
  {
  }

  /** The weather client: latitudes, longitudes and a horizon in days (absent
      when the number input is cleared) to one table per point, or the
      message of the `RuntimeError` it raised. */
  type WeatherClient<!C> = (seq<C>, seq<C>, Option<int>) -> Result<seq<Table>, string>

  /** What the client promises for the request the chart panel makes: on
      success, exactly one table per point of a non-empty route (it loops
      over the longitudes it was given). */
  predicate OneTablePerPoint<C>(fetch: WeatherClient<C>, route: seq<Point<C>>, days: Option<int>) {
    0 < |route| && fetch(Latitudes(route), Longitudes(route), days).Success? ==>
      |fetch(Latitudes(route), Longitudes(route), days).value| == |route|
  }

  /** The chart panel: the figures, or a heading that reports the failure. */
  datatype GraphsPanel = Charts(figures: seq<Figure>) | FetchError(message: string)

  /** The heading text in front of a weather client failure. */
  const FetchErrorPrefix: string := "Ошибка при получении погоды:\n "

  /** `update_graphs`: nothing for an empty route; otherwise fetch the weather
      of every point and chart each selected parameter, or report the
      client's failure. */
  function UpdateGraphs<C>(selected: seq<string>, days: Option<int>, route: seq<Point<C>>, fetch: WeatherClient<C>): (panel: Option<GraphsPanel>)
    requires forall k :: k in selected ==> k in ParameterMap
    requires OneTablePerPoint(fetch, route, days)
    ensures panel.None? <==> |route| == 0
    ensures 0 < |route| && fetch(Latitudes(route), Longitudes(route), days).Failure? ==>
              panel == Some(FetchError(FetchErrorPrefix + fetch(Latitudes(route), Longitudes(route), days).error))
    ensures 0 < |route| && fetch(Latitudes(route), Longitudes(route), days).Success? ==>
              && panel.Some? && panel.value.Charts?
              && |panel.value.figures| == |selected|
              && forall i :: 0 <= i < |selected| ==>
                   panel.value.figures[i].title == Title(selected[i]) &&
                   |panel.value.figures[i].traces| == |route|
  {
    if |route| == 0 then None
    else
      match fetch(Latitudes(route), Longitudes(route), days)
      case Failure(e) => Some(FetchError(FetchErrorPrefix + e))
      case Success(tables) => Some(Charts(MakeWeatherGraph(tables, selected)))
  }

  /** With an empty route the panel is empty whatever the client would answer:
      the client's result plays no part. */
  lemma EmptyRouteIgnoresClient<C>(selected: seq<string>, days: Option<int>, f1: WeatherClient<C>, f2: WeatherClient<C>)
    requires forall k :: k in selected ==> k in ParameterMap
        ensures UpdateGraphs(selected, days, [], f1) == UpdateGraphs(selected, days, [], f2) == None
  {
  }

  /** A failure's message appears verbatim inside the heading shown instead
      of the charts. */
  lemma FetchErrorShowsCause<C>(selected: seq<string>, days: Option<int>, route: seq<Point<C>>, fetch: WeatherClient<C>)
    requires forall k :: k in selected ==> k in ParameterMap
    requires OneTablePerPoint(fetch, route, days)
    requires 0 < |route|
    requires fetch(Latitudes(route), Longitudes(route), days).Failure?
    ensures var cause := fetch(Latitudes(route), Longitudes(route), days).error;
            var message := UpdateGraphs(selected, days, route, fetch).value.message;
            exists at :: 0 <= at <= |message| && cause <= message[at..]
  {
    var cause := fetch(Latitudes(route), Longitudes(route), days).error;
    var message := UpdateGraphs(selected, days, route, fetch).value.message;
    assert message[|FetchErrorPrefix|..] == cause;
  }

  /** Trace k of every chart carries the same label as card k. */
  lemma TraceNamesMatchCards<C>(selected: seq<string>, days: Option<int>, route: seq<Point<C>>, fetch: WeatherClient<C>)
    requires forall k :: k in selected ==> k in ParameterMap
    requires OneTablePerPoint(fetch, route, days)
    requires 0 < |route|
    requires fetch(Latitudes(route), Longitudes(route), days).Success?
    ensures var figures := UpdateGraphs(selected, days, route, fetch).value.figures;
            forall f, i :: 0 <= f < |figures| && 0 <= i < |route| ==>
              figures[f].traces[i].name == ShowCards(route)[i].header
  {
  }

  /** A client that answers every request with four days of hourly rows. */
  function FourDayClient(lats: seq<int>, lons: seq<int>, days: Option<int>): Result<seq<Table>, string> {
    Success(seq(|lons|, _ => Table(96)))
  }

  /** A client that always times out. */
  function TimeoutClient(lats: seq<int>, lons: seq<int>, days: Option<int>): Result<seq<Table>, string> {
    Failure("timeout")
  }

  /** Two points with temperature and wind speed selected give two charts,
      each with two traces and the two parameters' titles; a timing-out
      client, asked with the initial selection, gives the failure heading
      and leaves both cards in place. */
  lemma ChartsScenario()
    ensures var route := [(10, 20), (30, 40)];
            var selection := ["temperature", "wind_speed"];
            var panel := UpdateGraphs(selection, Some(4), route, FourDayClient);
            && panel.Some? && panel.value.Charts?
            && |panel.value.figures| == 2
            && |panel.value.figures[0].traces| == 2 && |panel.value.figures[1].traces| == 2
            && panel.value.figures[0].title == "Температура, °C"
            && panel.value.figures[1].title == "Скорость ветра, км/ч"
    ensures var route := [(10, 20), (30, 40)];
            UpdateGraphs(DefaultSelection, Some(4), route, TimeoutClient) == Some(FetchError(FetchErrorPrefix + "timeout")) &&
            |ShowCards(route)| == 2
  {
  }
}
