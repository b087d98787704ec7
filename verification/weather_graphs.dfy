/** The chart builder: one figure per selected weather parameter, each
    overlaying one trace per route point, with vertical markers at midday
    and midnight of the first point's hourly date column. Figures are plain
    records; colours, opacity and the plotting library itself are not
    modelled. */
module WeatherGraphs {
  import opened Config
  import opened Numerals

  /** One hourly weather table of a route point; only its row count matters here. */
  datatype Table = Table(samples: nat)

  /** One line series: its legend name, which table it plots, which column. */
  datatype Trace = Trace(name: string, table: nat, column: string, samples: nat)

  /** A chart: its title, the sample indices of the midday and midnight
      markers (added in that order), and its traces in drawing order. */
  datatype Figure = Figure(title: string, middayLines: seq<nat>, midnightLines: seq<nat>, traces: seq<Trace>)

  const HoursPerDay: nat := 24
  const MiddayHour: nat := 12

  /** The indices `start, start + 24, start + 48, ...` below `n`, that is the
      positions a slice `dates[start::24]` picks from a column of length `n`. */
  function Stride(start: nat, n: nat): (r: seq<nat>)
    ensures |r| == if start < n then (n - start + HoursPerDay - 1) / HoursPerDay else 0
    ensures forall i :: 0 <= i < |r| ==> r[i] == start + HoursPerDay * i
    ensures forall i :: 0 <= i < |r| ==> r[i] < n
    decreases n - start
  {
    if start < n then [start] + Stride(start + HoursPerDay, n) else []
  }

  /** An index is picked by the slice exactly when it lies in range and is
      `start` plus a whole number of days. */
  lemma {:induction false} StrideMembership(start: nat, n: nat, x: nat)
    ensures x in Stride(start, n) <==> start <= x < n && (x - start) % HoursPerDay == 0
    decreases n - start
  {
    var r := Stride(start, n);
    if start <= x < n && (x - start) % HoursPerDay == 0 {
      var i := (x - start) / HoursPerDay;
      assert r[i] == x;
    }
  }

  /** The chart title: display name and unit joined by ", ". */
  function Title(key: string): (t: string)
    requires key in ParameterMap
    ensures |t| == |ParameterMap[key].0| + 2 + |ParameterMap[key].1|
    ensures t[..|ParameterMap[key].0|] == ParameterMap[key].0
    ensures t[|ParameterMap[key].0|..|ParameterMap[key].0| + 2] == ", "
    ensures t[|t| - |ParameterMap[key].1|..] == ParameterMap[key].1
  {
    ParameterMap[key].0 + ", " + ParameterMap[key].1
  }

  /** Different parameters get different titles, so no two charts of one
      selection without repeats are titled alike. */
  lemma TitleInjective(k1: string, k2: string)
    requires k1 in ParameterMap && k2 in ParameterMap
    ensures Title(k1) == Title(k2) <==> k1 == k2
  {
  }

  /** The marker indices of one kind for an `n`-row first table: the hours
      at `offset` o'clock of every day in range, in ascending order. */
  function DayMarkers(offset: nat, n: nat): (r: seq<nat>)
    requires offset < HoursPerDay
    ensures forall x: nat :: x in r <==> x < n && x % HoursPerDay == offset
    ensures forall i :: 0 <= i < |r| ==> r[i] == offset + HoursPerDay * i
    ensures |r| == if offset < n then (n - offset + HoursPerDay - 1) / HoursPerDay else 0
    ensures |r| == 0 <==> n <= offset
  {
    var r := Stride(offset, n);
    assert forall x: nat :: x in r <==> x < n && x % HoursPerDay == offset by {
      forall x: nat ensures x in r <==> x < n && x % HoursPerDay == offset {
        StrideMembership(offset, n, x);
      }
    }
    r
  }

  /** The figure for one parameter key over all tables. */
  function MakeFigure(tables: seq<Table>, key: string): (f: Figure)
    requires 0 < |tables|
    requires key in ParameterMap
    ensures f.title == Title(key)
    ensures forall x: nat :: x in f.middayLines <==> x < tables[0].samples && x % HoursPerDay == MiddayHour
    ensures forall x: nat :: x in f.midnightLines <==> x < tables[0].samples && x % HoursPerDay == 0
    ensures |f.midnightLines| == (tables[0].samples + HoursPerDay - 1) / HoursPerDay
    ensures |f.middayLines| == 0 <==> tables[0].samples <= MiddayHour
    ensures forall i :: 0 <= i < |f.middayLines| ==> f.middayLines[i] == MiddayHour + HoursPerDay * i
    ensures forall i :: 0 <= i < |f.midnightLines| ==> f.midnightLines[i] == HoursPerDay * i
    ensures |f.traces| == |tables|
    ensures forall i :: 0 <= i < |tables| ==>
              f.traces[i] == Trace(PointLabel(i + 1), i, key, tables[i].samples)
  {
    var n := tables[0].samples;
    Figure(Title(key), DayMarkers(MiddayHour, n), DayMarkers(0, n),
           seq(|tables|, i requires 0 <= i < |tables| => Trace(PointLabel(i + 1), i, key, tables[i].samples)))
  }

  /** `make_weather_graph`: one figure per selected key, in selection order. */
  function MakeWeatherGraph(tables: seq<Table>, selected: seq<string>): (figs: seq<Figure>)
    requires 0 < |tables|
    requires forall k :: k in selected ==> k in ParameterMap
    ensures |figs| == |selected|
    ensures forall i :: 0 <= i < |selected| ==> figs[i].title == Title(selected[i])
    ensures forall i :: 0 <= i < |selected| ==> figs[i] == MakeFigure(tables, selected[i])
  {
    seq(|selected|, i requires 0 <= i < |selected| => MakeFigure(tables, selected[i]))
  }

  /** Every marker of every figure is read from the first table alone: two
      table lists with equally long first tables give the same markers. */
  lemma MarkersComeFromFirstTable(t1: seq<Table>, t2: seq<Table>, selected: seq<string>)
    requires 0 < |t1| && 0 < |t2|
    requires forall k :: k in selected ==> k in ParameterMap
    requires t1[0].samples == t2[0].samples
    ensures forall i :: 0 <= i < |selected| ==>
              MakeWeatherGraph(t1, selected)[i].middayLines == MakeWeatherGraph(t2, selected)[i].middayLines &&
              MakeWeatherGraph(t1, selected)[i].midnightLines == MakeWeatherGraph(t2, selected)[i].midnightLines
  {
  }

  /** The legend names of one figure are pairwise distinct. */
  lemma TraceNamesDistinct(tables: seq<Table>, key: string)
    requires 0 < |tables|
    requires key in ParameterMap
    ensures forall i, j :: 0 <= i < j < |tables| ==>
              MakeFigure(tables, key).traces[i].name != MakeFigure(tables, key).traces[j].name
  {
  }
}
