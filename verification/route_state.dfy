/** The route: the ordered list of `[lat, lon]` pairs held in the dashboard's
    `points_list` store, and the two callbacks that change it. Coordinates
    are an abstract type with equality, so that the model neither needs
    floating point nor assumes the input widgets' -90..90 bounds. */
module RouteState {
  import opened Wrappers

  type Point<C> = (C, C)

  /** No two entries of the route are the same pair. */
  predicate NoDuplicates<C(==)>(route: seq<Point<C>>) {
    forall i, j :: 0 <= i < j < |route| ==> route[i] != route[j]
  }

  /** What `update_points` hands back: the route and the error text shown
      under the inputs. */
  datatype Added<C> = Added(route: seq<Point<C>>, error: string)

  /** `update_points`: append `(lat, lon)` when both are given and the pair is
      not in the route yet; otherwise hand the route back untouched. */
  function UpdatePoints<C(==)>(route: seq<Point<C>>, lat: Option<C>, lon: Option<C>): (r: Added<C>)
    ensures r.error == ""
    ensures route <= r.route
    ensures |r.route| == |route| + 1 <==> lat.Some? && lon.Some? && (lat.value, lon.value) !in route
    ensures |r.route| == |route| || |r.route| == |route| + 1
    ensures |r.route| == |route| + 1 ==> r.route[|route|] == (lat.value, lon.value)
  {
    if lat.Some? && lon.Some? && (lat.value, lon.value) !in route then
      Added(route + [(lat.value, lon.value)], "")
    else
      Added(route, "")
  }

  /** A missing latitude or longitude leaves the route as it was. */
  lemma UpdatePointsMissingCoordinate<C>(route: seq<Point<C>>, lat: Option<C>, lon: Option<C>)
    requires lat.None? || lon.None?
    ensures UpdatePoints(route, lat, lon) == Added(route, "")
  {
  }

  /** Adding a pair that is already present leaves the route as it was. */
  lemma UpdatePointsDuplicate<C>(route: seq<Point<C>>, lat: C, lon: C)
    requires (lat, lon) in route
    ensures UpdatePoints(route, Some(lat), Some(lon)).route == route
  {
  }

  /** Adding never creates a repeated pair. */
  lemma UpdatePointsKeepsNoDuplicates<C>(route: seq<Point<C>>, lat: Option<C>, lon: Option<C>)
    requires NoDuplicates(route)
    ensures NoDuplicates(UpdatePoints(route, lat, lon).route)
  {
  }

  /** Pressing "add" twice with the same inputs is the same as pressing it once. */
  lemma UpdatePointsIdempotent<C>(route: seq<Point<C>>, lat: Option<C>, lon: Option<C>)
    ensures var once := UpdatePoints(route, lat, lon);
            UpdatePoints(once.route, lat, lon) == once
  {
  }

  /** A click count is truthy in Python when it is neither `None` nor `0`. */
  predicate Truthy(n: Option<int>) {
    n.Some? && n.value != 0
  }

  /** `[i for i, n in enumerate(n_clicks) if n]`: the clicked positions, ascending. */
  function ClickedIndices(clicks: seq<Option<int>>): (r: seq<nat>)
    ensures forall k: nat :: k in r <==> k < |clicks| && Truthy(clicks[k])
    ensures forall i, j :: 0 <= i < j < |r| ==> r[i] < r[j]
    ensures forall i :: 0 <= i < |r| ==> r[i] < |clicks|
  {
    if |clicks| == 0 then []
    else
      var front := ClickedIndices(clicks[..|clicks| - 1]);
      assert forall k: nat :: k < |clicks| - 1 ==> clicks[..|clicks| - 1][k] == clicks[k];
      if Truthy(clicks[|clicks| - 1]) then front + [|clicks| - 1] else front
  }

  /** Python's `max` of a non-empty list. */
  function Max(s: seq<nat>): (m: nat)
    requires 0 < |s|
    ensures m in s
    ensures forall x :: x in s ==> x <= m
  {
    if |s| == 1 then s[0]
    else
      var rest := Max(s[1..]);
      assert forall x :: x in s ==> x == s[0] || x in s[1..];
      if s[0] < rest then rest else s[0]
  }

  /** `list.pop(k)`: the list without its k-th element. */
  function RemoveAt<T>(s: seq<T>, k: nat): (r: seq<T>)
    requires k < |s|
    ensures |r| == |s| - 1
    ensures forall i :: 0 <= i < k ==> r[i] == s[i]
    ensures forall i :: k <= i < |r| ==> r[i] == s[i + 1]
    ensures multiset(r) + multiset{s[k]} == multiset(s)
  {
    assert s == s[..k] + [s[k]] + s[k + 1..];
    s[..k] + s[k + 1..]
  }

  /** `delete_point`: remove the point whose delete button has a truthy
      click count at the highest position (the last clicked card wins);
      with no truthy count the route is unchanged. There is one button per
      card, hence one count per point. */
  function DeletePoint<C>(route: seq<Point<C>>, clicks: seq<Option<int>>): (r: seq<Point<C>>)
    requires |clicks| == |route|
    ensures r == route <==> forall i :: 0 <= i < |clicks| ==> !Truthy(clicks[i])
    ensures |r| == |route| || |r| == |route| - 1
    ensures multiset(r) <= multiset(route)
  {
    if forall i :: 0 <= i < |clicks| ==> clicks[i].None? then
      route
    else
      var clicked := ClickedIndices(clicks);
      if 0 < |clicked| then
        RemoveAt(route, Max(clicked))
      else
        route
  }

  /** The point removed is exactly the one at the highest truthy position;
      everything before it stays, everything after it moves up by one. */
  lemma DeletePointRemovesLastClicked<C>(route: seq<Point<C>>, clicks: seq<Option<int>>, k: nat)
    requires |clicks| == |route|
    requires k < |clicks| && Truthy(clicks[k])
    requires forall j :: k < j < |clicks| ==> !Truthy(clicks[j])
    ensures DeletePoint(route, clicks) == RemoveAt(route, k)
  {
  }

  /** Deleting never creates a repeated pair. */
  lemma DeletePointKeepsNoDuplicates<C>(route: seq<Point<C>>, clicks: seq<Option<int>>)
    requires |clicks| == |route|
    requires NoDuplicates(route)
    ensures NoDuplicates(DeletePoint(route, clicks))
  {
  }

  /** A session that adds (10, 20), adds it again, adds (30, 40) and then
      finds both delete buttons clicked ends with just (10, 20). */
  lemma RouteScenario()
    ensures var r1 := UpdatePoints([], Some(10), Some(20)).route;
            var r2 := UpdatePoints(r1, Some(10), Some(20)).route;
            var r3 := UpdatePoints(r2, Some(30), Some(40)).route;
            r1 == [(10, 20)] && r2 == r1 && r3 == [(10, 20), (30, 40)] &&
            DeletePoint(r3, [Some(1), Some(1)]) == [(10, 20)]
  {
  }
}
