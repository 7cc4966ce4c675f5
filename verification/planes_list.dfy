/**
 * `PlanesList`: the dispatcher's registry, one waiting bucket and one bucket per route,
 * each a dictionary from plane id to the plane's last reported state.
 */
module Registry {
  import opened Wrappers
  import opened States
  import opened Dictionary
  import opened Extensions

  datatype PlanesList = PlanesList(waiting: Dict<PlaneState>, routes: seq<Dict<PlaneState>>)

  ghost predicate Valid(pl: PlanesList) {
    Dictionary.Valid(pl.waiting) && forall r :: 0 <= r < |pl.routes| ==> Dictionary.Valid(pl.routes[r])
  }

  predicate IsWaiting(pl: PlanesList, id: string) {
    id in Keys(pl.waiting)
  }

  predicate OnRoute(pl: PlanesList, r: int, id: string) {
    0 <= r < |pl.routes| && id in Keys(pl.routes[r])
  }

  /** The registry invariant: a plane id sits in at most one bucket. */
  ghost predicate Exclusive(pl: PlanesList) {
    && (forall r, id :: OnRoute(pl, r, id) ==> !IsWaiting(pl, id))
    && (forall r1, r2, id :: OnRoute(pl, r1, id) && OnRoute(pl, r2, id) ==> r1 == r2)
  }

  function EmptyRoutes(n: nat): (rs: seq<Dict<PlaneState>>)
    ensures |rs| == n && forall r :: 0 <= r < n ==> rs[r] == Empty()
  {
    if n == 0 then [] else EmptyRoutes(n - 1) + [Empty()]
  }

  /** `new PlanesList(routesCount)`. */
  function NewPlanesList(routesCount: nat): (pl: PlanesList)
    ensures Valid(pl) && Exclusive(pl)
    ensures |pl.routes| == routesCount
    ensures Count(pl.waiting) == 0 && forall r :: 0 <= r < routesCount ==> Count(pl.routes[r]) == 0
    ensures forall id :: !IsWaiting(pl, id) && forall r :: !OnRoute(pl, r, id)
  {
    PlanesList(Empty(), EmptyRoutes(routesCount))
  }

  datatype Lookup = Lookup(found: bool, state: Option<PlaneState>, route: int)

  /** The route-scanning loop of `TryGetPlane`, from route `r` on. */
  function FindRoute(routes: seq<Dict<PlaneState>>, id: string, r: nat): (i: int)
    requires r <= |routes|
    decreases |routes| - r
    ensures i == -1 || r <= i < |routes|
    ensures i == -1 ==> forall j :: r <= j < |routes| ==> id !in Keys(routes[j])
    ensures i != -1 ==> id in Keys(routes[i]) && forall j :: r <= j < i ==> id !in Keys(routes[j])
  {
    if r == |routes| then -1
    else if ContainsKey(routes[r], id) then r
    else FindRoute(routes, id, r + 1)
  }

  /** `TryGetPlane(id, out state, out route)`. */
  function TryGetPlane(pl: PlanesList, id: string): (r: Lookup)
    ensures r.found <==> r.state.Some?
    ensures IsWaiting(pl, id) ==> r == Lookup(true, Get(pl.waiting, id), -1)
    ensures !IsWaiting(pl, id) && r.found ==>
      OnRoute(pl, r.route, id) && r.state == Get(pl.routes[r.route], id)
      && forall j :: 0 <= j < r.route ==> !OnRoute(pl, j, id)
    ensures !r.found ==> r == Lookup(false, None, -1)
    ensures !r.found <==> !IsWaiting(pl, id) && forall j :: !OnRoute(pl, j, id)
  {
    if ContainsKey(pl.waiting, id) then Lookup(true, Get(pl.waiting, id), -1)
    else
      var i := FindRoute(pl.routes, id, 0);
      if i == -1 then Lookup(false, None, -1)
      else Lookup(true, Get(pl.routes[i], id), i)
  }

  /** `PlanesByRoute(routeId)`: the route's states in enumeration order. */
  function PlanesByRoute(pl: PlanesList, routeId: int): (s: seq<PlaneState>)
    ensures !(0 <= routeId < |pl.routes|) ==> s == []
    ensures 0 <= routeId < |pl.routes| ==> s == Values(pl.routes[routeId])
  {
    if routeId < 0 || routeId >= |pl.routes| then [] else Values(pl.routes[routeId])
  }

  /** `PlanesByRouteCount(routeId)`. */
  function PlanesByRouteCount(pl: PlanesList, routeId: int): (n: nat)
    ensures !(0 <= routeId < |pl.routes|) ==> n == 0
    ensures 0 <= routeId < |pl.routes| ==> n == Count(pl.routes[routeId]) == |PlanesByRoute(pl, routeId)|
  {
    if routeId < 0 || routeId >= |pl.routes| then 0 else Count(pl.routes[routeId])
  }

  /** `PlanesWaitingCount()`. */
  function PlanesWaitingCount(pl: PlanesList): nat {
    Count(pl.waiting)
  }

  /** `ContainsPlane(id)`. */
  function ContainsPlane(pl: PlanesList, id: string): (b: bool)
    ensures b <==> IsWaiting(pl, id) || exists r :: OnRoute(pl, r, id)
  {
    var i := FindRoute(pl.routes, id, 0);
    assert i != -1 ==> OnRoute(pl, i, id);
    ContainsKey(pl.waiting, id) || i != -1
  }

  /** `route.Remove(id)` tried on the routes from `r` on, stopping at the first that removes. */
  function RemoveFromRoutes(routes: seq<Dict<PlaneState>>, id: string, r: nat): (res: (seq<Dict<PlaneState>>, bool))
    requires r <= |routes| && forall j :: 0 <= j < |routes| ==> Dictionary.Valid(routes[j])
    decreases |routes| - r
    ensures |res.0| == |routes| && forall j :: 0 <= j < |routes| ==> Dictionary.Valid(res.0[j])
    ensures res.1 <==> exists j :: r <= j < |routes| && id in Keys(routes[j])
    ensures res.1 ==> var i := FindRoute(routes, id, r);
      res.0 == routes[i := Remove(routes[i], id).0]
    ensures !res.1 ==> res.0 == routes
  {
    if r == |routes| then (routes, false)
    else
      var (d, removed) := Remove(routes[r], id);
      if removed then (routes[r := d], true)
      else RemoveFromRoutes(routes, id, r + 1)
  }

  /** `RemovePlane(id)`: from waiting if it is there, else from the first route holding it. */
  function RemovePlane(pl: PlanesList, id: string): (res: (PlanesList, bool))
    requires Valid(pl)
    ensures Valid(res.0) && |res.0.routes| == |pl.routes|
    ensures res.1 <==> ContainsPlane(pl, id)
    ensures IsWaiting(pl, id) ==>
      res.0 == PlanesList(Remove(pl.waiting, id).0, pl.routes)
    ensures !IsWaiting(pl, id) && res.1 ==> var i := TryGetPlane(pl, id).route;
      res.0 == PlanesList(pl.waiting, pl.routes[i := Remove(pl.routes[i], id).0])
    ensures !res.1 ==> res.0 == pl
  {
    var (w, removed) := Remove(pl.waiting, id);
    if removed then (PlanesList(w, pl.routes), true)
    else
      var (rs, removedFromRoute) := RemoveFromRoutes(pl.routes, id, 0);
      (PlanesList(pl.waiting, rs), removedFromRoute)
  }

  /** The route loop of `UpdatePlane`: overwrite in the first route holding the id. */
  function UpdateRoutes(routes: seq<Dict<PlaneState>>, id: string, s: PlaneState, r: nat): (res: seq<Dict<PlaneState>>)
    requires r <= |routes| && forall j :: 0 <= j < |routes| ==> Dictionary.Valid(routes[j])
    decreases |routes| - r
    ensures var i := FindRoute(routes, id, r);
      res == if i == -1 then routes else routes[i := Put(routes[i], id, s)]
  {
    if r == |routes| then routes
    else if ContainsKey(routes[r], id) then routes[r := Put(routes[r], id, s)]
    else UpdateRoutes(routes, id, s, r + 1)
  }

  /** `UpdatePlane(id, state)`: overwrite only in the bucket already holding the id. */
  function UpdatePlane(pl: PlanesList, id: string, s: PlaneState): (r: PlanesList)
    requires Valid(pl)
    ensures Valid(r) && |r.routes| == |pl.routes|
    ensures IsWaiting(pl, id) ==> r == PlanesList(Put(pl.waiting, id, s), pl.routes)
    ensures !IsWaiting(pl, id) && ContainsPlane(pl, id) ==> var i := TryGetPlane(pl, id).route;
      r == PlanesList(pl.waiting, pl.routes[i := Put(pl.routes[i], id, s)])
    ensures !ContainsPlane(pl, id) ==> r == pl
  {
    if ContainsKey(pl.waiting, id) then PlanesList(Put(pl.waiting, id, s), pl.routes)
    else PlanesList(pl.waiting, UpdateRoutes(pl.routes, id, s, 0))
  }

  /** `AddToWaiting(id, state)`. */
  function AddToWaiting(pl: PlanesList, id: string, s: PlaneState): (r: PlanesList)
    requires Valid(pl)
    ensures Valid(r)
    ensures r == PlanesList(ForceAdd(pl.waiting, id, s), pl.routes)
  {
    PlanesList(ForceAdd(pl.waiting, id, s), pl.routes)
  }

  /** `AddToRoute(id, state, routeId)`; an index outside the array would throw, so it is required. */
  function AddToRoute(pl: PlanesList, id: string, s: PlaneState, routeId: int): (r: PlanesList)
    requires Valid(pl) && 0 <= routeId < |pl.routes|
    ensures Valid(r)
    ensures r == PlanesList(pl.waiting, pl.routes[routeId := ForceAdd(pl.routes[routeId], id, s)])
  {
    PlanesList(pl.waiting, pl.routes[routeId := ForceAdd(pl.routes[routeId], id, s)])
  }

  /** Lookups only depend on what each bucket holds for the id. */
  lemma TryGetCongruent(pl: PlanesList, pl': PlanesList, id: string)
    requires |pl.routes| == |pl'.routes|
    requires Get(pl.waiting, id) == Get(pl'.waiting, id)
    requires forall j :: 0 <= j < |pl.routes| ==> Get(pl.routes[j], id) == Get(pl'.routes[j], id)
    ensures TryGetPlane(pl, id) == TryGetPlane(pl', id)
  {
    var a, b := TryGetPlane(pl, id), TryGetPlane(pl', id);
    if a.found && b.found && !IsWaiting(pl, id) {
      assert OnRoute(pl', a.route, id);
      assert OnRoute(pl, b.route, id);
    }
  }

  /** Removal takes the id out of the registry and leaves every other plane where it was. */
  lemma RemovePlaneEffect(pl: PlanesList, id: string)
    requires Valid(pl) && Exclusive(pl)
    ensures var r := RemovePlane(pl, id).0;
      && Exclusive(r)
      && !ContainsPlane(r, id)
      && forall other :: other != id ==> TryGetPlane(r, other) == TryGetPlane(pl, other)
  {
    var r := RemovePlane(pl, id).0;
    if IsWaiting(pl, id) {
      forall j ensures !OnRoute(r, j, id) {
        assert !OnRoute(pl, j, id);
      }
    } else if ContainsPlane(pl, id) {
      var i := TryGetPlane(pl, id).route;
      forall j ensures !OnRoute(r, j, id) {
        if j != i {
          assert OnRoute(r, j, id) ==> OnRoute(pl, j, id);
        }
      }
    }
    forall other | other != id
      ensures TryGetPlane(r, other) == TryGetPlane(pl, other)
    {
      TryGetCongruent(r, pl, other);
    }
    assert Exclusive(r) by {
      forall k, j | OnRoute(r, j, k)
        ensures !IsWaiting(r, k)
      {
        assert OnRoute(pl, j, k);
      }
      forall j1, j2, k | OnRoute(r, j1, k) && OnRoute(r, j2, k)
        ensures j1 == j2
      {
        assert OnRoute(pl, j1, k) && OnRoute(pl, j2, k);
      }
    }
  }

  /** An update never inserts or moves a plane; it only replaces the state of a known one. */
  lemma UpdatePlaneEffect(pl: PlanesList, id: string, s: PlaneState)
    requires Valid(pl)
    ensures var r := UpdatePlane(pl, id, s);
      && (Exclusive(pl) ==> Exclusive(r))
      && TryGetPlane(r, id).found == TryGetPlane(pl, id).found
      && TryGetPlane(r, id).route == TryGetPlane(pl, id).route
      && (TryGetPlane(pl, id).found ==> TryGetPlane(r, id).state == Some(s))
      && forall other :: other != id ==> TryGetPlane(r, other) == TryGetPlane(pl, other)
  {
    var r := UpdatePlane(pl, id, s);
    forall other | other != id
      ensures TryGetPlane(r, other) == TryGetPlane(pl, other)
    {
      TryGetCongruent(r, pl, other);
    }
    forall k, j
      ensures OnRoute(r, j, k) <==> OnRoute(pl, j, k)
      ensures IsWaiting(r, k) <==> IsWaiting(pl, k)
    {
    }
  }

  /** A plane added to waiting is found there; no other plane is affected. */
  lemma AddToWaitingEffect(pl: PlanesList, id: string, s: PlaneState)
    requires Valid(pl)
    ensures var r := AddToWaiting(pl, id, s);
      && (Exclusive(pl) && (forall j :: !OnRoute(pl, j, id)) ==> Exclusive(r))
      && TryGetPlane(r, id) == Lookup(true, Some(s), -1)
      && forall other :: other != id ==> TryGetPlane(r, other) == TryGetPlane(pl, other)
  {
    var r := AddToWaiting(pl, id, s);
    forall other | other != id
      ensures TryGetPlane(r, other) == TryGetPlane(pl, other)
    {
      TryGetCongruent(r, pl, other);
    }
    if Exclusive(pl) && (forall j :: !OnRoute(pl, j, id)) {
      forall k, j | OnRoute(r, j, k)
        ensures !IsWaiting(r, k)
      {
        assert OnRoute(pl, j, k);
      }
      forall j1, j2, k | OnRoute(r, j1, k) && OnRoute(r, j2, k)
        ensures j1 == j2
      {
        assert OnRoute(pl, j1, k) && OnRoute(pl, j2, k);
      }
    }
  }

  /**
   * Moving a waiting plane to a route, as the dispatcher does on acceptance (remove, then
   * add to the route), keeps every id in at most one bucket.
   */
  lemma MoveToRouteEffect(pl: PlanesList, id: string, s: PlaneState, routeId: int)
    requires Valid(pl) && Exclusive(pl) && IsWaiting(pl, id) && 0 <= routeId < |pl.routes|
    ensures var r := AddToRoute(RemovePlane(pl, id).0, id, s, routeId);
      && Exclusive(r)
      && TryGetPlane(r, id) == Lookup(true, Some(s), routeId)
      && PlanesByRouteCount(r, routeId) == PlanesByRouteCount(pl, routeId) + 1
      && PlanesWaitingCount(r) == PlanesWaitingCount(pl) - 1
      && (forall j :: j != routeId ==> PlanesByRouteCount(r, j) == PlanesByRouteCount(pl, j))
      && forall other :: other != id ==> TryGetPlane(r, other) == TryGetPlane(pl, other)
  {
    var mid := RemovePlane(pl, id).0;
    RemovePlaneEffect(pl, id);
    var r := AddToRoute(mid, id, s, routeId);
    assert !OnRoute(pl, routeId, id);
    forall other | other != id
      ensures TryGetPlane(r, other) == TryGetPlane(mid, other)
    {
      TryGetCongruent(r, mid, other);
    }
    assert OnRoute(r, routeId, id);
    assert forall j :: OnRoute(r, j, id) ==> j == routeId;
    assert Exclusive(r) by {
      forall k, j | OnRoute(r, j, k)
        ensures !IsWaiting(r, k)
      {
        if k != id {
          assert OnRoute(mid, j, k);
        }
      }
      forall j1, j2, k | OnRoute(r, j1, k) && OnRoute(r, j2, k)
        ensures j1 == j2
      {
        if k != id {
          assert OnRoute(mid, j1, k) && OnRoute(mid, j2, k);
        }
      }
    }
  }

  /** Removal never grows a route bucket. */
  lemma RemovePlaneCounts(pl: PlanesList, id: string)
    requires Valid(pl)
    ensures forall j :: PlanesByRouteCount(RemovePlane(pl, id).0, j) <= PlanesByRouteCount(pl, j)
  {
  }

  /** An update never changes the size of a route bucket. */
  lemma UpdatePlaneCounts(pl: PlanesList, id: string, s: PlaneState)
    requires Valid(pl)
    ensures forall j :: PlanesByRouteCount(UpdatePlane(pl, id, s), j) == PlanesByRouteCount(pl, j)
  {
    if !IsWaiting(pl, id) && ContainsPlane(pl, id) {
      var i := TryGetPlane(pl, id).route;
      assert id in Keys(pl.routes[i]);
    }
  }
}
