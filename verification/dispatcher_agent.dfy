/**
 * `DispatcherAgent`: the landing routes built at start-up, the registry of known planes,
 * and admission control for landing requests.
 */
module DispatcherAgent {
  import opened Wrappers
  import opened Geometry
  import opened States
  import opened Messages
  import opened Dictionary
  import opened Extensions
  import opened Registry
  import opened BaseAgent

  /** `LandingRoute`. */
  datatype LandingRoute = LandingRoute(id: int, enter: Vec, landingZone: Vec)

  const DispatcherId := "dispatcher"

  function Abs(x: real): real { if x < 0.0 then -x else x }

  /** The runway end paired with an entry point: A when strictly closer along x, otherwise B. */
  function ClosestZone(enter: Vec, a: Vec, b: Vec): (z: Vec)
    ensures z == a <==> (a == b || Abs(enter.x - a.x) < Abs(enter.x - b.x))
  {
    if Abs(enter.x - a.x) < Abs(enter.x - b.x) then a else b
  }

  function ZoneA(airstripLength: real): Vec { Vec(-airstripLength / 2.0, 0.0) }

  function ZoneB(airstripLength: real): Vec { Vec(airstripLength / 2.0, 0.0) }

  /** Entry point `i` on the zone circle; the angle step `360 / count` is passed to cos/sin as is. */
  function EntryPoint(t: Trig, radius: real, count: nat, i: nat): Vec
    requires count > 0
  {
    var dA := 360.0 / count as real;
    Vec(radius * t.cos(dA * i as real), radius * t.sin(dA * i as real))
  }

  /** The route array built by the constructor. */
  function BuildRoutes(t: Trig, radius: real, airstripLength: real, count: nat, n: nat): (rs: seq<LandingRoute>)
    requires n <= count
    ensures |rs| == n
    ensures forall i :: 0 <= i < n ==> rs[i].id == i
    ensures forall i :: 0 <= i < n ==> rs[i].enter == EntryPoint(t, radius, count, i)
    ensures forall i :: 0 <= i < n ==>
      rs[i].landingZone == ClosestZone(rs[i].enter, ZoneA(airstripLength), ZoneB(airstripLength))
  {
    if n == 0 then []
    else
      var rest := BuildRoutes(t, radius, airstripLength, count, n - 1);
      var enter := EntryPoint(t, radius, count, n - 1);
      rest + [LandingRoute(n - 1, enter, ClosestZone(enter, ZoneA(airstripLength), ZoneB(airstripLength)))]
  }

  /** For a runway of positive length, zone A (the west end) serves exactly the entries west of the axis. */
  lemma ZoneAIffWest(enter: Vec, airstripLength: real)
    requires airstripLength > 0.0
    ensures ClosestZone(enter, ZoneA(airstripLength), ZoneB(airstripLength)) == ZoneA(airstripLength)
      <==> enter.x < 0.0
  {
  }

  /** The configuration fields and agent-local memory of a dispatcher. */
  datatype Dispatcher = Dispatcher(
    minPlanesDistance: real,
    airportZoneRadius: real,
    maxPlanesAtRoute: int,
    routes: seq<LandingRoute>,
    planes: PlanesList)

  /** What the constructor establishes: routes numbered by position, one bucket per route. */
  ghost predicate WellFormed(d: Dispatcher) {
    && |d.routes| == |d.planes.routes|
    && (forall i :: 0 <= i < |d.routes| ==> d.routes[i].id == i)
    && Registry.Valid(d.planes)
  }

  /** `new DispatcherAgent(settings, client)`, given the settings' values. */
  function NewDispatcher(t: Trig, minPlanesDistance: real, airportZoneRadius: real, routesCount: nat,
                         airstripLength: real, maxPlanesAtRoute: int): (d: Dispatcher)
    ensures WellFormed(d) && Exclusive(d.planes)
    ensures |d.routes| == routesCount
    ensures forall id :: !ContainsPlane(d.planes, id)
  {
    Dispatcher(minPlanesDistance, airportZoneRadius, maxPlanesAtRoute,
               BuildRoutes(t, airportZoneRadius, airstripLength, routesCount, routesCount),
               NewPlanesList(routesCount))
  }

  // ----- ranking of routes -----

  /** `(plane.Position - r.Enter).LengthSquared()`, the sort key. */
  function Key(pos: Vec, r: LandingRoute): real { Dist2(pos, r.enter) }

  /** Ascending key, ties broken by route id: the order a stable sort of the id-ordered array gives. */
  predicate LexLess(pos: Vec, a: LandingRoute, b: LandingRoute) {
    Key(pos, a) < Key(pos, b) || (Key(pos, a) == Key(pos, b) && a.id < b.id)
  }

  ghost predicate LexSorted(pos: Vec, s: seq<LandingRoute>) {
    forall i, j :: 0 <= i < j < |s| ==> LexLess(pos, s[i], s[j])
  }

  ghost predicate IdsIncreasing(s: seq<LandingRoute>) {
    forall i, j :: 0 <= i < j < |s| ==> s[i].id < s[j].id
  }

  /** Where a stable insertion puts `x` into `ys`: before the first element whose key is not smaller. */
  function InsertPos(pos: Vec, x: LandingRoute, ys: seq<LandingRoute>): (k: nat)
    ensures k <= |ys|
    ensures forall j :: 0 <= j < k ==> Key(pos, ys[j]) < Key(pos, x)
    ensures k < |ys| ==> Key(pos, ys[k]) >= Key(pos, x)
  {
    if |ys| == 0 || Key(pos, ys[0]) >= Key(pos, x) then 0 else 1 + InsertPos(pos, x, ys[1..])
  }

  function Insert(pos: Vec, x: LandingRoute, ys: seq<LandingRoute>): (r: seq<LandingRoute>)
    ensures multiset(r) == multiset(ys) + multiset{x}
  {
    var k := InsertPos(pos, x, ys);
    assert ys == ys[..k] + ys[k..];
    ys[..k] + [x] + ys[k..]
  }

  /** `routes.OrderBy(r => (plane.Position - r.Enter).LengthSquared())`, a stable sort. */
  function Rank(pos: Vec, rs: seq<LandingRoute>): (r: seq<LandingRoute>)
    ensures multiset(r) == multiset(rs)
  {
    if |rs| == 0 then []
    else
      assert rs == [rs[0]] + rs[1..];
      Insert(pos, rs[0], Rank(pos, rs[1..]))
  }

  /** Where each element of `ys` lands after inserting `x`. */
  lemma InsertIndex(pos: Vec, x: LandingRoute, ys: seq<LandingRoute>, i: nat)
    requires i <= |ys|
    ensures var k := InsertPos(pos, x, ys); var s := Insert(pos, x, ys);
      && |s| == |ys| + 1
      && (i < k ==> s[i] == ys[i])
      && (i == k ==> s[i] == x)
      && (i > k ==> s[i] == ys[i - 1])
  {
  }

  /** `x` precedes every element at or after its insertion point. */
  lemma InsertedBeforeTail(pos: Vec, x: LandingRoute, ys: seq<LandingRoute>, m: nat)
    requires LexSorted(pos, ys)
    requires forall y :: y in ys ==> x.id < y.id
    requires InsertPos(pos, x, ys) <= m < |ys|
    ensures LexLess(pos, x, ys[m])
  {
    var k := InsertPos(pos, x, ys);
    if m > k {
      assert LexLess(pos, ys[k], ys[m]);
    }
    assert ys[m] in ys;
  }

  lemma InsertSorted(pos: Vec, x: LandingRoute, ys: seq<LandingRoute>)
    requires LexSorted(pos, ys)
    requires forall y :: y in ys ==> x.id < y.id
    ensures LexSorted(pos, Insert(pos, x, ys))
  {
    var k := InsertPos(pos, x, ys);
    var s := Insert(pos, x, ys);
    InsertIndex(pos, x, ys, 0);
    forall i, j | 0 <= i < j < |s|
      ensures LexLess(pos, s[i], s[j])
    {
      InsertIndex(pos, x, ys, i);
      InsertIndex(pos, x, ys, j);
      if i == k {
        InsertedBeforeTail(pos, x, ys, j - 1);
      }
    }
  }

  /** Ranking an id-ordered route array yields the (key, id) order. */
  lemma {:induction false} RankSorted(pos: Vec, rs: seq<LandingRoute>)
    requires IdsIncreasing(rs)
    ensures LexSorted(pos, Rank(pos, rs))
  {
    if |rs| > 0 {
      var rest := Rank(pos, rs[1..]);
      RankSorted(pos, rs[1..]);
      forall y | y in rest
        ensures rs[0].id < y.id
      {
        assert y in multiset(rest);
        assert y in rs[1..];
      }
      InsertSorted(pos, rs[0], rest);
    }
  }

  // ----- admission control -----

  /** `planes.PlanesByRoute(route.Id).FirstOrDefault()`. */
  function NearestPlane(pl: PlanesList, routeId: int): Option<PlaneState> {
    var s := PlanesByRoute(pl, routeId);
    if |s| == 0 then None else Some(s[0])
  }

  /** The capacity filter and the separation test of the request loop. */
  predicate Qualifies(d: Dispatcher, plane: PlaneState, r: LandingRoute) {
    && PlanesByRouteCount(d.planes, r.id) <= d.maxPlanesAtRoute
    && match NearestPlane(d.planes, r.id)
       case None => true
       case Some(p) => FartherThan(p.position, plane.position, d.minPlanesDistance)
  }

  /** Index of the first element of `s` satisfying `p`, or -1: the `foreach ... break` of the request loop. */
  function FirstWhere(p: LandingRoute -> bool, s: seq<LandingRoute>): (k: int)
    ensures -1 <= k < |s|
    ensures k >= 0 ==> p(s[k])
    ensures forall j :: 0 <= j < |s| && (k == -1 || j < k) ==> !p(s[j])
  {
    if |s| == 0 then -1
    else if p(s[0]) then 0
    else
      var k := FirstWhere(p, s[1..]);
      if k == -1 then -1 else k + 1
  }

  /** The route a request is granted, if any: the first qualifying route in ranked order. */
  function ChooseRoute(d: Dispatcher, plane: PlaneState): (c: Option<LandingRoute>)
    ensures c.Some? ==> c.value in d.routes && Qualifies(d, plane, c.value)
  {
    var ranked := Rank(plane.position, d.routes);
    var k := FirstWhere(r => Qualifies(d, plane, r), ranked);
    if k == -1 then None
    else
      assert ranked[k] in multiset(ranked);
      Some(ranked[k])
  }

  /** In a (key, id)-sorted sequence the first element satisfying `p` precedes every other one that does. */
  lemma FirstWhereIsLeast(pos: Vec, p: LandingRoute -> bool, ranked: seq<LandingRoute>)
    requires LexSorted(pos, ranked)
    ensures var k := FirstWhere(p, ranked);
      k >= 0 ==> forall r :: r in ranked && p(r) && r != ranked[k] ==> LexLess(pos, ranked[k], r)
  {
    var k := FirstWhere(p, ranked);
    if k >= 0 {
      forall r | r in ranked && p(r) && r != ranked[k]
        ensures LexLess(pos, ranked[k], r)
      {
        var j :| 0 <= j < |ranked| && ranked[j] == r;
        assert k < j;
      }
    }
  }

  /**
   * The granted route is the qualifying route nearest to the plane, ties going to the lower
   * route id; no route is granted exactly when none qualifies.
   */
  lemma ChooseRouteIsNearestQualifying(d: Dispatcher, plane: PlaneState)
    requires WellFormed(d)
    ensures ChooseRoute(d, plane).None? <==> forall r :: r in d.routes ==> !Qualifies(d, plane, r)
    ensures ChooseRoute(d, plane).Some? ==>
      forall r :: r in d.routes && Qualifies(d, plane, r) && r != ChooseRoute(d, plane).value ==>
        LexLess(plane.position, ChooseRoute(d, plane).value, r)
  {
    var pos := plane.position;
    var ranked := Rank(pos, d.routes);
    assert IdsIncreasing(d.routes);
    RankSorted(pos, d.routes);
    FirstWhereIsLeast(pos, r => Qualifies(d, plane, r), ranked);
    forall r | r in d.routes
      ensures r in ranked
    {
      assert r in multiset(d.routes);
    }
  }

  /** A route of a well-formed dispatcher indexes a bucket. */
  lemma RouteIdInRange(d: Dispatcher, r: LandingRoute)
    requires WellFormed(d) && r in d.routes
    ensures 0 <= r.id < |d.planes.routes|
  {
  }

  /** The direct reply granting `route` to `planeId`. */
  function AcceptMessage(d: Dispatcher, route: LandingRoute, planeId: string): Message {
    NewMessage(DispatcherAgentType, DispatcherId, Some(PlaneAgentType), Some(planeId),
      LandingResponseBody(NewResponse(Some(route.enter), Some(route.landingZone), d.airportZoneRadius)))
  }

  /** The direct denial to `planeId`, carrying only the zone radius. */
  function DenyMessage(d: Dispatcher, planeId: string): Message {
    NewMessage(DispatcherAgentType, DispatcherId, Some(PlaneAgentType), Some(planeId),
      LandingResponseBody(DeniedResponse(d.airportZoneRadius)))
  }

  datatype Handled = Handled(dispatcher: Dispatcher, outbox: seq<Message>)

  /** `OnLandingRequestMessage`. */
  function OnLandingRequest(d: Dispatcher, m: Message): (h: Handled)
    requires WellFormed(d)
    ensures WellFormed(h.dispatcher)
    ensures h.dispatcher.routes == d.routes
    ensures var look := TryGetPlane(d.planes, m.senderId);
      !look.found || look.route != -1 ==> h == Handled(d, [])
    ensures var look := TryGetPlane(d.planes, m.senderId);
      look.found && look.route == -1 ==>
        match ChooseRoute(d, look.state.value)
        case None => h == Handled(d, [DenyMessage(d, m.senderId)])
        case Some(route) =>
          && h.outbox == [AcceptMessage(d, route, m.senderId)]
          && 0 <= route.id < |d.planes.routes|
          && h.dispatcher.planes == AddToRoute(RemovePlane(d.planes, m.senderId).0, m.senderId, look.state.value, route.id)
  {
    var planeId := m.senderId;
    var look := TryGetPlane(d.planes, planeId);
    if !look.found || look.route != -1 then Handled(d, [])
    else
      var plane := look.state.value;
      match ChooseRoute(d, plane)
      case None => Handled(d, [DenyMessage(d, planeId)])
      case Some(route) =>
        RouteIdInRange(d, route);
        var planes := AddToRoute(RemovePlane(d.planes, planeId).0, planeId, plane, route.id);
        Handled(d.(planes := planes), [AcceptMessage(d, route, planeId)])
  }

  /** `OnPlaneStatusMessage`. */
  function OnPlaneStatus(d: Dispatcher, planeId: string, s: PlaneState): (r: Dispatcher)
    requires WellFormed(d)
    ensures WellFormed(r) && r.routes == d.routes
    ensures !ContainsPlane(d.planes, planeId) && !IsFinalPlaneStatus(s.status) ==>
      r.planes == AddToWaiting(d.planes, planeId, s)
    ensures IsFinalPlaneStatus(s.status) ==> r.planes == RemovePlane(d.planes, planeId).0
    ensures ContainsPlane(d.planes, planeId) && !IsFinalPlaneStatus(s.status) ==>
      r.planes == UpdatePlane(d.planes, planeId, s)
  {
    if !ContainsPlane(d.planes, planeId) && !IsFinalPlaneStatus(s.status) then
      d.(planes := AddToWaiting(d.planes, planeId, s))
    else if IsFinalPlaneStatus(s.status) then
      d.(planes := RemovePlane(d.planes, planeId).0)
    else
      d.(planes := UpdatePlane(d.planes, planeId, s))
  }

  /** The messages the dispatcher acts on; every other kind ends its step. */
  predicate Handles(m: Message) {
    m.body.PlaneStatus? || m.body.LandingRequest?
  }

  datatype StepResult = StepResult(proceed: bool, dispatcher: Dispatcher, outbox: seq<Message>)

  /** One message the dispatcher acts on. */
  function HandleOne(d: Dispatcher, m: Message): (h: Handled)
    requires WellFormed(d) && Handles(m)
    ensures WellFormed(h.dispatcher) && h.dispatcher.routes == d.routes
  {
    if m.body.PlaneStatus? then Handled(OnPlaneStatus(d, m.senderId, m.body.state), [])
    else OnLandingRequest(d, m)
  }

  /** The message loop of `NextStep`, over the already filtered messages. */
  function HandleAll(d: Dispatcher, ms: seq<Message>): (r: StepResult)
    requires WellFormed(d)
    ensures WellFormed(r.dispatcher) && r.dispatcher.routes == d.routes
    decreases |ms|
  {
    if |ms| == 0 then StepResult(true, d, [])
    else if !Handles(ms[0]) then StepResult(false, d, [])
    else
      var h := HandleOne(d, ms[0]);
      var rest := HandleAll(h.dispatcher, ms[1..]);
      StepResult(rest.proceed, rest.dispatcher, h.outbox + rest.outbox)
  }

  /** `NextStep()` on the inbox of one tick. */
  function NextStep(d: Dispatcher, inbox: seq<Message>): (r: StepResult)
    requires WellFormed(d)
    ensures WellFormed(r.dispatcher)
  {
    HandleAll(d, SelectMessage(inbox, DispatcherId))
  }

  // ----- properties of a step -----

  function Max(a: int, b: int): int { if a < b then b else a }

  /** Each route holds at most `bound` planes, or no more than it did before. */
  ghost predicate CountsWithin(before: PlanesList, after: PlanesList, bound: int) {
    forall j :: PlanesByRouteCount(after, j) <= Max(PlanesByRouteCount(before, j), bound)
  }

  /** A status report keeps the registry invariant and records, forgets or updates the sender. */
  lemma OnPlaneStatusEffect(d: Dispatcher, planeId: string, s: PlaneState)
    requires WellFormed(d) && Exclusive(d.planes)
    ensures var r := OnPlaneStatus(d, planeId, s);
      && Exclusive(r.planes)
      && (IsFinalPlaneStatus(s.status) ==> !ContainsPlane(r.planes, planeId))
      && (!IsFinalPlaneStatus(s.status) && !ContainsPlane(d.planes, planeId) ==>
            TryGetPlane(r.planes, planeId) == Lookup(true, Some(s), -1))
      && (!IsFinalPlaneStatus(s.status) && ContainsPlane(d.planes, planeId) ==>
            TryGetPlane(r.planes, planeId) == TryGetPlane(d.planes, planeId).(state := Some(s)))
      && (forall other :: other != planeId ==> TryGetPlane(r.planes, other) == TryGetPlane(d.planes, other))
      && (forall j :: PlanesByRouteCount(r.planes, j) <= PlanesByRouteCount(d.planes, j))
  {
    if !ContainsPlane(d.planes, planeId) && !IsFinalPlaneStatus(s.status) {
      AddToWaitingEffect(d.planes, planeId, s);
    } else if IsFinalPlaneStatus(s.status) {
      RemovePlaneEffect(d.planes, planeId);
      RemovePlaneCounts(d.planes, planeId);
    } else {
      UpdatePlaneEffect(d.planes, planeId, s);
      UpdatePlaneCounts(d.planes, planeId, s);
    }
  }

  /**
   * A landing request keeps the registry invariant; only the granted route grows, by the
   * requesting plane, and only from a count within the capacity, so no route passes
   * `maxPlanesAtRoute + 1` through a request.
   */
  lemma OnLandingRequestEffect(d: Dispatcher, m: Message)
    requires WellFormed(d) && Exclusive(d.planes)
    ensures var h := OnLandingRequest(d, m);
      && Exclusive(h.dispatcher.planes)
      && CountsWithin(d.planes, h.dispatcher.planes, d.maxPlanesAtRoute + 1)
      && (forall other :: other != m.senderId ==>
            TryGetPlane(h.dispatcher.planes, other) == TryGetPlane(d.planes, other))
      && |h.outbox| <= 1
  {
    var planeId := m.senderId;
    var look := TryGetPlane(d.planes, planeId);
    if look.found && look.route == -1 {
      var plane := look.state.value;
      match ChooseRoute(d, plane)
      case None =>
      case Some(route) =>
        RouteIdInRange(d, route);
        MoveToRouteEffect(d.planes, planeId, plane, route.id);
    }
  }

  /** A request that is granted moves the plane, with its stored state, onto the granted route. */
  lemma OnLandingRequestGrant(d: Dispatcher, m: Message)
    requires WellFormed(d) && Exclusive(d.planes)
    requires TryGetPlane(d.planes, m.senderId).found && TryGetPlane(d.planes, m.senderId).route == -1
    requires ChooseRoute(d, TryGetPlane(d.planes, m.senderId).state.value).Some?
    ensures var look := TryGetPlane(d.planes, m.senderId);
      var route := ChooseRoute(d, look.state.value).value;
      var h := OnLandingRequest(d, m);
      && TryGetPlane(h.dispatcher.planes, m.senderId) == Lookup(true, look.state, route.id)
      && PlanesByRouteCount(h.dispatcher.planes, route.id) == PlanesByRouteCount(d.planes, route.id) + 1
      && PlanesByRouteCount(d.planes, route.id) <= d.maxPlanesAtRoute
      && PlanesWaitingCount(h.dispatcher.planes) == PlanesWaitingCount(d.planes) - 1
  {
    var look := TryGetPlane(d.planes, m.senderId);
    var route := ChooseRoute(d, look.state.value).value;
    RouteIdInRange(d, route);
    MoveToRouteEffect(d.planes, m.senderId, look.state.value, route.id);
  }

  /** The step runs to completion exactly when every filtered message is a status report or a request. */
  lemma {:induction false} HandleAllProceeds(d: Dispatcher, ms: seq<Message>)
    requires WellFormed(d)
    ensures HandleAll(d, ms).proceed <==> forall i :: 0 <= i < |ms| ==> Handles(ms[i])
    decreases |ms|
  {
    if |ms| > 0 && Handles(ms[0]) {
      HandleAllProceeds(HandleOne(d, ms[0]).dispatcher, ms[1..]);
      assert forall i :: 1 <= i < |ms| ==> ms[i] == ms[1..][i - 1];
    }
  }

  /** The first message that is neither a status report nor a request ends the step; what follows it is never looked at. */
  lemma {:induction false} StopLeavesRestUnprocessed(d: Dispatcher, pre: seq<Message>, m: Message, rest: seq<Message>)
    requires WellFormed(d)
    requires forall i :: 0 <= i < |pre| ==> Handles(pre[i])
    requires !Handles(m)
    ensures var done := HandleAll(d, pre);
      HandleAll(d, pre + [m] + rest) == StepResult(false, done.dispatcher, done.outbox)
    decreases |pre|
  {
    if |pre| == 0 {
      assert pre + [m] + rest == [m] + rest;
    } else {
      var h := HandleOne(d, pre[0]);
      assert (pre + [m] + rest)[1..] == pre[1..] + [m] + rest;
      StopLeavesRestUnprocessed(h.dispatcher, pre[1..], m, rest);
    }
  }

  /** Over a whole step the registry invariant holds and no route grows past `maxPlanesAtRoute + 1`. */
  lemma {:induction false} HandleAllKeepsInvariant(d: Dispatcher, ms: seq<Message>)
    requires WellFormed(d) && Exclusive(d.planes)
    ensures var r := HandleAll(d, ms).dispatcher;
      && Exclusive(r.planes)
      && r.maxPlanesAtRoute == d.maxPlanesAtRoute
      && CountsWithin(d.planes, r.planes, d.maxPlanesAtRoute + 1)
    decreases |ms|
  {
    if |ms| > 0 && Handles(ms[0]) {
      var m := ms[0];
      var h := HandleOne(d, m);
      if m.body.PlaneStatus? {
        OnPlaneStatusEffect(d, m.senderId, m.body.state);
      } else {
        OnLandingRequestEffect(d, m);
      }
      HandleAllKeepsInvariant(h.dispatcher, ms[1..]);
    }
  }

  /** `NextStep` keeps the registry invariant and the route capacity bound. */
  lemma NextStepKeepsInvariant(d: Dispatcher, inbox: seq<Message>)
    requires WellFormed(d) && Exclusive(d.planes)
    ensures var r := NextStep(d, inbox);
      && Exclusive(r.dispatcher.planes)
      && CountsWithin(d.planes, r.dispatcher.planes, d.maxPlanesAtRoute + 1)
      && (r.proceed <==> forall m :: m in SelectMessage(inbox, DispatcherId) ==> Handles(m))
  {
    var ms := SelectMessage(inbox, DispatcherId);
    HandleAllKeepsInvariant(d, ms);
    HandleAllProceeds(d, ms);
  }
}
