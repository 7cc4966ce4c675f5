/**
 * `PlaneAgent`: a plane's collision and weather checks, its reaction to landing responses,
 * and the movement and status machine of one tick.
 *
 * The agent's random generator is a stream `draw` of `NextSingle()` values; the agent keeps
 * the index of the next unused value, so every call consumes exactly one element.
 */
module PlaneAgent {
  import opened Wrappers
  import opened Geometry
  import opened States
  import opened Messages
  import opened BaseAgent

  /** The settings a plane copies at construction, and its id and time step. */
  datatype PlaneConfig = PlaneConfig(
    id: string,
    timeStep: real,
    crashProbability: real,
    randomCrashError: real,
    landingDeceleration: real)

  /** The agent-local memory: the zone radius last advertised, and the granted route. */
  datatype PlaneMemory = PlaneMemory(airportZoneRadius: real, routeEnter: Vec, landingZone: Vec)

  /** A new plane assumes a 1500 m zone and has no route yet. */
  const InitialMemory := PlaneMemory(1500.0, Origin, Origin)

  /** What survives between ticks besides the `PlaneState`: memory and the generator position. */
  datatype Plane = Plane(memory: PlaneMemory, drawsUsed: nat)

  const InitialPlane := Plane(InitialMemory, 0)

  function Pow10(n: nat): (r: real)
    ensures r >= 1.0
  {
    if n == 0 then 1.0 else 10.0 * Pow10(n - 1)
  }

  /** `float.Epsilon`, the smallest positive single-precision value (about 1.4e-45). */
  const FloatEpsilon: real := 1.401298464324817 / Pow10(45)

  // ----- messages a plane sends -----

  /** `new PlaneStatusMessage(state, this)`: a type broadcast to the dispatcher. */
  function StatusMessage(cfg: PlaneConfig, s: PlaneState): Message {
    NewMessage(PlaneAgentType, cfg.id, Some(DispatcherAgentType), None, Body.PlaneStatus(s))
  }

  /** `new PlanePositionMessage(position, crashProbability, this)`: a broadcast to all planes. */
  function PositionMessage(cfg: PlaneConfig, position: Vec): Message {
    NewMessage(PlaneAgentType, cfg.id, Some(PlaneAgentType), None, PlanePosition(position, Some(cfg.crashProbability)))
  }

  /** `new LandingRequestMessage(this)`. */
  function RequestMessage(cfg: PlaneConfig): Message {
    NewMessage(PlaneAgentType, cfg.id, Some(DispatcherAgentType), None, LandingRequest)
  }

  /** `Initialize`: head for the airport and announce status and position. */
  function Initialize(cfg: PlaneConfig, t: Trig, s: PlaneState): (r: (PlaneState, seq<Message>))
    ensures r.0.status == Approaching
    ensures r.0.position == s.position && r.0.speed == s.speed
    ensures r.0.angle == AngleToOrigin(t, s.position)
    ensures r.1 == [StatusMessage(cfg, r.0), PositionMessage(cfg, s.position)]
  {
    var s' := s.(status := Approaching, angle := AngleToOrigin(t, s.position));
    (s', [StatusMessage(cfg, s'), PositionMessage(cfg, s'.position)])
  }

  // ----- message handlers -----

  /** `1 / (d^2 / 500 + 1)`: 1 at distance 0, falling towards 0 with distance. */
  function Closeness(d2: real): (c: real)
    requires d2 >= 0.0
    ensures 0.0 < c <= 1.0
  {
    1.0 / (d2 / 500.0 + 1.0)
  }

  /** `IsCollided`, with `rand` the generator value it draws. */
  predicate IsCollided(cfg: PlaneConfig, a: Vec, b: Vec, crashB: Option<real>, rand: real) {
    Dist2NonNegative(a, b);
    var p := (cfg.crashProbability + crashB.GetOr(cfg.crashProbability)) / 2.0;
    Closeness(Dist2(a, b)) + rand * cfg.randomCrashError >= p
  }

  datatype Checked = Checked(status: PlaneStatus, drawsUsed: nat)

  /**
   * `OnPlanePositionMessage`: a plane that has not crashed draws one value and checks for
   * a collision with the reported position; a crashed plane draws nothing.
   */
  function OnPlanePosition(cfg: PlaneConfig, draw: nat -> real, n: nat, s: PlaneState,
                           position: Vec, crashB: Option<real>): (r: Checked)
    ensures s.status == Crashed ==> r == Checked(Crashed, n)
    ensures s.status != Crashed ==> r.drawsUsed == n + 1
    ensures s.status != Crashed ==>
      (r.status == Crashed <==> IsCollided(cfg, s.position, position, crashB, draw(n)))
    ensures r.status != Crashed ==> r.status == s.status
  {
    if s.status != Crashed && IsCollided(cfg, s.position, position, crashB, draw(n)) then Checked(Crashed, n + 1)
    else if s.status != Crashed then Checked(s.status, n + 1)
    else Checked(s.status, n)
  }

  /** `OnWeatherUpdateMessage`: one draw, and a crash when it falls below `p - float.Epsilon`. */
  function OnWeatherUpdate(draw: nat -> real, n: nat, s: PlaneState, accidentProbability: real): (r: Checked)
    ensures r.drawsUsed == n + 1
    ensures r.status == Crashed <==> s.status == Crashed || draw(n) < accidentProbability - FloatEpsilon
    ensures r.status != Crashed ==> r.status == s.status
  {
    if draw(n) < accidentProbability - FloatEpsilon then Checked(Crashed, n + 1) else Checked(s.status, n + 1)
  }

  /**
   * `OnLandingResponse`. A denial only records the advertised radius. An authorisation records
   * entry and landing zone (not the radius); an approaching plane turns towards the entry and
   * becomes Entering, a queued plane becomes ExitingQueue, any other status is kept.
   */
  function OnLandingResponse(t: Trig, mem: PlaneMemory, s: PlaneState, resp: LandingResponse): (r: (PlaneMemory, PlaneState))
    ensures !resp.IsLandingAccepted() ==> r == (mem.(airportZoneRadius := resp.airportZoneRadius), s)
    ensures resp.IsLandingAccepted() ==>
      && r.0 == mem.(routeEnter := resp.enter.value, landingZone := resp.landingZone.value)
      && r.1.position == s.position && r.1.speed == s.speed
      && (s.status == Approaching ==> r.1.status == Entering && r.1.angle == AngleTo(t, s.position, resp.enter))
      && (s.status == InQueue ==> r.1.status == ExitingQueue && r.1.angle == s.angle)
      && (s.status != Approaching && s.status != InQueue ==> r.1 == s)
  {
    if !resp.IsLandingAccepted() then (mem.(airportZoneRadius := resp.airportZoneRadius), s)
    else
      var mem' := mem.(landingZone := resp.landingZone.value, routeEnter := resp.enter.value);
      if s.status == Approaching then
        (mem', s.(angle := AngleTo(t, s.position, resp.enter), status := Entering))
      else if s.status == InQueue then (mem', s.(status := ExitingQueue))
      else (mem', s)
  }

  // ----- the message loop of NextStep -----

  datatype Ending = Exited | CrashedOut | Finished

  /** How the message loop ended, with the state, memory and generator position at that point. */
  datatype Outcome = Outcome(ending: Ending, memory: PlaneMemory, state: PlaneState, drawsUsed: nat)

  /** `true` when the message ends the step as a system exit (by class, or by `Type` in the default arm). */
  predicate EndsAsExit(m: Message) {
    match m.body
    case SystemExit => true
    case PlanePosition(_, _) => false
    case LandingResponseBody(_) => false
    case WeatherUpdate(_, _) => false
    case _ => m.typeName == "SystemExitMessage"
  }

  /** What an authorisation does to a status: Approaching becomes Entering, InQueue becomes ExitingQueue. */
  function ResponseImage(a: PlaneStatus): PlaneStatus {
    if a == Approaching then Entering else if a == InQueue then ExitingQueue else a
  }

  datatype Handled = Handled(memory: PlaneMemory, state: PlaneState, checked: Checked)

  /** One message of the loop that is not an exit: the handler's effect and the status it returns. */
  function Handle(cfg: PlaneConfig, t: Trig, draw: nat -> real, mem: PlaneMemory, s: PlaneState,
                  m: Message, n: nat): (h: Handled)
    ensures h.checked.drawsUsed >= n
    ensures h.checked.status != Crashed ==> h.checked.status == h.state.status
    ensures h.state.status == s.status || h.state.status == ResponseImage(s.status)
    ensures h.state.position == s.position
  {
    match m.body
    case PlanePosition(p, cp) => Handled(mem, s, OnPlanePosition(cfg, draw, n, s, p, cp))
    case WeatherUpdate(_, ap) => Handled(mem, s, OnWeatherUpdate(draw, n, s, ap))
    case LandingResponseBody(resp) =>
      var (mem1, s1) := OnLandingResponse(t, mem, s, resp);
      Handled(mem1, s1, Checked(s1.status, n))
    case _ => Handled(mem, s, Checked(s.status, n))
  }

  /** The `foreach` of `NextStep` over the filtered messages. */
  function Process(cfg: PlaneConfig, t: Trig, draw: nat -> real, mem: PlaneMemory, s: PlaneState,
                   ms: seq<Message>, n: nat): (r: Outcome)
    ensures r.drawsUsed >= n
    ensures r.ending == CrashedOut ==> r.state.status == Crashed
    ensures r.ending == Finished && r.state.status == Crashed ==> |ms| == 0 && r.state == s
    ensures r.state.position == s.position
    decreases |ms|
  {
    if |ms| == 0 then Outcome(Finished, mem, s, n)
    else if EndsAsExit(ms[0]) then Outcome(Exited, mem, s, n)
    else
      var h := Handle(cfg, t, draw, mem, s, ms[0], n);
      if h.checked.status == Crashed then Outcome(CrashedOut, h.memory, h.state.(status := Crashed), h.checked.drawsUsed)
      else Process(cfg, t, draw, h.memory, h.state, ms[1..], h.checked.drawsUsed)
  }

  // ----- movement -----

  /**
   * `Move`: on the holding circle the heading advances by `speed / radius * timeStep` and the
   * position is put back on the circle; otherwise the plane flies straight for one step.
   * Speed and status never change here.
   */
  function Move(cfg: PlaneConfig, t: Trig, mem: PlaneMemory, s: PlaneState): (r: PlaneState)
    ensures r.speed == s.speed && r.status == s.status
    ensures s.status != InQueue && s.status != ExitingQueue ==>
      r == s.(position := Add(s.position, Scale(s.speed * cfg.timeStep, Heading(t, s.angle))))
  {
    if s.status == InQueue || s.status == ExitingQueue then
      var r := mem.airportZoneRadius;
      // A zero radius never arises in a run; the guard only keeps the division defined.
      var angle := if r == 0.0 then s.angle else s.angle + s.speed / r * cfg.timeStep;
      s.(angle := angle, position := Scale(r, Heading(t, angle)))
    else
      s.(position := Add(s.position, Scale(s.speed * cfg.timeStep, Heading(t, s.angle))))
  }

  /** The edges of the landing state machine, plus staying put. */
  predicate Edge(a: PlaneStatus, b: PlaneStatus) {
    || a == b
    || (a == Approaching && b == InQueue)
    || (a == Entering && b == Descending)
    || (a == ExitingQueue && b == Descending)
    || (a == Descending && b == Landing)
    || (a == Landing && b == Landed)
  }

  /**
   * `ChangeMovement`: at most one status transition, decided on the position after the move,
   * and only along an edge of the landing state machine. Nothing leaves Landed or Crashed;
   * only the Landing phase touches the speed, braking by the deceleration until it is not positive.
   */
  function ChangeMovement(cfg: PlaneConfig, t: Trig, mem: PlaneMemory, s: PlaneState): (r: PlaneState)
    ensures Edge(s.status, r.status)
    ensures r.position == s.position
    ensures s.status == Landed || s.status == Crashed ==> r == s
    ensures s.status != Landing ==> r.speed == s.speed
    ensures s.status == Landing ==>
      r.speed == s.speed - cfg.landingDeceleration && (r.status == Landed <==> r.speed <= 0.0) && r.angle == s.angle
    ensures s.status == Approaching && r.status == InQueue ==> r.angle == t.pi + s.angle
    ensures s.status == r.status ==> r.angle == s.angle
  {
    var dr := s.speed * cfg.timeStep;
    match s.status
    case Approaching =>
      if Within(s.position, Origin, mem.airportZoneRadius + dr / 2.0)
      then s.(status := InQueue, angle := t.pi + s.angle) else s
    case Entering =>
      if Within(s.position, mem.routeEnter, dr)
      then s.(status := Descending, angle := AngleTo(t, s.position, Some(mem.landingZone))) else s
    case ExitingQueue =>
      if Within(s.position, mem.routeEnter, dr)
      then s.(status := Descending, angle := AngleTo(t, s.position, Some(mem.landingZone))) else s
    case Descending =>
      if Within(s.position, mem.landingZone, dr)
      then s.(status := Landing, angle := AngleToOrigin(t, s.position)) else s
    case Landing =>
      var speed := s.speed - cfg.landingDeceleration;
      s.(speed := speed, status := if speed <= 0.0 then Landed else Landing)
    case _ => s
  }

  datatype PlaneStep = PlaneStep(proceed: bool, plane: Plane, state: PlaneState, outbox: seq<Message>)

  /** How the message loop of a tick ends: on a system exit, on a crash, or with every message read. */
  function TickEnding(cfg: PlaneConfig, t: Trig, draw: nat -> real, plane: Plane, s: PlaneState,
                      inbox: seq<Message>): Ending {
    Process(cfg, t, draw, plane.memory, s, SelectMessage(inbox, cfg.id), plane.drawsUsed).ending
  }

  /** `NextStep(currentState)` on the inbox of one tick. */
  function NextStep(cfg: PlaneConfig, t: Trig, draw: nat -> real, plane: Plane, s: PlaneState,
                    inbox: seq<Message>): (r: PlaneStep)
    ensures r.plane.drawsUsed >= plane.drawsUsed
  {
    var o := Process(cfg, t, draw, plane.memory, s, SelectMessage(inbox, cfg.id), plane.drawsUsed);
    var plane' := Plane(o.memory, o.drawsUsed);
    match o.ending
    case Exited => PlaneStep(false, plane', o.state, [])
    case CrashedOut => PlaneStep(false, plane', o.state, [StatusMessage(cfg, o.state)])
    case Finished =>
      var s' := ChangeMovement(cfg, t, o.memory, Move(cfg, t, o.memory, o.state));
      var report := if s.status != s'.status then [StatusMessage(cfg, s')] else [];
      var request := if s'.status == Approaching || s'.status == InQueue then [RequestMessage(cfg)] else [];
      PlaneStep(s'.status != Landed, plane', s', report + request)
  }

  // ----- properties -----

  /** Over the message loop the status only follows authorisations, unless the loop ends in a crash. */
  lemma {:induction false} ProcessStatus(cfg: PlaneConfig, t: Trig, draw: nat -> real, mem: PlaneMemory,
                                         s: PlaneState, ms: seq<Message>, n: nat)
    ensures var o := Process(cfg, t, draw, mem, s, ms, n);
      o.ending != CrashedOut ==> o.state.status == s.status || o.state.status == ResponseImage(s.status)
    decreases |ms|
  {
    if |ms| > 0 && !EndsAsExit(ms[0]) {
      var h := Handle(cfg, t, draw, mem, s, ms[0], n);
      ProcessStatus(cfg, t, draw, h.memory, h.state, ms[1..], h.checked.drawsUsed);
    }
  }

  /**
   * A tick moves the status along at most one authorisation and one edge of the landing
   * state machine, or crashes it. So Crashed is never left, and a Landed plane stays
   * Landed unless a collision or the weather crashes it.
   */
  lemma NextStepStatus(cfg: PlaneConfig, t: Trig, draw: nat -> real, plane: Plane, s: PlaneState, inbox: seq<Message>)
    ensures var c := NextStep(cfg, t, draw, plane, s, inbox).state.status;
      c == Crashed || Edge(s.status, c) || Edge(ResponseImage(s.status), c)
    ensures s.status == Crashed ==> NextStep(cfg, t, draw, plane, s, inbox).state.status == Crashed
    ensures s.status == Landed ==> NextStep(cfg, t, draw, plane, s, inbox).state.status in {Landed, Crashed}
  {
    ProcessStatus(cfg, t, draw, plane.memory, s, SelectMessage(inbox, cfg.id), plane.drawsUsed);
  }

  /**
   * A system exit ends the loop with the state and memory reached so far (earlier landing
   * responses of the same tick included); the messages after it are never looked at.
   */
  lemma {:induction false} ExitLeavesRestUnprocessed(cfg: PlaneConfig, t: Trig, draw: nat -> real, mem: PlaneMemory,
                                                     s: PlaneState, pre: seq<Message>, m: Message, rest: seq<Message>, n: nat)
    requires EndsAsExit(m)
    requires Process(cfg, t, draw, mem, s, pre, n).ending == Finished
    ensures var o := Process(cfg, t, draw, mem, s, pre, n);
      Process(cfg, t, draw, mem, s, pre + [m] + rest, n) == Outcome(Exited, o.memory, o.state, o.drawsUsed)
    decreases |pre|
  {
    if |pre| == 0 {
      assert pre + [m] + rest == [m] + rest;
    } else {
      var h := Handle(cfg, t, draw, mem, s, pre[0], n);
      assert (pre + [m] + rest)[0] == pre[0];
      assert (pre + [m] + rest)[1..] == pre[1..] + [m] + rest;
      ExitLeavesRestUnprocessed(cfg, t, draw, h.memory, h.state, pre[1..], m, rest, h.checked.drawsUsed);
    }
  }

  /** A tick whose first filtered message is a system exit returns `false` with nothing changed and nothing sent. */
  lemma ExitFirstChangesNothing(cfg: PlaneConfig, t: Trig, draw: nat -> real, plane: Plane, s: PlaneState, inbox: seq<Message>)
    requires |SelectMessage(inbox, cfg.id)| > 0 && EndsAsExit(SelectMessage(inbox, cfg.id)[0])
    ensures NextStep(cfg, t, draw, plane, s, inbox) == PlaneStep(false, plane, s, [])
  {
  }

  /** A plane that starts the tick crashed reports once and stops at its first message that is not an exit. */
  lemma CrashedStartStops(cfg: PlaneConfig, t: Trig, draw: nat -> real, plane: Plane, s: PlaneState, inbox: seq<Message>)
    requires s.status == Crashed
    requires |SelectMessage(inbox, cfg.id)| > 0 && !EndsAsExit(SelectMessage(inbox, cfg.id)[0])
    ensures var r := NextStep(cfg, t, draw, plane, s, inbox);
      !r.proceed && r.state.status == Crashed && r.outbox == [StatusMessage(cfg, r.state)]
  {
  }

  /** With nothing to read, a crashed plane keeps stepping: it is moved, reports nothing and carries on. */
  lemma CrashedStartWithEmptyInboxContinues(cfg: PlaneConfig, t: Trig, draw: nat -> real, plane: Plane, s: PlaneState)
    requires s.status == Crashed
    ensures var r := NextStep(cfg, t, draw, plane, s, []);
      r.proceed && r.state == Move(cfg, t, plane.memory, s) && r.outbox == []
  {
  }

  /**
   * The messages a tick queues; a tick never sends a position. A tick that ends on a system
   * exit sends nothing and stops. A plane that crashes in the tick sends exactly its status,
   * stops, and has not moved. A tick that runs to completion reports the status iff it
   * changed, asks to land iff the plane is approaching or queuing, and continues iff the
   * plane has not landed.
   */
  lemma NextStepMessages(cfg: PlaneConfig, t: Trig, draw: nat -> real, plane: Plane, s: PlaneState, inbox: seq<Message>)
    ensures var r := NextStep(cfg, t, draw, plane, s, inbox);
      var e := TickEnding(cfg, t, draw, plane, s, inbox);
      && |r.outbox| <= 2
      && (forall m :: m in r.outbox ==> m == StatusMessage(cfg, r.state) || m == RequestMessage(cfg))
      && (e == Exited ==> !r.proceed && r.outbox == [])
      && (e == CrashedOut ==>
            && !r.proceed && r.state.status == Crashed && r.state.position == s.position
            && r.outbox == [StatusMessage(cfg, r.state)])
      && (e == Finished ==>
            && (r.proceed <==> r.state.status != Landed)
            && (StatusMessage(cfg, r.state) in r.outbox <==> r.state.status != s.status))
      && (s.status != Crashed && r.state.status == Crashed ==>
            !r.proceed && r.outbox == [StatusMessage(cfg, r.state)])
      && (RequestMessage(cfg) in r.outbox <==>
            r.proceed && (r.state.status == Approaching || r.state.status == InQueue))
      && (r.proceed ==> r.state.status != Landed)
      && (r.proceed && s.status != Crashed ==>
            (StatusMessage(cfg, r.state) in r.outbox <==> r.state.status != s.status))
  {
    var ms := SelectMessage(inbox, cfg.id);
    var o := Process(cfg, t, draw, plane.memory, s, ms, plane.drawsUsed);
    ProcessStatus(cfg, t, draw, plane.memory, s, ms, plane.drawsUsed);
    assert StatusMessage(cfg, o.state) != RequestMessage(cfg);
  }

  /** The collision test always fires for two planes at the same spot when the draw and error are not negative. */
  lemma CollisionAtZeroDistance(cfg: PlaneConfig, a: Vec, crashB: Option<real>, rand: real)
    requires cfg.crashProbability <= 1.0 && crashB.GetOr(cfg.crashProbability) <= 1.0
    requires rand >= 0.0 && cfg.randomCrashError >= 0.0
    ensures IsCollided(cfg, a, a, crashB, rand)
  {
    var c := Closeness(Dist2(a, a)) by { Dist2NonNegative(a, a); }
    assert c == 1.0 by {
      assert Sub(a, a) == Origin;
    }
    var e := rand * cfg.randomCrashError;
    assert e >= 0.0 by {
      ProductNonNegative(rand, cfg.randomCrashError);
    }
    var p := (cfg.crashProbability + crashB.GetOr(cfg.crashProbability)) / 2.0;
    assert c + e >= p;
  }

  lemma ClosenessAntitone(d1: real, d2: real)
    requires 0.0 <= d1 <= d2
    ensures Closeness(d1) >= Closeness(d2)
  {
    var x1 := d1 / 500.0 + 1.0;
    var x2 := d2 / 500.0 + 1.0;
    var c1 := Closeness(d1);
    var c2 := Closeness(d2);
    assert 1.0 <= x1 <= x2;
    assert c1 * x1 == 1.0 && c2 * x2 == 1.0;
    assert c1 * x2 >= c1 * x1;
    assert (c1 - c2) * x2 >= 0.0;
  }

  /** A collision found at some distance is found at every smaller distance, for the same draw. */
  lemma CollisionMonotone(cfg: PlaneConfig, a: Vec, far: Vec, near: Vec, crashB: Option<real>, rand: real)
    requires Dist2(a, near) <= Dist2(a, far)
    requires IsCollided(cfg, a, far, crashB, rand)
    ensures IsCollided(cfg, a, near, crashB, rand)
  {
    Dist2NonNegative(a, near);
    ClosenessAntitone(Dist2(a, near), Dist2(a, far));
  }

  /** The trigonometry obeys cos^2 + sin^2 = 1. */
  ghost predicate Pythagorean(t: Trig) {
    forall a :: t.cos(a) * t.cos(a) + t.sin(a) * t.sin(a) == 1.0
  }

  lemma ScaledHeadingLength(t: Trig, k: real, angle: real)
    requires Pythagorean(t)
    ensures Len2(Scale(k, Heading(t, angle))) == k * k
  {
    var c := t.cos(angle);
    var s := t.sin(angle);
    assert c * c + s * s == 1.0;
    calc {
      Len2(Scale(k, Heading(t, angle)));
      (k * c) * (k * c) + (k * s) * (k * s);
      k * k * (c * c + s * s);
    }
  }

  /**
   * With exact trigonometry a queued plane stays on the circle of the advertised radius, and a
   * plane in straight flight advances exactly `speed * timeStep`.
   */
  lemma MoveDistance(cfg: PlaneConfig, t: Trig, mem: PlaneMemory, s: PlaneState)
    requires Pythagorean(t)
    ensures var r := Move(cfg, t, mem, s);
      (s.status == InQueue || s.status == ExitingQueue ==>
         Len2(r.position) == mem.airportZoneRadius * mem.airportZoneRadius)
      && (s.status != InQueue && s.status != ExitingQueue ==>
         Dist2(r.position, s.position) == (s.speed * cfg.timeStep) * (s.speed * cfg.timeStep))
  {
    var r := Move(cfg, t, mem, s);
    if s.status == InQueue || s.status == ExitingQueue {
      ScaledHeadingLength(t, mem.airportZoneRadius, r.angle);
    } else {
      var k := s.speed * cfg.timeStep;
      ScaledHeadingLength(t, k, s.angle);
      assert Sub(r.position, s.position) == Scale(k, Heading(t, s.angle));
    }
  }
}
