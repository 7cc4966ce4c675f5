/**
 * The three agents plugged into the shared life cycle, and what they do to each other through
 * the messages they exchange: a plane's first status report registers it with the dispatcher, a
 * granted request sends it towards its route, the environment's weather reports crash planes
 * only with the table's probability, and a system exit stops every agent.
 */
module Agents {
  import opened Wrappers
  import opened Text
  import opened Geometry
  import opened States
  import opened Messages
  import opened BaseAgent
  import opened Registry
  import opened Runtime
  import opened Settings
  import opened LocalClient
  import P = PlaneAgent
  import D = DispatcherAgent
  import E = EnvironmentAgent

  // ----- the agents as the loop sees them -----

  /** A plane's loop state: its `PlaneState` and the agent-local fields. */
  datatype PlaneLoopState = PlaneLoopState(plane: P.Plane, state: PlaneState)

  /** `PlaneAgent`: `Initialize` and `NextStep` overridden, no tear-down. */
  function PlaneAgentOf(cfg: P.PlaneConfig, t: Trig, draw: nat -> real): (a: Agent<PlaneLoopState>)
    ensures a.id == AgentId(PlaneAgentType, cfg.id)
  {
    Agent(AgentId(PlaneAgentType, cfg.id),
      (s: PlaneLoopState) => var (st, out) := P.Initialize(cfg, t, s.state); (s.(state := st), out),
      (s: PlaneLoopState, inbox: seq<Message>) =>
        var r := P.NextStep(cfg, t, draw, s.plane, s.state, inbox);
        StepResult(r.proceed, PlaneLoopState(r.plane, r.state), r.outbox),
      (s: PlaneLoopState) => [])
  }

  /** `Loop()` of a plane: a new `PlaneState` and a plane that knows nothing yet. */
  const PlaneDefaultState := PlaneLoopState(P.InitialPlane, DefaultPlaneState)

  /** A dispatcher whose routes and buckets are as its constructor built them. */
  type LiveDispatcher = d: D.Dispatcher | D.WellFormed(d) witness D.Dispatcher(0.0, 0.0, 0, [], NewPlanesList(0))

  /** `DispatcherAgent`, a stateless agent: no `Initialize`, no `TearDown`; its fields are the loop state. */
  function DispatcherAgentOf(): (a: Agent<LiveDispatcher>)
    ensures a.id == AgentId(DispatcherAgentType, D.DispatcherId)
  {
    var step := (d: LiveDispatcher, inbox: seq<Message>) =>
      var r := D.NextStep(d, inbox);
      var next: LiveDispatcher := r.dispatcher;
      StepResult(r.proceed, next, r.outbox);
    var a: Agent<LiveDispatcher> := Agent(AgentId(DispatcherAgentType, D.DispatcherId),
      (d: LiveDispatcher) => (d, []), step, (d: LiveDispatcher) => []);
    a
  }

  /** `EnvironmentAgent`: only `NextStep` is overridden. */
  function EnvironmentAgentOf(changeProbability: real, draw: nat -> real): (a: Agent<E.Environment>)
    ensures a.id == AgentId(EnvironmentAgentType, E.EnvironmentId)
  {
    Agent(AgentId(EnvironmentAgentType, E.EnvironmentId),
      (e: E.Environment) => (e, []),
      (e: E.Environment, inbox: seq<Message>) =>
        var r := E.NextStep(changeProbability, draw, e, inbox);
        StepResult(r.proceed, r.env, r.outbox),
      (e: E.Environment) => [])
  }

  // ----- the parameterless loops -----

  /**
   * A plane's `Loop()`, that is `Loop(new PlaneState())`: the run connects, then reports the
   * default state (at the origin, at rest) as Approaching and turned towards the origin, then
   * broadcasts the origin as its position.
   */
  function PlaneDefaultLoop(cfg: P.PlaneConfig, t: Trig, draw: nat -> real, sleepTime: real, clock: nat -> real,
                            inbox: nat -> seq<Message>, fuel: nat): (r: LoopRun<PlaneLoopState>)
    ensures |r.events| >= 3 && r.events[0] == Connected(PlaneAgentType, cfg.id)
    ensures r.events[1] == Sent(P.StatusMessage(cfg, PlaneState(Origin, 0.0, AngleToOrigin(t, Origin), Approaching)))
    ensures r.events[2] == Sent(P.PositionMessage(cfg, Origin))
    ensures fuel == 0 ==> r.state == PlaneLoopState(P.InitialPlane, PlaneState(Origin, 0.0, AngleToOrigin(t, Origin), Approaching))
  {
    var a := PlaneAgentOf(cfg, t, draw);
    var s1 := PlaneState(Origin, 0.0, AngleToOrigin(t, Origin), Approaching);
    assert a.init(PlaneDefaultState) == (PlaneLoopState(P.InitialPlane, s1), [P.StatusMessage(cfg, s1), P.PositionMessage(cfg, Origin)]);
    LoopOpens(a, sleepTime, clock, inbox, PlaneDefaultState, fuel);
    Loop(a, sleepTime, clock, inbox, PlaneDefaultState, fuel)
  }

  /**
   * The environment's `Loop()`, from `new EnvironmentState()` (Clear) with no draw used: it
   * sends nothing before its first receive, and a run cut before any tick is still Clear.
   */
  function EnvironmentDefaultLoop(changeProbability: real, draw: nat -> real, sleepTime: real, clock: nat -> real,
                                  inbox: nat -> seq<Message>, fuel: nat): (r: LoopRun<E.Environment>)
    ensures |r.events| >= 1 && r.events[0] == Connected(EnvironmentAgentType, E.EnvironmentId)
    ensures fuel > 0 ==> |r.events| >= 2 && r.events[1] == Received(QueueName(AgentId(EnvironmentAgentType, E.EnvironmentId)))
    ensures fuel == 0 ==> r.state.state.weather == Clear && !r.finished
  {
    Loop(EnvironmentAgentOf(changeProbability, draw), sleepTime, clock, inbox, E.Environment(DefaultEnvironmentState, 0), fuel)
  }

  // ----- from settings to agents -----

  /** What `PlaneAgent` copies from its settings. */
  function PlaneConfigOf(id: string, s: PlaneSettings): (cfg: P.PlaneConfig)
    ensures cfg.id == id && cfg.timeStep == s.agent.timeStep
    ensures cfg.crashProbability == s.crashProbability && cfg.randomCrashError == s.randomCrashError
    ensures cfg.landingDeceleration == s.landingDeceleration
  {
    P.PlaneConfig(id, s.agent.timeStep, s.crashProbability, s.randomCrashError, s.landingDeceleration)
  }

  /** The dispatcher's constructor on its settings; the setters guarantee a route count in `[1, 10]`. */
  function DispatcherOf(t: Trig, s: DispatcherSettings): (d: LiveDispatcher)
    requires DispatcherBounded(s)
    ensures 1 <= |d.routes| <= 10 && |d.routes| == s.routesCount
    ensures Exclusive(d.planes) && forall id :: !ContainsPlane(d.planes, id)
    ensures d.minPlanesDistance > 0.0 && d.maxPlanesAtRoute == s.maxPlanesAtRoute
  {
    D.NewDispatcher(t, s.minPlanesDistance, s.airportZoneRadius, s.routesCount as nat, s.airstripLength, s.maxPlanesAtRoute)
  }

  /** With the intended settings a plane's landing deceleration is at least 1 m/s², so braking always ends. */
  lemma BrakingShortensEveryTick(id: string, p: PlaneSettings, t: Trig, mem: P.PlaneMemory, s: PlaneState)
    requires PlaneBounded(p)
    requires s.status == Landing
    ensures var r := P.ChangeMovement(PlaneConfigOf(id, p), t, mem, s);
      r.speed <= s.speed - 1.0 && (s.speed <= 1.0 ==> r.status == Landed)
  {
  }

  // ----- pacing -----

  /** A tick trace never sleeps when the pause is 0. */
  lemma {:induction false} TicksNeverSleep<S>(a: Agent<S>, clock: nat -> real, inbox: nat -> seq<Message>,
                                             s: S, last: seq<Message>, k: nat, fuel: nat)
    ensures forall e :: e in Ticks(a, 0.0, clock, inbox, s, last, k, fuel).events ==> !e.Slept?
    decreases fuel
  {
    if fuel > 0 {
      var res := a.step(s, inbox(k));
      assert SleepDuration(clock(k), 0.0).None?;
      var tick := TickEvents(QueueName(a.id), res.outbox, None);
      assert tick == [Received(QueueName(a.id))] + SendMessages(res.outbox);
      assert forall e :: e in tick ==> !e.Slept?;
      if res.proceed {
        TicksNeverSleep(a, clock, inbox, res.state, res.outbox, k + 1, fuel - 1);
      }
    }
  }

  /** An agent built from settings with the default pause of 0 never calls `Thread.Sleep`. */
  lemma DefaultPauseNeverSleeps<S>(a: Agent<S>, timeStep: real, logFile: Option<string>,
                                   clock: nat -> real, inbox: nat -> seq<Message>, s0: S, fuel: nat)
    requires 0.0 < timeStep <= 10.0
    ensures var st := NewAgentSettingsIntended(timeStep, 0.0, logFile);
      st.Ok? && forall e :: e in Loop(a, st.value.sleepTime, clock, inbox, s0, fuel).events ==> !e.Slept?
  {
    DefaultSleepTimeAccepted(timeStep, logFile);
    var (s1, out0) := a.init(s0);
    var run := Ticks(a, 0.0, clock, inbox, s1, out0, 0, fuel);
    TicksNeverSleep(a, clock, inbox, s1, out0, 0, fuel);
    var r := Loop(a, 0.0, clock, inbox, s0, fuel);
    var start := [Connected(a.id.agentType, a.id.id)] + SendMessages(out0);
    if run.finished {
      var finish := SendMessages(run.lastOutbox + a.tearDown(run.state)) + [Disconnected];
      assert r.events == start + run.events + finish;
    } else {
      assert r.events == start + run.events;
    }
  }

  // ----- a plane and the dispatcher -----

  /** The dispatcher's own name differs, ignoring case, from the plane's. */
  predicate DistinctFromDispatcher(id: string) {
    !EqualsIgnoreCase(id, D.DispatcherId)
  }

  /** A plane's status report passes the dispatcher's filter, and the dispatcher's replies pass the plane's. */
  lemma FiltersPass(cfg: P.PlaneConfig, s: PlaneState, d: D.Dispatcher, route: D.LandingRoute)
    requires DistinctFromDispatcher(cfg.id)
    ensures SelectMessage([P.StatusMessage(cfg, s)], D.DispatcherId) == [P.StatusMessage(cfg, s)]
    ensures SelectMessage([P.RequestMessage(cfg)], D.DispatcherId) == [P.RequestMessage(cfg)]
    ensures SelectMessage([D.AcceptMessage(d, route, cfg.id)], cfg.id) == [D.AcceptMessage(d, route, cfg.id)]
    ensures SelectMessage([D.DenyMessage(d, cfg.id)], cfg.id) == [D.DenyMessage(d, cfg.id)]
  {
    EqualsIgnoreCaseEquivalence(cfg.id, D.DispatcherId, cfg.id);
    assert SelectMessage([P.StatusMessage(cfg, s)], D.DispatcherId) == [P.StatusMessage(cfg, s)] + SelectMessage([], D.DispatcherId);
    assert SelectMessage([P.RequestMessage(cfg)], D.DispatcherId) == [P.RequestMessage(cfg)] + SelectMessage([], D.DispatcherId);
    assert SelectMessage([D.AcceptMessage(d, route, cfg.id)], cfg.id) == [D.AcceptMessage(d, route, cfg.id)] + SelectMessage([], cfg.id);
    assert SelectMessage([D.DenyMessage(d, cfg.id)], cfg.id) == [D.DenyMessage(d, cfg.id)] + SelectMessage([], cfg.id);
  }

  /**
   * With the intended client, of the two messages a plane announces itself with, only the status
   * report reaches the dispatcher's queue; the position report is for planes.
   */
  lemma AnnouncementReachesDispatcher(c: LocalClient, cfg: P.PlaneConfig, t: Trig, s: PlaneState)
    requires QueueName(AgentId(DispatcherAgentType, D.DispatcherId)) in c.queues
    ensures var q := QueueName(AgentId(DispatcherAgentType, D.DispatcherId));
      var out := P.Initialize(cfg, t, s).1;
      var c' := SendMessageIntended(SendMessageIntended(c, out[0]), out[1]);
      ReceiveMessages(c', q).1 == c.queues[q] + [out[0]]
  {
    var q := QueueName(AgentId(DispatcherAgentType, D.DispatcherId));
    var out := P.Initialize(cfg, t, s).1;
    assert MatchQueueIntended(q, out[0]) by {
      assert q[..|DispatcherAgentType|] == DispatcherAgentType;
    }
    assert !MatchQueueIntended(q, out[1]) by {
      assert q[0] == 'D' && PlaneAgentType[0] == 'P';
    }
  }

  /** A plane's first status report registers it as waiting, with the reported state, and the dispatcher carries on. */
  lemma FirstReportRegistersPlane(d: D.Dispatcher, cfg: P.PlaneConfig, s: PlaneState)
    requires D.WellFormed(d) && Exclusive(d.planes)
    requires DistinctFromDispatcher(cfg.id)
    requires !ContainsPlane(d.planes, cfg.id) && !Extensions.IsFinalPlaneStatus(s.status)
    ensures var r := D.NextStep(d, [P.StatusMessage(cfg, s)]);
      && r.proceed && r.outbox == []
      && TryGetPlane(r.dispatcher.planes, cfg.id) == Lookup(true, Some(s), -1)
      && Exclusive(r.dispatcher.planes)
  {
    var m := P.StatusMessage(cfg, s);
    FiltersPass(cfg, s, d, D.LandingRoute(0, Origin, Origin));
    D.OnPlaneStatusEffect(d, cfg.id, s);
    var h := D.HandleOne(d, m);
    assert D.HandleAll(h.dispatcher, []) == D.StepResult(true, h.dispatcher, []);
  }

  /**
   * A waiting plane that asks to land and for which a route qualifies is granted that route: the
   * dispatcher answers with one acceptance, and the approaching plane, on reading it, records the
   * route's entry and landing zone and becomes Entering.
   */
  lemma GrantedRequestStartsEntering(d: D.Dispatcher, cfg: P.PlaneConfig, t: Trig, draw: nat -> real,
                                     mem: P.PlaneMemory, s: PlaneState, n: nat)
    requires D.WellFormed(d)
    requires DistinctFromDispatcher(cfg.id)
    requires IsWaiting(d.planes, cfg.id)
    requires s.status == Approaching
    requires D.ChooseRoute(d, TryGetPlane(d.planes, cfg.id).state.value).Some?
    ensures var route := D.ChooseRoute(d, TryGetPlane(d.planes, cfg.id).state.value).value;
      var r := D.NextStep(d, [P.RequestMessage(cfg)]);
      var o := P.Process(cfg, t, draw, mem, s, SelectMessage(r.outbox, cfg.id), n);
      && r.proceed && r.outbox == [D.AcceptMessage(d, route, cfg.id)]
      && o.ending == P.Finished && o.state.status == Entering
      && o.memory.routeEnter == route.enter && o.memory.landingZone == route.landingZone
      && o.drawsUsed == n
  {
    var route := D.ChooseRoute(d, TryGetPlane(d.planes, cfg.id).state.value).value;
    var m := P.RequestMessage(cfg);
    FiltersPass(cfg, s, d, route);
    assert TryGetPlane(d.planes, cfg.id).found && TryGetPlane(d.planes, cfg.id).route == -1;
    var h := D.HandleOne(d, m);
    assert h.outbox == [D.AcceptMessage(d, route, cfg.id)];
    assert D.HandleAll(h.dispatcher, []) == D.StepResult(true, h.dispatcher, []);
    var reply := D.AcceptMessage(d, route, cfg.id);
    var hp := P.Handle(cfg, t, draw, mem, s, reply, n);
    assert hp.state.status == Entering;
    assert P.Process(cfg, t, draw, hp.memory, hp.state, [], n) == P.Outcome(P.Finished, hp.memory, hp.state, n);
  }

  /** A waiting plane for which no route qualifies is denied; reading the denial only updates its zone radius. */
  lemma DeniedRequestKeepsStatus(d: D.Dispatcher, cfg: P.PlaneConfig, t: Trig, draw: nat -> real,
                                 mem: P.PlaneMemory, s: PlaneState, n: nat)
    requires D.WellFormed(d)
    requires DistinctFromDispatcher(cfg.id)
    requires IsWaiting(d.planes, cfg.id)
    requires s.status != Crashed
    requires D.ChooseRoute(d, TryGetPlane(d.planes, cfg.id).state.value).None?
    ensures var r := D.NextStep(d, [P.RequestMessage(cfg)]);
      var o := P.Process(cfg, t, draw, mem, s, SelectMessage(r.outbox, cfg.id), n);
      && r.proceed && r.dispatcher == d && r.outbox == [D.DenyMessage(d, cfg.id)]
      && o.ending == P.Finished && o.state == s
      && o.memory == mem.(airportZoneRadius := d.airportZoneRadius)
  {
    var m := P.RequestMessage(cfg);
    FiltersPass(cfg, s, d, D.LandingRoute(0, Origin, Origin));
    assert TryGetPlane(d.planes, cfg.id).found && TryGetPlane(d.planes, cfg.id).route == -1;
    var h := D.HandleOne(d, m);
    assert D.HandleAll(h.dispatcher, []) == D.StepResult(true, h.dispatcher, []);
    var reply := D.DenyMessage(d, cfg.id);
    var hp := P.Handle(cfg, t, draw, mem, s, reply, n);
    assert P.Process(cfg, t, draw, hp.memory, hp.state, [], n) == P.Outcome(P.Finished, hp.memory, hp.state, n);
  }

  // ----- the environment and a plane -----

  /**
   * A weather report from the environment crashes a plane only when the plane's draw falls below
   * the table's probability for the reported weather, so never in fog when draws are non-negative.
   */
  lemma WeatherCrashNeedsUnluckyDraw(w: WeatherType, draw: nat -> real, n: nat, s: PlaneState)
    requires s.status != Crashed
    ensures var m := E.WeatherMessage(w);
      var r := P.OnWeatherUpdate(draw, n, s, m.body.accidentProbability);
      && (r.status == Crashed ==> draw(n) < E.AccidentProbability(w) < 0.001)
      && (w == Fog && draw(n) >= 0.0 ==> r.status == s.status)
  {
    assert P.FloatEpsilon > 0.0 by {
      assert P.Pow10(45) >= 1.0;
    }
  }

  // ----- stopping the simulation -----

  /** `new SystemExitMessage()`: from "system" to everyone. */
  const SystemExitMessage := NewMessage("system", "system", None, None, Body.SystemExit)

  /** A system exit alone in a tick's inbox stops the dispatcher, the environment and every plane not named "system". */
  lemma SystemExitStopsEveryAgent(d: LiveDispatcher, e: E.Environment, changeProbability: real,
                                  cfg: P.PlaneConfig, t: Trig, draw: nat -> real, p: PlaneLoopState)
    requires !EqualsIgnoreCase(cfg.id, "system")
    ensures !DispatcherAgentOf().step(d, [SystemExitMessage]).proceed
    ensures EnvironmentAgentOf(changeProbability, draw).step(e, [SystemExitMessage]) == StepResult(false, e, [])
    ensures var r := PlaneAgentOf(cfg, t, draw).step(p, [SystemExitMessage]);
      !r.proceed && r.state.state == p.state && r.outbox == []
  {
    var m := SystemExitMessage;
    assert m in [m];
    assert !EqualsIgnoreCase("system", D.DispatcherId) by {
      assert |"system"| != |D.DispatcherId|;
    }
    assert SelectMessage([m], D.DispatcherId) == [m] + SelectMessage([], D.DispatcherId);
    EqualsIgnoreCaseEquivalence(cfg.id, "system", cfg.id);
    assert SelectMessage([m], cfg.id) == [m] + SelectMessage([], cfg.id);
  }
}
