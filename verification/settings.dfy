/**
 * The agents' settings objects: each property setter validates its value with a range check and
 * throws (`Err`) without storing anything when the value is out of range.
 */
module Settings {
  import opened Wrappers
  import opened Ranges

  type Outcome<T> = Result<T, RangeError>

  // ---------------------------------------------------------------- AgentSettings

  /** `AgentSettings`: the physics time step, the pacing pause, a log file and a random seed. */
  datatype AgentSettings = AgentSettings(timeStep: real, sleepTime: real, logFile: Option<string>, seed: Option<int>)

  /** The parameterless constructor: both times start at 0. */
  const DefaultAgentSettings := AgentSettings(0.0, 0.0, None, None)

  /** The bounds every reachable `AgentSettings` keeps. */
  ghost predicate TimesBounded(s: AgentSettings) {
    0.0 <= s.timeStep <= 10.0 && 0.0 <= s.sleepTime <= 10.0
  }

  /** `TimeStep` setter: accepts exactly `(0, 10]`. */
  function SetTimeStep(s: AgentSettings, v: real): (r: Outcome<AgentSettings>)
    ensures r.Ok? <==> 0.0 < v <= 10.0
    ensures r.Ok? ==> r.value.timeStep == v && r.value.(timeStep := s.timeStep) == s
    ensures r.Err? ==> r.error.name == Some("TimeStep") && r.error.value == Some(v)
  {
    var c := ThrowOnClosedRight(v, Some("TimeStep"), Fin(0.0), Fin(10.0));
    if c.Err? then Err(c.error) else Ok(s.(timeStep := v))
  }

  /**
   * `SleepTime` setter as written: a negative value copies the current time step, any other value
   * must lie in `(0, 10]` — so 0, the value `Sleep` treats as no pause and the constructor's
   * default, is rejected.
   */
  function SetSleepTime(s: AgentSettings, v: real): (r: Outcome<AgentSettings>)
    ensures v < 0.0 ==> r == Ok(s.(sleepTime := s.timeStep))
    ensures v >= 0.0 ==> (r.Ok? <==> 0.0 < v <= 10.0)
    ensures v >= 0.0 && r.Ok? ==> r.value == s.(sleepTime := v)
  {
    if v < 0.0 then Ok(s.(sleepTime := s.timeStep))
    else
      var c := ThrowOnClosedRight(v, Some("SleepTime"), Fin(0.0), Fin(10.0));
      if c.Err? then Err(c.error) else Ok(s.(sleepTime := v))
  }

  /** The `SleepTime` setter as evidently intended: non-negative values in `[0, 10]` are stored. */
  function SetSleepTimeIntended(s: AgentSettings, v: real): (r: Outcome<AgentSettings>)
    ensures v < 0.0 ==> r == Ok(s.(sleepTime := s.timeStep))
    ensures v >= 0.0 ==> (r.Ok? <==> v <= 10.0)
    ensures v >= 0.0 && r.Ok? ==> r.value == s.(sleepTime := v)
  {
    if v < 0.0 then Ok(s.(sleepTime := s.timeStep))
    else
      var c := ThrowOnClosed(v, Some("SleepTime"), Fin(0.0), Fin(10.0));
      if c.Err? then Err(c.error) else Ok(s.(sleepTime := v))
  }

  /** Every accepted setter call keeps the times within their bounds. */
  lemma SettersKeepTimesBounded(s: AgentSettings, v: real)
    requires TimesBounded(s)
    ensures SetTimeStep(s, v).Ok? ==> TimesBounded(SetTimeStep(s, v).value)
    ensures SetSleepTime(s, v).Ok? ==> TimesBounded(SetSleepTime(s, v).value)
    ensures SetSleepTimeIntended(s, v).Ok? ==> TimesBounded(SetSleepTimeIntended(s, v).value)
  {
  }

  /** The constructor `AgentSettings(timeStep, sleepTime = 0, logFile = null)`: TimeStep, LogFile, then SleepTime. */
  function NewAgentSettings(timeStep: real, sleepTime: real, logFile: Option<string>): (r: Outcome<AgentSettings>)
    ensures r.Ok? <==> 0.0 < timeStep <= 10.0 && (sleepTime < 0.0 || 0.0 < sleepTime <= 10.0)
    ensures r.Ok? ==> r.value == AgentSettings(timeStep, if sleepTime < 0.0 then timeStep else sleepTime, logFile, None)
  {
    var t := SetTimeStep(DefaultAgentSettings, timeStep);
    if t.Err? then Err(t.error)
    else SetSleepTime(t.value.(logFile := logFile), sleepTime)
  }

  /** The constructor with the intended `SleepTime` setter. */
  function NewAgentSettingsIntended(timeStep: real, sleepTime: real, logFile: Option<string>): (r: Outcome<AgentSettings>)
    ensures r.Ok? <==> 0.0 < timeStep <= 10.0 && sleepTime <= 10.0
    ensures r.Ok? ==> r.value == AgentSettings(timeStep, if sleepTime < 0.0 then timeStep else sleepTime, logFile, None)
  {
    var t := SetTimeStep(DefaultAgentSettings, timeStep);
    if t.Err? then Err(t.error)
    else SetSleepTimeIntended(t.value.(logFile := logFile), sleepTime)
  }

  /** As written, the constructor called with its own default sleep time always throws. */
  lemma DefaultSleepTimeRejected(timeStep: real, logFile: Option<string>)
    ensures NewAgentSettings(timeStep, 0.0, logFile).Err?
    ensures 0.0 < timeStep <= 10.0 ==> NewAgentSettings(timeStep, 0.0, logFile).error.name == Some("SleepTime")
  {
  }

  /** As intended, the default sleep time is accepted for every valid time step and means "do not pause". */
  lemma DefaultSleepTimeAccepted(timeStep: real, logFile: Option<string>)
    requires 0.0 < timeStep <= 10.0
    ensures NewAgentSettingsIntended(timeStep, 0.0, logFile).Ok?
    ensures NewAgentSettingsIntended(timeStep, 0.0, logFile).value.sleepTime == 0.0
  {
  }

  // ---------------------------------------------------------------- DispatcherSettings

  datatype DispatcherSettings = DispatcherSettings(
    agent: AgentSettings,
    minPlanesDistance: real,
    airportZoneRadius: real,
    routesCount: int,
    airstripLength: real,
    maxPlanesAtRoute: int)

  /** Field initialisers: 200 m separation, 1000 m zone, 3 routes, 300 m strip; `MaxPlanesAtRoute` is 0. */
  const DefaultDispatcherSettings := DispatcherSettings(DefaultAgentSettings, 200.0, 1000.0, 3, 300.0, 0)

  /** What every dispatcher settings object reachable through the setters satisfies. */
  ghost predicate DispatcherBounded(d: DispatcherSettings) {
    && d.minPlanesDistance > 0.0
    && 1 <= d.routesCount <= 10
    && d.airportZoneRadius <= 1000.0
    && 100.0 <= d.airstripLength <= 1000.0
  }

  /** The documented relation between the strip and the zone: the strip fits inside the zone. */
  ghost predicate StripInsideZone(d: DispatcherSettings) {
    d.airstripLength <= d.airportZoneRadius
  }

  /** `MinPlanesDistance` setter: accepts exactly the positive values. */
  function SetMinPlanesDistance(d: DispatcherSettings, v: real): (r: Outcome<DispatcherSettings>)
    ensures r.Ok? <==> v > 0.0
    ensures r.Ok? ==> r.value == d.(minPlanesDistance := v)
  {
    var c := ThrowOnOpen(v, Some("MinPlanesDistance"), Fin(0.0), NoMax);
    if c.Err? then Err(c.error) else Ok(d.(minPlanesDistance := v))
  }

  /** `AirportZoneRadius` setter: accepts exactly `(AirstripLength, 1000]`, with the strip length current at the call. */
  function SetAirportZoneRadius(d: DispatcherSettings, v: real): (r: Outcome<DispatcherSettings>)
    ensures r.Ok? <==> d.airstripLength < v <= 1000.0
    ensures r.Ok? ==> r.value == d.(airportZoneRadius := v)
  {
    var c := ThrowOnClosedRight(v, Some("AirportZoneRadius"), Fin(d.airstripLength), Fin(1000.0));
    if c.Err? then Err(c.error) else Ok(d.(airportZoneRadius := v))
  }

  /** `RoutesCount` setter: accepts exactly `[1, 10]`. */
  function SetRoutesCount(d: DispatcherSettings, v: int): (r: Outcome<DispatcherSettings>)
    ensures r.Ok? <==> 1 <= v <= 10
    ensures r.Ok? ==> r.value == d.(routesCount := v)
  {
    var c := ThrowOnClosed(v as real, Some("RoutesCount"), Fin(1.0), Fin(10.0));
    if c.Err? then Err(c.error) else Ok(d.(routesCount := v))
  }

  function MaxReal(a: real, b: real): (m: real)
    ensures m >= a && m >= b && (m == a || m == b)
  {
    if a >= b then a else b
  }

  /**
   * `AirstripLength` setter as written: the upper bound is the larger of the zone radius and 1000,
   * which is always 1000 because the radius never exceeds 1000.
   */
  function SetAirstripLength(d: DispatcherSettings, v: real): (r: Outcome<DispatcherSettings>)
    ensures r.Ok? <==> 100.0 <= v <= MaxReal(d.airportZoneRadius, 1000.0)
    ensures r.Ok? ==> r.value == d.(airstripLength := v)
  {
    var c := ThrowOnClosed(v, Some("AirstripLength"), Fin(100.0), Fin(MaxReal(d.airportZoneRadius, 1000.0)));
    if c.Err? then Err(c.error) else Ok(d.(airstripLength := v))
  }

  /** The `AirstripLength` setter as documented: the upper bound is the zone radius. */
  function SetAirstripLengthIntended(d: DispatcherSettings, v: real): (r: Outcome<DispatcherSettings>)
    ensures r.Ok? <==> 100.0 <= v <= d.airportZoneRadius
    ensures r.Ok? ==> r.value == d.(airstripLength := v)
  {
    var c := ThrowOnClosed(v, Some("AirstripLength"), Fin(100.0), Fin(d.airportZoneRadius));
    if c.Err? then Err(c.error) else Ok(d.(airstripLength := v))
  }

  /** `MaxPlanesAtRoute` is an unchecked auto-property. */
  function SetMaxPlanesAtRoute(d: DispatcherSettings, v: int): (r: DispatcherSettings)
    ensures r.maxPlanesAtRoute == v && r.(maxPlanesAtRoute := d.maxPlanesAtRoute) == d
  {
    d.(maxPlanesAtRoute := v)
  }

  /** The defaults satisfy both invariants, and every accepted setter call keeps `DispatcherBounded`. */
  lemma DispatcherSettersKeepBounds(d: DispatcherSettings, x: real, n: int)
    requires DispatcherBounded(d)
    ensures DispatcherBounded(DefaultDispatcherSettings) && StripInsideZone(DefaultDispatcherSettings)
    ensures SetMinPlanesDistance(d, x).Ok? ==> DispatcherBounded(SetMinPlanesDistance(d, x).value)
    ensures SetAirportZoneRadius(d, x).Ok? ==> DispatcherBounded(SetAirportZoneRadius(d, x).value)
    ensures SetRoutesCount(d, n).Ok? ==> DispatcherBounded(SetRoutesCount(d, n).value)
    ensures SetAirstripLength(d, x).Ok? ==> DispatcherBounded(SetAirstripLength(d, x).value)
    ensures SetAirstripLengthIntended(d, x).Ok? ==> DispatcherBounded(SetAirstripLengthIntended(d, x).value)
    ensures DispatcherBounded(SetMaxPlanesAtRoute(d, n))
  {
  }

  /** As written, a strip longer than a shrunk zone is accepted: zone 500 m, strip 800 m. */
  lemma StripLongerThanZoneAccepted()
    ensures var d := SetAirportZoneRadius(DefaultDispatcherSettings, 500.0);
      && d.Ok?
      && SetAirstripLength(d.value, 800.0).Ok?
      && !StripInsideZone(SetAirstripLength(d.value, 800.0).value)
  {
  }

  /** As intended, every setter keeps the strip inside the zone. */
  lemma IntendedSettersKeepStripInsideZone(d: DispatcherSettings, x: real, n: int)
    requires StripInsideZone(d)
    ensures SetMinPlanesDistance(d, x).Ok? ==> StripInsideZone(SetMinPlanesDistance(d, x).value)
    ensures SetAirportZoneRadius(d, x).Ok? ==> StripInsideZone(SetAirportZoneRadius(d, x).value)
    ensures SetRoutesCount(d, n).Ok? ==> StripInsideZone(SetRoutesCount(d, n).value)
    ensures SetAirstripLengthIntended(d, x).Ok? ==> StripInsideZone(SetAirstripLengthIntended(d, x).value)
    ensures StripInsideZone(SetMaxPlanesAtRoute(d, n))
  {
  }

  /**
   * `DispatcherSettings(timeStep, sleepTime, logFile)`: the base constructor as written, so it throws
   * whatever the base throws; the other fields keep their defaults.
   */
  function NewDispatcherSettings(timeStep: real, sleepTime: real, logFile: Option<string>): (r: Outcome<DispatcherSettings>)
    ensures r.Ok? <==> 0.0 < timeStep <= 10.0 && (sleepTime < 0.0 || 0.0 < sleepTime <= 10.0)
    ensures r.Err? ==> r.error == NewAgentSettings(timeStep, sleepTime, logFile).error
    ensures r.Ok? ==> (r.value.agent == AgentSettings(timeStep, if sleepTime < 0.0 then timeStep else sleepTime, logFile, None)
      && r.value.(agent := DefaultAgentSettings) == DefaultDispatcherSettings)
  {
    var a := NewAgentSettings(timeStep, sleepTime, logFile);
    if a.Err? then Err(a.error) else Ok(DefaultDispatcherSettings.(agent := a.value))
  }

  // ---------------------------------------------------------------- PlaneSettings

  datatype PlaneSettings = PlaneSettings(agent: AgentSettings, crashProbability: real, randomCrashError: real, landingDeceleration: real)

  /** Field initialisers: crash threshold 0.5, random error 0.1, deceleration 10 m/s². */
  const DefaultPlaneSettings := PlaneSettings(DefaultAgentSettings, 0.5, 0.1, 10.0)

  /** The documented ranges of the three plane properties (the crash threshold's right end is open in the code). */
  ghost predicate PlaneBounded(p: PlaneSettings) {
    && 0.0 <= p.crashProbability < 1.0
    && 0.0 <= p.randomCrashError <= 0.2
    && 1.0 <= p.landingDeceleration <= 20.0
  }

  /** `CrashProbability` setter: accepts exactly `[0, 1)`. */
  function SetCrashProbability(p: PlaneSettings, v: real): (r: Outcome<PlaneSettings>)
    ensures r.Ok? <==> 0.0 <= v < 1.0
    ensures r.Ok? ==> r.value == p.(crashProbability := v)
  {
    var c := ThrowOnClosedLeft(v, Some("CrashProbability"), Fin(0.0), Fin(1.0));
    if c.Err? then Err(c.error) else Ok(p.(crashProbability := v))
  }

  /** `RandomCrashError` setter: accepts exactly `[0, 0.2]`. */
  function SetRandomCrashError(p: PlaneSettings, v: real): (r: Outcome<PlaneSettings>)
    ensures r.Ok? <==> 0.0 <= v <= 0.2
    ensures r.Ok? ==> r.value == p.(randomCrashError := v)
  {
    var c := ThrowOnClosed(v, Some("RandomCrashError"), Fin(0.0), Fin(0.2));
    if c.Err? then Err(c.error) else Ok(p.(randomCrashError := v))
  }

  /** `LandingDeceleration` setter as written: checks `[1, 20]`, then stores the value as the random crash error. */
  function SetLandingDeceleration(p: PlaneSettings, v: real): (r: Outcome<PlaneSettings>)
    ensures r.Ok? <==> 1.0 <= v <= 20.0
    ensures r.Ok? ==> r.value.landingDeceleration == p.landingDeceleration && r.value.randomCrashError == v
  {
    var c := ThrowOnClosed(v, Some("LandingDeceleration"), Fin(1.0), Fin(20.0));
    if c.Err? then Err(c.error) else Ok(p.(randomCrashError := v))
  }

  /** The `LandingDeceleration` setter as intended: the checked value becomes the deceleration. */
  function SetLandingDecelerationIntended(p: PlaneSettings, v: real): (r: Outcome<PlaneSettings>)
    ensures r.Ok? <==> 1.0 <= v <= 20.0
    ensures r.Ok? ==> r.value == p.(landingDeceleration := v)
  {
    var c := ThrowOnClosed(v, Some("LandingDeceleration"), Fin(1.0), Fin(20.0));
    if c.Err? then Err(c.error) else Ok(p.(landingDeceleration := v))
  }

  /** As written, setting a deceleration of 5 leaves the deceleration at 10 and puts the random error out of range. */
  lemma DecelerationSetterBreaksBounds()
    ensures var r := SetLandingDeceleration(DefaultPlaneSettings, 5.0);
      r.Ok? && r.value.landingDeceleration == 10.0 && !PlaneBounded(r.value)
  {
  }

  /** As intended, the defaults satisfy the ranges and every accepted setter call keeps them. */
  lemma IntendedPlaneSettersKeepBounds(p: PlaneSettings, v: real)
    requires PlaneBounded(p)
    ensures PlaneBounded(DefaultPlaneSettings)
    ensures SetCrashProbability(p, v).Ok? ==> PlaneBounded(SetCrashProbability(p, v).value)
    ensures SetRandomCrashError(p, v).Ok? ==> PlaneBounded(SetRandomCrashError(p, v).value)
    ensures SetLandingDecelerationIntended(p, v).Ok? ==> PlaneBounded(SetLandingDecelerationIntended(p, v).value)
  {
  }

  /** `PlaneSettings(timeStep, sleepTime, logFile)`: the base constructor as written, other fields at their defaults. */
  function NewPlaneSettings(timeStep: real, sleepTime: real, logFile: Option<string>): (r: Outcome<PlaneSettings>)
    ensures r.Ok? <==> 0.0 < timeStep <= 10.0 && (sleepTime < 0.0 || 0.0 < sleepTime <= 10.0)
    ensures r.Err? ==> r.error == NewAgentSettings(timeStep, sleepTime, logFile).error
    ensures r.Ok? ==> (r.value.agent == AgentSettings(timeStep, if sleepTime < 0.0 then timeStep else sleepTime, logFile, None)
      && r.value.(agent := DefaultAgentSettings) == DefaultPlaneSettings)
  {
    var a := NewAgentSettings(timeStep, sleepTime, logFile);
    if a.Err? then Err(a.error) else Ok(DefaultPlaneSettings.(agent := a.value))
  }

  // ---------------------------------------------------------------- EnvironmentSettings

  datatype EnvironmentSettings = EnvironmentSettings(agent: AgentSettings, weatherChangeProbability: real)

  const DefaultEnvironmentSettings := EnvironmentSettings(DefaultAgentSettings, 0.0)

  /** `WeatherChangeProbability` setter: accepts exactly `[0, 0.1]`. */
  function SetWeatherChangeProbability(e: EnvironmentSettings, v: real): (r: Outcome<EnvironmentSettings>)
    ensures r.Ok? <==> 0.0 <= v <= 0.1
    ensures r.Ok? ==> r.value == e.(weatherChangeProbability := v)
  {
    var c := ThrowOnClosed(v, Some("WeatherChangeProbability"), Fin(0.0), Fin(0.1));
    if c.Err? then Err(c.error) else Ok(e.(weatherChangeProbability := v))
  }

  /** `EnvironmentSettings(timeStep, sleepTime, logFile)`: the base constructor as written, change probability 0. */
  function NewEnvironmentSettings(timeStep: real, sleepTime: real, logFile: Option<string>): (r: Outcome<EnvironmentSettings>)
    ensures r.Ok? <==> 0.0 < timeStep <= 10.0 && (sleepTime < 0.0 || 0.0 < sleepTime <= 10.0)
    ensures r.Err? ==> r.error == NewAgentSettings(timeStep, sleepTime, logFile).error
    ensures r.Ok? ==> r.value == EnvironmentSettings(
      AgentSettings(timeStep, if sleepTime < 0.0 then timeStep else sleepTime, logFile, None), 0.0)
  {
    var a := NewAgentSettings(timeStep, sleepTime, logFile);
    if a.Err? then Err(a.error) else Ok(DefaultEnvironmentSettings.(agent := a.value))
  }

  /** The three agent constructors inherit the base's rejection of the default pause 0. */
  lemma DerivedSettingsRejectDefaultSleep(timeStep: real, logFile: Option<string>)
    requires 0.0 < timeStep <= 10.0
    ensures NewDispatcherSettings(timeStep, 0.0, logFile).Err?
    ensures NewPlaneSettings(timeStep, 0.0, logFile).Err?
    ensures NewEnvironmentSettings(timeStep, 0.0, logFile).Err?
    ensures NewDispatcherSettings(timeStep, 0.0, logFile).error.name == Some("SleepTime")
    ensures NewPlaneSettings(timeStep, 0.0, logFile).error.name == Some("SleepTime")
    ensures NewEnvironmentSettings(timeStep, 0.0, logFile).error.name == Some("SleepTime")
  {
    DefaultSleepTimeRejected(timeStep, logFile);
  }
}
