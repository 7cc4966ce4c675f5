/**
 * The message envelope of `Message.cs` with its six derived kinds folded into one tagged
 * union, and the `LandingResponse` payload.
 */
module Messages {
  import opened Wrappers
  import opened Geometry
  import opened States

  /** `LandingResponse`: a route entry and landing zone when authorised, and the zone radius. */
  datatype LandingResponse = LandingResponse(enter: Option<Vec>, landingZone: Option<Vec>, airportZoneRadius: real) {

    /** Accepted exactly when both points are present. */
    predicate IsLandingAccepted() {
      enter.Some? && landingZone.Some?
    }
  }

  /** `new LandingResponse()`. */
  function DefaultResponse(): (r: LandingResponse)
    ensures !r.IsLandingAccepted()
    ensures r.airportZoneRadius == 0.0
  {
    LandingResponse(None, None, 0.0)
  }

  /** `new LandingResponse(enter, landingZone, radius)`. */
  function NewResponse(enter: Option<Vec>, landingZone: Option<Vec>, radius: real): (r: LandingResponse)
    ensures r.IsLandingAccepted() <==> enter.Some? && landingZone.Some?
    ensures r.enter == enter && r.landingZone == landingZone && r.airportZoneRadius == radius
  {
    LandingResponse(enter, landingZone, radius)
  }

  /** `new LandingResponse(radius)`: a denial that advertises the zone radius. */
  function DeniedResponse(radius: real): (r: LandingResponse)
    ensures !r.IsLandingAccepted()
    ensures r.airportZoneRadius == radius
  {
    LandingResponse(None, None, radius)
  }

  /**
   * The payload, tagged by the runtime class of the message. `Plain` is a bare `Message`
   * (for instance one the deserialiser could not map to a derived class): its `Type`
   * string came over the wire and may be anything.
   */
  datatype Body =
    | SystemExit
    | LandingRequest
    | LandingResponseBody(response: LandingResponse)
    | PlanePosition(position: Vec, crashProbability: Option<real>)
    | WeatherUpdate(weather: WeatherType, accidentProbability: real)
    | PlaneStatus(state: PlaneState)
    | Plain

  /** `GetType().Name` of the message carrying `b`. */
  function ClassName(b: Body): string {
    match b
    case SystemExit => "SystemExitMessage"
    case LandingRequest => "LandingRequestMessage"
    case LandingResponseBody(_) => "LandingResponseMessage"
    case PlanePosition(_, _) => "PlanePositionMessage"
    case WeatherUpdate(_, _) => "WeatherUpdateMessage"
    case PlaneStatus(_) => "PlaneStatusMessage"
    case Plain => "Message"
  }

  /** The JSON type discriminators registered on `Message`. */
  const Discriminators: set<string> := {
    "SystemExitMessage", "LandingRequestMessage", "LandingResponseMessage",
    "PlanePositionMessage", "WeatherUpdateMessage", "PlaneStatusMessage"
  }

  /** Which of the seven classes a body belongs to. */
  function KindOf(b: Body): (k: nat)
    ensures k < 7
  {
    match b
    case SystemExit => 0
    case LandingRequest => 1
    case LandingResponseBody(_) => 2
    case PlanePosition(_, _) => 3
    case WeatherUpdate(_, _) => 4
    case PlaneStatus(_) => 5
    case Plain => 6
  }

  /** The class name identifies the kind, and exactly the six derived kinds are discriminators. */
  lemma ClassNameIsDiscriminator(a: Body, b: Body)
    ensures ClassName(a) in Discriminators <==> !a.Plain?
    ensures ClassName(a) == ClassName(b) <==> KindOf(a) == KindOf(b)
    ensures |Discriminators| == 6
  {
    assert "SystemExitMessage"[0] == 'S' && "LandingRequestMessage"[7] == 'R'
      && "LandingResponseMessage"[7] == 'R' && "LandingRequestMessage"[9] == 'q'
      && "LandingResponseMessage"[9] == 's' && "PlanePositionMessage"[5] == 'P'
      && "PlaneStatusMessage"[5] == 'S' && "WeatherUpdateMessage"[0] == 'W' && "Message"[0] == 'M';
  }

  /**
   * `Message` without its generated `Id` and `Time`. `typeName` is the `Type` property.
   * A `receiverId` implies a `receiverType` for every message the agents build.
   */
  datatype Message = Message(
    senderType: string,
    senderId: string,
    receiverType: Option<string>,
    receiverId: Option<string>,
    typeName: string,
    body: Body)
  {
    predicate IsDirect() { receiverId.Some? }

    predicate IsForAll() { receiverType.None? }

    /** `RoutingKey`: "" for everyone, the type for a type broadcast, "type.id" for a direct message. */
    function RoutingKey(): string {
      match receiverType
      case None => ""
      case Some(t) =>
        match receiverId
        case None => t
        case Some(i) => t + "." + i
    }
  }

  /** `new XMessage(senderType, senderId, receiverType, receiverId)`: `Type` is the class name. */
  function NewMessage(senderType: string, senderId: string, receiverType: Option<string>,
                      receiverId: Option<string>, body: Body): (m: Message)
    ensures m.typeName == ClassName(body) && m.body == body
    ensures m.senderType == senderType && m.senderId == senderId
    ensures m.receiverType == receiverType && m.receiverId == receiverId
  {
    Message(senderType, senderId, receiverType, receiverId, ClassName(body), body)
  }

  /** Recognised as a system exit either by class or by its `Type` string. */
  predicate IsSystemExit(m: Message) {
    m.body.SystemExit? || m.typeName == "SystemExitMessage"
  }

  /** Splits a routing key at its first '.' into receiver type and receiver id. */
  function ParseRoutingKey(key: string): (r: (Option<string>, Option<string>))
  {
    if key == "" then (None, None)
    else match IndexOfDot(key)
      case None => (Some(key), None)
      case Some(i) => (Some(key[..i]), Some(key[i + 1..]))
  }

  function IndexOfDot(s: string): (r: Option<nat>)
    ensures r.Some? ==> r.value < |s| && s[r.value] == '.' && '.' !in s[..r.value]
    ensures r.None? ==> '.' !in s
  {
    if |s| == 0 then None
    else if s[0] == '.' then Some(0)
    else match IndexOfDot(s[1..])
      case None => None
      case Some(j) => assert s[..j + 1] == [s[0]] + s[1..][..j]; Some(j + 1)
  }

  /**
   * The routing key loses nothing: for a non-empty receiver type without a '.', the
   * receiver type and id are recovered from it, provided a receiver id comes with a type.
   */
  lemma {:induction false} RoutingKeyRoundTrip(m: Message)
    requires m.receiverId.Some? ==> m.receiverType.Some?
    requires m.receiverType.Some? ==> m.receiverType.value != "" && '.' !in m.receiverType.value
    ensures ParseRoutingKey(m.RoutingKey()) == (m.receiverType, m.receiverId)
  {
    match m.receiverType
    case None =>
    case Some(t) =>
      var key := m.RoutingKey();
      match m.receiverId
      case None =>
        assert IndexOfDot(key).None?;
      case Some(i) =>
        IndexOfDotAfterType(t, i);
        assert key[..|t|] == t && key[|t| + 1..] == i;
  }

  /**
   * `IsForAll` and `IsDirect` can be read off the routing key: it is empty exactly for a
   * message to everyone, and holds a dot exactly for a direct message, when the receiver
   * type is non-empty and has no dot.
   */
  lemma RoutingKeyClassifies(m: Message)
    requires m.receiverType.Some? ==> m.receiverType.value != "" && '.' !in m.receiverType.value
    ensures m.IsForAll() <==> m.RoutingKey() == ""
    ensures !m.IsForAll() ==> ('.' in m.RoutingKey() <==> m.IsDirect())
  {
    if m.receiverType.Some? && m.receiverId.Some? {
      var t, i := m.receiverType.value, m.receiverId.value;
      assert (t + "." + i)[|t|] == '.';
    }
  }

  lemma {:induction false} IndexOfDotAfterType(t: string, i: string)
    requires '.' !in t
    ensures IndexOfDot(t + "." + i) == Some(|t|)
  {
    if |t| > 0 {
      assert (t + "." + i)[1..] == t[1..] + "." + i;
      IndexOfDotAfterType(t[1..], i);
    }
  }
}
