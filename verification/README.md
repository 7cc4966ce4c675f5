# AirportSim core in Dafny

AirportSim simulates an airport as a set of agents that exchange messages through a
messaging client:

- **plane agents** fly towards the airport, ask the dispatcher for a landing route, circle in
  a holding queue when they are refused, then descend, brake and land, or crash;
- one **dispatcher agent** keeps a registry of the planes it knows about, split into a waiting
  set and one set per landing route. It grants a route when the capacity and separation
  rules allow it;
- one **environment agent** runs a random walk of the weather over five levels. It announces
  each change with the level's accident probability.

This project models that core as pure functions over immutable data and proves properties
of them:

- the agent step functions (`PlaneAgent`, `DispatcherAgent`, `EnvironmentAgent`);
- the dispatcher's `PlanesList` registry (`Registry`), over a model of the .NET
  `Dictionary` slot array and free list (`Dictionary`), because the separation test reads
  the first value in enumeration order;
- the base-agent loop: message filtering, outbox flushing, pacing, and the
  connect, tick, tear-down, disconnect trace (`BaseAgent`, `Runtime`);
- the message records and routing keys (`Messages`);
- the settings classes and their range checks (`Settings`, `Ranges`);
- the in-process and mock messaging clients (`LocalClient`, `MockClient`);
- the wiring of the agents and the cross-agent protocol (`Agents`).

How things are represented:

- Floats are reals.
- `cos`, `sin`, `atan2` and `pi` are fields of a `Trig` record that callers pass in.
- Length comparisons are squared-distance comparisons, which are exact for reals.
- `Random.NextSingle()` is a stream of draws `nat -> real`, with the index of the next draw
  carried in the agent's state.
- Exceptions are `Result` values.
- The clock is a parameter.
- An agent's endless loop is a function with a fuel bound. It produces a trace of
  `Connected`, `Received`, `Sent`, `Slept` and `Disconnected` events.
- `BaseAgent<TState>.Loop` and `StatelessAgent.Loop` have the same shape. Both are
  `Runtime.Loop`; the stateless agent is its own state.

Some behaviours of the code that are easy to misread, all of which the model follows:

- The doc comment of `CrashProbability` (`PlaneSettings.cs:14`) gives the range `[0, 1]`, but
  its setter (line 20) uses `ThrowOnClosedLeft`, so 1 is rejected and the range is `[0, 1)`.
- `NextStep` (`PlaneAgent.cs:39-94`) returns `false` only on a system exit (lines 57-65), on a
  crash inside the message loop (lines 70-75), or when the plane has landed (line 93). A plane
  that starts a tick Crashed with an empty inbox is moved and continues.
- Neither `OnPlanePositionMessage` (`PlaneAgent.cs:100-109`) nor `OnWeatherUpdateMessage`
  checks for Landed, so a Landed plane can still be crashed. Only Crashed is excluded, and only
  by the position handler.
- `GetAccidentP` (`EnvironmentAgent.cs:39-46`) has no arm for Fog, so Fog falls to the
  default arm and has accident probability 0.
- A plane sends its position message only from `Initialize` (`PlaneAgent.cs:33`). `NextStep`
  sends status reports and landing requests only.
- The doc comment of `SleepTime` (`AgentSettings.cs:32`) gives the range `(0, 10]`, and the
  constructor's parameter comment (line 62) gives `(0, 1]`. The setter (lines 40-48) accepts
  `(0, 10]` and negative values (which become the time step). It rejects 0, which is the
  constructor's default (see Findings).

## Model

| member | source | states |
|---|---|---|
| Messages.NewResponse | AirportSim.Library/Messages/LandingResponse.cs:13-25 | A response is accepted (`IsLandingAccepted`) exactly when both the entry point and the landing zone are present, and the fields are the ones given |
| Messages.DefaultResponse | AirportSim.Library/Messages/LandingResponse.cs:18 | The parameterless response is a refusal with zone radius 0 |
| Messages.DeniedResponse | AirportSim.Library/Messages/LandingResponse.cs:27-30 | The radius-only response is a refusal that carries the airport zone radius |
| Messages.ClassNameIsDiscriminator | AirportSim.Library/Messages/Message.cs:6-12 | The six derived message kinds have six distinct discriminator names; a plain message's name is not one of them; two bodies share a name exactly when they are of the same kind |
| Messages.NewMessage | AirportSim.Library/Messages/Message.cs:42-49 | The constructor records sender, receiver and body as given, and the type name is the body's class name |
| Messages.RoutingKeyRoundTrip | AirportSim.Library/Messages/Message.cs:30-35 | For a receiver type that is non-empty and has no dot, the routing key (`RoutingKey`: "", "T" or "T.I") parses back into the receiver type and id |
| Messages.RoutingKeyClassifies | AirportSim.Library/Messages/Message.cs:25-35 | For such a receiver type, `IsForAll` holds exactly when the routing key is empty, and otherwise `IsDirect` holds exactly when the key contains a dot |
| BaseAgent.QueueNameIsDirectRoutingKey | AirportSim.Library/Agents/BaseAgent.cs:44 | An agent's queue name (`QueueName`, "Type.Id") equals the routing key of a message addressed directly to it |
| BaseAgent.SelectMessage | AirportSim.Library/Agents/BaseAgent.cs:82-86 | The filter keeps, in their order, exactly the messages for everyone or for this id (ignoring case) that this id did not send, each as often as it occurs |
| BaseAgent.Rejects | AirportSim.Library/Agents/BaseAgent.cs:82-86 | The messages the filter drops all come from the inbox and fail the filter; together with the kept ones they make up the inbox, as a multiset |
| BaseAgent.SelectMessageCounts | AirportSim.Library/Agents/BaseAgent.cs:82-86 | The filter keeps every passing message exactly as often as it occurs in the inbox, and no failing message at all |
| BaseAgent.SelectMessageIsUnique | AirportSim.Library/Agents/BaseAgent.cs:82-86 | Any in-order selection of the messages that keeps each passing message as often as it occurs, and no other, is the filter's result |
| BaseAgent.SelectMessageIdempotent | AirportSim.Library/Agents/BaseAgent.cs:82-86 | Filtering an inbox twice gives the same messages as filtering it once |
| BaseAgent.SendMessages | AirportSim.Library/Agents/BaseAgent.cs:58-65 | The flush makes one send per outbox entry, in list order |
| BaseAgent.SendMessagesRoundTrip | AirportSim.Library/Agents/BaseAgent.cs:58-65 | The messages handed to the client by the flush are exactly the outbox: nothing is lost, duplicated or reordered |
| BaseAgent.Truncate | AirportSim.Library/Agents/BaseAgent.cs:49-56 | The `(int)` cast truncates toward zero: the result is within one of the argument, on the side of zero |
| BaseAgent.SleepDuration | AirportSim.Library/Agents/BaseAgent.cs:49-56 | A pause of 0 never sleeps; a sleep is a positive number of milliseconds equal to the truncated pause; a pause of at least 1 ms always sleeps |
| BaseAgent.SleepIgnoresElapsed | AirportSim.Library/Agents/BaseAgent.cs:49-56 | The sleep length does not depend on when the tick started, as the tick-based `DateTime` difference does not |
| Runtime.TicksIgnoreClock | AirportSim.Library/Agents/BaseAgentT.cs:26-42 | The ticks, with their trace, final state and last outbox, are the same whatever the clock reads |
| Runtime.LoopIgnoresClock | AirportSim.Library/Agents/BaseAgentT.cs:13-51 | A whole run of the agent loop is the same whatever the clock reads |
| BaseAgent.SleepEvents | AirportSim.Library/Agents/BaseAgent.cs:49-56 | A pause contributes at most one event to the trace, and it is a sleep |
| Runtime.TickEvents | AirportSim.Library/Agents/BaseAgentT.cs:26-42 | A tick starts by receiving from the agent's own queue, and never connects or disconnects |
| Runtime.TickTrace | AirportSim.Library/Agents/BaseAgentT.cs:26-42 | A tick receives once and hands the client exactly its outbox |
| Runtime.SendMessagesReceivesNothing | AirportSim.Library/Agents/BaseAgent.cs:58-65 | Flushing an outbox receives nothing |
| Runtime.Ticks | AirportSim.Library/Agents/BaseAgentT.cs:26-42 | The tick loop runs at most its fuel; it stops early only when a step says stop; it receives only from the agent's queue and never connects or disconnects |
| Runtime.TicksFollowSteps | AirportSim.Library/Agents/BaseAgentT.cs:26-42 | The loop's state is the one the steps compute. It stops after the first step that says stop, and every earlier step said continue |
| Runtime.TicksSend | AirportSim.Library/Agents/BaseAgentT.cs:26-42 | The loop receives once per tick, and the messages it sends are the concatenated outboxes of its steps |
| Runtime.TicksLastOutbox | AirportSim.Library/Agents/BaseAgentT.cs:26-42 | The outbox left after the loop is the last step's outbox, or the initial one when no tick ran |
| Runtime.Loop | AirportSim.Library/Agents/BaseAgentT.cs:13-51 | A run begins with a connect. A finished run ends with a disconnect, with none in between. Every receive is from the agent's queue |
| Runtime.StartTrace | AirportSim.Library/Agents/BaseAgentT.cs:19-23 | Connecting and flushing the initial outbox sends exactly that outbox and receives nothing |
| Runtime.LoopOpens | AirportSim.Library/Agents/BaseAgentT.cs:19-23 | A run's first events are the connect and then one send per initial-outbox message, in order; a run with no tick ends in the state `Initialize` returned |
| Runtime.FinishTrace | AirportSim.Library/Agents/BaseAgentT.cs:44-48 | The tear-down flush followed by the disconnect sends exactly the tear-down messages and receives nothing |
| Runtime.LoopSends | AirportSim.Library/Agents/BaseAgentT.cs:13-51 | Over a whole run, the messages sent are the initial outbox, then every step's outbox, then (once finished) the last outbox again followed by the tear-down messages; one receive per tick |
| Text.EqualsIgnoreCaseIsFoldEquality | AirportSim.Library/Agents/BaseAgent.cs:82-86 | The case-insensitive id comparison is equality of the upper-cased strings |
| Text.EqualsIgnoreCaseEquivalence | AirportSim.Library/Agents/BaseAgent.cs:82-86 | The case-insensitive id comparison is reflexive, symmetric and transitive |
| Extensions.MayBeNull | AirportSim.Library/Utils/Extensions.cs:7 | A missing collection reads as the empty one; a present one as itself |
| Extensions.ForceAdd | AirportSim.Library/Utils/Extensions.cs:9-14 | After the insert-or-overwrite, the key maps to the value, other keys are unchanged, and the count grows by one exactly when the key was new |
| Extensions.ForceAddKeepsSlot | AirportSim.Library/Utils/Extensions.cs:9-14 | Overwriting an existing key rewrites its own slot in place, so the enumeration order is unchanged |
| Extensions.ForceAddIdempotent | AirportSim.Library/Utils/Extensions.cs:9-14 | Writing the same key and value twice is the same as writing it once |
| Registry.NewPlanesList | AirportSim.Library/Agents/Dispatcher/PlanesList.cs:13-18 | A new registry has the requested number of empty routes and an empty waiting set, and knows no plane |
| Registry.TryGetPlane | AirportSim.Library/Agents/Dispatcher/PlanesList.cs:20-33 | The lookup tries the waiting set first (route -1), then the routes in order; it fails exactly when the plane is in none of them |
| Registry.PlanesByRoute | AirportSim.Library/Agents/Dispatcher/PlanesList.cs:38-43 | An invalid route id yields no planes; a valid one yields the route's planes in enumeration order |
| Registry.PlanesByRouteCount | AirportSim.Library/Agents/Dispatcher/PlanesList.cs:50-55 | An invalid route id counts 0; a valid one counts the route's planes |
| Registry.ContainsPlane | AirportSim.Library/Agents/Dispatcher/PlanesList.cs:58-59 | A plane is contained exactly when it is waiting or on some route |
| Registry.RemovePlane | AirportSim.Library/Agents/Dispatcher/PlanesList.cs:61-62 | Removal reports whether the plane was known, and removes it from the bucket the lookup finds it in, leaving every other bucket alone |
| Registry.UpdatePlane | AirportSim.Library/Agents/Dispatcher/PlanesList.cs:64-77 | An update overwrites the plane in the bucket the lookup finds it in; an unknown plane leaves the registry unchanged |
| Registry.TryGetCongruent | AirportSim.Library/Agents/Dispatcher/PlanesList.cs:20-33 | The lookup depends only on what each bucket holds for that id |
| Registry.RemovePlaneEffect | AirportSim.Library/Agents/Dispatcher/PlanesList.cs:61-62 | Removal keeps every plane in at most one bucket. Afterwards the plane is unknown, and every other plane's lookup is unchanged |
| Registry.UpdatePlaneEffect | AirportSim.Library/Agents/Dispatcher/PlanesList.cs:64-77 | An update keeps the plane in its bucket with the new state, keeps the one-bucket invariant, and leaves other planes alone |
| Registry.AddToWaiting | AirportSim.Library/Agents/Dispatcher/PlanesList.cs:79-80 | Adding to the waiting set keeps every dictionary of the registry well formed and touches no route |
| Registry.AddToRoute | AirportSim.Library/Agents/Dispatcher/PlanesList.cs:82-83 | Adding to a route keeps every dictionary of the registry well formed and touches neither the waiting set nor the other routes |
| Registry.AddToWaitingEffect | AirportSim.Library/Agents/Dispatcher/PlanesList.cs:79-80 | After adding to the waiting set (`AddToWaiting`), the plane is found waiting with its state; other planes are unchanged; the invariant holds if the plane was on no route |
| Registry.MoveToRouteEffect | AirportSim.Library/Agents/Dispatcher/PlanesList.cs:61-83 | Moving a waiting plane to a route (`RemovePlane`, then `AddToRoute`) puts it on that route. The route's count rises by one and the waiting count (`PlanesWaitingCount`) falls by one. Other routes and planes are unchanged, and the invariant holds |
| Registry.RemovePlaneCounts | AirportSim.Library/Agents/Dispatcher/PlanesList.cs:50-62 | Removal never increases a route's count |
| Registry.UpdatePlaneCounts | AirportSim.Library/Agents/Dispatcher/PlanesList.cs:50-77 | An update leaves every route's count unchanged |
| DispatcherAgent.ClosestZone | AirportSim.Library/Agents/Dispatcher/DispatcherAgent.cs:41-44 | An entry point is paired with zone A exactly when it is strictly closer to A along x, and otherwise with B |
| DispatcherAgent.ZoneAIffWest | AirportSim.Library/Agents/Dispatcher/DispatcherAgent.cs:25-44 | For a runway of positive length, zone A (the west end) serves exactly the entry points west of the axis |
| DispatcherAgent.BuildRoutes | AirportSim.Library/Agents/Dispatcher/DispatcherAgent.cs:33-45 | Route i has id i, enters at angle 360/count times i on the zone circle, and lands at the runway end closest to its entry |
| DispatcherAgent.NewDispatcher | AirportSim.Library/Agents/Dispatcher/DispatcherAgent.cs:22-46 | A new dispatcher has the configured number of routes, a well-formed empty registry, and knows no plane |
| DispatcherAgent.Rank | AirportSim.Library/Agents/Dispatcher/DispatcherAgent.cs:88 | Ranking the routes by distance is a permutation of the routes |
| DispatcherAgent.RankSorted | AirportSim.Library/Agents/Dispatcher/DispatcherAgent.cs:88 | The ranked routes are sorted by distance, and ties keep the id order (a stable sort) |
| DispatcherAgent.FirstWhereIsLeast | AirportSim.Library/Agents/Dispatcher/DispatcherAgent.cs:88-101 | In the ranked order, the first qualifying route comes before every other qualifying route |
| DispatcherAgent.ChooseRoute | AirportSim.Library/Agents/Dispatcher/DispatcherAgent.cs:88-101 | A chosen route is one of the dispatcher's routes, is under its capacity, and keeps the separation from its nearest plane |
| DispatcherAgent.ChooseRouteIsNearestQualifying | AirportSim.Library/Agents/Dispatcher/DispatcherAgent.cs:88-101 | No route is chosen exactly when none qualifies; otherwise the chosen route is nearest among the qualifying ones, ties to the lower id |
| DispatcherAgent.RouteIdInRange | AirportSim.Library/Agents/Dispatcher/DispatcherAgent.cs:33-45 | Every route's id indexes a route bucket of the registry |
| DispatcherAgent.OnLandingRequest | AirportSim.Library/Agents/Dispatcher/DispatcherAgent.cs:75-106 | An unknown or already routed plane is ignored. A waiting plane is granted the chosen route (moved to it, with an acceptance reply `AcceptMessage` carrying the route's entry, landing zone and the zone radius) or gets a refusal `DenyMessage` carrying the zone radius |
| DispatcherAgent.OnLandingRequestEffect | AirportSim.Library/Agents/Dispatcher/DispatcherAgent.cs:75-106 | A request keeps the one-bucket invariant, leaves other planes alone, sends at most one reply, and never lifts a route over capacity + 1 |
| DispatcherAgent.OnLandingRequestGrant | AirportSim.Library/Agents/Dispatcher/DispatcherAgent.cs:89-99 | A grant moves the plane from waiting onto the route, whose count was within capacity and rises by one |
| DispatcherAgent.OnPlaneStatus | AirportSim.Library/Agents/Dispatcher/DispatcherAgent.cs:108-125 | A final status (`IsFinalPlaneStatus`: Landed or Crashed) removes the plane; a new plane is added to waiting; a known plane's state is updated in place |
| DispatcherAgent.OnPlaneStatusEffect | AirportSim.Library/Agents/Dispatcher/DispatcherAgent.cs:108-125 | After a status report, a landed or crashed plane is gone, a new one is waiting with its state, and a known one keeps its bucket with the new state. Other planes are unchanged, and no route count grows |
| DispatcherAgent.HandleOne | AirportSim.Library/Agents/Dispatcher/DispatcherAgent.cs:52-67 | Handling one status or request message keeps the dispatcher well formed and its routes unchanged |
| DispatcherAgent.HandleAll | AirportSim.Library/Agents/Dispatcher/DispatcherAgent.cs:50-69 | Handling the inbox keeps the dispatcher well formed and its routes unchanged |
| DispatcherAgent.HandleAllProceeds | AirportSim.Library/Agents/Dispatcher/DispatcherAgent.cs:50-69 | The dispatcher continues exactly when every message in the filtered inbox is a status report or a landing request |
| DispatcherAgent.StopLeavesRestUnprocessed | AirportSim.Library/Agents/Dispatcher/DispatcherAgent.cs:50-69 | The first other message stops the step: the state and outbox are those after the messages before it, and the messages after it are not looked at |
| DispatcherAgent.HandleAllKeepsInvariant | AirportSim.Library/Agents/Dispatcher/DispatcherAgent.cs:50-101 | Over any inbox, every plane stays in at most one bucket, and no route rises above capacity + 1 unless it already was |
| DispatcherAgent.NextStep | AirportSim.Library/Agents/Dispatcher/DispatcherAgent.cs:48-70 | A step keeps the dispatcher well formed |
| DispatcherAgent.NextStepKeepsInvariant | AirportSim.Library/Agents/Dispatcher/DispatcherAgent.cs:48-70 | A step keeps the one-bucket invariant and the capacity bound, and continues exactly when every filtered message is one it handles |
| EnvironmentAgent.AccidentProbability | AirportSim.Library/Agents/Environment/EnvironmentAgent.cs:39-47 | Every level's accident probability lies in [0, 0.001), and it is 0 exactly for Fog |
| EnvironmentAgent.AccidentProbabilityIncreases | AirportSim.Library/Agents/Environment/EnvironmentAgent.cs:39-47 | Apart from Fog, a later weather level has a strictly higher accident probability |
| EnvironmentAgent.NextStep | AirportSim.Library/Agents/Environment/EnvironmentAgent.cs:11-37 | A system exit anywhere in the inbox stops the agent with nothing changed. Otherwise the weather moves at most one level, only on a draw below the change probability, and up only when the second draw exceeds 0.5. A weather message (`WeatherMessage`, the new level and its accident probability, to all planes) goes out exactly when the level changed |
| EnvironmentAgent.WalkIsClamped | AirportSim.Library/Agents/Environment/EnvironmentAgent.cs:20-33 | Once a change is drawn, the weather goes one level up (staying at Storm) or one level down (staying at Clear) |
| PlaneAgent.Initialize | AirportSim.Library/Agents/Plane/PlaneAgent.cs:27-36 | Initialization sets Approaching, turns towards the origin, keeps the position and speed, and sends the status to the dispatcher type (`StatusMessage`), then the position and crash probability to all planes (`PositionMessage`) |
| PlaneAgent.Closeness | AirportSim.Library/Agents/Plane/PlaneAgent.cs:219 | The closeness term 1/(d²/500 + 1) lies in (0, 1] |
| PlaneAgent.OnPlanePosition | AirportSim.Library/Agents/Plane/PlaneAgent.cs:100-109 | A crashed plane draws nothing and stays crashed. Any other plane draws once and crashes exactly when the collision test holds; otherwise its status is unchanged |
| PlaneAgent.OnWeatherUpdate | AirportSim.Library/Agents/Plane/PlaneAgent.cs:138-146 | A weather update draws once; the plane is crashed afterwards exactly when it already was or the draw is below the accident probability less epsilon |
| PlaneAgent.OnLandingResponse | AirportSim.Library/Agents/Plane/PlaneAgent.cs:112-135 | A refusal only records the zone radius. An acceptance records the route; an approaching plane turns to the entry point and is Entering; a queued plane is ExitingQueue; any other status is untouched |
| PlaneAgent.Handle | AirportSim.Library/Agents/Plane/PlaneAgent.cs:44-76 | Handling one message never gives back draws, and leaves the status unchanged or at its landing-response image |
| PlaneAgent.Process | AirportSim.Library/Agents/Plane/PlaneAgent.cs:44-76 | The message loop ends in a crash only with a Crashed status; it finishes Crashed only on an empty inbox with the state untouched |
| PlaneAgent.ProcessStatus | AirportSim.Library/Agents/Plane/PlaneAgent.cs:44-76 | Unless the loop ends in a crash, the status after all messages is the starting one or its landing-response image |
| PlaneAgent.ExitLeavesRestUnprocessed | AirportSim.Library/Agents/Plane/PlaneAgent.cs:57-65 | A system exit ends the loop with the state reached so far; the messages after it are not processed |
| PlaneAgent.ExitFirstChangesNothing | AirportSim.Library/Agents/Plane/PlaneAgent.cs:57-65 | A system exit as the first filtered message stops the plane with state and memory unchanged and nothing sent |
| PlaneAgent.CrashedStartStops | AirportSim.Library/Agents/Plane/PlaneAgent.cs:69-75 | A crashed plane with a message to handle stops and reports its Crashed status |
| PlaneAgent.CrashedStartWithEmptyInboxContinues | AirportSim.Library/Agents/Plane/PlaneAgent.cs:44-94 | A crashed plane with an empty filtered inbox moves and continues, sending nothing |
| PlaneAgent.NextStepMessages | AirportSim.Library/Agents/Plane/PlaneAgent.cs:39-94 | A step sends at most two messages, each a status report (`PlaneStatusMessage`) or a landing request (`LandingRequestMessage`), never a position. A system exit stops the plane and sends nothing. A crash in the message loop stops the plane where it was, with one status report. A tick that reads every message continues exactly when the plane is not Landed, and reports its status exactly when it changed. A request goes out exactly when the plane continues Approaching or InQueue |
| PlaneAgent.Move | AirportSim.Library/Agents/Plane/PlaneAgent.cs:153-166 | A move keeps speed and status; outside the queue it advances speed × time step along the heading |
| PlaneAgent.MoveDistance | AirportSim.Library/Agents/Plane/PlaneAgent.cs:153-166 | With cos² + sin² = 1, a queued plane ends on the zone circle, and any other plane moves exactly speed × time step |
| PlaneAgent.ScaledHeadingLength | AirportSim.Library/Agents/Plane/PlaneAgent.cs:164 | With cos² + sin² = 1, the heading scaled by k has length k |
| PlaneAgent.ChangeMovement | AirportSim.Library/Agents/Plane/PlaneAgent.cs:169-211 | At most one transition along the landing state machine. The position is kept, Landed and Crashed are fixed, and only Landing brakes, reaching Landed once the speed is not positive |
| PlaneAgent.NextStep | AirportSim.Library/Agents/Plane/PlaneAgent.cs:39-94 | A step never gives back draws from the random stream |
| PlaneAgent.NextStepStatus | AirportSim.Library/Agents/Plane/PlaneAgent.cs:39-94 | The status after a step is Crashed, or one edge from the starting status or its response image. Crashed stays Crashed, and Landed becomes only Landed or Crashed |
| PlaneAgent.CollisionAtZeroDistance | AirportSim.Library/Agents/Plane/PlaneAgent.cs:214-220 | Under the collision test (`IsCollided`), two planes at the same point always collide when the crash probabilities are at most 1 |
| PlaneAgent.ClosenessAntitone | AirportSim.Library/Agents/Plane/PlaneAgent.cs:219 | The closeness term never grows with distance |
| PlaneAgent.CollisionMonotone | AirportSim.Library/Agents/Plane/PlaneAgent.cs:214-220 | A collision with a farther plane implies one with a nearer plane under the same draw |
| Ranges.Flags | AirportSim.Library/Exceptions/RangeExeception.cs:3-10 | The range kind's flag value encodes left closedness in bit 0 and right closedness in bit 1 |
| Ranges.FromFlags | AirportSim.Library/Exceptions/RangeExeception.cs:3-10 | Every flag value below 4 names exactly one range kind |
| Ranges.FlagValues | AirportSim.Library/Exceptions/RangeExeception.cs:3-10 | Open, ClosedLeft, ClosedRight and Closed are 0, 1, 2 and 3 |
| Ranges.Throw | AirportSim.Library/Exceptions/RangeExeception.cs:28-41 | A rejection carries the bounds, range kind, value and name it was called with |
| Ranges.ThrowAcceptsExactlyTheInterval | AirportSim.Library/Exceptions/RangeExeception.cs:28-41 | The check accepts a value exactly when it lies in the interval, with each end open or closed as the range kind says |
| Ranges.DefaultBoundsAcceptAll | AirportSim.Library/Exceptions/RangeExeception.cs:28-41 | With the default infinite bounds every value is accepted |
| Ranges.ThrowOnClosedRight | AirportSim.Library/Exceptions/RangeExeception.cs:44-49 | Accepts exactly (min, max], and a rejection says ClosedRight |
| Ranges.ThrowOnClosedLeft | AirportSim.Library/Exceptions/RangeExeception.cs:52-57 | Accepts exactly [min, max), and a rejection says ClosedLeft |
| Ranges.ThrowOnClosed | AirportSim.Library/Exceptions/RangeExeception.cs:60-65 | Accepts exactly [min, max], and a rejection says Closed |
| Ranges.ThrowOnOpen | AirportSim.Library/Exceptions/RangeExeception.cs:68-73 | Accepts exactly (min, max), and a rejection says Open |
| Ranges.CreateMsg | AirportSim.Library/Exceptions/RangeExeception.cs:117-126 | The message is the name (or "Value"), " must be in range ", the left bracket of the range kind, the two bounds separated by ", ", the right bracket of the kind, and, when a value is given, " but got " and the value |
| Ranges.CreateMsgShowsKind | AirportSim.Library/Exceptions/RangeExeception.cs:119-125 | Two different range kinds never produce the same message for the same bounds, value and name |
| Settings.SetTimeStep | AirportSim.Library/Agents/AgentSettings.cs:21-29 | The time step accepts exactly (0, 10] and changes nothing else; a rejection names TimeStep and the value |
| Settings.SetSleepTime | AirportSim.Library/Agents/AgentSettings.cs:35-50 | A negative pause means "one time step". A non-negative one is accepted exactly in (0, 10], so 0 is rejected |
| Settings.SetSleepTimeIntended | AirportSim.Library/Agents/AgentSettings.cs:35-50 | The corrected setter: a negative pause means "one time step"; a non-negative one is accepted exactly up to 10, including 0 |
| Settings.SettersKeepTimesBounded | AirportSim.Library/Agents/AgentSettings.cs:21-50 | Every accepted time-step or pause assignment keeps both values within [0, 10] |
| Settings.NewAgentSettings | AirportSim.Library/Agents/AgentSettings.cs:65-70 | The constructor succeeds exactly when both setters accept, and stores the time step and the resolved pause |
| Settings.NewAgentSettingsIntended | AirportSim.Library/Agents/AgentSettings.cs:65-70 | The constructor over the corrected pause setter succeeds exactly for a valid time step and a pause of at most 10 |
| Settings.DefaultSleepTimeRejected | AirportSim.Library/Agents/AgentSettings.cs:46-65 | The constructor with its default pause 0 always throws, and with a valid time step the error names SleepTime |
| Settings.DefaultSleepTimeAccepted | AirportSim.Library/Agents/AgentSettings.cs:46-65 | With the corrected setter, the default pause 0 is accepted and stored |
| Settings.SetMinPlanesDistance | AirportSim.Library/Agents/Dispatcher/DispatcherSettings.cs:15-23 | The minimum separation accepts exactly positive values and changes nothing else |
| Settings.SetAirportZoneRadius | AirportSim.Library/Agents/Dispatcher/DispatcherSettings.cs:26-34 | The zone radius accepts exactly (runway length, 1000] and changes nothing else |
| Settings.SetRoutesCount | AirportSim.Library/Agents/Dispatcher/DispatcherSettings.cs:38-46 | The route count accepts exactly 1 to 10 and changes nothing else |
| Settings.SetAirstripLength | AirportSim.Library/Agents/Dispatcher/DispatcherSettings.cs:49-57 | The runway length as written accepts exactly [100, max(radius, 1000)] |
| Settings.SetAirstripLengthIntended | AirportSim.Library/Agents/Dispatcher/DispatcherSettings.cs:49-57 | The corrected runway setter accepts exactly [100, radius] |
| Settings.SetMaxPlanesAtRoute | AirportSim.Library/Agents/Dispatcher/DispatcherSettings.cs:59 | The capacity is stored unchecked and nothing else changes |
| Settings.DispatcherSettersKeepBounds | AirportSim.Library/Agents/Dispatcher/DispatcherSettings.cs:8-57 | The defaults are in bounds, and every accepted dispatcher assignment keeps separation positive, 1 to 10 routes, radius up to 1000 and runway in [100, 1000] |
| Settings.StripLongerThanZoneAccepted | AirportSim.Library/Agents/Dispatcher/DispatcherSettings.cs:54 | With radius 500, a runway of 800 is accepted, so the runway sticks out of the airport zone |
| Settings.IntendedSettersKeepStripInsideZone | AirportSim.Library/Agents/Dispatcher/DispatcherSettings.cs:26-57 | With the corrected runway setter, every accepted assignment keeps the runway no longer than the zone radius |
| Settings.NewDispatcherSettings | AirportSim.Library/Agents/Dispatcher/DispatcherSettings.cs:65-69 | The constructor runs the base checks as written: it succeeds exactly when the time step is in (0, 10] and the pause is negative or in (0, 10], fails with the base's error otherwise, and keeps the dispatcher defaults |
| Settings.SetCrashProbability | AirportSim.Library/Agents/Plane/PlaneSettings.cs:15-23 | The crash probability accepts exactly [0, 1) and changes nothing else |
| Settings.SetRandomCrashError | AirportSim.Library/Agents/Plane/PlaneSettings.cs:26-34 | The crash noise accepts exactly [0, 0.2] and changes nothing else |
| Settings.SetLandingDeceleration | AirportSim.Library/Agents/Plane/PlaneSettings.cs:37-45 | As written, the deceleration setter accepts exactly [1, 20] but stores the value as the crash noise and leaves the deceleration unchanged |
| Settings.SetLandingDecelerationIntended | AirportSim.Library/Agents/Plane/PlaneSettings.cs:37-45 | The corrected setter accepts exactly [1, 20] and stores the deceleration |
| Settings.DecelerationSetterBreaksBounds | AirportSim.Library/Agents/Plane/PlaneSettings.cs:43 | Setting the deceleration to 5 is accepted, leaves it at 10, and puts the crash noise out of its [0, 0.2] range |
| Settings.IntendedPlaneSettersKeepBounds | AirportSim.Library/Agents/Plane/PlaneSettings.cs:9-45 | The defaults are in bounds, and every accepted assignment of a corrected plane setter keeps all three values in their ranges |
| Settings.NewPlaneSettings | AirportSim.Library/Agents/Plane/PlaneSettings.cs:50-54 | The constructor runs the base checks as written: it succeeds exactly when the time step is in (0, 10] and the pause is negative or in (0, 10], fails with the base's error otherwise, and keeps the plane defaults |
| Settings.SetWeatherChangeProbability | AirportSim.Library/Agents/Environment/EnvironmentSettings.cs:12-20 | The change probability accepts exactly [0, 0.1] and changes nothing else |
| Settings.NewEnvironmentSettings | AirportSim.Library/Agents/Environment/EnvironmentSettings.cs:25-29 | The constructor runs the base checks as written: it succeeds exactly when the time step is in (0, 10] and the pause is negative or in (0, 10], fails with the base's error otherwise, and has change probability 0 |
| Settings.DerivedSettingsRejectDefaultSleep | AirportSim.Library/Agents/AgentSettings.cs:65-70 | Called with their default pause 0, the dispatcher, plane and environment settings constructors all fail on SleepTime |
| LocalClient.Create | AirportSim.Library/Communications/LocalMessengingClient.cs:15-18 | The factory returns the existing instance, or a new client with no queues, which it then keeps |
| LocalClient.CreateIsSingleton | AirportSim.Library/Communications/LocalMessengingClient.cs:15-18 | Calling the factory again returns the same client |
| LocalClient.Connect | AirportSim.Library/Communications/LocalMessengingClient.cs:55-58 | Connecting adds an empty queue "queue_key", and fails exactly when that name exists |
| LocalClient.MatchQueue | AirportSim.Library/Communications/LocalMessengingClient.cs:66-71 | A direct message matches "type_id"; one for a type matches queues starting with the type; one for everyone throws |
| LocalClient.SendMessage | AirportSim.Library/Communications/LocalMessengingClient.cs:22-26 | Sending appends the message to every matching queue and no other. It fails exactly when a message with neither receiver type nor receiver id meets at least one queue |
| LocalClient.ReceiveMessages | AirportSim.Library/Communications/LocalMessengingClient.cs:28-36 | Receiving returns the queue's whole content, or nothing for an unknown name, and leaves that queue empty |
| LocalClient.ReceiveMessage | AirportSim.Library/Communications/LocalMessengingClient.cs:38-43 | Receiving one fails exactly on an empty queue; otherwise it pops the oldest message |
| LocalClient.PeekMessage | AirportSim.Library/Communications/LocalMessengingClient.cs:45-50 | Peeking returns the oldest message without removing it, and fails exactly on an empty queue |
| LocalClient.Disconnect | AirportSim.Library/Communications/LocalMessengingClient.cs:60 | Disconnecting drops every queue |
| LocalClient.SendThenReceive | AirportSim.Library/Communications/LocalMessengingClient.cs:22-36 | A send followed by a receive on a queue returns the old content plus the message exactly when the queue matched |
| LocalClient.PeekThenReceive | AirportSim.Library/Communications/LocalMessengingClient.cs:38-50 | Peeking shows what receiving one would return, and peeking twice changes nothing |
| LocalClient.SendAllIsFifo | AirportSim.Library/Communications/LocalMessengingClient.cs:22-36 | Sending a list of messages appends to each queue exactly the matching ones, in sending order |
| LocalClient.DirectMessageMissesAgentQueue | AirportSim.Library/Communications/LocalMessengingClient.cs:55-71 | A message sent directly to an agent is not delivered to the agent's "Type.Id" queue |
| LocalClient.ForAllMessageThrows | AirportSim.Library/Communications/LocalMessengingClient.cs:66-71 | A message for everyone (such as a system exit) throws as soon as any queue exists |
| LocalClient.ConnectIntended | AirportSim.Library/Communications/LocalMessengingClient.cs:55-58 | The corrected connect adds an empty queue "queue.key", and fails exactly when that name exists |
| LocalClient.SendMessageIntended | AirportSim.Library/Communications/LocalMessengingClient.cs:22-71 | The corrected send appends the message to exactly the queues the corrected match selects, and never fails |
| LocalClient.DirectMessageReachesAgent | AirportSim.Library/Communications/LocalMessengingClient.cs:55-71 | With the corrected client, a direct message to a freshly connected agent is exactly what the agent receives, and no other queue changes |
| LocalClient.ForAllMessageReachesEveryQueue | AirportSim.Library/Communications/LocalMessengingClient.cs:66-71 | With the corrected client, a message for everyone is appended to every queue |
| MockClient.NewMockClient | AirportSim.Library/Communications/MockMessengingClient.cs:14-22 | A new mock holds the given messages (none when absent), the given capacity, and has sent nothing |
| MockClient.DefaultMockClient | AirportSim.Library/Communications/MockMessengingClient.cs:14 | The parameterless mock drains at most 5 messages per receive, starts empty and has sent nothing |
| MockClient.CreateStubMessage | AirportSim.Library/Communications/MockMessengingClient.cs:24-25 | A stub message is queued last, and nothing else changes |
| MockClient.ReceiveMessages | AirportSim.Library/Communications/MockMessengingClient.cs:28-34 | A negative capacity throws. Otherwise the mock dequeues the min(capacity, count) oldest messages, in order, keeping the rest, whatever the queue name |
| MockClient.DrainSplits | AirportSim.Library/Communications/MockMessengingClient.cs:28-34 | Draining n messages splits the queue into a prefix of min(n, count) and the rest |
| MockClient.ReceiveMessagesIsDrain | AirportSim.Library/Communications/MockMessengingClient.cs:28-34 | The loop's result is the recursive drain of the queue |
| MockClient.ReceiveMessage | AirportSim.Library/Communications/MockMessengingClient.cs:36-39 | Receiving one gives nothing on an empty queue; otherwise it pops the oldest message |
| MockClient.PeekMessage | AirportSim.Library/Communications/MockMessengingClient.cs:41-44 | Peeking gives the oldest message, or nothing exactly when the queue is empty |
| MockClient.SendMessage | AirportSim.Library/Communications/MockMessengingClient.cs:46-49 | Sending records the message last in the sent list and leaves the queue alone |
| MockClient.Connect | AirportSim.Library/Communications/MockMessengingClient.cs:51-53 | Connecting has no effect |
| MockClient.Disconnect | AirportSim.Library/Communications/MockMessengingClient.cs:51-53 | Disconnecting has no effect |
| MockClient.PeekThenReceive | AirportSim.Library/Communications/MockMessengingClient.cs:36-44 | Peeking shows what receiving one would return |
| MockClient.StubThenReceive | AirportSim.Library/Communications/MockMessengingClient.cs:24-39 | A stub on an empty mock is the next message received; on a non-empty one it does not change what is received next |
| Agents.PlaneAgentOf | AirportSim.Library/Agents/Plane/PlaneAgent.cs:27-94 | The plane agent is identified as PlaneAgent with its configured id |
| Agents.DispatcherAgentOf | AirportSim.Library/Agents/Dispatcher/DispatcherAgent.cs:22-70 | The dispatcher agent is identified as DispatcherAgent "dispatcher" |
| Agents.EnvironmentAgentOf | AirportSim.Library/Agents/Environment/EnvironmentAgent.cs:8-37 | The environment agent is identified as EnvironmentAgent "environment" |
| Agents.PlaneDefaultLoop | AirportSim.Library/Agents/BaseAgentT.cs:13-53 | A plane's parameterless `Loop()` connects, then reports the default state (origin, at rest) as Approaching and turned towards the origin, then broadcasts the origin; a run with no tick ends in that state with a plane that knows nothing yet |
| Agents.EnvironmentDefaultLoop | AirportSim.Library/Agents/BaseAgentT.cs:13-53 | The environment's parameterless `Loop()` connects and sends nothing before its first receive from its own queue; a run with no tick is unfinished and still Clear |
| Agents.PlaneConfigOf | AirportSim.Library/Agents/Plane/PlaneAgent.cs:19-24 | A plane takes its time step, crash probability, crash noise and deceleration from its settings |
| Agents.DispatcherOf | AirportSim.Library/Agents/Dispatcher/DispatcherAgent.cs:22-46 | A dispatcher built from bounded settings has 1 to 10 routes, positive separation and an empty registry |
| Agents.BrakingShortensEveryTick | AirportSim.Library/Agents/Plane/PlaneAgent.cs:202-209 | With bounded settings, each landing tick removes at least 1 m/s of speed, and a plane at 1 m/s or less lands |
| Agents.TicksNeverSleep | AirportSim.Library/Agents/BaseAgent.cs:49-56 | With a pause of 0, the tick loop never sleeps |
| Agents.DefaultPauseNeverSleeps | AirportSim.Library/Agents/AgentSettings.cs:65-70 | With the corrected settings, the default pause 0 is accepted, and the run never sleeps |
| Agents.FiltersPass | AirportSim.Library/Agents/BaseAgent.cs:82-86 | A plane's status and request messages pass the dispatcher's filter, and the dispatcher's replies pass the plane's, when the plane's id is not "dispatcher" |
| Agents.AnnouncementReachesDispatcher | AirportSim.Library/Agents/Plane/PlaneAgent.cs:27-36 | With the corrected client, of a plane's two initial messages the dispatcher queue receives exactly the status report |
| Agents.FirstReportRegistersPlane | AirportSim.Library/Agents/Dispatcher/DispatcherAgent.cs:108-125 | A new plane's first status report registers it as waiting, with no reply |
| Agents.GrantedRequestStartsEntering | AirportSim.Library/Agents/Dispatcher/DispatcherAgent.cs:97-99 | A granted request yields one acceptance; an approaching plane handling it is Entering, with the route's entry point and landing zone |
| Agents.DeniedRequestKeepsStatus | AirportSim.Library/Agents/Dispatcher/DispatcherAgent.cs:104-105 | A refused request leaves the dispatcher unchanged and sends one refusal; the plane keeps its state and records only the zone radius |
| Agents.WeatherCrashNeedsUnluckyDraw | AirportSim.Library/Agents/Plane/PlaneAgent.cs:138-146 | A crash from a weather announcement needs a draw below that level's accident probability; in Fog no non-negative draw crashes a plane |
| Agents.SystemExitStopsEveryAgent | AirportSim.Library/Messages/SystemExitMessage.cs:7 | A system-exit message stops the dispatcher, the environment (unchanged, nothing sent) and a plane (state unchanged, nothing sent) |

## Left out

- Floating-point rounding and NaN: `float` arithmetic is exact real arithmetic here. `0.2f` and the other float literals are their decimal values. `float.Epsilon` is a positive constant.
- `cos`, `sin`, `atan2` and `pi` are uninterpreted fields of a `Trig` parameter. Only the identity cos² + sin² = 1 is assumed, and only where a lemma states it as a requirement.
- Object identity: plane states travel by reference in the .NET messages and the registry. The model copies values, so later mutation of a shared state is not reflected.
- Threads, timing and `Thread.Sleep`: a pause is a `Slept` event in the trace, and the clock is a parameter.
- `Random`: a stream of draws passed in. Seeding, including the unused `Seed` property, is not modelled.
- Message ids (`Guid`), timestamps (`DateTime`), default agent ids taken from a `Guid` prefix, logging and `ToString` output.
- RabbitMQ client, JSON serialization (`MessageConverter`), `TypeDictionary`, the controller program, host and file I/O: these are outside the simulated core.
- String comparison: `StartsWith` is ordinal, and case folding covers ASCII letters only. .NET's culture rules are not modelled.
- `IDisposable` and the parameterless `Connect()` of the clients, which have no effect on queues.
- Runtime.Loop: the endless `while` runs for at most a fuel number of ticks; a run that uses up its fuel is reported as unfinished rather than continuing.
- Registry.AddToRoute: requires a valid route id, while the .NET list would throw on an invalid one; the dispatcher only ever passes ids of its own routes (DispatcherAgent.RouteIdInRange).
- PlaneAgent.Move: a zero holding radius is not modelled. `PlaneAgent.cs:157` divides by the radius unguarded, which in .NET floats gives an infinite or NaN heading that reals cannot express, so the model keeps the heading when the radius is 0. The radius cannot be 0 in a run: a plane starts with 1500 (`PlaneAgent.cs:22`) and only ever takes the dispatcher's zone radius, which its setter only accepts above the strip length at that moment, itself at least 100 (`DispatcherSettings.cs:31`, `DispatcherSettings.cs:54`).
- Agents: the plane, dispatcher and environment wiring uses the corrected settings constructors and the corrected local client, so the protocol lemmas describe the system as evidently intended; the as-written behaviour is stated separately in Findings.

## Findings

| source | as written | input that shows it | evidently intended | confidence | as-written member | corrected member |
|---|---|---|---|---|---|---|
| AirportSim.Library/Communications/LocalMessengingClient.cs:55-58 | `Connect(queue, key)` names the queue `queue_key`, and a direct message matches `type_id`, but agents receive from `Type.Id` | Connect("PlaneAgent", "p1"), send a message to PlaneAgent p1, then receive from "PlaneAgent.p1": the result is empty | queues named `Type.Id`, the routing key of a direct message | not executed | LocalClient.DirectMessageMissesAgentQueue | LocalClient.DirectMessageReachesAgent |
| AirportSim.Library/Communications/LocalMessengingClient.cs:66-71 | a message with no receiver type reaches `StartsWith(null)` | send the system-exit message while any queue exists: it throws | a message for everyone is delivered to every queue | not executed | LocalClient.ForAllMessageThrows | LocalClient.ForAllMessageReachesEveryQueue |
| AirportSim.Library/Agents/AgentSettings.cs:46 | the `SleepTime` setter rejects 0 while the constructor's default pause is 0 and `Sleep` treats 0 as "no pause" | `new AgentSettings(1)` throws, and so do `new DispatcherSettings(1)`, `new PlaneSettings(1)` and `new EnvironmentSettings(1)` | a pause in [0, 10], with 0 meaning no pause | not executed | Settings.DefaultSleepTimeRejected | Settings.DefaultSleepTimeAccepted |
| AirportSim.Library/Agents/Plane/PlaneSettings.cs:43 | the `LandingDeceleration` setter writes the crash-noise field | setting `LandingDeceleration = 5` leaves it at 10 and sets the crash noise to 5 | the setter stores the deceleration | not executed | Settings.DecelerationSetterBreaksBounds | Settings.IntendedPlaneSettersKeepBounds |
| AirportSim.Library/Agents/Dispatcher/DispatcherSettings.cs:54 | the runway bound is `max(AirportZoneRadius, 1000)`, which is always 1000 since the radius is at most 1000 | radius 500, then runway 800 is accepted | the runway is at most the airport zone radius, as its documentation says | not executed | Settings.StripLongerThanZoneAccepted | Settings.IntendedSettersKeepStripInsideZone |
