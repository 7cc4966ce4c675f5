/**
 * `LocalMessengingClient`: a process-wide map from queue names to FIFO queues. Sending enqueues a
 * message on every queue whose name matches its receiver; receiving drains or pops one queue.
 */
module LocalClient {
  import opened Wrappers
  import opened Text
  import opened Messages
  import opened BaseAgent

  /** The queue map. Queue order inside the map does not affect any result. */
  datatype LocalClient = LocalClient(queues: map<string, seq<Message>>)

  /** The exceptions the client's operations raise. */
  datatype ClientError =
    | DuplicateQueue(name: string)   // `Dictionary.Add` of an existing key
    | NullPrefix                     // `StartsWith(null)`
    | EmptyQueue                     // `Dequeue`/`Peek` of an empty queue

  const NoQueues := LocalClient(map[])

  /** `Create`: the singleton, built on first use and returned unchanged afterwards. */
  function Create(instance: Option<LocalClient>): (r: (LocalClient, Option<LocalClient>))
    ensures r.1 == Some(r.0)
    ensures instance.Some? ==> r.0 == instance.value
    ensures instance.None? ==> r.0 == NoQueues
  {
    match instance
    case Some(c) => (c, instance)
    case None => (NoQueues, Some(NoQueues))
  }

  /** Every later call returns the instance the first call built. */
  lemma CreateIsSingleton(instance: Option<LocalClient>)
    ensures var (c, i) := Create(instance); Create(i).0 == c && Create(i).1 == i
  {
  }

  // ------------------------------------------------------------ as written

  /** The queue name `Connect(queue, routingKey)` registers. */
  function ConnectedName(queue: string, routingKey: string): string {
    queue + "_" + routingKey
  }

  /** `Connect(queue, routingKey)`: adds an empty queue "queue_routingKey"; an existing name throws. */
  function Connect(c: LocalClient, queue: string, routingKey: string): (r: Result<LocalClient, ClientError>)
    ensures var name := ConnectedName(queue, routingKey);
      && (r.Err? <==> name in c.queues)
      && (r.Ok? ==> r.value.queues == c.queues[name := []])
  {
    var name := ConnectedName(queue, routingKey);
    if name in c.queues then Err(DuplicateQueue(name)) else Ok(LocalClient(c.queues[name := []]))
  }

  /**
   * `MatchQueue`: without a receiver id, a prefix test against the receiver type (which throws for
   * a missing type); with one, equality with "type_id", a missing type reading as "".
   */
  function MatchQueue(key: string, m: Message): (r: Result<bool, ClientError>)
    ensures r.Err? <==> m.receiverId.None? && m.receiverType.None?
    ensures m.receiverId.Some? ==> r == Ok(key == m.receiverType.GetOr("") + "_" + m.receiverId.value)
    ensures m.receiverId.None? && m.receiverType.Some? ==> r == Ok(StartsWith(key, m.receiverType.value))
  {
    match m.receiverId
    case Some(i) => Ok(key == m.receiverType.GetOr("") + "_" + i)
    case None =>
      match m.receiverType
      case None => Err(NullPrefix)
      case Some(t) => Ok(StartsWith(key, t))
  }

  /** The queues after enqueuing `m` on each queue `matches` selects. */
  function EnqueueWhere(queues: map<string, seq<Message>>, m: Message, matches: string -> bool): (r: map<string, seq<Message>>)
    ensures r.Keys == queues.Keys
    ensures forall k :: k in queues ==> r[k] == if matches(k) then queues[k] + [m] else queues[k]
  {
    map k | k in queues :: if matches(k) then queues[k] + [m] else queues[k]
  }

  /** `SendMessage`: enqueue on every matching queue; with no queues no key is matched, so nothing throws. */
  function SendMessage(c: LocalClient, m: Message): (r: Result<LocalClient, ClientError>)
    ensures r.Err? <==> |c.queues| > 0 && m.receiverId.None? && m.receiverType.None?
    ensures r.Ok? ==> r.value.queues.Keys == c.queues.Keys
    ensures r.Ok? ==> forall k :: k in c.queues ==>
      r.value.queues[k] == if MatchQueue(k, m) == Ok(true) then c.queues[k] + [m] else c.queues[k]
  {
    if |c.queues| > 0 && m.receiverId.None? && m.receiverType.None? then Err(NullPrefix)
    else Ok(LocalClient(EnqueueWhere(c.queues, m, k => MatchQueue(k, m) == Ok(true))))
  }

  // ------------------------------------------------------------ receiving

  /** The queue under `name`, created empty when absent. */
  function Ensure(c: LocalClient, name: string): (r: LocalClient)
    ensures r.queues.Keys == c.queues.Keys + {name}
    ensures r.queues[name] == if name in c.queues then c.queues[name] else []
    ensures forall k :: k in c.queues ==> r.queues[k] == c.queues[k]
  {
    if name in c.queues then c else LocalClient(c.queues[name := []])
  }

  /** `ReceiveMessages(queue)`: the whole queue in FIFO order; the queue is left empty (and exists). */
  function ReceiveMessages(c: LocalClient, name: string): (r: (LocalClient, seq<Message>))
    ensures r.1 == if name in c.queues then c.queues[name] else []
    ensures r.0.queues == c.queues[name := []]
  {
    var e := Ensure(c, name);
    (LocalClient(e.queues[name := []]), e.queues[name])
  }

  /** `ReceiveMessage(queue)`: removes and returns the head; an empty queue throws, after being created. */
  function ReceiveMessage(c: LocalClient, name: string): (r: (LocalClient, Result<Message, ClientError>))
    ensures var q := if name in c.queues then c.queues[name] else [];
      && (r.1.Err? <==> q == [])
      && (r.1.Err? ==> r.0.queues == c.queues[name := []])
      && (r.1.Ok? ==> r.0.queues == c.queues[name := q[1..]] && [r.1.value] + r.0.queues[name] == q)
  {
    var e := Ensure(c, name);
    var q := e.queues[name];
    if q == [] then (e, Err(EmptyQueue))
    else (LocalClient(e.queues[name := q[1..]]), Ok(q[0]))
  }

  /** `PeekMessage(queue)`: returns the head without removing it; an empty queue throws. */
  function PeekMessage(c: LocalClient, name: string): (r: (LocalClient, Result<Message, ClientError>))
    ensures var q := if name in c.queues then c.queues[name] else [];
      && r.0.queues == c.queues[name := q]
      && (r.1.Err? <==> q == [])
      && (r.1.Ok? ==> r.1.value == q[0])
  {
    var e := Ensure(c, name);
    var q := e.queues[name];
    if q == [] then (e, Err(EmptyQueue)) else (e, Ok(q[0]))
  }

  /** `Disconnect`: all queues are removed. */
  function Disconnect(c: LocalClient): (r: LocalClient)
    ensures |r.queues| == 0
  {
    NoQueues
  }

  // ------------------------------------------------------------ FIFO properties

  /** Sending `m` and then draining a matching queue yields what was waiting there, then `m`. */
  lemma SendThenReceive(c: LocalClient, m: Message, name: string)
    requires name in c.queues
    requires SendMessage(c, m).Ok?
    ensures ReceiveMessages(SendMessage(c, m).value, name).1 ==
      c.queues[name] + (if MatchQueue(name, m) == Ok(true) then [m] else [])
  {
  }

  /** Popping a non-empty queue and peeking it beforehand see the same head. */
  lemma PeekThenReceive(c: LocalClient, name: string)
    ensures PeekMessage(c, name).1 == ReceiveMessage(c, name).1
    ensures PeekMessage(PeekMessage(c, name).0, name) == PeekMessage(c, name)
  {
  }

  /** Sending a sequence of messages in order. */
  function SendAll(c: LocalClient, ms: seq<Message>): (r: Result<LocalClient, ClientError>)
    decreases |ms|
  {
    if ms == [] then Ok(c)
    else
      var r := SendMessage(c, ms[0]);
      if r.Err? then r else SendAll(r.value, ms[1..])
  }

  /** The messages of `ms` that `MatchQueue` routes to queue `name`, in order. */
  function Routed(name: string, ms: seq<Message>): (r: seq<Message>)
    ensures |r| <= |ms|
    decreases |ms|
  {
    if ms == [] then []
    else (if MatchQueue(name, ms[0]) == Ok(true) then [ms[0]] else []) + Routed(name, ms[1..])
  }

  lemma ConcatAssoc(a: seq<Message>, b: seq<Message>, c: seq<Message>)
    ensures (a + b) + c == a + (b + c)
  {
  }

  /** FIFO: a queue receives the messages routed to it in sending order, behind what it already held. */
  lemma {:induction false} SendAllIsFifo(c: LocalClient, ms: seq<Message>, name: string)
    requires name in c.queues
    requires SendAll(c, ms).Ok?
    ensures name in SendAll(c, ms).value.queues
    ensures SendAll(c, ms).value.queues[name] == c.queues[name] + Routed(name, ms)
    decreases |ms|
  {
    if ms != [] {
      var c' := SendMessage(c, ms[0]).value;
      var h := if MatchQueue(name, ms[0]) == Ok(true) then [ms[0]] else [];
      var q := c.queues[name];
      var tail := Routed(name, ms[1..]);
      assert c'.queues[name] == q + h;
      SendAllIsFifo(c', ms[1..], name);
      assert SendAll(c, ms).value.queues[name] == (q + h) + tail;
      assert Routed(name, ms) == h + tail;
      ConcatAssoc(q, h, tail);
    }
  }

  // ------------------------------------------------------------ what the agents see

  /** The agent's connection, as the loops make it: queue = Type, routing key = Id. */
  function ConnectAgent(c: LocalClient, a: AgentId): Result<LocalClient, ClientError> {
    Connect(c, a.agentType, a.id)
  }

  /** A message addressed directly to the agent. */
  predicate DirectTo(m: Message, a: AgentId) {
    m.receiverType == Some(a.agentType) && m.receiverId == Some(a.id)
  }

  /**
   * As written, a message addressed directly to an agent never reaches the queue the agent reads
   * ("Type.Id"): it is exact-matched against "Type_Id" only.
   */
  lemma DirectMessageMissesAgentQueue(c: LocalClient, a: AgentId, m: Message)
    requires DirectTo(m, a)
    requires QueueName(a) in c.queues
    ensures SendMessage(c, m).Ok?
    ensures SendMessage(c, m).value.queues[QueueName(a)] == c.queues[QueueName(a)]
  {
    var key := QueueName(a);
    var joined := a.agentType + "_" + a.id;
    assert key[|a.agentType|] == '.' && joined[|a.agentType|] == '_';
    assert key != joined;
  }

  /** As written, a message for everyone (no receiver type) throws as soon as one queue exists. */
  lemma ForAllMessageThrows(c: LocalClient, m: Message)
    requires m.IsForAll() && m.receiverId.None?
    requires |c.queues| > 0
    ensures SendMessage(c, m) == Err(NullPrefix)
  {
  }

  // ------------------------------------------------------------ as intended

  /** The intended connection: the queue carries the agent's own name, "Type.Id". */
  function ConnectIntended(c: LocalClient, queue: string, routingKey: string): (r: Result<LocalClient, ClientError>)
    ensures var name := queue + "." + routingKey;
      && (r.Err? <==> name in c.queues)
      && (r.Ok? ==> r.value.queues == c.queues[name := []])
  {
    var name := queue + "." + routingKey;
    if name in c.queues then Err(DuplicateQueue(name)) else Ok(LocalClient(c.queues[name := []]))
  }

  /**
   * The intended match: a message for everyone matches every queue, a type broadcast every queue
   * whose name starts with the type, and a direct message the queue named by its routing key.
   */
  predicate MatchQueueIntended(key: string, m: Message) {
    if m.IsForAll() then true
    else if m.receiverId.Some? then key == m.RoutingKey()
    else StartsWith(key, m.receiverType.value)
  }

  function SendMessageIntended(c: LocalClient, m: Message): (r: LocalClient)
    ensures r.queues.Keys == c.queues.Keys
    ensures forall k :: k in c.queues ==>
      r.queues[k] == if MatchQueueIntended(k, m) then c.queues[k] + [m] else c.queues[k]
  {
    LocalClient(EnqueueWhere(c.queues, m, k => MatchQueueIntended(k, m)))
  }

  /** As intended, a message addressed directly to a connected agent is received by that agent, and by no other queue. */
  lemma DirectMessageReachesAgent(c: LocalClient, a: AgentId, m: Message)
    requires DirectTo(m, a)
    requires ConnectIntended(c, a.agentType, a.id).Ok?
    ensures var c' := SendMessageIntended(ConnectIntended(c, a.agentType, a.id).value, m);
      && ReceiveMessages(c', QueueName(a)).1 == [m]
      && forall k :: k in c'.queues && k != QueueName(a) ==> c'.queues[k] == c.queues[k]
  {
  }

  /** As intended, a message for everyone reaches every queue. */
  lemma ForAllMessageReachesEveryQueue(c: LocalClient, m: Message)
    requires m.IsForAll()
    ensures forall k :: k in c.queues ==> SendMessageIntended(c, m).queues[k] == c.queues[k] + [m]
  {
  }
}
