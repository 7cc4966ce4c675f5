/**
 * The helpers of `BaseAgent`: the agent's identity and queue name, the message filter,
 * the outbox flush and the pacing rule. Client calls are recorded as trace events.
 */
module BaseAgent {
  import opened Wrappers
  import opened Text
  import opened Messages

  /** `Type` (the runtime class name) and `Id` of an agent. */
  datatype AgentId = AgentId(agentType: string, id: string)

  const PlaneAgentType := "PlaneAgent"
  const DispatcherAgentType := "DispatcherAgent"
  const EnvironmentAgentType := "EnvironmentAgent"

  /** `ToString()`: "Type.Id", the queue the loops receive from. */
  function QueueName(a: AgentId): string {
    a.agentType + "." + a.id
  }

  /** The queue name is the routing key of a message addressed directly to the agent. */
  lemma QueueNameIsDirectRoutingKey(a: AgentId, m: Message)
    requires m.receiverType == Some(a.agentType) && m.receiverId == Some(a.id)
    ensures m.RoutingKey() == QueueName(a)
  {
  }

  /** A call the agent makes on its messaging client, or its pacing sleep. */
  datatype Event =
    | Connected(queue: string, routingKey: string)
    | Received(queue: string)
    | Sent(msg: Message)
    | Slept(ms: int)
    | Disconnected

  /** The filter of `SelectMessage`: addressed to everyone or to this id, and not sent by this id. */
  predicate Keep(m: Message, id: string) {
    (m.receiverId.None? || EqualsIgnoreCase(m.receiverId.value, id)) && !EqualsIgnoreCase(m.senderId, id)
  }

  /** `a` is `b` with some elements dropped and the rest in their order. */
  predicate Subsequence<T(==)>(a: seq<T>, b: seq<T>)
    decreases |b|
  {
    if |a| == 0 then true
    else if |b| == 0 then false
    else if a[0] == b[0] then Subsequence(a[1..], b[1..])
    else Subsequence(a, b[1..])
  }

  /** The messages the filter drops, in their order. */
  function Rejects(ms: seq<Message>, id: string): (d: seq<Message>)
    ensures forall m :: m in d ==> m in ms && !Keep(m, id)
  {
    if |ms| == 0 then []
    else if Keep(ms[0], id) then Rejects(ms[1..], id)
    else [ms[0]] + Rejects(ms[1..], id)
  }

  /**
   * `SelectMessage(messages)`: the passing messages in their order, each as often as it occurs,
   * so repeated equal messages (a waiting plane's request every tick) are all kept.
   */
  function SelectMessage(ms: seq<Message>, id: string): (r: seq<Message>)
    ensures Subsequence(r, ms)
    ensures forall m :: m in r <==> m in ms && Keep(m, id)
    ensures |r| <= |ms|
    ensures multiset(r) + multiset(Rejects(ms, id)) == multiset(ms)
  {
    if |ms| == 0 then []
    else
      assert ms == [ms[0]] + ms[1..];
      if Keep(ms[0], id) then [ms[0]] + SelectMessage(ms[1..], id)
      else SelectMessage(ms[1..], id)
  }

  /** Each passing message is kept as often as it occurs, and no other message at all. */
  lemma SelectMessageCounts(ms: seq<Message>, id: string, m: Message)
    ensures multiset(SelectMessage(ms, id))[m] == if Keep(m, id) then multiset(ms)[m] else 0
  {
    var r := SelectMessage(ms, id);
    var d := Rejects(ms, id);
    assert (multiset(r) + multiset(d))[m] == multiset(r)[m] + multiset(d)[m];
    if Keep(m, id) {
      assert m !in d;
    } else {
      assert m !in r;
    }
  }

  /** A subsequence holds each element at most as often as the whole. */
  lemma {:induction false} SubsequenceCounts<T>(a: seq<T>, b: seq<T>, x: T)
    requires Subsequence(a, b)
    ensures multiset(a)[x] <= multiset(b)[x]
    decreases |b|
  {
    if |a| > 0 {
      assert a == [a[0]] + a[1..] && b == [b[0]] + b[1..];
      if a[0] == b[0] {
        SubsequenceCounts(a[1..], b[1..], x);
      } else {
        SubsequenceCounts(a, b[1..], x);
      }
    }
  }

  /**
   * The contract of `SelectMessage` pins its result: any in-order selection of `ms` with the
   * filter's multiplicities is the filter itself.
   */
  lemma {:induction false} SelectMessageIsUnique(ms: seq<Message>, id: string, r: seq<Message>)
    requires Subsequence(r, ms)
    requires forall m :: multiset(r)[m] == if Keep(m, id) then multiset(ms)[m] else 0
    ensures r == SelectMessage(ms, id)
    decreases |ms|
  {
    if |ms| > 0 {
      var h, t := ms[0], ms[1..];
      assert ms == [h] + t;
      if |r| > 0 && r[0] == h {
        assert r == [h] + r[1..];
        assert Keep(h, id) by { assert multiset(r)[h] > 0; }
        SelectMessageIsUnique(t, id, r[1..]);
      } else {
        assert Subsequence(r, t);
        SubsequenceCounts(r, t, h);
        assert !Keep(h, id);
        SelectMessageIsUnique(t, id, r);
      }
    }
  }

  /** Filtering twice is filtering once. */
  lemma {:induction false} SelectMessageIdempotent(ms: seq<Message>, id: string)
    ensures SelectMessage(SelectMessage(ms, id), id) == SelectMessage(ms, id)
  {
    if |ms| > 0 {
      SelectMessageIdempotent(ms[1..], id);
      if Keep(ms[0], id) {
        assert ([ms[0]] + SelectMessage(ms[1..], id))[1..] == SelectMessage(ms[1..], id);
      }
    }
  }

  /** `SendMessages()`: one `SendMessage` call per outbox entry, in list order. */
  function SendMessages(out: seq<Message>): (t: seq<Event>)
    ensures |t| == |out|
    ensures forall i :: 0 <= i < |t| ==> t[i] == Sent(out[i])
  {
    if |out| == 0 then [] else [Sent(out[0])] + SendMessages(out[1..])
  }

  /** The messages a trace hands to the client, in order. */
  function SentOf(t: seq<Event>): seq<Message> {
    if |t| == 0 then [] else (if t[0].Sent? then [t[0].msg] else []) + SentOf(t[1..])
  }

  lemma {:induction false} SentOfConcat(a: seq<Event>, b: seq<Event>)
    ensures SentOf(a + b) == SentOf(a) + SentOf(b)
  {
    if |a| > 0 {
      assert (a + b)[0] == a[0] && (a + b)[1..] == a[1..] + b;
      SentOfConcat(a[1..], b);
      var h := if a[0].Sent? then [a[0].msg] else [];
      assert SentOf(a + b) == h + (SentOf(a[1..]) + SentOf(b));
      assert SentOf(a) == h + SentOf(a[1..]);
    } else {
      assert a + b == b;
    }
  }

  /** The flush hands over exactly the outbox: nothing lost, duplicated or reordered. */
  lemma {:induction false} SendMessagesRoundTrip(out: seq<Message>)
    ensures SentOf(SendMessages(out)) == out
  {
    if |out| > 0 {
      SendMessagesRoundTrip(out[1..]);
      assert SendMessages(out) == [Sent(out[0])] + SendMessages(out[1..]);
      SentOfConcat([Sent(out[0])], SendMessages(out[1..]));
    }
  }

  /** C#'s `(int)` cast of a double: truncation toward zero. */
  function Truncate(x: real): (n: int)
    ensures x >= 0.0 ==> n as real <= x < n as real + 1.0
    ensures x < 0.0 ==> n as real - 1.0 < x <= n as real
  {
    if x >= 0.0 then x.Floor else -((-x).Floor)
  }

  /**
   * `Sleep(start)`: the milliseconds handed to `Thread.Sleep`, or `None` when it is not
   * called. `start` is the tick's start time in seconds.
   */
  function SleepDuration(start: real, sleepTime: real): (ms: Option<int>)
    ensures sleepTime == 0.0 ==> ms.None?
    ensures ms.Some? ==> ms.value > 0 && ms.value as real <= sleepTime * 1000.0 < ms.value as real + 1.0
    ensures sleepTime >= 0.001 ==> ms.Some?
  {
    if sleepTime == 0.0 then None
    else
      var n := Truncate(((start + sleepTime) - start) * 1000.0);
      if n > 0 then Some(n) else None
  }

  /**
   * The pause does not depend on the tick's start time: `start.AddSeconds(sleepTime) - start`
   * is computed on whole `DateTime` ticks, so only the conversion of `sleepTime` to ticks rounds,
   * whatever `start` is (short of overflow near `DateTime.MaxValue`).
   * `Runtime.LoopIgnoresClock` lifts it to whole runs.
   */
  lemma SleepIgnoresElapsed(start1: real, start2: real, sleepTime: real)
    ensures SleepDuration(start1, sleepTime) == SleepDuration(start2, sleepTime)
  {
  }

  /** The trace event of a tick's pacing. */
  function SleepEvents(ms: Option<int>): (t: seq<Event>)
    ensures |t| <= 1 && forall e :: e in t ==> e.Slept?
  {
    match ms
    case None => []
    case Some(n) => [Slept(n)]
  }
}
