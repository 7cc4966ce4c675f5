/**
 * `MockMessengingClient`: one FIFO inbox shared by every queue name, a bounded drain, and a log
 * of everything sent.
 */
module MockClient {
  import opened Wrappers
  import opened Messages

  /** `maxReceiveMsg`, the inbox (head first) and `SentMessages` (in call order). */
  datatype MockClient = MockClient(maxReceiveMsg: int, messages: seq<Message>, sent: seq<Message>)

  /** `new List<Message>(maxReceiveMsg)` with a negative capacity. */
  datatype MockError = NegativeCapacity

  /** The constructor: the initial messages are enqueued in their given order; `None` is an empty inbox. */
  function NewMockClient(maxReceiveMsg: int, initial: Option<seq<Message>>): (c: MockClient)
    ensures c.maxReceiveMsg == maxReceiveMsg && c.sent == []
    ensures c.messages == initial.GetOr([])
  {
    MockClient(maxReceiveMsg, if initial.Some? then initial.value else [], [])
  }

  /** The constructor's default for `maxReceiveMsg`. */
  const DefaultMaxReceive: int := 5

  /** `new MockMessengingClient()`: the default capacity and an empty inbox. */
  function DefaultMockClient(): (c: MockClient)
    ensures c.maxReceiveMsg == 5 && c.messages == [] && c.sent == []
  {
    NewMockClient(DefaultMaxReceive, None)
  }

  /** `CreateStubMessage`: appends at the tail. */
  function CreateStubMessage(c: MockClient, m: Message): (r: MockClient)
    ensures r.messages == c.messages + [m]
    ensures r.maxReceiveMsg == c.maxReceiveMsg && r.sent == c.sent
  {
    c.(messages := c.messages + [m])
  }

  function Min(a: int, b: int): int {
    if a <= b then a else b
  }

  /**
   * `ReceiveMessages(queue)`: dequeues the `min(maxReceiveMsg, count)` oldest messages; the queue
   * name is ignored. A negative `maxReceiveMsg` throws when the result list is allocated.
   */
  method ReceiveMessages(c: MockClient, queue: string) returns (r: Result<(MockClient, seq<Message>), MockError>)
    ensures c.maxReceiveMsg < 0 <==> r.Err?
    ensures r.Ok? ==> var (c', received) := r.value;
      && |received| == Min(c.maxReceiveMsg, |c.messages|)
      && received + c'.messages == c.messages
      && c'.maxReceiveMsg == c.maxReceiveMsg && c'.sent == c.sent
      && Drain(c.messages, c.maxReceiveMsg) == (received, c'.messages)
  {
    if c.maxReceiveMsg < 0 {
      return Err(NegativeCapacity);
    }
    var received: seq<Message> := [];
    var messages := c.messages;
    var i := 0;
    while i < c.maxReceiveMsg && |messages| != 0
      invariant 0 <= i <= c.maxReceiveMsg
      invariant |received| == i
      invariant received + messages == c.messages
      decreases |messages|
    {
      received := received + [messages[0]];
      messages := messages[1..];
      i := i + 1;
    }
    ReceiveMessagesIsDrain(c, received, messages);
    return Ok((c.(messages := messages), received));
  }

  /** `ReceiveMessage(queue)`: `null` on an empty inbox, otherwise the dequeued head. */
  function ReceiveMessage(c: MockClient, queue: string): (r: (MockClient, Option<Message>))
    ensures c.messages == [] ==> r == (c, None)
    ensures c.messages != [] ==> r.1 == Some(c.messages[0]) && r.0 == c.(messages := c.messages[1..])
  {
    if |c.messages| != 0 then (c.(messages := c.messages[1..]), Some(c.messages[0])) else (c, None)
  }

  /** `PeekMessage(queue)`: the head, or `null`; never removes. */
  function PeekMessage(c: MockClient, queue: string): (r: Option<Message>)
    ensures r.None? <==> c.messages == []
    ensures r.Some? ==> r.value == c.messages[0]
  {
    if |c.messages| != 0 then Some(c.messages[0]) else None
  }

  /** `SendMessage`: appended to `SentMessages`; the inbox is untouched. */
  function SendMessage(c: MockClient, m: Message): (r: MockClient)
    ensures r.sent == c.sent + [m]
    ensures r.messages == c.messages && r.maxReceiveMsg == c.maxReceiveMsg
  {
    c.(sent := c.sent + [m])
  }

  /** `Connect`, `Connect(queue, routingKey)` and `Disconnect` do nothing. */
  function Connect(c: MockClient, queue: string, routingKey: string): (r: MockClient)
    ensures r == c
  {
    c
  }

  function Disconnect(c: MockClient): (r: MockClient)
    ensures r == c
  {
    c
  }

  /** A reference drain: the first `n` messages leave, in order. */
  function Drain(ms: seq<Message>, n: nat): (r: (seq<Message>, seq<Message>))
    decreases n
  {
    if n == 0 || ms == [] then ([], ms)
    else var (a, b) := Drain(ms[1..], n - 1); ([ms[0]] + a, b)
  }

  /** The drain takes the oldest `min(n, count)` messages and leaves the rest in order. */
  lemma {:induction false} DrainSplits(ms: seq<Message>, n: nat)
    ensures var (a, b) := Drain(ms, n); |a| == Min(n, |ms|) && a + b == ms
    decreases n
  {
    if n > 0 && ms != [] {
      DrainSplits(ms[1..], n - 1);
      var (a, b) := Drain(ms[1..], n - 1);
      assert [ms[0]] + a + b == [ms[0]] + (a + b);
    }
  }

  /** `ReceiveMessages` agrees with the reference drain. */
  lemma ReceiveMessagesIsDrain(c: MockClient, received: seq<Message>, rest: seq<Message>)
    requires c.maxReceiveMsg >= 0
    requires |received| == Min(c.maxReceiveMsg, |c.messages|) && received + rest == c.messages
    ensures Drain(c.messages, c.maxReceiveMsg) == (received, rest)
  {
    DrainSplits(c.messages, c.maxReceiveMsg);
    var (a, b) := Drain(c.messages, c.maxReceiveMsg);
    assert a == c.messages[..|a|] == received;
  }

  /** Peeking and then receiving one message see the same head. */
  lemma PeekThenReceive(c: MockClient, queue: string)
    ensures PeekMessage(c, queue) == ReceiveMessage(c, queue).1
  {
  }

  /** Stubbed messages come out in the order they were stubbed, behind the ones already waiting. */
  lemma StubThenReceive(c: MockClient, m: Message, queue: string)
    ensures c.messages == [] ==> ReceiveMessage(CreateStubMessage(c, m), queue).1 == Some(m)
    ensures c.messages != [] ==> ReceiveMessage(CreateStubMessage(c, m), queue).1 == ReceiveMessage(c, queue).1
  {
  }
}
