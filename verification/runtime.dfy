/**
 * The agent life cycle shared by `BaseAgent<TState>.Loop` and `StatelessAgent.Loop`:
 * connect, initialise and flush, then ticks of receive, step, flush and pace until a step
 * returns `false`, then tear down, flush once more and disconnect.
 *
 * The messaging client is observed through the trace of calls the agent makes on it. What
 * `ReceiveMessages` returns at tick `k` is the parameter `inbox(k)`, and the start time of
 * tick `k` is `clock(k)`. The loop is unbounded in the source; here it runs for at most
 * `fuel` ticks.
 */
module Runtime {
  import opened Wrappers
  import opened Messages
  import opened BaseAgent

  datatype StepResult<S> = StepResult(proceed: bool, state: S, outbox: seq<Message>)

  /** An agent as the loop sees it: its identity and its overridable hooks. */
  datatype Agent<!S> = Agent(
    id: AgentId,
    init: S -> (S, seq<Message>),
    step: (S, seq<Message>) -> StepResult<S>,
    tearDown: S -> seq<Message>)

  /** The ticks of a loop: their trace, and where they left the agent. */
  datatype Run<S> = Run(events: seq<Event>, state: S, lastOutbox: seq<Message>, ticks: nat, finished: bool)

  // ----- reference semantics: the steps alone -----

  /** The state after `n` steps from tick `k`, ignoring whether they asked to continue. */
  function After<S>(a: Agent<S>, inbox: nat -> seq<Message>, s: S, k: nat, n: nat): S
    decreases n
  {
    if n == 0 then s else After(a, inbox, a.step(s, inbox(k)).state, k + 1, n - 1)
  }

  /** Each of the `n` steps from tick `k` returned `true`. */
  predicate AllProceed<S>(a: Agent<S>, inbox: nat -> seq<Message>, s: S, k: nat, n: nat)
    decreases n
  {
    n == 0 || (a.step(s, inbox(k)).proceed && AllProceed(a, inbox, a.step(s, inbox(k)).state, k + 1, n - 1))
  }

  /** The outboxes of the `n` steps from tick `k`, concatenated. */
  function Outboxes<S>(a: Agent<S>, inbox: nat -> seq<Message>, s: S, k: nat, n: nat): seq<Message>
    decreases n
  {
    if n == 0 then []
    else a.step(s, inbox(k)).outbox + Outboxes(a, inbox, a.step(s, inbox(k)).state, k + 1, n - 1)
  }

  /** `b` ends with `a`. */
  predicate EndsWith<T(==)>(b: seq<T>, a: seq<T>) {
    |a| <= |b| && b[|b| - |a|..] == a
  }

  lemma EndsWithPrepend<T>(x: seq<T>, ys: seq<T>, z: seq<T>)
    requires EndsWith(ys, z)
    ensures EndsWith(x + ys, z)
  {
    assert (x + ys)[|x + ys| - |z|..] == ys[|ys| - |z|..];
  }

  function CountReceived(t: seq<Event>): nat {
    if |t| == 0 then 0 else (if t[0].Received? then 1 else 0) + CountReceived(t[1..])
  }

  lemma {:induction false} CountReceivedConcat(a: seq<Event>, b: seq<Event>)
    ensures CountReceived(a + b) == CountReceived(a) + CountReceived(b)
  {
    if |a| == 0 {
      assert a + b == b;
    } else {
      assert (a + b)[0] == a[0] && (a + b)[1..] == a[1..] + b;
      CountReceivedConcat(a[1..], b);
    }
  }

  lemma {:induction false} SendMessagesReceivesNothing(out: seq<Message>)
    ensures CountReceived(SendMessages(out)) == 0
  {
    if |out| > 0 {
      assert SendMessages(out) == [Sent(out[0])] + SendMessages(out[1..]);
      CountReceivedConcat([Sent(out[0])], SendMessages(out[1..]));
      SendMessagesReceivesNothing(out[1..]);
    }
  }

  // ----- the loop -----

  /** The trace of one tick: receive from the agent's own queue, flush the outbox, pace. */
  function TickEvents(queue: string, outbox: seq<Message>, sleep: Option<int>): (t: seq<Event>)
    ensures |t| >= 1 && t[0] == Received(queue)
    ensures forall e :: e in t ==> !e.Connected? && !e.Disconnected?
    ensures forall e :: e in t && e.Received? ==> e.queue == queue
  {
    [Received(queue)] + SendMessages(outbox) + SleepEvents(sleep)
  }

  /** The `for (shouldContinue = true; shouldContinue; ...)` loop, from tick `k`. */
  function Ticks<S>(a: Agent<S>, sleepTime: real, clock: nat -> real, inbox: nat -> seq<Message>,
                    s: S, last: seq<Message>, k: nat, fuel: nat): (r: Run<S>)
    ensures r.ticks <= fuel
    ensures !r.finished ==> r.ticks == fuel
    ensures forall e :: e in r.events ==> !e.Connected? && !e.Disconnected?
    ensures forall e :: e in r.events && e.Received? ==> e.queue == QueueName(a.id)
    decreases fuel
  {
    if fuel == 0 then Run([], s, last, 0, false)
    else
      var res := a.step(s, inbox(k));
      var tick := TickEvents(QueueName(a.id), res.outbox, SleepDuration(clock(k), sleepTime));
      if !res.proceed then Run(tick, res.state, res.outbox, 1, true)
      else
        var rest := Ticks(a, sleepTime, clock, inbox, res.state, res.outbox, k + 1, fuel - 1);
        Run(tick + rest.events, rest.state, rest.lastOutbox, rest.ticks + 1, rest.finished)
  }

  /** A tick receives once and hands the client exactly its outbox. */
  lemma TickTrace(queue: string, outbox: seq<Message>, sleep: Option<int>)
    ensures SentOf(TickEvents(queue, outbox, sleep)) == outbox
    ensures CountReceived(TickEvents(queue, outbox, sleep)) == 1
  {
    var r := [Received(queue)];
    var sent := SendMessages(outbox);
    var z := SleepEvents(sleep);
    SentOfConcat(r, sent);
    SentOfConcat(r + sent, z);
    SendMessagesRoundTrip(outbox);
    CountReceivedConcat(r, sent);
    CountReceivedConcat(r + sent, z);
    SendMessagesReceivesNothing(outbox);
    assert SentOf(r) == [] && CountReceived(r) == 1;
    if sleep.Some? {
      assert SentOf(z) == [] && CountReceived(z) == 0;
    }
  }

  /**
   * The ticks are the steps: a run that finished stopped at the first step that returned
   * `false` (after running it), a run cut by the fuel saw only `true`, and the final state
   * is the reference state.
   */
  lemma {:induction false} TicksFollowSteps<S>(a: Agent<S>, sleepTime: real, clock: nat -> real,
                                               inbox: nat -> seq<Message>, s: S, last: seq<Message>, k: nat, fuel: nat)
    ensures var r := Ticks(a, sleepTime, clock, inbox, s, last, k, fuel);
      && r.state == After(a, inbox, s, k, r.ticks)
      && (r.finished ==> 1 <= r.ticks && AllProceed(a, inbox, s, k, r.ticks - 1) && !AllProceed(a, inbox, s, k, r.ticks))
      && (!r.finished ==> AllProceed(a, inbox, s, k, fuel))
    decreases fuel
  {
    if fuel > 0 {
      var res := a.step(s, inbox(k));
      if res.proceed {
        TicksFollowSteps(a, sleepTime, clock, inbox, res.state, res.outbox, k + 1, fuel - 1);
      }
    }
  }

  /** Every tick receives once, and the client is handed exactly the concatenated outboxes. */
  lemma {:induction false} TicksSend<S>(a: Agent<S>, sleepTime: real, clock: nat -> real,
                                        inbox: nat -> seq<Message>, s: S, last: seq<Message>, k: nat, fuel: nat)
    ensures var r := Ticks(a, sleepTime, clock, inbox, s, last, k, fuel);
      && CountReceived(r.events) == r.ticks
      && SentOf(r.events) == Outboxes(a, inbox, s, k, r.ticks)
    decreases fuel
  {
    if fuel > 0 {
      var res := a.step(s, inbox(k));
      var tick := TickEvents(QueueName(a.id), res.outbox, SleepDuration(clock(k), sleepTime));
      TickTrace(QueueName(a.id), res.outbox, SleepDuration(clock(k), sleepTime));
      if res.proceed {
        var rest := Ticks(a, sleepTime, clock, inbox, res.state, res.outbox, k + 1, fuel - 1);
        TicksSend(a, sleepTime, clock, inbox, res.state, res.outbox, k + 1, fuel - 1);
        SentOfConcat(tick, rest.events);
        CountReceivedConcat(tick, rest.events);
      } else {
        assert Outboxes(a, inbox, s, k, 1) == res.outbox + [];
      }
    }
  }

  /** The outbox kept for the final flush is the last tick's, or the initial one when no tick ran. */
  lemma {:induction false} TicksLastOutbox<S>(a: Agent<S>, sleepTime: real, clock: nat -> real,
                                              inbox: nat -> seq<Message>, s: S, last: seq<Message>, k: nat, fuel: nat)
    ensures var r := Ticks(a, sleepTime, clock, inbox, s, last, k, fuel);
      && (r.ticks > 0 ==> EndsWith(Outboxes(a, inbox, s, k, r.ticks), r.lastOutbox))
      && (r.ticks == 0 ==> r.lastOutbox == last)
    decreases fuel
  {
    if fuel > 0 {
      var res := a.step(s, inbox(k));
      if res.proceed {
        var rest := Ticks(a, sleepTime, clock, inbox, res.state, res.outbox, k + 1, fuel - 1);
        var r := Ticks(a, sleepTime, clock, inbox, s, last, k, fuel);
        assert r.lastOutbox == rest.lastOutbox && r.ticks == rest.ticks + 1;
        TicksLastOutbox(a, sleepTime, clock, inbox, res.state, res.outbox, k + 1, fuel - 1);
        var outs := Outboxes(a, inbox, res.state, k + 1, rest.ticks);
        assert Outboxes(a, inbox, s, k, rest.ticks + 1) == res.outbox + outs;
        if rest.ticks > 0 {
          EndsWithPrepend(res.outbox, outs, rest.lastOutbox);
        } else {
          assert res.outbox + outs == res.outbox;
          assert EndsWith(res.outbox, res.outbox);
        }
      } else {
        var r := Ticks(a, sleepTime, clock, inbox, s, last, k, fuel);
        assert r.lastOutbox == res.outbox && r.ticks == 1;
        assert Outboxes(a, inbox, s, k, 1) == res.outbox + [];
        assert EndsWith(res.outbox, res.outbox);
      }
    }
  }

  /** The ticks read the clock only for the pause length, which does not depend on it. */
  lemma {:induction false} TicksIgnoreClock<S>(a: Agent<S>, sleepTime: real, clock1: nat -> real, clock2: nat -> real,
                                               inbox: nat -> seq<Message>, s: S, last: seq<Message>, k: nat, fuel: nat)
    ensures Ticks(a, sleepTime, clock1, inbox, s, last, k, fuel) == Ticks(a, sleepTime, clock2, inbox, s, last, k, fuel)
    decreases fuel
  {
    if fuel > 0 {
      var res := a.step(s, inbox(k));
      SleepIgnoresElapsed(clock1(k), clock2(k), sleepTime);
      if res.proceed {
        TicksIgnoreClock(a, sleepTime, clock1, clock2, inbox, res.state, res.outbox, k + 1, fuel - 1);
      }
    }
  }

  /** A whole run of `Loop(state)`: `finished` is false when the fuel ran out first. */
  datatype LoopRun<S> = LoopRun(events: seq<Event>, state: S, ticks: nat, finished: bool)

  /** `BaseAgent<TState>.Loop(state)`, and `StatelessAgent.Loop()` with the agent itself as the state. */
  function Loop<S>(a: Agent<S>, sleepTime: real, clock: nat -> real, inbox: nat -> seq<Message>,
                   s0: S, fuel: nat): (r: LoopRun<S>)
    ensures |r.events| >= 1 && r.events[0] == Connected(a.id.agentType, a.id.id)
    ensures r.finished ==> r.events[|r.events| - 1] == Disconnected
    ensures forall i :: 1 <= i < |r.events| - 1 ==> !r.events[i].Connected? && !r.events[i].Disconnected?
    ensures forall e :: e in r.events && e.Received? ==> e.queue == QueueName(a.id)
  {
    var (s1, out0) := a.init(s0);
    var start := [Connected(a.id.agentType, a.id.id)] + SendMessages(out0);
    var run := Ticks(a, sleepTime, clock, inbox, s1, out0, 0, fuel);
    if run.finished then
      var finish := SendMessages(run.lastOutbox + a.tearDown(run.state)) + [Disconnected];
      var events := start + run.events + finish;
      assert forall i :: 1 <= i < |events| - 1 ==> events[i] in SendMessages(out0) + run.events + SendMessages(run.lastOutbox + a.tearDown(run.state));
      LoopRun(events, run.state, run.ticks, true)
    else
      var events := start + run.events;
      assert forall i :: 1 <= i < |events| ==> events[i] in SendMessages(out0) + run.events;
      LoopRun(events, run.state, run.ticks, false)
  }

  /** A run opens with the connect and the initial outbox; with no fuel it stays in the initialized state. */
  lemma LoopOpens<S>(a: Agent<S>, sleepTime: real, clock: nat -> real, inbox: nat -> seq<Message>, s0: S, fuel: nat)
    ensures var r := Loop(a, sleepTime, clock, inbox, s0, fuel);
      var out0 := a.init(s0).1;
      && |r.events| >= 1 + |out0|
      && (forall i :: 0 <= i < |out0| ==> r.events[1 + i] == Sent(out0[i]))
      && (fuel == 0 ==> r.state == a.init(s0).0 && r.ticks == 0)
  {
    var (s1, out0) := a.init(s0);
    var r := Loop(a, sleepTime, clock, inbox, s0, fuel);
    var start := [Connected(a.id.agentType, a.id.id)] + SendMessages(out0);
    var run := Ticks(a, sleepTime, clock, inbox, s1, out0, 0, fuel);
    assert r.events[..|start|] == start;
  }

  /** A whole run, trace included, is the same whatever the clock reads at each tick. */
  lemma LoopIgnoresClock<S>(a: Agent<S>, sleepTime: real, clock1: nat -> real, clock2: nat -> real,
                            inbox: nat -> seq<Message>, s0: S, fuel: nat)
    ensures Loop(a, sleepTime, clock1, inbox, s0, fuel) == Loop(a, sleepTime, clock2, inbox, s0, fuel)
  {
    var (s1, out0) := a.init(s0);
    TicksIgnoreClock(a, sleepTime, clock1, clock2, inbox, s1, out0, 0, fuel);
  }

  /** The opening of a run: the connect call, then the initial outbox. */
  lemma StartTrace(c: Event, out0: seq<Message>)
    requires c.Connected?
    ensures SentOf([c] + SendMessages(out0)) == out0
    ensures CountReceived([c] + SendMessages(out0)) == 0
  {
    SentOfConcat([c], SendMessages(out0));
    SendMessagesRoundTrip(out0);
    CountReceivedConcat([c], SendMessages(out0));
    SendMessagesReceivesNothing(out0);
    assert SentOf([c]) == [] && CountReceived([c]) == 0;
  }

  /** The close of a finished run: the final flush, then the disconnect call. */
  lemma FinishTrace(tail: seq<Message>)
    ensures SentOf(SendMessages(tail) + [Disconnected]) == tail
    ensures CountReceived(SendMessages(tail) + [Disconnected]) == 0
  {
    SentOfConcat(SendMessages(tail), [Disconnected]);
    SendMessagesRoundTrip(tail);
    CountReceivedConcat(SendMessages(tail), [Disconnected]);
    SendMessagesReceivesNothing(tail);
    assert SentOf([Disconnected]) == [] && CountReceived([Disconnected]) == 0;
  }

  /**
   * Over a whole run the client is handed the initial outbox, then every tick's outbox, and on
   * a finished run the last tick's outbox a second time (the final flush does not clear it),
   * followed by whatever the tear-down added. The agent receives once per tick.
   */
  lemma LoopSends<S>(a: Agent<S>, sleepTime: real, clock: nat -> real, inbox: nat -> seq<Message>, s0: S, fuel: nat)
    ensures var r := Loop(a, sleepTime, clock, inbox, s0, fuel);
      var s1 := a.init(s0).0;
      var out0 := a.init(s0).1;
      var last := Ticks(a, sleepTime, clock, inbox, s1, out0, 0, fuel).lastOutbox;
      && r.state == After(a, inbox, s1, 0, r.ticks)
      && CountReceived(r.events) == r.ticks
      && (r.finished ==>
            && EndsWith(Outboxes(a, inbox, s1, 0, r.ticks), last)
            && SentOf(r.events) == out0 + Outboxes(a, inbox, s1, 0, r.ticks) + (last + a.tearDown(r.state)))
      && (!r.finished ==> SentOf(r.events) == out0 + Outboxes(a, inbox, s1, 0, r.ticks))
  {
    var (s1, out0) := a.init(s0);
    var start := [Connected(a.id.agentType, a.id.id)] + SendMessages(out0);
    var run := Ticks(a, sleepTime, clock, inbox, s1, out0, 0, fuel);
    TicksFollowSteps(a, sleepTime, clock, inbox, s1, out0, 0, fuel);
    TicksSend(a, sleepTime, clock, inbox, s1, out0, 0, fuel);
    TicksLastOutbox(a, sleepTime, clock, inbox, s1, out0, 0, fuel);
    StartTrace(Connected(a.id.agentType, a.id.id), out0);
    SentOfConcat(start, run.events);
    CountReceivedConcat(start, run.events);
    if run.finished {
      var finish := SendMessages(run.lastOutbox + a.tearDown(run.state)) + [Disconnected];
      FinishTrace(run.lastOutbox + a.tearDown(run.state));
      SentOfConcat(start + run.events, finish);
      CountReceivedConcat(start + run.events, finish);
    }
  }
}
