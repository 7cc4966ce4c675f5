/**
 * `EnvironmentAgent`: a random walk of the weather over the five levels, announced to all
 * planes with the level's accident probability.
 */
module EnvironmentAgent {
  import opened Wrappers
  import opened States
  import opened Messages
  import opened BaseAgent

  const EnvironmentId := "environment"

  /** `GetAccidentP`: the table, with Fog falling through to the default arm. */
  function AccidentProbability(w: WeatherType): (p: real)
    ensures 0.0 <= p < 0.001
    ensures p == 0.0 <==> w == Fog
  {
    match w
    case Clear => 0.0001
    case Clouds => 0.00012
    case Rain => 0.00025
    case Storm => 0.00035
    case Fog => 0.0
  }

  /** Apart from Fog, a worse weather level carries a strictly higher accident probability. */
  lemma AccidentProbabilityIncreases(a: WeatherType, b: WeatherType)
    requires a != Fog && b != Fog && Ordinal(a) < Ordinal(b)
    ensures AccidentProbability(a) < AccidentProbability(b)
  {
  }

  /** `new WeatherUpdateMessage(weather, p, this)`: a broadcast to all planes. */
  function WeatherMessage(w: WeatherType): Message {
    NewMessage(EnvironmentAgentType, EnvironmentId, Some(PlaneAgentType), None,
               WeatherUpdate(w, AccidentProbability(w)))
  }

  /** The agent's state and the position of its generator in the stream of draws. */
  datatype Environment = Environment(state: EnvironmentState, drawsUsed: nat)

  datatype EnvStep = EnvStep(proceed: bool, env: Environment, outbox: seq<Message>)

  /**
   * `NextStep`. Any system exit in the unfiltered inbox stops the agent with nothing changed.
   * Otherwise one draw below the change probability triggers a second draw: above 0.5 the
   * weather worsens by one level, otherwise it improves by one, each clamped at the ends.
   */
  function NextStep(changeProbability: real, draw: nat -> real, e: Environment, inbox: seq<Message>): (r: EnvStep)
    ensures (exists m :: m in inbox && IsSystemExit(m)) ==> r == EnvStep(false, e, [])
    ensures !(exists m :: m in inbox && IsSystemExit(m)) ==> r.proceed
    ensures var w := e.state.weather; var w' := r.env.state.weather;
      && -1 <= Ordinal(w') - Ordinal(w) <= 1
      && (w' != w ==> draw(e.drawsUsed) < changeProbability)
      && (Ordinal(w') > Ordinal(w) ==> draw(e.drawsUsed + 1) > 0.5)
      && (Ordinal(w') < Ordinal(w) ==> draw(e.drawsUsed + 1) <= 0.5)
      && (r.outbox == [] <==> w' == w)
      && (r.outbox != [] ==> r.outbox == [WeatherMessage(w')])
  {
    if exists m :: m in inbox && IsSystemExit(m) then EnvStep(false, e, [])
    else
      var n := e.drawsUsed;
      var w := e.state.weather;
      if draw(n) < changeProbability then
        var increase := draw(n + 1) > 0.5;
        if increase && w != Storm then
          var w' := FromOrdinal(Ordinal(w) + 1);
          EnvStep(true, Environment(EnvironmentState(w'), n + 2), [WeatherMessage(w')])
        else if !increase && w != Clear then
          var w' := FromOrdinal(Ordinal(w) - 1);
          EnvStep(true, Environment(EnvironmentState(w'), n + 2), [WeatherMessage(w')])
        else EnvStep(true, Environment(e.state, n + 2), [])
      else EnvStep(true, Environment(e.state, n + 1), [])
  }

  /** The walk only leaves a level in the direction the draw chose, and never leaves the range at its ends. */
  lemma WalkIsClamped(changeProbability: real, draw: nat -> real, e: Environment, inbox: seq<Message>)
    requires !(exists m :: m in inbox && IsSystemExit(m))
    requires draw(e.drawsUsed) < changeProbability
    ensures var w := e.state.weather; var w' := NextStep(changeProbability, draw, e, inbox).env.state.weather;
      && (draw(e.drawsUsed + 1) > 0.5 ==> Ordinal(w') == if w == Storm then 4 else Ordinal(w) + 1)
      && (draw(e.drawsUsed + 1) <= 0.5 ==> Ordinal(w') == if w == Clear then 0 else Ordinal(w) - 1)
  {
  }
}
