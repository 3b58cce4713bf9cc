/**
 * The simulation loop: each tick expires lapsed demand, runs the agent
 * pass and advances the clock by one, until every agent has terminated.
 * The agents' hurricane tests and planner replies for successive ticks are
 * supplied as a script; the loop also stops when the script runs out.
 */
module Simulation {
  import opened Wrappers
  import opened GraphModel
  import opened Environment

  /** The final environment and the number of ticks performed. */
  datatype Run = Run(env: Env, ticks: nat)

  /** A script gives one decision per agent for every tick. */
  predicate Fits(env: Env, script: seq<seq<Decision>>) {
    forall t :: 0 <= t < |script| ==> |script[t]| == |env.agents|
  }

  /** One loop iteration: expiry at the current time, the agent pass, then the clock. */
  function Tick(env: Env, ds: seq<Decision>): (r: Result<Env, StepError>)
    requires Valid(env) && |ds| == |env.agents|
    ensures r.Success? ==> r.value.time == env.time + 1
    ensures r.Success? ==> Valid(r.value) && |r.value.agents| == |env.agents|
    ensures r.Success? ==> r.value.k == env.k && r.value.total == env.total
    ensures r.Success? && Conserved(env) ==> Conserved(r.value)
    ensures r.Success? ==> env.dead <= r.value.dead
  {
    var swept := ExpireStep(env);
    match Update(swept, ds)
    case Failure(err) => Failure(err)
    case Success(next) => Success(next.(time := next.time + 1))
  }

  /** Terminated agents stay terminated, with their score frozen, across a tick. */
  lemma TickKeepsTerminated(env: Env, ds: seq<Decision>, j: nat)
    requires Valid(env) && |ds| == |env.agents| && j < |env.agents|
    requires env.agents[j].terminated
    requires Tick(env, ds).Success?
    ensures Tick(env, ds).value.agents[j] == env.agents[j]
    ensures Tick(env, ds).value.scores[j] == env.scores[j]
  {
    UpdateSkipsTerminated(ExpireStep(env), ds, j);
  }

  /** After a tick no non-shelter vertex whose deadline lapsed before the tick's time holds anyone. */
  lemma TickClearsExpired(env: Env, ds: seq<Decision>, v: nat)
    requires Valid(env) && |ds| == |env.agents| && v < |env.graph.vertices|
    requires !env.graph.vertices[v].shelter && env.graph.vertices[v].deadline < env.time
    ensures Tick(env, ds).Success? ==> Tick(env, ds).value.graph.vertices[v].people == 0
  {
  }

  /** Ticks until every agent has terminated or the script is exhausted. */
  function RunTicks(env: Env, script: seq<seq<Decision>>): (r: Result<Run, StepError>)
    requires Valid(env) && Fits(env, script)
    ensures AllTerminated(env.agents) ==> r == Success(Run(env, 0))
    ensures r.Success? ==> r.value.env.time == env.time + r.value.ticks
    ensures r.Success? ==> r.value.ticks <= |script|
    ensures r.Success? ==> AllTerminated(r.value.env.agents) || r.value.ticks == |script|
    ensures r.Success? ==> Valid(r.value.env) && |r.value.env.agents| == |env.agents|
    ensures r.Success? && Conserved(env) ==> Conserved(r.value.env)
    decreases |script|
  {
    if AllTerminated(env.agents) || |script| == 0 then Success(Run(env, 0))
    else
      match Tick(env, script[0])
      case Failure(err) => Failure(err)
      case Success(next) =>
        match RunTicks(next, script[1..])
        case Failure(err) => Failure(err)
        case Success(run) => Success(Run(run.env, run.ticks + 1))
  }

  /** The whole simulation: with no agents nothing is stepped at all. */
  function Simulate(env: Env, script: seq<seq<Decision>>): (r: Result<Run, StepError>)
    requires Valid(env) && Fits(env, script)
    ensures |env.agents| == 0 ==> r == Success(Run(env, 0))
    ensures r.Success? ==> r.value.env.time == env.time + r.value.ticks
    ensures r.Success? && r.value.ticks < |script| ==> AllTerminated(r.value.env.agents)
    ensures r.Success? && Conserved(env) ==> Conserved(r.value.env)
  {
    if |env.agents| == 0 then Success(Run(env, 0)) else RunTicks(env, script)
  }
}
