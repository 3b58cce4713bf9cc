/**
 * The simulation environment: global time, the graph, the registered agents
 * with their aligned score ledger, the penalty constant `k` and the count of
 * people lost to deadlines. One tick's worth of agent handling is `Update`.
 *
 * What an agent decides is an input: for each agent, whether the hurricane
 * struck it this tick and the reply its planner gives when asked.
 */
module Environment {
  import opened Wrappers
  import opened GraphModel
  import opened Agents
  import opened Scores
  import Snapshot
  import Expiry

  /** The penalty constant used when none is given. */
  const KDefault: int := 2

  datatype Env = Env(
    time: nat,
    graph: Graph,
    agents: seq<Agent>,
    scores: seq<int>,
    k: int,
    dead: nat,
    total: nat)

  /** Why handling an agent's reply, or a registration, could not go on. */
  datatype StepError =
    | UnknownIdentifier(id: string)    // no edge or vertex carries the name
    | NoSuchEdge(from: nat, to: nat)   // the named vertex is not adjacent
    | UnboundDestination(text: string) // the reply names neither an edge nor a vertex
    | UnknownAgentType(tag: string)    // the registration tag names no agent kind

  /** This tick's input for one agent. */
  datatype Decision = Decision(struck: bool, reply: string)

  /** Agent `j` sits at list position `j`, has index `j + 1`, and owns score `j`. */
  predicate Aligned(env: Env) {
    && |env.agents| == |env.scores|
    && forall j :: 0 <= j < |env.agents| ==> env.agents[j].index == j + 1
  }

  predicate Valid(env: Env) {
    && WellFormed(env.graph)
    && Aligned(env)
    && forall j :: 0 <= j < |env.agents| ==> env.agents[j].location < |env.graph.vertices|
  }

  /** Every person counted at construction is still waiting somewhere or counted as lost. */
  predicate Conserved(env: Env) {
    Sum(People(env.graph.vertices)) + env.dead == env.total
  }

  /** Two environments share time, graph, penalty, losses and total. */
  predicate SameWorld(e1: Env, e2: Env) {
    && e1.time == e2.time
    && e1.graph == e2.graph
    && e1.k == e2.k
    && e1.dead == e2.dead
    && e1.total == e2.total
  }

  /** `e2` differs from `e1` at most in agent `i` and score `i`. */
  predicate OnlySlotChanged(e1: Env, e2: Env, i: nat) {
    && |e2.agents| == |e1.agents|
    && |e2.scores| == |e1.scores|
    && (forall j :: 0 <= j < |e1.agents| && j != i ==> e2.agents[j] == e1.agents[j])
    && (forall j :: 0 <= j < |e1.scores| && j != i ==> e2.scores[j] == e1.scores[j])
  }

  /** A fresh environment at time 0 with no agents, no scores and nobody lost. */
  function NewEnv(g: Graph, k: int): (r: Env)
    ensures Conserved(r)
    ensures WellFormed(g) ==> Valid(r)
    ensures AllTerminated(r.agents)
    ensures r.time == 0 && r.graph == g && r.agents == [] && r.scores == [] && r.dead == 0 && r.k == k
  {
    Env(0, g, [], [], k, 0, Sum(People(g.vertices)))
  }

  /** A fresh environment using the default penalty constant. */
  function NewEnvDefault(g: Graph): (r: Env)
    ensures r.k == 2 && r.agents == [] && r.time == 0 && Conserved(r)
  {
    NewEnv(g, KDefault)
  }

  /**
   * Registers an agent of the kind `tag` names at vertex `start`. The new agent
   * gets the next 1-based index and a score of 0, and sees the plain people
   * array. `limit` stands for the budget answer the A* kinds ask for.
   */
  function AddAgent(env: Env, tag: string, start: nat, limit: Option<int>): (r: Result<Env, StepError>)
    ensures r.Success? <==> tag in {"HUMAN", "GREEDY", "VANDAL", "GREEDY SEARCH", "A_STAR SEARCH", "REALTIME A_STAR SEARCH"}
    ensures r.Failure? ==> r.error == UnknownAgentType(tag)
    ensures r.Success? ==>
      && |r.value.agents| == |env.agents| + 1
      && r.value.agents[..|env.agents|] == env.agents
      && r.value.agents[|env.agents|] ==
           InitialAgent(|env.agents| + 1, KindFromTag(tag, limit).value, start, People(env.graph.vertices))
      && TagOf(r.value.agents[|env.agents|].kind) == tag
      && r.value.scores == env.scores + [0]
      && SameWorld(env, r.value)
    ensures r.Success? ==>
      var a := r.value.agents[|env.agents|];
      a.index == |env.agents| + 1 && a.location == start && !a.terminated && !a.traversing
      && a.carried == 0 && a.saved == 0 && a.heading == None
    ensures r.Success? && Valid(env) && start < |env.graph.vertices| ==> Valid(r.value)
    ensures r.Success? && Conserved(env) ==> Conserved(r.value)
  {
    match KindFromTag(tag, limit)
    case None => Failure(UnknownAgentType(tag))
    case Some(kind) =>
      var a := InitialAgent(|env.agents| + 1, kind, start, People(env.graph.vertices));
      Success(env.(agents := env.agents + [a], scores := env.scores + [0]))
  }

  /** Every agent has terminated (vacuously so when there are none). */
  predicate AllTerminated(agents: seq<Agent>) {
    forall j :: 0 <= j < |agents| ==> agents[j].terminated
  }

  /** Scans the agents and stops at the first one still running. */
  method AreAllAgentsDead(agents: seq<Agent>) returns (dead: bool)
    ensures dead <==> AllTerminated(agents)
  {
    var i := 0;
    while i < |agents|
      invariant 0 <= i <= |agents|
      invariant forall j :: 0 <= j < i ==> agents[j].terminated
    {
      if !agents[i].terminated {
        return false;
      }
      i := i + 1;
    }
    return true;
  }

  /** The expiry step of a tick, with the losses added to `dead`. */
  function ExpireStep(env: Env): (r: Env)
    ensures r.agents == env.agents && r.scores == env.scores
    ensures r.time == env.time && r.k == env.k && r.total == env.total
    ensures r.graph.edges == env.graph.edges
    ensures |r.graph.vertices| == |env.graph.vertices|
    ensures forall i :: 0 <= i < |env.graph.vertices| ==>
      r.graph.vertices[i] == (if Expiry.Expires(env.graph.vertices[i], env.time)
                              then env.graph.vertices[i].(people := 0)
                              else env.graph.vertices[i])
    ensures r.dead + Sum(People(r.graph.vertices)) == env.dead + Sum(People(env.graph.vertices))
    ensures Valid(env) ==> Valid(r)
    ensures Conserved(env) ==> Conserved(r)
  {
    var swept := Expiry.ExpireAll(env.graph.vertices, env.time);
    env.(graph := env.graph.(vertices := swept.vertices), dead := env.dead + swept.removed)
  }

  /**
   * Handles the agent at position `i` once its hurricane test and (when it
   * is idle) its planner's reply are known. `bound` is the edge and
   * destination the pass's loop variables still hold from an earlier agent
   * of the same pass, if any; only a reply naming neither an edge nor a
   * vertex reads it.
   */
  function StepAgent(env: Env, i: nat, d: Decision, bound: Option<Heading>): (r: Result<Env, StepError>)
    requires Valid(env) && i < |env.agents|
    ensures env.agents[i].terminated ==> r == Success(env)
    ensures r.Success? ==> Valid(r.value) && SameWorld(env, r.value) && OnlySlotChanged(env, r.value, i)
    ensures r.Success? ==> r.value.agents[i].index == env.agents[i].index
    ensures r.Success? && !env.agents[i].terminated ==>
      r.value.agents[i].view == Snapshot.Snapshot(env.graph.vertices, env.time)
  {
    var a := env.agents[i];
    if a.terminated then Success(env)
    else
      var seen := a.(view := Snapshot.Snapshot(env.graph.vertices, env.time));
      if d.struck then
        var (stopped, carried) := Terminate(seen);
        Success(env.(agents := env.agents[i := stopped],
                     scores := ReduceScore(env.scores, a.index, carried + env.k)))
      else if seen.traversing then
        Success(env.(agents := env.agents[i := seen]))
      else
        Act(env, i, seen, SetScore(env.scores, a.index, seen.saved), ClassifyAction(d.reply), bound)
  }

  /** Applies an idle agent's reply, on top of the ledger where its score was set to its saved count. */
  function Act(env: Env, i: nat, a: Agent, scores: seq<int>, action: Action, bound: Option<Heading>): (r: Result<Env, StepError>)
    requires Valid(env) && i < |env.agents|
    requires a.index == env.agents[i].index && a.location == env.agents[i].location
    requires |scores| == |env.scores|
    requires forall j :: 0 <= j < |scores| && j != i ==> scores[j] == env.scores[j]
    ensures r.Success? ==> Valid(r.value) && SameWorld(env, r.value) && OnlySlotChanged(env, r.value, i)
    ensures r.Success? ==> r.value.agents[i].view == a.view && r.value.agents[i].index == a.index
    ensures r.Success? ==> r.value.scores[i] == scores[i] || action.Stop?
    ensures r.Success? && r.value.agents[i].traversing && !a.traversing ==>
      action.ViaEdge? || action.ToVertex? || (action.Unrecognised? && r.value.agents[i].heading == bound)
  {
    var g := env.graph;
    match action
    case NoAction =>
      Success(env.(agents := env.agents[i := a], scores := scores))
    case Stop =>
      var (stopped, carried) := Terminate(a);
      var charged :=
        if carried > 0 then ReduceScore(scores, a.index, carried + env.k)
        else if !g.vertices[a.location].shelter then ReduceScore(scores, a.index, env.k)
        else scores;
      Success(env.(agents := env.agents[i := stopped], scores := charged))
    case ViaEdge(id) =>
      (match FindEdge(g, id)
       case None => Failure(UnknownIdentifier(id))
       case Some(e) =>
         var dest := OtherEnd(g.edges[e], a.location);
         Success(env.(agents := env.agents[i := Traverse(a, e, dest)], scores := scores)))
    case ToVertex(id) =>
      (match FindVertex(g, id)
       case None => Failure(UnknownIdentifier(id))
       case Some(v) =>
         match EdgeBetween(g, a.location, v)
         case None => Failure(NoSuchEdge(a.location, v))
         case Some(e) => Success(env.(agents := env.agents[i := Traverse(a, e, v)], scores := scores)))
    case Unrecognised(t) =>
      (match bound
       case None => Failure(UnboundDestination(t))
       case Some(h) => Success(env.(agents := env.agents[i := Traverse(a, h.edge, h.dest)], scores := scores)))
  }

  /**
   * The loop variables after agent `i`'s step: an idle agent that set off
   * binds its edge and destination; otherwise they keep their old value.
   */
  function Rebind(env: Env, i: nat, d: Decision, bound: Option<Heading>, after: Env): Option<Heading>
    requires i < |env.agents| && i < |after.agents|
  {
    var a := env.agents[i];
    if !a.terminated && !d.struck && !a.traversing && after.agents[i].traversing
    then after.agents[i].heading
    else bound
  }

  /**
   * The agent pass as written: agents from position `i` on are handled in
   * order, and the destination bound by one agent stays visible to the next.
   * The first error stops the pass.
   */
  function PassFrom(env: Env, ds: seq<Decision>, i: nat, bound: Option<Heading>): (r: Result<Env, StepError>)
    requires Valid(env) && |ds| == |env.agents| && i <= |env.agents|
    ensures r.Success? ==> Valid(r.value) && SameWorld(env, r.value)
    ensures r.Success? ==> |r.value.agents| == |env.agents|
    ensures r.Success? ==> forall j :: 0 <= j < i ==>
      r.value.agents[j] == env.agents[j] && r.value.scores[j] == env.scores[j]
    decreases |env.agents| - i
  {
    if i == |env.agents| then Success(env)
    else
      match StepAgent(env, i, ds[i], bound)
      case Failure(err) => Failure(err)
      case Success(next) => PassFrom(next, ds, i + 1, Rebind(env, i, ds[i], bound, next))
  }

  /** One tick's agent pass, as written, starting with nothing bound. */
  function UpdateAsWritten(env: Env, ds: seq<Decision>): (r: Result<Env, StepError>)
    requires Valid(env) && |ds| == |env.agents|
    ensures r.Success? ==> Valid(r.value) && SameWorld(env, r.value) && |r.value.agents| == |env.agents|
  {
    PassFrom(env, ds, 0, None)
  }

  /**
   * The corrected agent pass from position `i` on: every agent is handled
   * with nothing bound, so a reply naming neither an edge nor a vertex is
   * always an error.
   */
  function UpdateFrom(env: Env, ds: seq<Decision>, i: nat): (r: Result<Env, StepError>)
    requires Valid(env) && |ds| == |env.agents| && i <= |env.agents|
    ensures r.Success? ==> Valid(r.value) && SameWorld(env, r.value)
    ensures r.Success? ==> |r.value.agents| == |env.agents|
    ensures r.Success? ==> forall j :: 0 <= j < i ==>
      r.value.agents[j] == env.agents[j] && r.value.scores[j] == env.scores[j]
    decreases |env.agents| - i
  {
    if i == |env.agents| then Success(env)
    else
      match StepAgent(env, i, ds[i], None)
      case Failure(err) => Failure(err)
      case Success(next) => UpdateFrom(next, ds, i + 1)
  }

  /** One tick's corrected pass over all agents. */
  function Update(env: Env, ds: seq<Decision>): (r: Result<Env, StepError>)
    requires Valid(env) && |ds| == |env.agents|
    ensures r.Success? ==> Valid(r.value) && SameWorld(env, r.value) && |r.value.agents| == |env.agents|
  {
    UpdateFrom(env, ds, 0)
  }

  /**
   * Agent `i`'s step reads nothing but the shared world, its own agent and
   * score, and the destination left bound by the pass.
   */
  lemma StepAgentLocal(e1: Env, e2: Env, i: nat, d: Decision, bound: Option<Heading>)
    requires Valid(e1) && Valid(e2) && SameWorld(e1, e2)
    requires i < |e1.agents| && i < |e2.agents|
    requires e1.agents[i] == e2.agents[i] && e1.scores[i] == e2.scores[i]
    ensures StepAgent(e1, i, d, bound).Success? <==> StepAgent(e2, i, d, bound).Success?
    ensures StepAgent(e1, i, d, bound).Success? ==>
      && StepAgent(e1, i, d, bound).value.agents[i] == StepAgent(e2, i, d, bound).value.agents[i]
      && StepAgent(e1, i, d, bound).value.scores[i] == StepAgent(e2, i, d, bound).value.scores[i]
  {
  }

  /**
   * In the corrected pass, processing agents in order is the same as
   * handling each one on its own against the environment at the start of
   * the pass: the pass succeeds exactly when every agent's own step does,
   * and each agent and score ends up as its own step leaves them.
   */
  lemma {:induction false} UpdateFromPointwise(env: Env, ds: seq<Decision>, i: nat)
    requires Valid(env) && |ds| == |env.agents| && i <= |env.agents|
    ensures UpdateFrom(env, ds, i).Success? <==>
      forall j :: i <= j < |env.agents| ==> StepAgent(env, j, ds[j], None).Success?
    ensures UpdateFrom(env, ds, i).Success? ==> forall j :: i <= j < |env.agents| ==>
      && UpdateFrom(env, ds, i).value.agents[j] == StepAgent(env, j, ds[j], None).value.agents[j]
      && UpdateFrom(env, ds, i).value.scores[j] == StepAgent(env, j, ds[j], None).value.scores[j]
    decreases |env.agents| - i
  {
    if i < |env.agents| {
      match StepAgent(env, i, ds[i], None)
      case Failure(_) =>
      case Success(next) =>
        UpdateFromPointwise(next, ds, i + 1);
        forall j | i + 1 <= j < |env.agents|
          ensures StepAgent(next, j, ds[j], None).Success? <==> StepAgent(env, j, ds[j], None).Success?
          ensures StepAgent(next, j, ds[j], None).Success? ==>
            && StepAgent(next, j, ds[j], None).value.agents[j] == StepAgent(env, j, ds[j], None).value.agents[j]
            && StepAgent(next, j, ds[j], None).value.scores[j] == StepAgent(env, j, ds[j], None).value.scores[j]
        {
          StepAgentLocal(next, env, j, ds[j], None);
        }
    }
  }

  /** `UpdateFromPointwise` for a whole corrected pass. */
  lemma UpdatePointwise(env: Env, ds: seq<Decision>)
    requires Valid(env) && |ds| == |env.agents|
    ensures Update(env, ds).Success? <==>
      forall j :: 0 <= j < |env.agents| ==> StepAgent(env, j, ds[j], None).Success?
    ensures Update(env, ds).Success? ==> forall j :: 0 <= j < |env.agents| ==>
      && Update(env, ds).value.agents[j] == StepAgent(env, j, ds[j], None).value.agents[j]
      && Update(env, ds).value.scores[j] == StepAgent(env, j, ds[j], None).value.scores[j]
  {
    UpdateFromPointwise(env, ds, 0);
  }

  /** A step that succeeds with nothing bound never reads the binding. */
  lemma BindingUnread(env: Env, i: nat, d: Decision, bound: Option<Heading>)
    requires Valid(env) && i < |env.agents|
    requires StepAgent(env, i, d, None).Success?
    ensures StepAgent(env, i, d, bound) == StepAgent(env, i, d, None)
  {
  }

  /**
   * Whenever the corrected pass succeeds, the pass as written gives the same
   * result, whatever destination is bound when it starts.
   */
  lemma {:induction false} PassAgreesWithUpdateFrom(env: Env, ds: seq<Decision>, i: nat, bound: Option<Heading>)
    requires Valid(env) && |ds| == |env.agents| && i <= |env.agents|
    requires UpdateFrom(env, ds, i).Success?
    ensures PassFrom(env, ds, i, bound) == UpdateFrom(env, ds, i)
    decreases |env.agents| - i
  {
    if i < |env.agents| {
      BindingUnread(env, i, ds[i], bound);
      var next := StepAgent(env, i, ds[i], None).value;
      PassAgreesWithUpdateFrom(next, ds, i + 1, Rebind(env, i, ds[i], bound, next));
    }
  }

  /** The two passes differ only where the corrected one reports an error. */
  lemma UpdateAsWrittenAgrees(env: Env, ds: seq<Decision>)
    requires Valid(env) && |ds| == |env.agents|
    requires Update(env, ds).Success?
    ensures UpdateAsWritten(env, ds) == Update(env, ds)
  {
    PassAgreesWithUpdateFrom(env, ds, 0, None);
  }

  /**
   * Intended behaviour, kept by the corrected pass: an idle agent only sets
   * off when its own reply named an edge or a vertex.
   */
  lemma UpdateMovesOnlyOnOwnReply(env: Env, ds: seq<Decision>, j: nat)
    requires Valid(env) && |ds| == |env.agents| && j < |env.agents|
    requires !env.agents[j].traversing
    requires Update(env, ds).Success? && Update(env, ds).value.agents[j].traversing
    ensures ClassifyAction(ds[j].reply).ViaEdge? || ClassifyAction(ds[j].reply).ToVertex?
  {
    UpdatePointwise(env, ds);
  }

  /** Two idle agents at vertex 0 of a two-vertex graph joined by edge "E1". */
  function StaleBindingEnv(): Env {
    var g := Graph([Vertex("V0", 10, 0, false), Vertex("V1", 10, 0, true)], [Edge("E1", 0, 1, 1)]);
    Env(0, g, [InitialAgent(1, Human, 0, [0, 0]), InitialAgent(2, Human, 0, [0, 0])], [0, 0], KDefault, 0, 0)
  }

  /**
   * As written, the second agent's unrecognised reply "X" sends it along the
   * edge the first agent chose; the corrected pass reports the reply instead.
   */
  lemma StaleBindingExample()
    ensures Valid(StaleBindingEnv())
    ensures ClassifyAction("X") == Unrecognised("X")
    ensures UpdateAsWritten(StaleBindingEnv(), [Decision(false, "E1"), Decision(false, "X")]).Success?
    ensures UpdateAsWritten(StaleBindingEnv(), [Decision(false, "E1"), Decision(false, "X")]).value.agents[1].heading
      == Some(Heading(0, 1))
    ensures Update(StaleBindingEnv(), [Decision(false, "E1"), Decision(false, "X")])
      == Failure(UnboundDestination("X"))
  {
    var env := StaleBindingEnv();
    var ds := [Decision(false, "E1"), Decision(false, "X")];
    assert ClassifyAction("E1") == ViaEdge("E1");
    assert FindEdge(env.graph, "E1") == Some(0);
    var first := StepAgent(env, 0, ds[0], None).value;
    assert first.agents[0].heading == Some(Heading(0, 1));
    assert Rebind(env, 0, ds[0], None, first) == Some(Heading(0, 1));
    var second := StepAgent(first, 1, ds[1], Some(Heading(0, 1))).value;
    assert second.agents[1].heading == Some(Heading(0, 1));
    assert PassFrom(second, ds, 2, Rebind(first, 1, ds[1], Some(Heading(0, 1)), second)) == Success(second);
    assert PassFrom(first, ds, 1, Some(Heading(0, 1))) == Success(second);
    assert PassFrom(env, ds, 0, None) == Success(second);
    assert StepAgent(first, 1, ds[1], None) == Failure(UnboundDestination("X"));
  }

  /** A terminated agent is skipped: neither it nor its score changes. */
  lemma UpdateSkipsTerminated(env: Env, ds: seq<Decision>, j: nat)
    requires Valid(env) && |ds| == |env.agents| && j < |env.agents|
    requires env.agents[j].terminated
    requires Update(env, ds).Success?
    ensures Update(env, ds).value.agents[j] == env.agents[j]
    ensures Update(env, ds).value.scores[j] == env.scores[j]
  {
    UpdatePointwise(env, ds);
  }

  /**
   * A hurricane strike terminates a running agent wherever it is, in transit
   * or not, and charges its carried people plus `k`.
   */
  lemma StepStruck(env: Env, i: nat, d: Decision, bound: Option<Heading>)
    requires Valid(env) && i < |env.agents|
    requires !env.agents[i].terminated && d.struck
    ensures StepAgent(env, i, d, bound).Success?
    ensures StepAgent(env, i, d, bound).value.agents[i].terminated
    ensures StepAgent(env, i, d, bound).value.scores[i] == env.scores[i] - (env.agents[i].carried + env.k)
  {
  }

  /** An agent in transit that is not struck keeps its score and state; only its view is refreshed. */
  lemma StepInTransit(env: Env, i: nat, d: Decision, bound: Option<Heading>)
    requires Valid(env) && i < |env.agents|
    requires !env.agents[i].terminated && !d.struck && env.agents[i].traversing
    ensures StepAgent(env, i, d, bound).Success?
    ensures StepAgent(env, i, d, bound).value.scores[i] == env.scores[i]
    ensures StepAgent(env, i, d, bound).value.agents[i] ==
      env.agents[i].(view := Snapshot.Snapshot(env.graph.vertices, env.time))
  {
  }

  /**
   * A voluntary stop: the score is first reset to the saved count, then
   * charged carried + k when carrying people, k when empty-handed away from
   * a shelter, and nothing when empty-handed at a shelter.
   */
  lemma StepTerminate(env: Env, i: nat, d: Decision, bound: Option<Heading>)
    requires Valid(env) && i < |env.agents|
    requires !env.agents[i].terminated && !d.struck && !env.agents[i].traversing
    requires d.reply == TerminateText
    ensures StepAgent(env, i, d, bound).Success?
    ensures StepAgent(env, i, d, bound).value.agents[i].terminated
    ensures env.agents[i].carried > 0 ==>
      StepAgent(env, i, d, bound).value.scores[i] == env.agents[i].saved - (env.agents[i].carried + env.k)
    ensures env.agents[i].carried == 0 && !env.graph.vertices[env.agents[i].location].shelter ==>
      StepAgent(env, i, d, bound).value.scores[i] == env.agents[i].saved - env.k
    ensures env.agents[i].carried == 0 && env.graph.vertices[env.agents[i].location].shelter ==>
      StepAgent(env, i, d, bound).value.scores[i] == env.agents[i].saved
  {
  }

  /**
   * Naming an edge sends an idle agent along it to the endpoint other than its
   * location; an unknown edge name is an error.
   */
  lemma StepViaEdge(env: Env, i: nat, d: Decision, bound: Option<Heading>)
    requires Valid(env) && i < |env.agents|
    requires !env.agents[i].terminated && !d.struck && !env.agents[i].traversing
    requires |d.reply| > 0 && d.reply[0] == 'E'
    ensures StepAgent(env, i, d, bound).Success? <==> FindEdge(env.graph, d.reply).Some?
    ensures StepAgent(env, i, d, bound).Success? ==>
      var e := FindEdge(env.graph, d.reply).value;
      var dest := StepAgent(env, i, d, bound).value.agents[i].heading.value.dest;
      && StepAgent(env, i, d, bound).value.agents[i].traversing
      && StepAgent(env, i, d, bound).value.agents[i].heading.value.edge == e
      && (dest == env.graph.edges[e].v1 || dest == env.graph.edges[e].v2)
      && (env.agents[i].location == env.graph.edges[e].v1 ==> dest == env.graph.edges[e].v2)
      && (env.agents[i].location != env.graph.edges[e].v1 ==> dest == env.graph.edges[e].v1)
      && StepAgent(env, i, d, bound).value.scores[i] == env.agents[i].saved
  {
  }

  /**
   * Naming a vertex sends an idle agent to it along an edge joining it to the
   * agent's location; an unknown name or a non-adjacent vertex is an error.
   */
  lemma StepToVertex(env: Env, i: nat, d: Decision, bound: Option<Heading>)
    requires Valid(env) && i < |env.agents|
    requires !env.agents[i].terminated && !d.struck && !env.agents[i].traversing
    requires |d.reply| > 0 && d.reply[0] == 'V'
    ensures StepAgent(env, i, d, bound).Success? <==>
      && FindVertex(env.graph, d.reply).Some?
      && EdgeBetween(env.graph, env.agents[i].location, FindVertex(env.graph, d.reply).value).Some?
    ensures StepAgent(env, i, d, bound).Success? ==>
      var h := StepAgent(env, i, d, bound).value.agents[i].heading.value;
      && StepAgent(env, i, d, bound).value.agents[i].traversing
      && env.graph.vertices[h.dest].name == d.reply
      && h.edge < |env.graph.edges|
      && Joins(env.graph.edges[h.edge], env.agents[i].location, h.dest)
      && StepAgent(env, i, d, bound).value.scores[i] == env.agents[i].saved
  {
  }

  /**
   * A reply naming neither an edge nor a vertex binds no destination of its
   * own: with nothing bound by an earlier agent the pass stops with an
   * error, otherwise the agent sets off along the edge and towards the
   * vertex that earlier agent bound.
   */
  lemma StepUnrecognised(env: Env, i: nat, d: Decision, bound: Option<Heading>)
    requires Valid(env) && i < |env.agents|
    requires !env.agents[i].terminated && !d.struck && !env.agents[i].traversing
    requires d.reply != "" && d.reply != TerminateText && d.reply[0] != 'E' && d.reply[0] != 'V'
    ensures bound.None? ==> StepAgent(env, i, d, bound) == Failure(UnboundDestination(d.reply))
    ensures bound.Some? ==>
      && StepAgent(env, i, d, bound).Success?
      && StepAgent(env, i, d, bound).value.agents[i].traversing
      && StepAgent(env, i, d, bound).value.agents[i].heading == bound
      && StepAgent(env, i, d, bound).value.scores[i] == env.agents[i].saved
  {
  }

  /** An empty reply only resets the score to the saved count. */
  lemma StepNoAction(env: Env, i: nat, d: Decision, bound: Option<Heading>)
    requires Valid(env) && i < |env.agents|
    requires !env.agents[i].terminated && !d.struck && !env.agents[i].traversing
    requires d.reply == ""
    ensures StepAgent(env, i, d, bound).Success?
    ensures StepAgent(env, i, d, bound).value.scores[i] == env.agents[i].saved
    ensures StepAgent(env, i, d, bound).value.agents[i] ==
      env.agents[i].(view := Snapshot.Snapshot(env.graph.vertices, env.time))
  {
  }
}
