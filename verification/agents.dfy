/**
 * Agents as the environment sees them: a kind chosen at registration, a
 * 1-based index, and the state the environment reads and writes each tick.
 * The agents' own behaviour (planning, moving, picking people up) lives
 * outside this model; only what the environment does to them is here.
 */
module Agents {
  import opened Wrappers

  /** The registrable agent kinds; the search kinds carry an optional expansion budget. */
  datatype AgentKind =
    | Human
    | Greedy
    | Vandal
    | GreedySearch
    | AStarSearch(limit: Option<int>)
    | RealtimeAStarSearch(limit: Option<int>)

  /** The registration tag of each kind. */
  function TagOf(kind: AgentKind): string {
    match kind
    case Human => "HUMAN"
    case Greedy => "GREEDY"
    case Vandal => "VANDAL"
    case GreedySearch => "GREEDY SEARCH"
    case AStarSearch(_) => "A_STAR SEARCH"
    case RealtimeAStarSearch(_) => "REALTIME A_STAR SEARCH"
  }

  /** The budget a kind was given; kinds without one report None. */
  function LimitOf(kind: AgentKind): Option<int> {
    match kind
    case AStarSearch(l) => l
    case RealtimeAStarSearch(l) => l
    case _ => None
  }

  /**
   * The kind a registration tag asks for. Only the two A* tags consult the
   * budget answer (None stands for an empty answer, meaning the default
   * budget); an unknown tag yields None.
   */
  function KindFromTag(tag: string, limit: Option<int>): (r: Option<AgentKind>)
    ensures r.Some? <==> tag in {"HUMAN", "GREEDY", "VANDAL", "GREEDY SEARCH", "A_STAR SEARCH", "REALTIME A_STAR SEARCH"}
    ensures r.Some? ==> TagOf(r.value) == tag
    ensures r.Some? && (r.value.AStarSearch? || r.value.RealtimeAStarSearch?) ==> LimitOf(r.value) == limit
  {
    if tag == "HUMAN" then Some(Human)
    else if tag == "GREEDY" then Some(Greedy)
    else if tag == "VANDAL" then Some(Vandal)
    else if tag == "GREEDY SEARCH" then Some(GreedySearch)
    else if tag == "A_STAR SEARCH" then Some(AStarSearch(limit))
    else if tag == "REALTIME A_STAR SEARCH" then Some(RealtimeAStarSearch(limit))
    else None
  }

  /** Every kind is reachable from its own tag and budget. */
  lemma KindTagRoundTrip(kind: AgentKind)
    ensures KindFromTag(TagOf(kind), LimitOf(kind)) == Some(kind)
  {
  }

  /** The edge being traversed and the vertex it leads to. */
  datatype Heading = Heading(edge: nat, dest: nat)

  /**
   * `view` is the people snapshot last handed to the agent; `heading` records
   * the traversal the environment started.
   */
  datatype Agent = Agent(
    index: int,
    kind: AgentKind,
    location: nat,
    view: seq<nat>,
    carried: nat,
    saved: nat,
    terminated: bool,
    traversing: bool,
    heading: Option<Heading>)

  /** A fresh agent standing at `start`, carrying and having saved nobody. */
  function InitialAgent(index: int, kind: AgentKind, start: nat, view: seq<nat>): Agent {
    Agent(index, kind, start, view, 0, 0, false, false, None)
  }

  /** Stops the agent for good and reports how many people it was carrying. */
  function Terminate(a: Agent): (Agent, nat) {
    (a.(terminated := true), a.carried)
  }

  /** Sets the agent off along edge `edge` towards vertex `dest`. */
  function Traverse(a: Agent, edge: nat, dest: nat): Agent {
    a.(traversing := true, heading := Some(Heading(edge, dest)))
  }

  /** The reply a planner gives, read the way the environment reads it. */
  datatype Action =
    | NoAction                   // an empty reply: nothing happens
    | Stop                       // the reply "TERMINATE"
    | ViaEdge(id: string)        // a reply starting with 'E' names an edge
    | ToVertex(id: string)       // a reply starting with 'V' names a vertex
    | Unrecognised(text: string) // any other reply: no destination is bound

  const TerminateText: string := "TERMINATE"

  /** The reply text each action is read from. */
  function ActionText(a: Action): string {
    match a
    case NoAction => ""
    case Stop => TerminateText
    case ViaEdge(id) => id
    case ToVertex(id) => id
    case Unrecognised(t) => t
  }

  /** The actions that some reply text is read as. */
  predicate WellFormedAction(a: Action) {
    match a
    case NoAction => true
    case Stop => true
    case ViaEdge(id) => |id| > 0 && id[0] == 'E'
    case ToVertex(id) => |id| > 0 && id[0] == 'V'
    case Unrecognised(t) => t != "" && t != TerminateText && t[0] != 'E' && t[0] != 'V'
  }

  /** How the environment dispatches on a planner's reply. */
  function ClassifyAction(reply: string): (r: Action)
    ensures WellFormedAction(r)
    ensures ActionText(r) == reply
  {
    if reply == "" then NoAction
    else if reply == TerminateText then Stop
    else if reply[0] == 'E' then ViaEdge(reply)
    else if reply[0] == 'V' then ToVertex(reply)
    else Unrecognised(reply)
  }

  /** Reading the text of a well-formed action gives that action back. */
  lemma ClassifyActionText(a: Action)
    requires WellFormedAction(a)
    ensures ClassifyAction(ActionText(a)) == a
  {
  }
}
