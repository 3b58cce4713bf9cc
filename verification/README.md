# Hurricane-evacuation environment stepper, modelled in Dafny

This project models the discrete-time environment of a hurricane-evacuation
simulation. Rescue agents move over a graph of vertices. Each vertex has a
deadline, a count of waiting people and a shelter flag. The environment keeps
the global time, the registered agents with a score ledger aligned to them,
the penalty constant `k` (default 2), and the number of people lost to expired
deadlines. It does the following:

- builds the deadline-adjusted people snapshot it hands to agents;
- empties lapsed non-shelter vertices into the loss count on each tick;
- applies the hurricane-strike and voluntary-termination penalties;
- resolves a traversal request to a destination vertex;
- registers agents with 1-based indices;
- loops until every agent has terminated.

Everything is pure: immutable datatypes and functions over sequences. Two
things the environment asks the agents become inputs, one `Decision` per agent
per tick: the random hurricane test and the reply of the agent's planner.

Modules:

- `Wrappers`: `Option` and `Result`.
- `GraphModel`: vertices, edges, lookups by name, and edge-endpoint resolution.
- `Agents`: agent kinds and registration tags, agent state, and how a planner's reply text is read as an action.
- `Scores`: the score ledger, addressed with Python list indexing.
- `Snapshot`: the deadline-adjusted people array.
- `Expiry`: the per-tick loss of people at lapsed vertices.
- `Environment`: the environment state, registration, and the per-agent and per-tick update.
- `Simulation`: the tick and the simulation loop.

Notes on the code's behaviour:

- The snapshot compares each vertex's deadline with the current time, strictly. It does not test the shelter flag itself. Whether shelter entries are already zero in the base array depends on graph.py, which is not part of this model.
- A reply naming an unknown edge or vertex, or a vertex that is not adjacent, does not turn into a penalised termination. The lookup fails, which the model reports as a `StepError`.
- In the agent loop of `update`, the chosen edge and destination are ordinary local variables. They keep their values from one agent to the next. A reply starting with neither `E` nor `V` therefore reuses the destination an earlier agent of the same pass chose. It raises only when no earlier agent chose one. `Environment.StepAgent` models this through its `bound` argument, and `Environment.UpdateAsWritten` is the pass as written. The tick uses the corrected pass `Environment.Update`, in which such a reply is always an error (see Findings).
- Scores are addressed as `index - 1` in a Python list, so a non-positive index would count from the end (`Scores.Slot`). Registration always assigns indices from 1, and `Environment.Valid` keeps them aligned, so every real update hits position `index - 1`.

## Model

| member | source | states |
|---|---|---|
| Snapshot.PeopleArrayConsideringDeadlines | environment.py:100-105 | The result has one entry per vertex. An entry is 0 exactly when the vertex deadline is strictly below the time, and otherwise equals the vertex's people count. The result is pinned to one value, so two calls with no change in between agree. |
| Snapshot.Snapshot | environment.py:100-105 | Reference definition of the snapshot; the result has one entry per vertex. |
| Snapshot.SnapshotKeepsDeadlineNow | environment.py:103 | The comparison is strict: a vertex whose deadline equals the current time keeps its people in the snapshot. |
| Snapshot.SnapshotSumBounded | environment.py:100-105 | The snapshot never shows more people in total than the graph holds. |
| Snapshot.SnapshotMonotoneInTime | environment.py:103 | As time advances a snapshot entry can only fall, and an entry that is zero stays zero. |
| Expiry.ExpireAll | environment.py:124-127 | Every non-shelter vertex with deadline below the time is emptied. Shelters and unexpired vertices are untouched. The removed count plus the remaining people equals the people before. |
| Expiry.ExpireIdempotent | environment.py:124-127 | Expiring again at the same time changes nothing and removes nobody. |
| Expiry.SnapshotUnchangedByExpiry | environment.py:124-127 | The expiry step does not change what the same tick's snapshot shows. |
| Environment.ExpireStep | environment.py:124-127 | `dead` grows by exactly the people removed, so vertex people plus `dead` is preserved. Agents, scores and time are untouched, and validity and conservation are kept. |
| Environment.NewEnv | environment.py:13-22 | A new environment starts at time 0 with no agents, no scores, no losses and the given `k`. Its total equals the people in the graph, shelters included, so conservation holds from the start. |
| Environment.NewEnvDefault | environment.py:11-13 | Without an explicit penalty constant, `k` is 2. |
| Environment.AddAgent | environment.py:65-92 | Registration succeeds exactly for the six known tags, whatever the budget answer. The new agent has the kind the tag names, index `len(agents)+1`, the start vertex, the plain people array as its view, nothing carried or saved, and is neither terminated nor in transit. Exactly one agent and one zero score are appended, and the earlier agents are kept. Index/score alignment and conservation are preserved. |
| Environment.AreAllAgentsDead | environment.py:94-98 | Returns true exactly when every agent is terminated, which is vacuously true with no agents. |
| Environment.StepAgent | environment.py:29-63 | One iteration of the agent loop, given the destination the loop variables still hold. A terminated agent leaves the environment unchanged. Otherwise only that agent and its own score change. The graph, time, `k` and losses stay fixed, and the agent's view becomes the snapshot at the current time. |
| Environment.Act | environment.py:44-62 | Applying an idle agent's reply changes only that agent's slot and keeps the environment valid. Only a stop changes the score. An agent that sets off named an edge or a vertex, or reused the bound destination. |
| Environment.PassFrom | environment.py:30-63 | The pass as written, carrying the bound destination from agent to agent. It leaves the agents before position `i` unchanged, keeps the environment valid and does not touch the graph, time or losses. |
| Environment.UpdateAsWritten | environment.py:29-63 | The whole pass as written keeps the environment valid and does not touch the graph, time or losses. |
| Environment.UpdateFrom | environment.py:30-63 | The corrected pass from position `i` on leaves the earlier agents and scores unchanged and keeps the environment valid. |
| Environment.Update | environment.py:29-63 | The corrected agent pass keeps the environment valid and does not touch the graph, time or losses. |
| Environment.StepAgentLocal | environment.py:29-63 | An agent's step reads only the shared world, its own agent and score, and the bound destination. |
| Environment.UpdateFromPointwise | environment.py:30-63 | In the model's corrected pass, where agents never change the graph, handling the agents in order gives the same result as handling each agent alone with nothing bound, and succeeds exactly when every such step succeeds. |
| Environment.UpdatePointwise | environment.py:30-63 | The same pointwise characterisation for a whole pass of the model's corrected pass, where agents never change the graph. |
| Environment.BindingUnread | environment.py:52-62 | A step that succeeds with nothing bound gives the same result under any bound destination. |
| Environment.PassAgreesWithUpdateFrom | environment.py:30-63 | Whenever the corrected pass succeeds, the pass as written gives the same result, whatever destination is bound at the start. |
| Environment.UpdateAsWrittenAgrees | environment.py:29-63 | The pass as written and the corrected pass differ only where the corrected one reports an error. |
| Environment.UpdateMovesOnlyOnOwnReply | environment.py:52-62 | In the corrected pass, an idle agent sets off only when its own reply named an edge or a vertex. |
| Environment.StaleBindingExample | environment.py:53-62 | With two idle agents replying "E1" and then "X", the pass as written sends the second agent along E1 to vertex 1. The corrected pass reports "X" as unbound. |
| Environment.UpdateSkipsTerminated | environment.py:31-32 | A terminated agent and its score are untouched by a pass. |
| Environment.StepStruck | environment.py:35-38 | A hurricane strike terminates a running agent wherever it is, in transit or not, and lowers its score by carried plus `k`. |
| Environment.StepInTransit | environment.py:35-40 | An agent in transit that is not struck keeps its score and state. Only its view is refreshed. |
| Environment.StepTerminate | environment.py:43-51 | A voluntary stop first sets the score to the saved count. It then charges carried plus `k` when the agent carries people, `k` when it is empty-handed away from a shelter, and nothing when it is empty-handed at a shelter. |
| Environment.StepViaEdge | environment.py:53-58 | Naming an edge succeeds exactly when the edge exists. The agent then sets off along it towards the second endpoint if it stands on the first, and towards the first endpoint otherwise. |
| Environment.StepToVertex | environment.py:59-62 | Naming a vertex succeeds exactly when the vertex exists and is adjacent. The agent then sets off towards it along an edge joining it to the agent's location. |
| Environment.StepUnrecognised | environment.py:52-62 | A reply naming neither an edge nor a vertex binds no destination of its own. With nothing bound, the step fails. Otherwise the agent sets off along the edge and towards the vertex an earlier agent bound, and its score is its saved count. |
| Environment.StepNoAction | environment.py:43-45 | An empty reply only resets the score to the saved count and refreshes the view. |
| Scores.Slot | environment.py:108 | The position addressed by `index - 1` is inside the list. It is `index - 1` itself for positive indices, and `index - 1 + len` otherwise. |
| Scores.AddScore | environment.py:107-108 | Only the agent's slot changes, and it grows by the amount. |
| Scores.ReduceScore | environment.py:110-111 | Only the agent's slot changes, and it falls by the amount. |
| Scores.SetScore | environment.py:113-114 | Only the agent's slot changes, and it holds the amount. |
| Scores.ReduceUndoesAdd | environment.py:107-111 | Reducing by an amount undoes adding it. |
| Scores.SetOverridesAdd | environment.py:107-114 | Setting a score forgets an earlier addition. |
| Scores.SetCurrentIsIdentity | environment.py:113-114 | Setting a score to its current value changes nothing. |
| Scores.UpdatesCommute | environment.py:107-111 | Updates of two different agents' scores commute. |
| Scores.ZeroIndexAddressesLast | environment.py:107-108 | Index 0 is not rejected: it addresses the last score. |
| GraphModel.People | environment.py:22 | The per-vertex people counts, shelters included, one entry per vertex. |
| GraphModel.FindEdge | environment.py:54 | Finds a named edge exactly when some edge carries that name. |
| GraphModel.FindVertex | environment.py:60 | Finds a named vertex exactly when some vertex carries that name. |
| GraphModel.EdgeBetween | environment.py:61 | Finds an edge exactly when the two vertices are adjacent, and the edge found joins them. |
| GraphModel.FirstIndex | environment.py:54-61 | The first match of a lookup satisfies the test, and nothing before it does. None means nothing matches. |
| GraphModel.OtherEnd | environment.py:53-58 | The destination is always an endpoint of the edge. From an endpoint, the edge joins the location and the destination. Unless the edge is a loop, the destination differs from the location. |
| GraphModel.OtherEndInvolution | environment.py:53-58 | Resolving from the destination leads back to the start. |
| GraphModel.OtherEndSymmetric | environment.py:53-58 | From an endpoint, resolution does not depend on which endpoint the edge lists first. |
| Agents.KindFromTag | environment.py:68-89 | Exactly the six known tags are recognised, whatever the budget answer. A recognised tag yields the kind carrying that tag, and the two A* kinds carry the budget answer. |
| Agents.KindTagRoundTrip | environment.py:68-89 | Every kind is produced by its own tag and budget. |
| Agents.ClassifyAction | environment.py:45-61 | Reading a reply gives a well-formed action whose text is the reply itself. |
| Agents.ClassifyActionText | environment.py:45-61 | Reading back the text of a well-formed action gives the action again. |
| Simulation.Tick | environment.py:121-136 | A tick runs expiry, the corrected agent pass, and then advances the time by exactly 1. It keeps validity, the agent count and conservation, and never lowers the losses. |
| Simulation.TickKeepsTerminated | environment.py:120-136 | A terminated agent stays terminated across a tick, and its score stays frozen. |
| Simulation.TickClearsExpired | environment.py:124-127 | After a tick, every non-shelter vertex whose deadline lapsed before the tick holds nobody. |
| Simulation.RunTicks | environment.py:120-136 | The loop performs no tick once all agents are terminated. The time advances by exactly the number of ticks performed. It stops only when every agent has terminated or the script is exhausted. |
| Simulation.Simulate | environment.py:116-136 | With zero agents no tick is performed. A run that ends before the script does ends with every agent terminated. Conservation holds throughout. |

## Left out

- Snapshot.PeopleArrayConsideringDeadlines: `get_people_array` (graph.py) is taken to equal `get_people_array_with_shelter`, the per-vertex counts including shelters, because graph.py is not part of this model.
- Environment.AddAgent: the new agent's initial view uses the same per-vertex counts, for the same reason.
- Simulation.Tick: runs the corrected agent pass `Environment.Update`, not the pass as written, `Environment.UpdateAsWritten`. The two agree whenever the corrected pass succeeds (`Environment.UpdateAsWrittenAgrees`). See Findings.
- Environment.UpdatePointwise: states locality only for the corrected pass with at-vertex auto actions taken as the identity. In the pass as written, an unrecognised reply reads the destination an earlier agent bound (`Environment.StaleBindingExample`). In the real program, an earlier agent's pickups and drop-offs change vertex people counts. A later agent's snapshot in the same pass would see those changes. The model's snapshot is always the one taken at the start of the pass.
- Environment.UpdateFromPointwise: the same two limits. Locality from position `i` on rests on the corrected pass, and on agents never changing the graph, because auto actions are not modelled.
- Printing and `print_env` (environment.py:26-27, 128-173): output formatting only.
- The interactive budget prompts in `add_agent`: the answer is the `limit` parameter of `AddAgent`, and `None` stands for an empty answer.
- `hurricane_check`: it is random, so the per-tick `Decision.struck` input replaces it.
- `agent.action` and the search planners: the per-tick `Decision.reply` input replaces them.
- `at_vertex_auto_actions`, `time_update` and `traverse_update` belong to the agent code, which is not part of this model. They are taken as the identity. So no people move between vertices and agents, and an agent in transit never arrives.
- `traverse` is modelled as setting the agent in transit and recording the edge and destination (`Heading`). The travel countdown belongs to the agent code.
- `terminate` is modelled as setting the terminated flag and returning the carried count.
- Graph construction from a configuration file, and the exact name grammar of vertices and edges: graph.py is not part of this model. Lookups are first-match searches by name.
- The `Environment.PERCEPT` singleton: the environment is passed explicitly.
- Environment.Conserved: counts the people at vertices, shelters included, plus the people lost, against the total. Delivered people sit in shelter counts, so they are covered. People being carried are not counted, because pickups by auto actions are not modelled.
- Edge weights: the `weight` field of an edge is carried but never read. Edge costs and travel time belong to the agent code, which is not part of this model.
- Simulation.Simulate: the loop runs for at most the length of the decision script. The script stands in for the planners, so a run that would never terminate cannot be expressed.

## Findings

| source | as written | input that shows it | evidently intended | confidence | as-written member | corrected member |
|---|---|---|---|---|---|---|
| environment.py:53-62 | `dest_e` and `dest_v` are locals of `update`, assigned only in the `E` and `V` branches. They keep the previous agent's values, so a reply starting with neither letter calls `traverse` with another agent's edge and destination. | Two idle agents at vertex 0 of a graph with the single edge "E1" from 0 to 1, replying "E1" and then "X": the second agent sets off along E1 to vertex 1. | A reply naming neither an edge nor a vertex never moves the agent. It is rejected as it is when no agent has chosen a destination yet. | medium, not executed | Environment.UpdateAsWritten, Environment.StaleBindingExample | Environment.Update, Environment.UpdateMovesOnlyOnOwnReply |
