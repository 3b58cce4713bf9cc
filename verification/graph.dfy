/**
 * The hazard graph as the environment sees it: vertices with a deadline, a
 * people count and a shelter flag, and undirected edges between vertex
 * positions. Vertices are identified by their position in `vertices`.
 */
module GraphModel {
  import opened Wrappers

  datatype Vertex = Vertex(name: string, deadline: int, people: nat, shelter: bool)

  /** An undirected edge between the vertices at positions `v1` and `v2`. */
  datatype Edge = Edge(name: string, v1: nat, v2: nat, weight: nat)

  datatype Graph = Graph(vertices: seq<Vertex>, edges: seq<Edge>)

  /** Every edge joins two vertices of the graph. */
  predicate WellFormed(g: Graph) {
    forall e :: 0 <= e < |g.edges| ==> g.edges[e].v1 < |g.vertices| && g.edges[e].v2 < |g.vertices|
  }

  /** The per-vertex people counts, shelters included, in vertex order. */
  function People(vs: seq<Vertex>): (r: seq<nat>)
    ensures |r| == |vs|
    ensures forall i :: 0 <= i < |vs| ==> r[i] == vs[i].people
  {
    seq(|vs|, i requires 0 <= i < |vs| => vs[i].people)
  }

  function Sum(s: seq<nat>): nat {
    if |s| == 0 then 0 else s[0] + Sum(s[1..])
  }

  lemma SumPeopleCons(v: Vertex, rest: seq<Vertex>)
    ensures Sum(People([v] + rest)) == v.people + Sum(People(rest))
  {
    assert People([v] + rest)[1..] == People(rest);
  }

  /** The position of the first element of `s` satisfying `p`, if any. */
  function FirstIndex<T>(s: seq<T>, p: T -> bool): (r: Option<nat>)
    ensures r.Some? ==> r.value < |s| && p(s[r.value])
    ensures r.Some? ==> forall j :: 0 <= j < r.value ==> !p(s[j])
    ensures r.None? ==> forall j :: 0 <= j < |s| ==> !p(s[j])
  {
    if |s| == 0 then None
    else if p(s[0]) then Some(0)
    else
      match FirstIndex(s[1..], p)
      case None => None
      case Some(k) => Some(k + 1)
  }

  /** Resolves a vertex identifier to the first vertex carrying that name. */
  function FindVertex(g: Graph, name: string): (r: Option<nat>)
    ensures r.Some? ==> r.value < |g.vertices| && g.vertices[r.value].name == name
    ensures r.None? <==> forall j :: 0 <= j < |g.vertices| ==> g.vertices[j].name != name
  {
    FirstIndex(g.vertices, (v: Vertex) => v.name == name)
  }

  /** Resolves an edge identifier to the first edge carrying that name. */
  function FindEdge(g: Graph, name: string): (r: Option<nat>)
    ensures r.Some? ==> r.value < |g.edges| && g.edges[r.value].name == name
    ensures r.None? <==> forall j :: 0 <= j < |g.edges| ==> g.edges[j].name != name
  {
    FirstIndex(g.edges, (e: Edge) => e.name == name)
  }

  /** The edge `e` connects `a` and `b`, in either direction. */
  predicate Joins(e: Edge, a: nat, b: nat) {
    (e.v1 == a && e.v2 == b) || (e.v1 == b && e.v2 == a)
  }

  /** The first edge connecting `a` and `b`, if the two are adjacent. */
  function EdgeBetween(g: Graph, a: nat, b: nat): (r: Option<nat>)
    ensures r.Some? ==> r.value < |g.edges| && Joins(g.edges[r.value], a, b)
    ensures r.None? <==> forall j :: 0 <= j < |g.edges| ==> !Joins(g.edges[j], a, b)
  {
    FirstIndex(g.edges, (e: Edge) => Joins(e, a, b))
  }

  /**
   * The destination of traversing `e` from `loc`: the second endpoint when
   * `loc` is the first one, and the first endpoint otherwise.
   */
  function OtherEnd(e: Edge, loc: nat): (r: nat)
    ensures r == e.v1 || r == e.v2
    ensures (loc == e.v1 || loc == e.v2) ==> Joins(e, loc, r)
    ensures (loc == e.v1 || loc == e.v2) && e.v1 != e.v2 ==> r != loc
  {
    if e.v1 == loc then e.v2 else e.v1
  }

  /** Traversing an edge back from its far end returns to the start. */
  lemma OtherEndInvolution(e: Edge, loc: nat)
    requires loc == e.v1 || loc == e.v2
    ensures OtherEnd(e, OtherEnd(e, loc)) == loc
  {
  }

  /** Resolution depends only on the endpoints, not on which one is listed first. */
  lemma OtherEndSymmetric(e: Edge, loc: nat)
    requires loc == e.v1 || loc == e.v2
    ensures OtherEnd(e, loc) == OtherEnd(e.(v1 := e.v2, v2 := e.v1), loc)
  {
  }
}
