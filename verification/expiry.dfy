/**
 * The per-tick expiry: people waiting at a non-shelter vertex whose deadline
 * is strictly before the current time are lost.
 */
module Expiry {
  import opened GraphModel
  import Snapshot

  /** People at `v` are lost at `time`. */
  predicate Expires(v: Vertex, time: int) {
    !v.shelter && Snapshot.Lapsed(v, time)
  }

  /** The vertices after expiry, and how many people were lost. */
  datatype ExpiryOutcome = ExpiryOutcome(vertices: seq<Vertex>, removed: nat)

  /** Walks the vertices in order, emptying each expiring one into the loss count. */
  function ExpireAll(vs: seq<Vertex>, time: int): (r: ExpiryOutcome)
    ensures |r.vertices| == |vs|
    ensures forall i :: 0 <= i < |vs| && Expires(vs[i], time) ==> r.vertices[i] == vs[i].(people := 0)
    ensures forall i :: 0 <= i < |vs| && !Expires(vs[i], time) ==> r.vertices[i] == vs[i]
    ensures Sum(People(r.vertices)) + r.removed == Sum(People(vs))
    decreases |vs|
  {
    if |vs| == 0 then ExpiryOutcome([], 0)
    else
      var v := vs[0];
      var rest := ExpireAll(vs[1..], time);
      assert vs == [v] + vs[1..];
      SumPeopleCons(v, vs[1..]);
      if Expires(v, time) then
        SumPeopleCons(v.(people := 0), rest.vertices);
        ExpiryOutcome([v.(people := 0)] + rest.vertices, rest.removed + v.people)
      else
        SumPeopleCons(v, rest.vertices);
        ExpiryOutcome([v] + rest.vertices, rest.removed)
  }

  /** Expiry at a given time leaves nobody to lose at that time: it is idempotent. */
  lemma ExpireIdempotent(vs: seq<Vertex>, time: int)
    ensures ExpireAll(ExpireAll(vs, time).vertices, time).vertices == ExpireAll(vs, time).vertices
    ensures ExpireAll(ExpireAll(vs, time).vertices, time).removed == 0
  {
  }

  /** Expiry changes nothing an agent sees in the snapshot taken at the same time. */
  lemma SnapshotUnchangedByExpiry(vs: seq<Vertex>, time: int)
    ensures Snapshot.Snapshot(ExpireAll(vs, time).vertices, time) == Snapshot.Snapshot(vs, time)
  {
  }
}
