/**
 * The deadline-adjusted people snapshot handed to every active agent: the
 * graph's people array with every entry whose vertex deadline is strictly
 * before the current time replaced by zero.
 */
module Snapshot {
  import opened GraphModel

  /** A vertex whose deadline is strictly before `time` has lapsed. */
  predicate Lapsed(v: Vertex, time: int) {
    v.deadline < time
  }

  /** The snapshot, as a reference definition. */
  function Snapshot(vs: seq<Vertex>, time: int): (r: seq<nat>)
    ensures |r| == |vs|
  {
    seq(|vs|, i requires 0 <= i < |vs| => if Lapsed(vs[i], time) then 0 else vs[i].people)
  }

  /** Builds the snapshot the way the environment does: copy, then zero the lapsed entries. */
  method PeopleArrayConsideringDeadlines(vs: seq<Vertex>, time: int) returns (res: seq<nat>)
    ensures |res| == |vs|
    ensures forall i :: 0 <= i < |vs| && vs[i].deadline < time ==> res[i] == 0
    ensures forall i :: 0 <= i < |vs| && time <= vs[i].deadline ==> res[i] == vs[i].people
    ensures res == Snapshot(vs, time)
  {
    res := People(vs);
    var i := 0;
    while i < |res|
      invariant 0 <= i <= |res| == |vs|
      invariant forall j :: 0 <= j < i ==> res[j] == Snapshot(vs, time)[j]
      invariant forall j :: i <= j < |vs| ==> res[j] == vs[j].people
    {
      if vs[i].deadline < time {
        res := res[i := 0];
      }
      i := i + 1;
    }
  }

  /** A deadline equal to the current time still keeps its people. */
  lemma SnapshotKeepsDeadlineNow(vs: seq<Vertex>, time: int, i: nat)
    requires i < |vs| && vs[i].deadline == time
    ensures Snapshot(vs, time)[i] == vs[i].people
  {
  }

  /** The snapshot never shows more people than the graph holds. */
  lemma {:induction false} SnapshotSumBounded(vs: seq<Vertex>, time: int)
    ensures Sum(Snapshot(vs, time)) <= Sum(People(vs))
    decreases |vs|
  {
    if |vs| > 0 {
      assert Snapshot(vs, time)[1..] == Snapshot(vs[1..], time);
      assert People(vs)[1..] == People(vs[1..]);
      SnapshotSumBounded(vs[1..], time);
    }
  }

  /** As time advances, an entry can only drop to zero, never reappear. */
  lemma SnapshotMonotoneInTime(vs: seq<Vertex>, t1: int, t2: int, i: nat)
    requires t1 <= t2 && i < |vs|
    ensures Snapshot(vs, t2)[i] <= Snapshot(vs, t1)[i]
    ensures Snapshot(vs, t1)[i] == 0 ==> Snapshot(vs, t2)[i] == 0
  {
  }
}
