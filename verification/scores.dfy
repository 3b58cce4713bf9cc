/**
 * The score ledger: one integer per agent, addressed through the agent's
 * 1-based index. The ledger is a Python list, so a position below zero
 * counts from the end; `Slot` models that reading of `index - 1`.
 */
module Scores {

  /** `index - 1` is a legal position of a list of length `n`. */
  predicate ValidSlot(n: nat, index: int) {
    -(n as int) <= index - 1 < n
  }

  /** The list position that `index - 1` addresses. */
  function Slot(n: nat, index: int): (r: nat)
    requires ValidSlot(n, index)
    ensures r < n
    ensures 1 <= index ==> r == index - 1
    ensures index < 1 ==> r == index - 1 + n
  {
    if index - 1 < 0 then index - 1 + n else index - 1
  }

  function AddScore(scores: seq<int>, index: int, amount: int): (r: seq<int>)
    requires ValidSlot(|scores|, index)
    ensures |r| == |scores|
    ensures r[Slot(|scores|, index)] == scores[Slot(|scores|, index)] + amount
    ensures forall j :: 0 <= j < |r| && j != Slot(|scores|, index) ==> r[j] == scores[j]
  {
    var p := Slot(|scores|, index);
    scores[p := scores[p] + amount]
  }

  function ReduceScore(scores: seq<int>, index: int, amount: int): (r: seq<int>)
    requires ValidSlot(|scores|, index)
    ensures |r| == |scores|
    ensures r[Slot(|scores|, index)] == scores[Slot(|scores|, index)] - amount
    ensures forall j :: 0 <= j < |r| && j != Slot(|scores|, index) ==> r[j] == scores[j]
  {
    var p := Slot(|scores|, index);
    scores[p := scores[p] - amount]
  }

  function SetScore(scores: seq<int>, index: int, amount: int): (r: seq<int>)
    requires ValidSlot(|scores|, index)
    ensures |r| == |scores|
    ensures r[Slot(|scores|, index)] == amount
    ensures forall j :: 0 <= j < |r| && j != Slot(|scores|, index) ==> r[j] == scores[j]
  {
    scores[Slot(|scores|, index) := amount]
  }

  /** Reducing by an amount undoes adding it. */
  lemma ReduceUndoesAdd(scores: seq<int>, index: int, amount: int)
    requires ValidSlot(|scores|, index)
    ensures ReduceScore(AddScore(scores, index, amount), index, amount) == scores
  {
  }

  /** Setting a score forgets whatever was added to it before. */
  lemma SetOverridesAdd(scores: seq<int>, index: int, amount: int, value: int)
    requires ValidSlot(|scores|, index)
    ensures SetScore(AddScore(scores, index, amount), index, value) == SetScore(scores, index, value)
  {
  }

  /** Setting a score to what it already holds changes nothing. */
  lemma SetCurrentIsIdentity(scores: seq<int>, index: int)
    requires ValidSlot(|scores|, index)
    ensures SetScore(scores, index, scores[Slot(|scores|, index)]) == scores
  {
  }

  /** Updates of different agents' scores commute. */
  lemma UpdatesCommute(scores: seq<int>, i: int, a: int, j: int, b: int)
    requires ValidSlot(|scores|, i) && ValidSlot(|scores|, j)
    requires Slot(|scores|, i) != Slot(|scores|, j)
    ensures AddScore(ReduceScore(scores, i, a), j, b) == ReduceScore(AddScore(scores, j, b), i, a)
  {
  }

  /** Index 0 is not rejected: as a list position -1 it addresses the last score. */
  lemma ZeroIndexAddressesLast(scores: seq<int>, amount: int)
    requires |scores| > 0
    ensures AddScore(scores, 0, amount)[|scores| - 1] == scores[|scores| - 1] + amount
  {
  }
}
