/**
 * Concatenation of a sequence of sequences, used for the messages a
 * publishing loop sends turn by turn.
 */
module Flattening {
  /** The parts one after the other. */
  function Flatten<T>(parts: seq<seq<T>>): seq<T> {
    if parts == [] then [] else Flatten(parts[..|parts| - 1]) + parts[|parts| - 1]
  }

  /** One more part appends its elements. */
  lemma FlattenStep<T>(parts: seq<seq<T>>, i: nat)
    requires i < |parts|
    ensures Flatten(parts[..i + 1]) == Flatten(parts[..i]) + parts[i]
  {
    assert parts[..i + 1][..i] == parts[..i];
  }

  /** Flattening distributes over concatenation. */
  lemma {:induction false} FlattenAppend<T>(a: seq<seq<T>>, b: seq<seq<T>>)
    ensures Flatten(a + b) == Flatten(a) + Flatten(b)
    decreases |b|
  {
    if b == [] {
      assert a + b == a;
    } else {
      var n := |b| - 1;
      assert (a + b)[..|a + b| - 1] == a + b[..n];
      FlattenAppend(a, b[..n]);
      assert Flatten(b) == Flatten(b[..n]) + b[n];
    }
  }

  /** When every part holds one element, element `i` is part `i`'s. */
  lemma {:induction false} FlattenSingletons<T>(parts: seq<seq<T>>)
    requires forall i :: 0 <= i < |parts| ==> |parts[i]| == 1
    ensures |Flatten(parts)| == |parts|
    ensures forall i :: 0 <= i < |parts| ==> Flatten(parts)[i] == parts[i][0]
    decreases |parts|
  {
    if parts != [] {
      var n := |parts| - 1;
      var init := parts[..n];
      assert forall j :: 0 <= j < n ==> init[j] == parts[j];
      FlattenSingletons(init);
    }
  }

  /** Empty parts add up to nothing. */
  lemma {:induction false} FlattenEmpty<T>(parts: seq<seq<T>>)
    requires forall i :: 0 <= i < |parts| ==> parts[i] == []
    ensures Flatten(parts) == []
    decreases |parts|
  {
    if parts != [] {
      var n := |parts| - 1;
      var init := parts[..n];
      assert forall j :: 0 <= j < n ==> init[j] == parts[j];
      FlattenEmpty(init);
    }
  }

  /** An empty part can be dropped from the middle of a flattening. */
  lemma FlattenSkip<T>(parts: seq<seq<T>>, k: nat)
    requires k < |parts| && parts[k] == []
    ensures Flatten(parts) == Flatten(parts[..k]) + Flatten(parts[k + 1..])
  {
    var before, after := parts[..k], parts[k + 1..];
    assert parts == (before + [[]]) + after;
    FlattenAppend(before + [[]], after);
    assert (before + [[]])[..|before|] == before;
    assert Flatten(before + [[]]) == Flatten(before);
  }
}
