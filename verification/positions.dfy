/**
  Lists built by a loop that keeps some elements and skips the others, described by position: which
  elements are kept, and in what order.
 */
module Positions {
  ghost predicate Ascends(at: seq<nat>) {
    forall i, j :: 0 <= i < j < |at| ==> at[i] < at[j]
  }

  /** The marked positions, in order. */
  function Marked(marks: seq<bool>): (at: seq<nat>)
    ensures Ascends(at)
    ensures forall i: nat :: i in at <==> i < |marks| && marks[i]
  {
    if marks == [] then []
    else
      var n := |marks| - 1;
      var before := Marked(marks[..n]);
      assert forall k :: 0 <= k < |before| ==> before[k] in before;
      before + if marks[n] then [n] else []
  }

  /** The values at the marked positions. */
  function Filtered<T>(values: seq<T>, marks: seq<bool>): seq<T>
    requires |values| == |marks|
  {
    if marks == [] then []
    else
      var n := |marks| - 1;
      Filtered(values[..n], marks[..n]) + if marks[n] then [values[n]] else []
  }

  /** Element k of the list is the value at position at[k]. */
  ghost predicate Picks<T>(list: seq<T>, at: seq<nat>, values: seq<T>) {
    Ascends(at) && |list| == |at| && forall k :: 0 <= k < |at| ==> at[k] < |values| && list[k] == values[at[k]]
  }

  lemma FilteredLast<T>(values: seq<T>, marks: seq<bool>, value: T, mark: bool)
    requires |values| == |marks|
    ensures Filtered(values + [value], marks + [mark]) == Filtered(values, marks) + if mark then [value] else []
  {
    assert (values + [value])[..|values|] == values && (marks + [mark])[..|marks|] == marks;
  }

  lemma {:induction false} FilteredPicks<T>(values: seq<T>, marks: seq<bool>)
    requires |values| == |marks|
    ensures Picks(Filtered(values, marks), Marked(marks), values)
  {
    if marks != [] {
      FilteredPicks(values[..|marks|-1], marks[..|marks|-1]);
    }
  }

  /** Picking from what was picked: the positions compose. */
  lemma PicksOfPicks<T>(list: seq<T>, outer: seq<nat>, middle: seq<T>, inner: seq<nat>, values: seq<T>)
    returns (at: seq<nat>)
    requires Picks(list, outer, middle) && Picks(middle, inner, values)
    ensures Picks(list, at, values)
    ensures forall i: nat :: i in at <==> exists m: nat :: m in outer && m < |inner| && inner[m] == i
  {
    at := seq(|outer|, k requires 0 <= k < |outer| => inner[outer[k]]);
    forall i: nat ensures i in at <==> exists m: nat :: m in outer && m < |inner| && inner[m] == i {
      if i in at {
        var k :| 0 <= k < |at| && at[k] == i;
        assert outer[k] in outer && inner[outer[k]] == i;
      }
      if m: nat :| m in outer && m < |inner| && inner[m] == i {
        var k :| 0 <= k < |outer| && outer[k] == m;
        assert at[k] == i;
      }
    }
  }
}
