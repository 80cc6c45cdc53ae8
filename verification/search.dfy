/**
 * Array search as the JavaScript code uses it: `Array.prototype.findIndex`
 * (and `find`, which returns the element at that position) over the
 * arrays both demo back ends keep in browser storage.
 */
module Search {

  /** `findIndex`: the first position whose element satisfies `p`, or -1. */
  function FirstIndex<T>(xs: seq<T>, p: T -> bool): (i: int)
    ensures -1 <= i < |xs|
    ensures 0 <= i ==> p(xs[i])
    decreases |xs|
  {
    if xs == [] then -1
    else if p(xs[0]) then 0
    else
      var j := FirstIndex(xs[1..], p);
      if j == -1 then -1 else j + 1
  }

  /** `findIndex` gives -1 only when no element satisfies `p`, and otherwise the first one that does. */
  lemma {:induction false} FirstIndexIsFirst<T>(xs: seq<T>, p: T -> bool)
    ensures FirstIndex(xs, p) == -1 <==> forall k :: 0 <= k < |xs| ==> !p(xs[k])
    ensures forall k :: 0 <= k < FirstIndex(xs, p) ==> !p(xs[k])
    decreases |xs|
  {
    if xs != [] && !p(xs[0]) {
      FirstIndexIsFirst(xs[1..], p);
      assert forall k :: 1 <= k < |xs| ==> xs[k] == xs[1..][k - 1];
    }
  }

  /** A position that satisfies `p` with none before it is what `findIndex` returns; past the end, -1. */
  lemma {:induction false} FirstIndexAt<T>(xs: seq<T>, p: T -> bool, i: int)
    requires 0 <= i <= |xs|
    requires forall k :: 0 <= k < i ==> !p(xs[k])
    requires i < |xs| ==> p(xs[i])
    ensures FirstIndex(xs, p) == if i == |xs| then -1 else i
    decreases i
  {
    if i > 0 {
      assert forall k :: 0 <= k < i - 1 ==> xs[1..][k] == xs[k + 1];
      FirstIndexAt(xs[1..], p, i - 1);
    }
  }

  /** The same search as a loop. */
  method FindFirst<T>(xs: seq<T>, p: T -> bool) returns (i: int)
    ensures i == FirstIndex(xs, p)
  {
    i := 0;
    while i < |xs| && !p(xs[i])
      invariant 0 <= i <= |xs|
      invariant forall k :: 0 <= k < i ==> !p(xs[k])
    {
      i := i + 1;
    }
    FirstIndexAt(xs, p, i);
    if i == |xs| {
      i := -1;
    }
  }

  /** Appending an element that satisfies `p` to a sequence with none makes it the one found. */
  lemma FirstIndexOfAppend<T>(xs: seq<T>, x: T, p: T -> bool)
    requires forall k :: 0 <= k < |xs| ==> !p(xs[k])
    requires p(x)
    ensures FirstIndex(xs + [x], p) == |xs|
  {
    var ys := xs + [x];
    assert forall k :: 0 <= k < |xs| ==> ys[k] == xs[k];
    FirstIndexAt(ys, p, |xs|);
  }
}
