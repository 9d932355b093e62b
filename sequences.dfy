/** Concatenating a list of lists, the shape of two nested `foreach` loops
    that emit one item per inner element. */
module Sequences {

  /** The lists of `xss`, concatenated in order. */
  function Flatten<T>(xss: seq<seq<T>>): seq<T>
    decreases |xss|
  {
    if xss == [] then [] else Flatten(xss[..|xss| - 1]) + xss[|xss| - 1]
  }

  /** The sum of the lengths of the lists of `xss`. */
  function SumLengths<T>(xss: seq<seq<T>>): nat
    decreases |xss|
  {
    if xss == [] then 0 else SumLengths(xss[..|xss| - 1]) + |xss[|xss| - 1]|
  }

  /** Appending one more list extends the concatenation by that list. */
  lemma FlattenSnoc<T>(xss: seq<seq<T>>, xs: seq<T>)
    ensures Flatten(xss + [xs]) == Flatten(xss) + xs
  {
    assert (xss + [xs])[..|xss|] == xss;
  }

  /** Concatenating loses and invents no element. */
  lemma {:induction false} FlattenLength<T>(xss: seq<seq<T>>)
    ensures |Flatten(xss)| == SumLengths(xss)
    decreases |xss|
  {
    if xss != [] {
      FlattenLength(xss[..|xss| - 1]);
    }
  }

  /** Element `k` of list `i` lands right after every element of the lists
      before it: the order is list order, then order within a list. */
  lemma {:induction false} FlattenAt<T>(xss: seq<seq<T>>, i: nat, k: nat)
    requires i < |xss| && k < |xss[i]|
    ensures SumLengths(xss[..i]) + k < |Flatten(xss)|
    ensures Flatten(xss)[SumLengths(xss[..i]) + k] == xss[i][k]
    decreases |xss|
  {
    var init := xss[..|xss| - 1];
    FlattenLength(init);
    FlattenLength(xss);
    if i == |xss| - 1 {
      assert xss[..i] == init;
    } else {
      assert init[..i] == xss[..i];
      FlattenAt(init, i, k);
    }
  }

  /** Two lists of lists with the same shape have the same total length. */
  lemma {:induction false} SumLengthsSameShape<T, U>(xss: seq<seq<T>>, yss: seq<seq<U>>)
    requires |xss| == |yss|
    requires forall i :: 0 <= i < |xss| ==> |xss[i]| == |yss[i]|
    ensures SumLengths(xss) == SumLengths(yss)
    decreases |xss|
  {
    if xss != [] {
      SumLengthsSameShape(xss[..|xss| - 1], yss[..|yss| - 1]);
    }
  }

  /** Element `k` of list `i` sits at the offset the lengths of a same-shaped
      list of lists give. */
  lemma FlattenAtShape<T, U>(xss: seq<seq<T>>, yss: seq<seq<U>>, i: nat, k: nat)
    requires |xss| == |yss|
    requires forall j :: 0 <= j < |xss| ==> |xss[j]| == |yss[j]|
    requires i < |xss| && k < |xss[i]|
    ensures SumLengths(yss[..i]) + k < |Flatten(xss)|
    ensures Flatten(xss)[SumLengths(yss[..i]) + k] == xss[i][k]
  {
    FlattenAt(xss, i, k);
    SumLengthsSameShape(xss[..i], yss[..i]);
  }
}
