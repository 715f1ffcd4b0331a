/** Sequence operations used to describe lists built by loops: flattening and the maximum. */
module Sequences {

  /** The concatenation of a sequence of sequences, in order. */
  function Concat<T>(ss: seq<seq<T>>): seq<T>
    decreases |ss|
  {
    if ss == [] then [] else Concat(ss[..|ss| - 1]) + ss[|ss| - 1]
  }

  /** Appending one more part appends its elements. */
  lemma ConcatAppend<T>(ss: seq<seq<T>>, s: seq<T>)
    ensures Concat(ss + [s]) == Concat(ss) + s
  {
    assert (ss + [s])[..|ss|] == ss;
  }

  /** Every part has exactly c elements. */
  ghost predicate Uniform<T>(ss: seq<seq<T>>, c: nat)
  {
    forall i :: 0 <= i < |ss| ==> |ss[i]| == c
  }

  /** Parts of equal length c give c elements per part, and element j of part i sits at c * i + j. */
  lemma {:induction false} ConcatAt<T>(ss: seq<seq<T>>, c: nat, i: nat, j: nat)
    requires Uniform(ss, c) && i < |ss| && j < c
    ensures |Concat(ss)| == c * |ss|
    ensures c * i + j < |Concat(ss)| && Concat(ss)[c * i + j] == ss[i][j]
  {
    var last := |ss| - 1;
    var init := ss[..last];
    if i == last {
      ConcatLength(init, c);
    } else {
      ConcatAt(init, c, i, j);
    }
  }

  /** Parts of equal length c give c elements per part. */
  lemma {:induction false} ConcatLength<T>(ss: seq<seq<T>>, c: nat)
    requires Uniform(ss, c)
    ensures |Concat(ss)| == c * |ss|
  {
    if ss != [] {
      var n := |ss| - 1;
      assert Uniform(ss[..n], c);
      ConcatLength(ss[..n], c);
      assert |Concat(ss)| == c * n + c;
      assert c * n + c == c * (n + 1);
    }
  }

  /** Enumerable.Max: the largest element, which is one of the elements. */
  function MaxOf(s: seq<real>): (m: real)
    requires |s| > 0
    ensures m in s
    ensures forall x :: x in s ==> x <= m
  {
    if |s| == 1 then s[0]
    else
      assert s == [s[0]] + s[1..];
      var rest := MaxOf(s[1..]);
      if s[0] >= rest then s[0] else rest
  }
}
