/** Sequence helpers shared by the components: an Option type and the
    order-preserving filter that `Array.prototype.filter` performs. */
module Seqs {

  datatype Option<T> = None | Some(value: T)

  function Min(a: int, b: int): int { if a <= b then a else b }

  function Max(a: int, b: int): int { if a <= b then b else a }

  /** The elements of `s` that satisfy `p`, in the order they occur in `s`.
      Defined from the last element so that positions never shift. */
  function Filter<T>(p: T -> bool, s: seq<T>): (r: seq<T>)
    ensures |r| <= |s|
  {
    if s == [] then []
    else
      var init := Filter(p, s[..|s| - 1]);
      if p(s[|s| - 1]) then init + [s[|s| - 1]] else init
  }

  /** The positions of `s` whose elements `Filter(p, s)` keeps, in increasing order. */
  function KeptIndices<T>(p: T -> bool, s: seq<T>): (idx: seq<nat>)
    ensures |idx| == |Filter(p, s)|
  {
    if s == [] then []
    else if p(s[|s| - 1]) then KeptIndices(p, s[..|s| - 1]) + [|s| - 1]
    else KeptIndices(p, s[..|s| - 1])
  }

  /** `Filter(p, s)` is the subsequence of `s` picked out by `p`: the kept
      positions are increasing, they point at the kept elements in order, and a
      position is among them exactly when its element satisfies `p`. */
  lemma {:induction false} FilterPicksOut<T>(p: T -> bool, s: seq<T>)
    ensures forall k :: 0 <= k < |KeptIndices(p, s)| ==>
      KeptIndices(p, s)[k] < |s| && s[KeptIndices(p, s)[k]] == Filter(p, s)[k]
    ensures forall k, l :: 0 <= k < l < |KeptIndices(p, s)| ==> KeptIndices(p, s)[k] < KeptIndices(p, s)[l]
    ensures forall i :: 0 <= i < |s| ==> (p(s[i]) <==> i in KeptIndices(p, s))
  {
    if s != [] {
      var n := |s| - 1;
      FilterPicksOut(p, s[..n]);
      var init, kept := KeptIndices(p, s[..n]), Filter(p, s[..n]);
      var idx, r := KeptIndices(p, s), Filter(p, s);
      assert forall k :: 0 <= k < |init| ==> init[k] < n && s[init[k]] == kept[k];
      forall i | 0 <= i < n
        ensures p(s[i]) <==> i in init
      {
        assert s[..n][i] == s[i];
      }
      assert n !in init;
      if p(s[n]) {
        assert idx == init + [n] && r == kept + [s[n]];
        forall i | 0 <= i < |s|
          ensures p(s[i]) <==> i in idx
        {
          assert i in idx <==> i in init || i == n;
        }
      } else {
        assert idx == init && r == kept;
      }
    }
  }

  /** An element is in `Filter(p, s)` exactly when it is in `s` and satisfies `p`. */
  lemma FilterMembers<T>(p: T -> bool, s: seq<T>)
    ensures forall x :: x in Filter(p, s) <==> x in s && p(x)
  {
  }

  /** Filtering with a predicate every element satisfies changes nothing. */
  lemma {:induction false} FilterKeepsAll<T>(p: T -> bool, s: seq<T>)
    requires forall i :: 0 <= i < |s| ==> p(s[i])
    ensures Filter(p, s) == s
  {
    if s != [] {
      FilterKeepsAll(p, s[..|s| - 1]);
      assert s[..|s| - 1] + [s[|s| - 1]] == s;
    }
  }

  /** Two predicates that agree on every element of `s` filter it alike. */
  lemma {:induction false} FilterCongruent<T>(p: T -> bool, q: T -> bool, s: seq<T>)
    requires forall i :: 0 <= i < |s| ==> p(s[i]) == q(s[i])
    ensures Filter(p, s) == Filter(q, s)
  {
    if s != [] {
      FilterCongruent(p, q, s[..|s| - 1]);
    }
  }
}
