/** `Array.prototype.filter` over sequences, together with an independent
    description of its result by positions: the filter keeps exactly the
    elements satisfying the predicate, in their original order.
 */
module Filtering {

  function Filter<T>(s: seq<T>, p: T -> bool): (r: seq<T>)
    ensures |r| <= |s|
    ensures forall x :: x in r ==> x in s && p(x)
    ensures forall i :: 0 <= i < |s| && p(s[i]) ==> s[i] in r
  {
    if s == [] then [] else Filter(s[..|s| - 1], p) + (if p(s[|s| - 1]) then [s[|s| - 1]] else [])
  }

  /** The number of elements satisfying `p`, counted one by one. */
  function Count<T>(s: seq<T>, p: T -> bool): nat
  {
    if s == [] then 0 else Count(s[..|s| - 1], p) + (if p(s[|s| - 1]) then 1 else 0)
  }

  /** The filter keeps as many elements as the count finds. */
  lemma {:induction false} FilterLength<T>(s: seq<T>, p: T -> bool)
    ensures |Filter(s, p)| == Count(s, p)
  {
    if s != [] {
      FilterLength(s[..|s| - 1], p);
    }
  }

  lemma FilterPrefixStep<T>(s: seq<T>, p: T -> bool, k: nat)
    requires k < |s|
    ensures Filter(s[..k + 1], p) == Filter(s[..k], p) + (if p(s[k]) then [s[k]] else [])
  {
    assert s[..k + 1][..k] == s[..k];
  }

  lemma CountPrefixStep<T>(s: seq<T>, p: T -> bool, k: nat)
    requires k < |s|
    ensures Count(s[..k + 1], p) == Count(s[..k], p) + (if p(s[k]) then 1 else 0)
  {
    assert s[..k + 1][..k] == s[..k];
  }

  /** The positions `i` with `p(s[i])`, ascending. */
  function Positions<T>(s: seq<T>, p: T -> bool): (ix: seq<nat>)
    ensures |ix| <= |s|
    ensures forall k :: 0 <= k < |ix| ==> ix[k] < |s| && p(s[ix[k]])
    ensures forall k, l :: 0 <= k < l < |ix| ==> ix[k] < ix[l]
    ensures forall i :: 0 <= i < |s| && p(s[i]) ==> i in ix
  {
    if s == [] then []
    else
      var front := s[..|s| - 1];
      assert forall i :: 0 <= i < |front| ==> front[i] == s[i];
      Positions(front, p) + (if p(s[|s| - 1]) then [|s| - 1] else [])
  }

  /** The filter is the sequence read off at the positions that satisfy the
      predicate: same length, same elements, same order. */
  lemma {:induction false} FilterAtPositions<T>(s: seq<T>, p: T -> bool)
    ensures |Filter(s, p)| == |Positions(s, p)|
    ensures forall k :: 0 <= k < |Filter(s, p)| ==> Filter(s, p)[k] == s[Positions(s, p)[k]]
  {
    if s != [] {
      var front := s[..|s| - 1];
      FilterAtPositions(front, p);
      var f, ix := Filter(front, p), Positions(front, p);
      var tail := if p(s[|s| - 1]) then [s[|s| - 1]] else [];
      var tailIx: seq<nat> := if p(s[|s| - 1]) then [|s| - 1] else [];
      assert Filter(s, p) == f + tail;
      assert Positions(s, p) == ix + tailIx;
      forall k | 0 <= k < |Filter(s, p)|
        ensures Filter(s, p)[k] == s[Positions(s, p)[k]]
      {
        if k < |f| {
          assert Filter(s, p)[k] == f[k] == front[ix[k]];
        }
      }
    }
  }

  /** Two predicates that agree on every element filter alike. */
  lemma {:induction false} FilterAgree<T>(s: seq<T>, p: T -> bool, q: T -> bool)
    requires forall i :: 0 <= i < |s| ==> p(s[i]) == q(s[i])
    ensures Filter(s, p) == Filter(s, q)
  {
    if s != [] {
      var front := s[..|s| - 1];
      assert forall i :: 0 <= i < |front| ==> front[i] == s[i];
      FilterAgree(front, p, q);
    }
  }
}
