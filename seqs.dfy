/**
 * The list-building patterns of the extractor, as functions on sequences:
 * a comprehension over every element (`Map`), a comprehension with an `if`
 * clause (`FilterMap`, `Filter`) and list concatenation (`Flatten`).  All are
 * defined on the last element, the way a loop that appends builds them.
 */
module Seqs {

  /** `[f(x) for x in s]` */
  function Map<A, B>(s: seq<A>, f: A -> B): (r: seq<B>)
    ensures |r| == |s|
    ensures forall k | 0 <= k < |s| :: r[k] == f(s[k])
  {
    if s == [] then [] else Map(s[..|s| - 1], f) + [f(s[|s| - 1])]
  }

  /** `[f(x) for x in s if keep(x)]` */
  function FilterMap<A, B>(s: seq<A>, keep: A -> bool, f: A -> B): (r: seq<B>)
    ensures |r| <= |s|
  {
    if s == [] then []
    else
      var init := FilterMap(s[..|s| - 1], keep, f);
      if keep(s[|s| - 1]) then init + [f(s[|s| - 1])] else init
  }

  /** `[x for x in s if keep(x)]` */
  function Filter<A>(s: seq<A>, keep: A -> bool): (r: seq<A>)
    ensures |r| <= |s|
    ensures forall x | x in r :: x in s && keep(x)
  {
    if s == [] then []
    else
      var init := Filter(s[..|s| - 1], keep);
      if keep(s[|s| - 1]) then init + [s[|s| - 1]] else init
  }

  /** The concatenation of all the groups, in order. */
  function Flatten<A>(groups: seq<seq<A>>): seq<A>
  {
    if groups == [] then [] else Flatten(groups[..|groups| - 1]) + groups[|groups| - 1]
  }

  /** The positions of `s` whose element `keep` holds of, in increasing order. */
  function KeptIndices<A>(s: seq<A>, keep: A -> bool): (ix: seq<nat>)
    ensures forall k | 0 <= k < |ix| :: ix[k] < |s| && keep(s[ix[k]])
    ensures forall k, l | 0 <= k < l < |ix| :: ix[k] < ix[l]
    ensures forall j | 0 <= j < |s| && keep(s[j]) :: j in ix
  {
    if s == [] then []
    else
      var init := KeptIndices(s[..|s| - 1], keep);
      if keep(s[|s| - 1]) then init + [|s| - 1] else init
  }

  /**
   * `FilterMap` keeps exactly the elements `keep` holds of, in their
   * original order, and transforms each one with `f`.
   */
  lemma {:induction false} FilterMapByIndex<A, B>(s: seq<A>, keep: A -> bool, f: A -> B)
    ensures |FilterMap(s, keep, f)| == |KeptIndices(s, keep)|
    ensures forall k | 0 <= k < |KeptIndices(s, keep)| ::
              FilterMap(s, keep, f)[k] == f(s[KeptIndices(s, keep)[k]])
  {
    if s != [] {
      var init, x := s[..|s| - 1], s[|s| - 1];
      FilterMapByIndex(init, keep, f);
      var ix, r := KeptIndices(init, keep), FilterMap(init, keep, f);
      forall k | 0 <= k < |ix| ensures r[k] == f(s[ix[k]]) {
        assert s[ix[k]] == init[ix[k]];
      }
      if keep(x) {
        var ix', r' := ix + [|s| - 1], r + [f(x)];
        assert KeptIndices(s, keep) == ix' && FilterMap(s, keep, f) == r';
        forall k | 0 <= k < |ix'| ensures r'[k] == f(s[ix'[k]]) {
          if k < |ix| { assert r'[k] == r[k] && ix'[k] == ix[k]; }
        }
      }
    }
  }

  /** Filtering a concatenation filters each part. */
  lemma {:induction false} FilterMapAppend<A, B>(a: seq<A>, b: seq<A>, keep: A -> bool, f: A -> B)
    ensures FilterMap(a + b, keep, f) == FilterMap(a, keep, f) + FilterMap(b, keep, f)
    decreases |b|
  {
    if b != [] {
      var b' := b[..|b| - 1];
      assert (a + b)[..|a + b| - 1] == a + b';
      assert (a + b)[|a + b| - 1] == b[|b| - 1];
      FilterMapAppend(a, b', keep, f);
    } else {
      assert a + b == a;
    }
  }

  /**
   * Filtering with a predicate and with its negation splits `s` in two:
   * every element lands in exactly one of the two results.
   */
  lemma {:induction false} FilterPartition<A>(s: seq<A>, p: A -> bool, q: A -> bool)
    requires forall x :: q(x) == !p(x)
    ensures multiset(Filter(s, p)) + multiset(Filter(s, q)) == multiset(s)
  {
    if s != [] {
      var init := s[..|s| - 1];
      FilterPartition(init, p, q);
      assert s == init + [s[|s| - 1]];
    }
  }

  lemma {:induction false} FlattenAppend<A>(g: seq<seq<A>>, h: seq<seq<A>>)
    ensures Flatten(g + h) == Flatten(g) + Flatten(h)
    decreases |h|
  {
    if h != [] {
      var h' := h[..|h| - 1];
      assert (g + h)[..|g + h| - 1] == g + h';
      assert (g + h)[|g + h| - 1] == h[|h| - 1];
      FlattenAppend(g, h');
    } else {
      assert g + h == g;
    }
  }

  lemma MapAppend<A, B>(a: seq<A>, b: seq<A>, f: A -> B)
    ensures Map(a + b, f) == Map(a, f) + Map(b, f)
  {
  }

  /** The step a loop that appends takes: one more element at the end. */
  lemma FilterSnoc<A>(s: seq<A>, x: A, keep: A -> bool)
    ensures Filter(s + [x], keep) == Filter(s, keep) + if keep(x) then [x] else []
  {
    assert (s + [x])[..|s|] == s;
  }

  lemma FilterMapPrefix<A, B>(s: seq<A>, i: nat, keep: A -> bool, f: A -> B)
    requires i < |s|
    ensures FilterMap(s[..i + 1], keep, f) == FilterMap(s[..i], keep, f) + if keep(s[i]) then [f(s[i])] else []
  {
    assert s[..i + 1][..i] == s[..i];
  }

  lemma MapPrefix<A, B>(s: seq<A>, i: nat, f: A -> B)
    requires i < |s|
    ensures Map(s[..i + 1], f) == Map(s[..i], f) + [f(s[i])]
  {
    assert s[..i + 1][..i] == s[..i];
  }
}
