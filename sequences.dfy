/**
 * The array pipelines the application builds its lists with: `filter`, and
 * the `map(...).filter(x => x !== null)` pair that drops the entries a
 * mapping turned into `null`. Each is stated together with the positions of
 * the input it keeps, so that "in order, one per kept entry" can be said.
 */
module Sequences {

  import opened Wrappers

  /** `xs.filter(keep)`. */
  function Filter<T>(xs: seq<T>, keep: T -> bool): seq<T>
    decreases |xs|
  {
    if xs == [] then []
    else Filter(xs[..|xs| - 1], keep) + (if keep(xs[|xs| - 1]) then [xs[|xs| - 1]] else [])
  }

  /** The positions, in increasing order, of the entries of `xs` that `keep` accepts. */
  function Kept<T>(xs: seq<T>, keep: T -> bool): (ks: seq<nat>)
    ensures forall j :: 0 <= j < |ks| ==> ks[j] < |xs|
    decreases |xs|
  {
    if xs == [] then []
    else Kept(xs[..|xs| - 1], keep) + (if keep(xs[|xs| - 1]) then [|xs| - 1] else [])
  }

  /** The positions of `ks` increase strictly. */
  predicate Increasing(ks: seq<nat>) {
    forall i, j :: 0 <= i < j < |ks| ==> ks[i] < ks[j]
  }

  /**
   * The filter keeps exactly the accepted entries, each once, in their
   * order: entry `j` of the result is entry `Kept(xs, keep)[j]` of the input.
   */
  lemma FilterSpec<T>(xs: seq<T>, keep: T -> bool)
    ensures var r, ks := Filter(xs, keep), Kept(xs, keep);
      && |r| == |ks|
      && Increasing(ks)
      && (forall k: nat :: k in ks <==> k < |xs| && keep(xs[k]))
      && (forall j :: 0 <= j < |ks| ==> r[j] == xs[ks[j]])
  {
    FilterAt(xs, keep);
    KeptIncreasing(xs, keep);
    KeptMembers(xs, keep);
  }

  lemma {:induction false} FilterAt<T>(xs: seq<T>, keep: T -> bool)
    ensures var r, ks := Filter(xs, keep), Kept(xs, keep);
      |r| == |ks| && forall j :: 0 <= j < |ks| ==> r[j] == xs[ks[j]]
    decreases |xs|
  {
    if xs != [] {
      var init := xs[..|xs| - 1];
      FilterAt(init, keep);
      var r0, ks0 := Filter(init, keep), Kept(init, keep);
      forall j | 0 <= j < |ks0|
        ensures xs[ks0[j]] == init[ks0[j]]
      {
      }
    }
  }

  lemma {:induction false} KeptIncreasing<T>(xs: seq<T>, keep: T -> bool)
    ensures Increasing(Kept(xs, keep))
    decreases |xs|
  {
    if xs != [] {
      KeptIncreasing(xs[..|xs| - 1], keep);
    }
  }

  lemma {:induction false} KeptMembers<T>(xs: seq<T>, keep: T -> bool)
    ensures forall k: nat :: k in Kept(xs, keep) <==> k < |xs| && keep(xs[k])
    decreases |xs|
  {
    if xs != [] {
      var init := xs[..|xs| - 1];
      KeptMembers(init, keep);
      forall k: nat | k < |init|
        ensures xs[k] == init[k]
      {
      }
    }
  }

  /** Everything the filter keeps is accepted and comes from the input; every accepted entry is kept. */
  lemma FilterMembers<T>(xs: seq<T>, keep: T -> bool)
    ensures forall x :: x in Filter(xs, keep) <==> x in xs && keep(x)
  {
    FilterSpec(xs, keep);
    var r, ks := Filter(xs, keep), Kept(xs, keep);
    forall x | x in xs && keep(x)
      ensures x in r
    {
      var k :| 0 <= k < |xs| && xs[k] == x;
      var j :| 0 <= j < |ks| && ks[j] == k;
      assert r[j] == x;
    }
  }

  /** A filter that accepts every entry changes nothing. */
  lemma {:induction false} FilterAll<T>(xs: seq<T>, keep: T -> bool)
    requires forall k :: 0 <= k < |xs| ==> keep(xs[k])
    ensures Filter(xs, keep) == xs
    decreases |xs|
  {
    if xs != [] {
      FilterAll(xs[..|xs| - 1], keep);
    }
  }

  /** Filtering an appended entry filters the prefix and then decides on that entry alone. */
  lemma FilterSnoc<T>(xs: seq<T>, x: T, keep: T -> bool)
    ensures Filter(xs + [x], keep) == Filter(xs, keep) + (if keep(x) then [x] else [])
  {
    assert (xs + [x])[..|xs|] == xs;
  }

  /** `xs.filter(x => x !== null)` after a mapping that may give `null`: the values, in order. */
  function Present<T>(xs: seq<Option<T>>): seq<T>
    decreases |xs|
  {
    if xs == [] then []
    else Present(xs[..|xs| - 1]) + (match xs[|xs| - 1] case Some(v) => [v] case None => [])
  }

  /** The positions, in increasing order, of the entries of `xs` that are not `null`. */
  function PresentAt<T>(xs: seq<Option<T>>): (ks: seq<nat>)
    ensures forall j :: 0 <= j < |ks| ==> ks[j] < |xs|
    decreases |xs|
  {
    if xs == [] then []
    else PresentAt(xs[..|xs| - 1]) + (if xs[|xs| - 1].Some? then [|xs| - 1] else [])
  }

  /** Dropping the `null`s keeps one value per other entry, in order. */
  lemma PresentSpec<T>(xs: seq<Option<T>>)
    ensures var r, ks := Present(xs), PresentAt(xs);
      && |r| == |ks|
      && Increasing(ks)
      && (forall k: nat :: k in ks <==> k < |xs| && xs[k].Some?)
      && (forall j :: 0 <= j < |ks| ==> xs[ks[j]] == Some(r[j]))
  {
    PresentValues(xs);
    PresentAtIncreasing(xs);
    PresentAtMembers(xs);
  }

  lemma {:induction false} PresentValues<T>(xs: seq<Option<T>>)
    ensures var r, ks := Present(xs), PresentAt(xs);
      |r| == |ks| && forall j :: 0 <= j < |ks| ==> xs[ks[j]] == Some(r[j])
    decreases |xs|
  {
    if xs != [] {
      var init := xs[..|xs| - 1];
      PresentValues(init);
      var ks0 := PresentAt(init);
      forall j | 0 <= j < |ks0|
        ensures xs[ks0[j]] == init[ks0[j]]
      {
      }
    }
  }

  lemma {:induction false} PresentAtIncreasing<T>(xs: seq<Option<T>>)
    ensures Increasing(PresentAt(xs))
    decreases |xs|
  {
    if xs != [] {
      PresentAtIncreasing(xs[..|xs| - 1]);
    }
  }

  lemma {:induction false} PresentAtMembers<T>(xs: seq<Option<T>>)
    ensures forall k: nat :: k in PresentAt(xs) <==> k < |xs| && xs[k].Some?
    decreases |xs|
  {
    if xs != [] {
      var init := xs[..|xs| - 1];
      PresentAtMembers(init);
      forall k: nat | k < |init|
        ensures xs[k] == init[k]
      {
      }
    }
  }
}
