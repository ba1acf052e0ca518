/** Parts of sequences. */
module Sequences {

  /** The list without its entry i. */
  function Without<T>(xs: seq<T>, i: nat): seq<T>
    requires i < |xs|
  {
    xs[..i] + xs[i + 1..]
  }

  /** The first n, or all when there are fewer. */
  function Firsts<T>(xs: seq<T>, n: nat): seq<T> {
    if |xs| <= n then xs else xs[..n]
  }

  /** The elements that p holds of. */
  function Where<T>(xs: seq<T>, p: T -> bool): seq<T>
    decreases |xs|
  {
    if xs == [] then []
    else
      var k := |xs| - 1;
      Where(xs[..k], p) + if p(xs[k]) then [xs[k]] else []
  }

  ghost predicate Draws<T>(xs: seq<T>, p: T -> bool, at: seq<nat>, ys: seq<T>) {
    |at| == |ys| && forall j :: 0 <= j < |at| ==> at[j] < |xs| && p(xs[at[j]]) && ys[j] == xs[at[j]]
  }

  predicate Ascends(at: seq<nat>) {
    forall j, k :: 0 <= j < k < |at| ==> at[j] < at[k]
  }

  ghost predicate Misses<T>(xs: seq<T>, p: T -> bool, at: seq<nat>, i: nat) {
    i < |xs| && p(xs[i]) && i !in at
  }

  /** `ys` are the elements at `at`, which are those that p holds of: all of them, in order, once. */
  ghost predicate Selects<T>(xs: seq<T>, p: T -> bool, at: seq<nat>, ys: seq<T>) {
    Draws(xs, p, at, ys) && Ascends(at) && forall i: nat :: !Misses(xs, p, at, i)
  }

  lemma MissesLater<T>(xs: seq<T>, x: T, p: T -> bool, at: seq<nat>, i: nat)
    requires !Misses(xs, p, at, i)
    ensures !Misses(xs + [x], p, if p(x) then at + [|xs|] else at, i)
  {
  }

  lemma DrawsLater<T>(xs: seq<T>, x: T, p: T -> bool, at: seq<nat>, ys: seq<T>)
    requires Draws(xs, p, at, ys) && Ascends(at)
    ensures if p(x) then Draws(xs + [x], p, at + [|xs|], ys + [x]) && Ascends(at + [|xs|]) else Draws(xs + [x], p, at, ys)
  {
  }

  lemma WhereSnoc<T>(xs: seq<T>, x: T, p: T -> bool)
    ensures Where(xs + [x], p) == Where(xs, p) + if p(x) then [x] else []
  {
    assert (xs + [x])[..|xs|] == xs;
  }

  function Position(n: nat, taken: bool, at: seq<nat>): seq<nat> {
    if taken then at + [n] else at
  }

  lemma SelectsLater<T>(xs: seq<T>, x: T, p: T -> bool, at: seq<nat>)
    requires Selects(xs, p, at, Where(xs, p))
    ensures Selects(xs + [x], p, Position(|xs|, p(x), at), Where(xs + [x], p))
  {
    WhereSnoc(xs, x, p);
    DrawsLater(xs, x, p, at, Where(xs, p));
    forall i: nat
      ensures !Misses(xs + [x], p, Position(|xs|, p(x), at), i)
    {
      MissesLater(xs, x, p, at, i);
    }
  }

  lemma {:induction false} WhereSelects<T>(xs: seq<T>, p: T -> bool) returns (at: seq<nat>)
    ensures Selects(xs, p, at, Where(xs, p))
    decreases |xs|
  {
    if xs == [] {
      at := [];
    } else {
      var ys, x := xs[..|xs| - 1], xs[|xs| - 1];
      at := WhereSelects(ys, p);
      SelectsLater(ys, x, p, at);
      at := Position(|ys|, p(x), at);
      assert ys + [x] == xs;
    }
  }
}
