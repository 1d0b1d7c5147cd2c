/** Sums of a measure over a sequence, and how they move when one element changes. */
module Sums {

  function Sum<T>(xs: seq<T>, f: T -> nat): nat {
    if xs == [] then 0 else f(xs[0]) + Sum(xs[1..], f)
  }

  lemma {:induction false} SumAppend<T>(xs: seq<T>, ys: seq<T>, f: T -> nat)
    ensures Sum(xs + ys, f) == Sum(xs, f) + Sum(ys, f)
  {
    if xs == [] {
      assert xs + ys == ys;
    } else {
      assert (xs + ys)[1..] == xs[1..] + ys;
      SumAppend(xs[1..], ys, f);
    }
  }

  lemma SumSingle<T>(x: T, f: T -> nat)
    ensures Sum([x], f) == f(x)
  {
    assert Sum([x][1..], f) == 0;
  }

  lemma SumPush<T>(xs: seq<T>, x: T, f: T -> nat)
    ensures Sum(xs + [x], f) == Sum(xs, f) + f(x)
  {
    SumAppend(xs, [x], f);
    SumSingle(x, f);
  }

  /** Removing the last element. */
  lemma SumPop<T>(xs: seq<T>, f: T -> nat)
    requires xs != []
    ensures Sum(xs, f) == Sum(xs[..|xs| - 1], f) + f(xs[|xs| - 1])
  {
    assert xs == xs[..|xs| - 1] + [xs[|xs| - 1]];
    SumPush(xs[..|xs| - 1], xs[|xs| - 1], f);
  }

  lemma SumSplit<T>(xs: seq<T>, i: nat, f: T -> nat)
    requires i <= |xs|
    ensures Sum(xs, f) == Sum(xs[..i], f) + Sum(xs[i..], f)
  {
    assert xs == xs[..i] + xs[i..];
    SumAppend(xs[..i], xs[i..], f);
  }

  lemma SumAt<T>(xs: seq<T>, i: nat, f: T -> nat)
    requires i < |xs|
    ensures Sum(xs, f) == Sum(xs[..i], f) + f(xs[i]) + Sum(xs[i + 1..], f)
  {
    SumSplit(xs, i, f);
    assert xs[i..][1..] == xs[i + 1..];
  }

  /** Replacing one element moves the sum by exactly the difference. */
  lemma SumUpdate<T>(xs: seq<T>, i: nat, x: T, f: T -> nat)
    requires i < |xs|
    ensures Sum(xs[i := x], f) + f(xs[i]) == Sum(xs, f) + f(x)
    ensures f(xs[i]) <= Sum(xs, f)
  {
    SumAt(xs, i, f);
    SumAt(xs[i := x], i, f);
    assert xs[i := x][..i] == xs[..i] && xs[i := x][i + 1..] == xs[i + 1..];
  }

  lemma {:induction false} SumZero<T>(xs: seq<T>, f: T -> nat)
    requires forall k :: 0 <= k < |xs| ==> f(xs[k]) == 0
    ensures Sum(xs, f) == 0
  {
    if xs == [] {
    } else {
      assert f(xs[0]) == 0;
      assert forall k :: 0 <= k < |xs[1..]| ==> xs[1..][k] == xs[k + 1];
      SumZero(xs[1..], f);
    }
  }

  lemma {:induction false} SumAtMost<T>(xs: seq<T>, f: T -> nat, g: T -> nat, b: nat)
    requires forall k :: 0 <= k < |xs| ==> f(xs[k]) <= b * g(xs[k])
    ensures Sum(xs, f) <= b * Sum(xs, g)
  {
    if xs == [] {
    } else {
      assert f(xs[0]) <= b * g(xs[0]);
      assert forall k :: 0 <= k < |xs[1..]| ==> xs[1..][k] == xs[k + 1];
      SumAtMost(xs[1..], f, g, b);
      assert b * Sum(xs, g) == b * g(xs[0]) + b * Sum(xs[1..], g);
    }
  }

  /** Two positions contribute separately. */
  lemma SumTwo<T>(xs: seq<T>, i: nat, j: nat, f: T -> nat)
    requires i < j < |xs|
    ensures f(xs[i]) + f(xs[j]) <= Sum(xs, f)
  {
    SumAt(xs, i, f);
    SumAt(xs[i + 1..], j - i - 1, f);
  }

  /** w(0) + ... + w(n - 1) */
  function SumBelow(n: nat, w: nat -> nat): nat {
    if n == 0 then 0 else SumBelow(n - 1, w) + w(n - 1)
  }

  /** All inner sequences, end to end. */
  function Flatten<T>(xss: seq<seq<T>>): seq<T> {
    if xss == [] then [] else xss[0] + Flatten(xss[1..])
  }

  lemma {:induction false} SumFlatten<T>(xss: seq<seq<T>>, f: T -> nat, g: seq<T> -> nat)
    requires forall k :: 0 <= k < |xss| ==> g(xss[k]) == Sum(xss[k], f)
    ensures Sum(Flatten(xss), f) == Sum(xss, g)
  {
    if xss == [] {
    } else {
      assert g(xss[0]) == Sum(xss[0], f);
      assert forall k :: 0 <= k < |xss[1..]| ==> xss[1..][k] == xss[k + 1];
      SumFlatten(xss[1..], f, g);
      SumAppend(xss[0], Flatten(xss[1..]), f);
    }
  }

  /** Last to first. */
  function Reverse<T>(xs: seq<T>): (ys: seq<T>)
    ensures |ys| == |xs|
    ensures forall k :: 0 <= k < |xs| ==> ys[k] == xs[|xs| - 1 - k]
  {
    if xs == [] then [] else [xs[|xs| - 1]] + Reverse(xs[..|xs| - 1])
  }
}
