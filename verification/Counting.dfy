/** How often a value occurs in a sequence. */
module Counting {

  function Times<T(==)>(xs: seq<T>, x: T): nat {
    if xs == [] then 0 else Times(xs[..|xs| - 1], x) + if xs[|xs| - 1] == x then 1 else 0
  }

  lemma TimesAfterAppend<T>(xs: seq<T>, y: T, x: T)
    ensures Times(xs + [y], x) == Times(xs, x) + if y == x then 1 else 0
  {
    assert (xs + [y])[..|xs|] == xs;
  }

  lemma {:induction false} TimesInConcat<T>(xs: seq<T>, ys: seq<T>, x: T)
    ensures Times(xs + ys, x) == Times(xs, x) + Times(ys, x)
  {
    if ys == [] {
      assert xs + ys == xs;
    } else {
      var front, last := ys[..|ys| - 1], ys[|ys| - 1];
      assert xs + ys == (xs + front) + [last];
      TimesInConcat(xs, front, x);
      TimesAfterAppend(xs + front, last, x);
    }
  }

  lemma ConcatIsAssociative<T>(a: seq<T>, b: seq<T>, c: seq<T>)
    ensures (a + b) + c == a + (b + c)
  {
  }

  function RemoveAt<T>(xs: seq<T>, i: nat): seq<T>
    requires i < |xs|
  {
    xs[..i] + xs[i + 1..]
  }

  lemma {:induction false} TimesAfterRemoval<T>(xs: seq<T>, i: nat, x: T)
    requires i < |xs|
    ensures Times(xs, x) == Times(RemoveAt(xs, i), x) + if xs[i] == x then 1 else 0
  {
    var front, last := xs[..|xs| - 1], xs[|xs| - 1];
    if i == |front| {
      assert RemoveAt(xs, i) == front;
    } else {
      assert RemoveAt(xs, i) == RemoveAt(front, i) + [last];
      TimesAfterAppend(RemoveAt(front, i), last, x);
      TimesAfterRemoval(front, i, x);
    }
  }

  lemma TimesAfterUpdate<T>(xs: seq<T>, i: nat, y: T, x: T)
    requires i < |xs|
    ensures Times(xs[i := y], x) + (if xs[i] == x then 1 else 0) == Times(xs, x) + (if y == x then 1 else 0)
  {
    assert RemoveAt(xs[i := y], i) == RemoveAt(xs, i);
    TimesAfterRemoval(xs, i, x);
    TimesAfterRemoval(xs[i := y], i, x);
  }

  lemma {:induction false} TimesPositive<T>(xs: seq<T>, x: T)
    ensures Times(xs, x) > 0 <==> x in xs
  {
    if xs != [] {
      TimesPositive(xs[..|xs| - 1], x);
      assert xs == xs[..|xs| - 1] + [xs[|xs| - 1]];
    }
  }

  /** No value occurs twice. */
  ghost predicate Distinct<T(!new)>(xs: seq<T>) {
    forall i, j :: 0 <= i < j < |xs| ==> xs[i] != xs[j]
  }

  lemma DistinctIfOnce<T(!new)>(xs: seq<T>)
    requires forall x :: Times(xs, x) <= 1
    ensures Distinct(xs)
  {
    forall i, j | 0 <= i < j < |xs| ensures xs[i] != xs[j] {
      TimesPositive(xs[..j], xs[j]);
      TimesPositive(xs[j..], xs[j]);
      TimesInConcat(xs[..j], xs[j..], xs[j]);
      assert xs == xs[..j] + xs[j..];
      assert xs[j..][0] == xs[j] && xs[..j][i] == xs[i];
    }
  }

  lemma {:induction false} OnceIfDistinct<T(!new)>(xs: seq<T>, x: T)
    requires Distinct(xs)
    ensures Times(xs, x) <= 1
  {
    if xs != [] {
      var front := xs[..|xs| - 1];
      OnceIfDistinct(front, x);
      TimesPositive(front, xs[|xs| - 1]);
    }
  }

  function Sum(xs: seq<nat>): nat {
    if xs == [] then 0 else Sum(xs[..|xs| - 1]) + xs[|xs| - 1]
  }

  lemma {:induction false} SumShrinks(xs: seq<nat>, ys: seq<nat>)
    requires |xs| == |ys| && forall i :: 0 <= i < |xs| ==> ys[i] <= xs[i]
    ensures Sum(ys) <= Sum(xs)
    ensures (exists i :: 0 <= i < |xs| && ys[i] < xs[i]) ==> Sum(ys) < Sum(xs)
  {
    if xs != [] {
      var n := |xs| - 1;
      SumShrinks(xs[..n], ys[..n]);
      assert forall i :: 0 <= i < n ==> xs[..n][i] == xs[i] && ys[..n][i] == ys[i];
    }
  }

  ghost predicate Any<T(!new)>(xs: seq<T>, p: T -> bool) {
    exists i :: 0 <= i < |xs| && p(xs[i])
  }

  lemma AnyOneMore<T(!new)>(xs: seq<T>, p: T -> bool)
    requires xs != []
    ensures Any(xs, p) <==> Any(xs[..|xs| - 1], p) || p(xs[|xs| - 1])
  {
    assert forall i :: 0 <= i < |xs| - 1 ==> xs[..|xs| - 1][i] == xs[i];
  }
}
