/** Folding a partial operation over a sequence, stopping at the first failure. */
module Folds {
  import opened Wrappers

  ghost function Fold<S, M, E>(apply: (S, M) -> Result<S, E>, s: S, ms: seq<M>): Result<S, E> {
    if ms == [] then Success(s)
    else
      var before := Fold(apply, s, ms[..|ms| - 1]);
      if before.Failure? then before else apply(before.value, ms[|ms| - 1])
  }

  lemma {:induction false} FailureSticks<S, M, E>(apply: (S, M) -> Result<S, E>, s: S, ms: seq<M>, i: nat)
    requires i <= |ms| && Fold(apply, s, ms[..i]).Failure?
    ensures Fold(apply, s, ms) == Fold(apply, s, ms[..i])
  {
    if i < |ms| {
      var shorter := ms[..|ms| - 1];
      assert shorter[..i] == ms[..i];
      FailureSticks(apply, s, shorter, i);
    } else {
      assert ms[..i] == ms;
    }
  }

  lemma OneMore<S, M, E>(apply: (S, M) -> Result<S, E>, s: S, ms: seq<M>, i: nat)
    requires i < |ms| && Fold(apply, s, ms[..i]).Success?
    ensures Fold(apply, s, ms[..i + 1]) == apply(Fold(apply, s, ms[..i]).value, ms[i])
  {
    assert ms[..i + 1][..i] == ms[..i];
  }

  lemma Prefix<S, M, E>(apply: (S, M) -> Result<S, E>, s: S, ms: seq<M>, i: nat)
    requires i <= |ms| && Fold(apply, s, ms).Success?
    ensures Fold(apply, s, ms[..i]).Success?
  {
    if Fold(apply, s, ms[..i]).Failure? {
      FailureSticks(apply, s, ms, i);
    }
  }

  lemma {:induction false} Concat<S, M, E>(apply: (S, M) -> Result<S, E>, s: S, a: seq<M>, b: seq<M>)
    requires Fold(apply, s, a).Success?
    ensures Fold(apply, s, a + b) == Fold(apply, Fold(apply, s, a).value, b)
  {
    if b == [] {
      assert a + b == a;
    } else {
      var n := |b| - 1;
      Concat(apply, s, a, b[..n]);
      assert (a + b)[..|a + b| - 1] == a + b[..n];
    }
  }

  /** Stopping in the middle and going on from there. */
  lemma Resume<S, M, E>(apply: (S, M) -> Result<S, E>, s: S, ms: seq<M>, k: nat, to: nat)
    requires k <= to <= |ms| && Fold(apply, s, ms).Success?
    ensures Fold(apply, s, ms[..k]).Success? && Fold(apply, s, ms[..to]).Success?
    ensures Fold(apply, Fold(apply, s, ms[..k]).value, ms[k..to]) == Fold(apply, s, ms[..to])
  {
    Prefix(apply, s, ms, k);
    Prefix(apply, s, ms, to);
    Concat(apply, s, ms[..k], ms[k..to]);
    assert ms[..k] + ms[k..to] == ms[..to];
  }
}
