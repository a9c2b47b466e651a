/** Runs of a state machine: the state after a sequence of events, and what the events put out on the way. */
module Runs {
  function Fold<S, E>(step: (S, E) -> S, s: S, es: seq<E>): S {
    if es == [] then s else step(Fold(step, s, es[..|es| - 1]), es[|es| - 1])
  }

  function Output<S, E, O>(step: (S, E) -> S, out: (S, E) -> seq<O>, s: S, es: seq<E>): seq<O> {
    if es == [] then []
    else
      var before := es[..|es| - 1];
      Output(step, out, s, before) + out(Fold(step, s, before), es[|es| - 1])
  }

  lemma {:induction false} FoldConcat<S, E>(step: (S, E) -> S, s: S, a: seq<E>, b: seq<E>)
    ensures Fold(step, s, a + b) == Fold(step, Fold(step, s, a), b)
  {
    if b == [] {
      assert a + b == a;
    } else {
      FoldConcat(step, s, a, b[..|b| - 1]);
      assert (a + b)[..|a + b| - 1] == a + b[..|b| - 1];
    }
  }

  lemma {:induction false} OutputConcat<S, E, O>(step: (S, E) -> S, out: (S, E) -> seq<O>, s: S, a: seq<E>, b: seq<E>)
    ensures Output(step, out, s, a + b) == Output(step, out, s, a) + Output(step, out, Fold(step, s, a), b)
  {
    if b == [] {
      assert a + b == a;
    } else {
      var before := b[..|b| - 1];
      OutputConcat(step, out, s, a, before);
      FoldConcat(step, s, a, before);
      assert (a + b)[..|a + b| - 1] == a + before;
    }
  }

  lemma OneMore<S, E, O>(step: (S, E) -> S, out: (S, E) -> seq<O>, s: S, es: seq<E>, k: nat)
    requires k < |es|
    ensures Fold(step, s, es[..k + 1]) == step(Fold(step, s, es[..k]), es[k])
    ensures Output(step, out, s, es[..k + 1]) == Output(step, out, s, es[..k]) + out(Fold(step, s, es[..k]), es[k])
  {
    assert es[..k + 1][..k] == es[..k];
  }

  lemma FoldOne<S, E>(step: (S, E) -> S, s: S, e: E)
    ensures Fold(step, s, [e]) == step(s, e)
  {
    assert [e][..0] == [];
    assert Fold(step, s, []) == s;
  }

  lemma OutputOne<S, E, O>(step: (S, E) -> S, out: (S, E) -> seq<O>, s: S, e: E)
    ensures Output(step, out, s, [e]) == out(s, e)
  {
    assert [e][..0] == [];
    assert Fold(step, s, []) == s && Output(step, out, s, []) == [];
  }
}
