/** Left folds over sequences, the shape of every replay in the system. */
module Seqs {

  /** The state reached from `s` by applying `f` for every element of `es`, in order. */
  function Fold<S, E>(f: (S, E) -> S, s: S, es: seq<E>): S
  {
    if es == [] then s else f(Fold(f, s, es[..|es| - 1]), es[|es| - 1])
  }

  lemma {:induction false} FoldSnoc<S, E>(f: (S, E) -> S, s: S, es: seq<E>, e: E)
    ensures Fold(f, s, es + [e]) == f(Fold(f, s, es), e)
  {
    assert (es + [e])[..|es|] == es;
  }

  lemma {:induction false} FoldConcat<S, E>(f: (S, E) -> S, s: S, a: seq<E>, b: seq<E>)
    ensures Fold(f, s, a + b) == Fold(f, Fold(f, s, a), b)
  {
    if b == [] {
      assert a + b == a;
    } else {
      var n := |b| - 1;
      FoldConcat(f, s, a, b[..n]);
      FoldSnoc(f, s, a + b[..n], b[n]);
      assert a + b == a + b[..n] + [b[n]];
    }
  }

  /** A fold over a non-empty sequence starts with the first element. */
  lemma {:induction false} FoldCons<S, E>(f: (S, E) -> S, s: S, es: seq<E>)
    requires es != []
    ensures Fold(f, s, es) == Fold(f, f(s, es[0]), es[1..])
  {
    FoldConcat(f, s, [es[0]], es[1..]);
    FoldSnoc(f, s, [], es[0]);
    assert [es[0]] + es[1..] == es;
    assert [] + [es[0]] == [es[0]];
  }

  lemma {:induction false} FoldPrefix<S, E>(f: (S, E) -> S, s: S, es: seq<E>, i: nat)
    requires i < |es|
    ensures Fold(f, s, es[..i + 1]) == f(Fold(f, s, es[..i]), es[i])
  {
    FoldSnoc(f, s, es[..i], es[i]);
    assert es[..i + 1] == es[..i] + [es[i]];
  }

  lemma {:induction false} FoldThree<S, E>(f: (S, E) -> S, s: S, es: seq<E>)
    requires |es| == 3
    ensures Fold(f, s, es) == f(f(f(s, es[0]), es[1]), es[2])
  {
    FoldPrefix(f, s, es, 0);
    FoldPrefix(f, s, es, 1);
    FoldPrefix(f, s, es, 2);
    assert es[..0] == [] && es[..3] == es;
  }

  lemma {:induction false} FoldFour<S, E>(f: (S, E) -> S, s: S, es: seq<E>)
    requires |es| == 4
    ensures Fold(f, s, es) == f(f(f(f(s, es[0]), es[1]), es[2]), es[3])
  {
    FoldThree(f, s, es[..3]);
    FoldPrefix(f, s, es, 3);
    assert es[..4] == es;
  }

  lemma {:induction false} FoldFive<S, E>(f: (S, E) -> S, s: S, es: seq<E>)
    requires |es| == 5
    ensures Fold(f, s, es) == f(f(f(f(f(s, es[0]), es[1]), es[2]), es[3]), es[4])
  {
    FoldFour(f, s, es[..4]);
    FoldPrefix(f, s, es, 4);
    assert es[..5] == es;
  }

  lemma {:induction false} FoldSeven<S, E>(f: (S, E) -> S, s: S, es: seq<E>)
    requires |es| == 7
    ensures Fold(f, s, es) == f(f(f(f(f(f(f(s, es[0]), es[1]), es[2]), es[3]), es[4]), es[5]), es[6])
  {
    FoldFive(f, s, es[..5]);
    FoldPrefix(f, s, es, 5);
    FoldPrefix(f, s, es, 6);
    assert es[..7] == es;
  }
}
