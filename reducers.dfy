/** React's `useReducer` contract, shared by the session store and the publications cache:
    the state after a sequence of dispatches is the reducer folded over them, in order. */
module Reducers {

  function Fold<S, A>(step: (S, A) -> S, state: S, actions: seq<A>): S
    decreases |actions|
  {
    if actions == [] then state
    else Fold(step, step(state, actions[0]), actions[1..])
  }

  /** Dispatching `xs` and then `ys` is dispatching `xs + ys`. */
  lemma {:induction false} FoldAppend<S, A>(step: (S, A) -> S, state: S, xs: seq<A>, ys: seq<A>)
    ensures Fold(step, state, xs + ys) == Fold(step, Fold(step, state, xs), ys)
    decreases |xs|
  {
    if xs == [] {
      assert xs + ys == ys;
    } else {
      assert (xs + ys)[0] == xs[0];
      assert (xs + ys)[1..] == xs[1..] + ys;
      FoldAppend(step, step(state, xs[0]), xs[1..], ys);
    }
  }

  lemma FoldOne<S, A>(step: (S, A) -> S, state: S, a: A)
    ensures Fold(step, state, [a]) == step(state, a)
  {
    assert [a][1..] == [];
  }

  lemma FoldPair<S, A>(step: (S, A) -> S, state: S, a: A, b: A)
    ensures Fold(step, state, [a, b]) == step(step(state, a), b)
  {
    assert [a, b][1..] == [b];
    FoldOne(step, step(state, a), b);
  }
}
