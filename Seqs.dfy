/** Sequence helpers shared by the models. */
module Seqs {
  /** The sequences laid end to end, in order. */
  function Flatten<R>(sets: seq<seq<R>>): seq<R>
  {
    if |sets| == 0 then [] else Flatten(sets[..|sets| - 1]) + sets[|sets| - 1]
  }

  /** One more sequence at the end adds its elements at the end. */
  lemma FlattenSnoc<R>(sets: seq<seq<R>>, x: seq<R>)
    ensures Flatten(sets + [x]) == Flatten(sets) + x
  {
    assert (sets + [x])[..|sets|] == sets;
  }

  /** One more sequence at the front adds its elements at the front. */
  lemma {:induction false} FlattenCons<R>(x: seq<R>, sets: seq<seq<R>>)
    ensures Flatten([x] + sets) == x + Flatten(sets)
    decreases |sets|
  {
    if |sets| > 0 {
      var init := sets[..|sets| - 1];
      assert ([x] + sets)[..|sets|] == [x] + init;
      FlattenCons(x, init);
    }
  }
}
