/** Sequences of states linked by actions, for any step system. */
module Runs {

  ghost predicate Linked<S(!new), A(!new)>(goes: (S, A, S) -> bool, states: seq<S>, actions: seq<A>) {
    && |states| == |actions| + 1
    && forall i :: 0 <= i < |actions| ==> goes(states[i], actions[i], states[i + 1])
  }

  lemma Joined<S(!new), A(!new)>(goes: (S, A, S) -> bool, a: seq<S>, x: seq<A>, b: seq<S>, y: seq<A>)
    requires Linked(goes, a, x) && Linked(goes, b, y) && a[|x|] == b[0]
    ensures Linked(goes, a + b[1..], x + y)
  {
    var states, actions := a + b[1..], x + y;
    forall i | 0 <= i < |actions|
      ensures goes(states[i], actions[i], states[i + 1])
    {
      if i < |x| {
        assert states[i] == a[i] && states[i + 1] == a[i + 1] && actions[i] == x[i];
      } else {
        assert states[i] == b[i - |x|] && states[i + 1] == b[i + 1 - |x|] && actions[i] == y[i - |x|];
      }
    }
  }

  lemma Extended<S(!new), A(!new)>(goes: (S, A, S) -> bool, states: seq<S>, actions: seq<A>, a: A, s: S)
    requires Linked(goes, states, actions) && goes(states[|actions|], a, s)
    ensures Linked(goes, states + [s], actions + [a])
  {
    forall i | 0 <= i < |actions + [a]|
      ensures goes((states + [s])[i], (actions + [a])[i], (states + [s])[i + 1])
    {
      if i < |actions| {
        assert goes(states[i], actions[i], states[i + 1]);
      }
    }
  }
}
