/** Stretches of a run with primary work at its target throughout, and the secondary jobs that
    start in them. */
module ThrottlerStarts {
  import opened Runs
  import opened ThrottlerSteps
  import opened ThrottlerRuns

  /** A step with primary work at its target before and after. */
  ghost predicate Tense(s: State, a: Action, s': State) {
    Goes(s, a, s') && StaysAtTarget(s, a)
  }

  /** The stretch `b`, `y` lies in a longer one at position `m`. */
  ghost predicate Within(b: seq<State>, y: seq<Action>, states: seq<State>, actions: seq<Action>, m: nat) {
    && |b| == |y| + 1 && |states| == |actions| + 1 && m + |y| <= |actions|
    && forall i :: 0 <= i < |y| ==> states[m + i] == b[i] && actions[m + i] == y[i]
  }

  lemma {:induction false} StartsWithin(b: seq<State>, y: seq<Action>, states: seq<State>, actions: seq<Action>, m: nat, n: nat)
    requires Within(b, y, states, actions, m) && n <= |y|
    ensures StartsIn(states, actions, m, m + n) == StartsIn(b, y, 0, n)
  {
    if n > 0 {
      StartsWithin(b, y, states, actions, m, n - 1);
      assert states[m + (n - 1)] == b[n - 1] && actions[m + (n - 1)] == y[n - 1];
    }
  }

  lemma {:induction false} StartsSplit(states: seq<State>, actions: seq<Action>, j: nat, k: nat)
    requires j <= k <= |actions| < |states|
    ensures StartsIn(states, actions, 0, k) == StartsIn(states, actions, 0, j) + StartsIn(states, actions, j, k)
  {
    if j < k {
      StartsSplit(states, actions, j, k - 1);
    }
  }

  /** Starts add up when stretches follow one another. */
  lemma StartsAdd(a: seq<State>, x: seq<Action>, b: seq<State>, y: seq<Action>, states: seq<State>, actions: seq<Action>)
    requires Within(a, x, states, actions, 0) && Within(b, y, states, actions, |x|) && |actions| == |x| + |y|
    ensures StartsIn(states, actions, 0, |actions|) == StartsIn(a, x, 0, |x|) + StartsIn(b, y, 0, |y|)
  {
    StartsWithin(a, x, states, actions, 0, |x|);
    StartsWithin(b, y, states, actions, |x|, |y|);
    StartsSplit(states, actions, |x|, |actions|);
  }

  lemma JoinedWithin(a: seq<State>, x: seq<Action>, b: seq<State>, y: seq<Action>)
    requires |a| == |x| + 1 && |b| == |y| + 1 && a[|x|] == b[0]
    ensures Within(a, x, a + b[1..], x + y, 0) && Within(b, y, a + b[1..], x + y, |x|)
  {
  }

  /** Two tense stretches joined. */
  lemma TenseJoined(a: seq<State>, x: seq<Action>, b: seq<State>, y: seq<Action>)
    requires Linked(Tense, a, x) && Linked(Tense, b, y) && a[|x|] == b[0]
    ensures Linked(Tense, a + b[1..], x + y)
    ensures StartsIn(a + b[1..], x + y, 0, |x + y|) == StartsIn(a, x, 0, |x|) + StartsIn(b, y, 0, |y|)
  {
    Joined(Tense, a, x, b, y);
    JoinedWithin(a, x, b, y);
    StartsAdd(a, x, b, y, a + b[1..], x + y);
  }

  lemma TenseGoes(b: seq<State>, y: seq<Action>)
    requires Linked(Tense, b, y)
    ensures Linked(Goes, b, y)
  {
    forall i | 0 <= i < |y|
      ensures Goes(b[i], y[i], b[i + 1])
    {
      assert Tense(b[i], y[i], b[i + 1]);
    }
  }

  lemma TenseWithin(b: seq<State>, y: seq<Action>, states: seq<State>, actions: seq<Action>, m: nat)
    requires Linked(Tense, b, y) && Within(b, y, states, actions, m)
    ensures forall i :: m <= i < m + |y| ==> StaysAtTarget(states[i], actions[i])
  {
    forall i | m <= i < m + |y|
      ensures StaysAtTarget(states[i], actions[i])
    {
      var k := i - m;
      assert Tense(b[k], y[k], b[k + 1]) && states[m + k] == b[k] && actions[m + k] == y[k];
    }
  }

  /** What a run inherits from a tense stretch in it, and step `k` of that stretch. */
  lemma TenseFacts(b: seq<State>, y: seq<Action>, states: seq<State>, actions: seq<Action>, m: nat, k: nat)
    requires Linked(Tense, b, y) && Within(b, y, states, actions, m) && k < |y|
    ensures forall i :: m <= i < m + |y| ==> StaysAtTarget(states[i], actions[i])
    ensures StartsIn(states, actions, m, m + |y|) == StartsIn(b, y, 0, |y|)
    ensures states[m + k] == b[k] && actions[m + k] == y[k]
  {
    TenseWithin(b, y, states, actions, m);
    StartsWithin(b, y, states, actions, m, |y|);
  }

  /** A run with a tense stretch at its end. */
  lemma TenseRun(a: seq<State>, x: seq<Action>, b: seq<State>, y: seq<Action>)
    requires Linked(Goes, a, x) && Linked(Tense, b, y) && a[|x|] == b[0]
    ensures Run(a + b[1..], x + y) && Within(a, x, a + b[1..], x + y, 0) && Within(b, y, a + b[1..], x + y, |x|)
  {
    TenseGoes(b, y);
    Joined(Goes, a, x, b, y);
    LinkedIsRun(a + b[1..], x + y);
    JoinedWithin(a, x, b, y);
  }
}
