/** The way a copy takes: through the Connect, the Request and the Response stage, in that order. */
module PipelineRoute {
  import opened Jobs
  import opened PipelineSteps
  import opened PipelineInvariant
  import opened PipelineDelivery
  import opened PipelineRuns

  // ----- the stages a copy has been through -----

  /** The step takes the copy `j` from the front of a queue of stage `k`. */
  predicate TakesFrom(s: State, a: Action, j: Job, k: nat) {
    Possible(s, a) && a.Dequeue? && a.stage == k && s.queues[k][a.prio][0] == j
  }

  /** The stage that last took the copy in this hand. */
  function StageOf(h: Hand): Option<nat> {
    match h
    case Checking(k, _) => Some(k)
    case Sending(k, _) => Some(k)
    case Firing(k, _) => Some(k)
    case Passing(k, _) => Some(k)
    case Reading(_) => Some(RESPONSE)
    case Leaving(_, _) => Some(RESPONSE)
    case Claimed(_) => Some(RESPONSE)
    case _ => None
  }

  /** `seen` has the pair of a copy and a stage for every stage the copy must have been taken from to
      be where it is. */
  ghost predicate Handled(s: State, seen: iset<(Job, nat)>) {
    forall t :: 0 <= t < |s.hands| && StageOf(s.hands[t]).Some? ==> (s.hands[t].job, StageOf(s.hands[t]).value) in seen
  }

  ghost predicate Waited(s: State, seen: iset<(Job, nat)>) {
    forall k, j :: 0 <= k < |s.pending| && j in s.pending[k] ==> (j, k) in seen
  }

  ghost predicate Queued(s: State, seen: iset<(Job, nat)>) {
    forall k, j :: 0 < k < |s.queues| && j in JobsIn(s.queues[k]) ==> (j, k - 1) in seen
  }

  ghost predicate Ended(s: State, seen: iset<(Job, nat)>) {
    forall j <- s.delivered :: (j, RESPONSE) in seen
  }

  ghost predicate Routed(s: State, seen: iset<(Job, nat)>) {
    Handled(s, seen) && Waited(s, seen) && Queued(s, seen) && Ended(s, seen)
  }

  /** No stage without the one before. */
  ghost predicate Closed(seen: iset<(Job, nat)>) {
    forall j: Job, k: nat :: (j, k + 1) in seen ==> (j, k) in seen
  }

  /** What a step adds: the copy it takes and the stage it takes it from. */
  ghost predicate Adds(s: State, a: Action, seen: iset<(Job, nat)>, more: iset<(Job, nat)>) {
    seen <= more && forall j, k: nat :: TakesFrom(s, a, j, k) ==> (j, k) in more
  }

  lemma HandledNext(s: State, a: Action, seen: iset<(Job, nat)>, more: iset<(Job, nat)>)
    requires Possible(s, a) && Routed(s, seen) && Adds(s, a, seen, more)
    ensures Handled(Do(s, a), more)
  {
    var h, g := s.hands[a.t], Target(s, a);
    if a.Dequeue? {
      assert TakesFrom(s, a, s.queues[a.stage][a.prio][0], a.stage);
    } else if a.Step? || a.Net? {
      assert StageOf(g).Some? ==> StageOf(h) == StageOf(g) && g.job == h.job;
    }
    assert StageOf(g).Some? ==> (g.job, StageOf(g).value) in more;
  }

  lemma WaitedNext(s: State, a: Action, seen: iset<(Job, nat)>, more: iset<(Job, nat)>)
    requires Possible(s, a) && Routed(s, seen) && Adds(s, a, seen, more)
    ensures Waited(Do(s, a), more)
  {
    var s' := Do(s, a);
    forall k, j | 0 <= k < |s'.pending| && j in s'.pending[k]
      ensures (j, k) in more
    {
      if j !in s.pending[k] {
        assert a.Step? && StageOf(s.hands[a.t]) == Some(k) && s.hands[a.t].job == j;
      }
    }
  }

  lemma QueuedNext(s: State, a: Action, seen: iset<(Job, nat)>, more: iset<(Job, nat)>)
    requires Possible(s, a) && Routed(s, seen) && Closed(seen) && Adds(s, a, seen, more)
    ensures Queued(Do(s, a), more)
  {
    var s' := Do(s, a);
    forall k, j | 0 < k < |s'.queues| && j in JobsIn(s'.queues[k])
      ensures (j, k - 1) in more
    {
      if j !in JobsIn(s.queues[k]) {
        EntersQueue(s, a, k, j);
        assert (j, s.hands[a.t].stage) in seen;
      }
    }
  }

  /** A copy comes into a queue only from the hand of a thread that passes it on from the stage
      before, or again from the last, or that dispatches it. */
  lemma EntersQueue(s: State, a: Action, k: nat, j: Job)
    requires Possible(s, a) && k < 3 && j in JobsIn(Do(s, a).queues[k]) && j !in JobsIn(s.queues[k])
    ensures a.Step?
    ensures var h := s.hands[a.t];
      || (h.Passing? && h.job == j && (h.stage == k - 1 || h.stage == k == RESPONSE))
      || (h.Spreading? && k == CONNECT && j == NextCopy(s, h))
  {
    var h := s.hands[a.t];
    assert HandOk(s, h);
    if a.Dequeue? && a.stage == k {
      JobsInPop(s.queues[k], a.prio, j);
    } else if a.Step? && h.Purging? && h.stage == k {
      JobsInFilter(s.queues[k], h.id, j);
    } else if a.Step? && h.Passing? {
      JobsInAppend(s.queues[k], h.job, j);
    } else if a.Step? && h.Spreading? {
      JobsInAppend(s.queues[k], NextCopy(s, h), j);
    }
  }

  lemma EndedNext(s: State, a: Action, seen: iset<(Job, nat)>, more: iset<(Job, nat)>)
    requires Possible(s, a) && Routed(s, seen) && Adds(s, a, seen, more)
    ensures Ended(Do(s, a), more)
  {
  }

  lemma RoutedNext(s: State, a: Action, seen: iset<(Job, nat)>, more: iset<(Job, nat)>)
    requires Possible(s, a) && Routed(s, seen) && Closed(seen) && Adds(s, a, seen, more)
    ensures Routed(Do(s, a), more)
  {
    HandledNext(s, a, seen, more);
    WaitedNext(s, a, seen, more);
    QueuedNext(s, a, seen, more);
    EndedNext(s, a, seen, more);
  }

  // ----- over runs -----

  /** Before step `n` the copy was taken from stage `k`, and before that from each stage before it. */
  ghost predicate Route(states: seq<State>, actions: seq<Action>, n: nat, j: Job, k: nat)
    requires n <= |actions| < |states|
    decreases k
  {
    exists i: nat :: i < n && TakesFrom(states[i], actions[i], j, k) && (k > 0 ==> Route(states, actions, i, j, k - 1))
  }

  ghost function Seen(states: seq<State>, actions: seq<Action>, n: nat): iset<(Job, nat)>
    requires n <= |actions| < |states|
  {
    iset j: Job, k: nat | Route(states, actions, n, j, k) :: (j, k)
  }

  lemma {:induction false} RouteLater(states: seq<State>, actions: seq<Action>, m: nat, n: nat, j: Job, k: nat)
    requires m <= n <= |actions| < |states| && Route(states, actions, m, j, k)
    ensures Route(states, actions, n, j, k)
  {
    var i: nat :| i < m && TakesFrom(states[i], actions[i], j, k) && (k > 0 ==> Route(states, actions, i, j, k - 1));
  }

  lemma SeenClosed(states: seq<State>, actions: seq<Action>, n: nat)
    requires n <= |actions| < |states|
    ensures Closed(Seen(states, actions, n))
  {
    forall j: Job, k: nat | (j, k + 1) in Seen(states, actions, n)
      ensures (j, k) in Seen(states, actions, n)
    {
      var i: nat :| i < n && TakesFrom(states[i], actions[i], j, k + 1) && Route(states, actions, i, j, k);
      RouteLater(states, actions, i, n, j, k);
    }
  }

  lemma SeenAdds(states: seq<State>, actions: seq<Action>, n: nat)
    requires n < |actions| < |states| && Possible(states[n], actions[n]) && Routed(states[n], Seen(states, actions, n))
    ensures Adds(states[n], actions[n], Seen(states, actions, n), Seen(states, actions, n + 1))
  {
    var seen, more := Seen(states, actions, n), Seen(states, actions, n + 1);
    forall j: Job, k: nat | (j, k) in seen
      ensures (j, k) in more
    {
      RouteLater(states, actions, n, n + 1, j, k);
    }
    forall j, k: nat | TakesFrom(states[n], actions[n], j, k)
      ensures (j, k) in more
    {
      if k > 0 {
        JobsInHas(states[n].queues[k], actions[n].prio, j);
        assert (j, k - 1) in seen;
      }
      assert Route(states, actions, n + 1, j, k);
    }
  }

  lemma RoutedAtStart(s: State, seen: iset<(Job, nat)>)
    requires exists width: nat, threads: nat :: s == Init(width, threads)
    ensures Routed(s, seen)
  {
    var width: nat, threads: nat :| s == Init(width, threads);
    JobsInEmpty(width);
  }

  lemma RoutedStep(states: seq<State>, actions: seq<Action>, n: nat)
    requires Run(states, actions) && n < |actions| && Routed(states[n], Seen(states, actions, n))
    ensures Routed(states[n + 1], Seen(states, actions, n + 1))
  {
    SeenClosed(states, actions, n);
    SeenAdds(states, actions, n);
    RoutedNext(states[n], actions[n], Seen(states, actions, n), Seen(states, actions, n + 1));
  }

  lemma {:induction false} RunRouted(states: seq<State>, actions: seq<Action>, n: nat)
    requires RunFromStart(states, actions) && n < |states|
    ensures Routed(states[n], Seen(states, actions, n))
  {
    if n == 0 {
      RoutedAtStart(states[0], Seen(states, actions, 0));
    } else {
      RunRouted(states, actions, n - 1);
      RoutedStep(states, actions, n - 1);
    }
  }

  /** The last stage of a route, and the route up to it. */
  lemma RouteEnd(states: seq<State>, actions: seq<Action>, n: nat, j: Job, k: nat) returns (i: nat)
    requires n <= |actions| < |states| && Route(states, actions, n, j, k)
    ensures i < n && TakesFrom(states[i], actions[i], j, k) && (k > 0 ==> Route(states, actions, i, j, k - 1))
  {
    i :| i < n && TakesFrom(states[i], actions[i], j, k) && (k > 0 ==> Route(states, actions, i, j, k - 1));
  }

  lemma DeliveredRoute(states: seq<State>, actions: seq<Action>, n: nat, j: Job)
    requires RunFromStart(states, actions) && n < |states| && j in states[n].delivered
    ensures Route(states, actions, n, j, RESPONSE)
  {
    RunRouted(states, actions, n);
    assert (j, RESPONSE) in Seen(states, actions, n);
  }

  /** A delivered copy was taken from the Connect queue, later from the Request queue, and later from
      the Response queue. */
  lemma DeliveredWentThrough(states: seq<State>, actions: seq<Action>, n: nat, j: Job) returns (a: nat, b: nat, c: nat)
    requires RunFromStart(states, actions) && n < |states| && j in states[n].delivered
    ensures a < b < c < n
    ensures TakesFrom(states[a], actions[a], j, CONNECT) && TakesFrom(states[b], actions[b], j, REQUEST)
    ensures TakesFrom(states[c], actions[c], j, RESPONSE)
  {
    DeliveredRoute(states, actions, n, j);
    c := RouteEnd(states, actions, n, j, RESPONSE);
    b := RouteEnd(states, actions, c, j, REQUEST);
    a := RouteEnd(states, actions, b, j, CONNECT);
  }
}
