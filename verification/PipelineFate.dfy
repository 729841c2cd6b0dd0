/** The fate of a copy: it can still be delivered exactly if nothing has doomed it. */
module PipelineFate {
  import opened Jobs
  import opened PipelineSteps
  import opened PipelineInvariant
  import opened PipelineDelivery
  import opened PipelineRuns
  import opened PipelineHope

  /** The server of the copy will not send enough to fill its buffer. */
  predicate Short(b: Body) {
    b.Body? && |b.stream| < |b.buffer| - b.start
  }

  /** The copy has been dropped; or its request is claimed, and not for it; or its server sends too
      little; or its connection was found closed before its buffer was full. */
  ghost predicate Doomed(s: State, j: Job)
    requires Shaped(s) && Genuine(s, j)
  {
    || j in s.dropped
    || (IsPurged(s, j) && forall t :: 0 <= t < |s.hands| ==> s.hands[t] != Claimed(j))
    || Short(BodyOf(s, j))
    || exists t :: 0 <= t < |s.hands| && s.hands[t] == Leaving(j, true) && !Full(BodyOf(s, j))
  }

  // ----- the doomed -----

  ghost predicate Lost(s: State, j: Job) {
    Sane(s) && Genuine(s, j) && j !in s.delivered && Doomed(s, j)
  }

  /** The copies a step delivers, and the hands it claims with. */
  lemma NotDelivered(s: State, a: Action, j: Job)
    requires Sane(s) && Possible(s, a) && Genuine(s, j) && j !in s.delivered && s.hands[a.t] != Claimed(j)
    ensures j !in Do(s, a).delivered
  {
    DeliveryStep(s, a, s.table[j.data].request);
  }

  lemma DroppedLost(s: State, a: Action, j: Job)
    requires Sane(s) && Possible(s, a) && Genuine(s, j) && j in s.dropped
    ensures Lost(Do(s, a), j)
  {
    SaneKept(s, a);
    ShapedKept(s, a);
    DroppedStays(s, a, j);
    assert Places(Do(s, a), j) <= 1;
  }

  lemma ClaimedLost(s: State, a: Action, j: Job)
    requires Sane(s) && Possible(s, a) && Genuine(s, j) && j !in s.delivered
    requires IsPurged(s, j) && forall t :: 0 <= t < |s.hands| ==> s.hands[t] != Claimed(j)
    ensures Lost(Do(s, a), j)
  {
    SaneKept(s, a);
    ShapedKept(s, a);
    NotDelivered(s, a, j);
    DeliveryStep(s, a, s.table[j.data].request);
    EffectExtends(s, a);
    assert BelongsTo(s, j, s.table[j.data].request);
  }

  lemma ShortKept(s: State, a: Action, j: Job)
    requires Possible(s, a) && Genuine(s, j) && Short(BodyOf(s, j))
    ensures Shaped(Do(s, a)) && Genuine(Do(s, a), j) && Short(BodyOf(Do(s, a), j))
  {
    ShapedKept(s, a);
    if !(a.Net? && s.hands[a.t].job == j) {
      BodyKept(s, a, j);
    }
  }

  lemma ShortLost(s: State, a: Action, j: Job)
    requires Sane(s) && Possible(s, a) && Genuine(s, j) && j !in s.delivered && Short(BodyOf(s, j))
    ensures Lost(Do(s, a), j)
  {
    SaneKept(s, a);
    ShortKept(s, a, j);
    assert Sound(s.table[j.data].body);
    NotDelivered(s, a, j);
  }

  lemma ClosedLost(s: State, a: Action, j: Job, t: nat)
    requires Sane(s) && Possible(s, a) && Genuine(s, j)
    requires t < |s.hands| && s.hands[t] == Leaving(j, true) && !Full(BodyOf(s, j))
    ensures Lost(Do(s, a), j)
  {
    SaneKept(s, a);
    ShapedKept(s, a);
    OnlyInHand(s, t, j);
    if a.t == t {
      assert j in Do(s, a).dropped;
      assert Places(Do(s, a), j) <= 1;
    } else {
      BodyKept(s, a, j);
      EffectExtends(s, a);
      OnlyInHand(Do(s, a), t, j);
    }
  }

  lemma LostKept(s: State, a: Action, j: Job)
    requires Lost(s, j) && Possible(s, a)
    ensures Lost(Do(s, a), j)
  {
    if j in s.dropped {
      DroppedLost(s, a, j);
    } else if IsPurged(s, j) && forall t :: 0 <= t < |s.hands| ==> s.hands[t] != Claimed(j) {
      ClaimedLost(s, a, j);
    } else if Short(BodyOf(s, j)) {
      ShortLost(s, a, j);
    } else {
      var t :| 0 <= t < |s.hands| && s.hands[t] == Leaving(j, true) && !Full(BodyOf(s, j));
      ClosedLost(s, a, j, t);
    }
  }

  lemma {:induction false} StaysLost(states: seq<State>, actions: seq<Action>, n: nat, j: Job)
    requires Run(states, actions) && n < |states| && Lost(states[0], j)
    ensures Lost(states[n], j)
  {
    if n > 0 {
      StaysLost(states, actions, n - 1, j);
      LostKept(states[n - 1], actions[n - 1], j);
    }
  }

  lemma LostForGood(s: State, j: Job)
    requires Lost(s, j)
    ensures !CanDeliver(s, j)
  {
    forall states, actions | Run(states, actions) && states[0] == s
      ensures !Delivering(states, actions, s, j)
    {
      StaysLost(states, actions, |actions|, j);
    }
  }

  // ----- the others -----

  lemma {:induction false} JobsInFound(a: Queues, j: Job) returns (p: nat, n: nat)
    requires j in JobsIn(a)
    ensures p < |a| && n < |a[p]| && a[p][n] == j
  {
    if j in a[0] {
      p := 0;
      n :| n < |a[0]| && a[0][n] == j;
    } else {
      p, n := JobsInFound(a[1..], j);
      p := p + 1;
    }
  }

  lemma FromHand(s: State, t: nat, j: Job)
    requires Hopeful(s, j) && !Doomed(s, j) && t < |s.hands| && JobOf(s.hands[t]) == Some(j)
    ensures CanDeliver(s, j)
  {
    var h := s.hands[t];
    assert HandOk(s, h);
    match h
    case Checking(k, _) => FromChecking(s, t, j, k);
    case Sending(k, _) => FromSending(s, t, j, k);
    case Reading(_) => FromReading(s, t, j);
    case Leaving(_, closed) =>
      if Full(BodyOf(s, j)) {
        FromFull(s, t, j, closed);
      } else {
        FromLeaving(s, t, j);
      }
    case Claimed(_) => FromClaimed(s, t, j);
    case Firing(k, _) => FromFiring(s, t, j, k);
    case Passing(k, _) => FromPassing(s, t, j, k);
  }

  lemma FromAnywhere(s: State, t: nat, j: Job)
    requires Hopeful(s, j) && !Doomed(s, j) && j !in s.delivered
    requires t < |s.hands| && (s.hands[t] == Free || JobOf(s.hands[t]) == Some(j))
    ensures CanDeliver(s, j)
  {
    assert Places(s, j) == 1;
    if InHands(s.hands, j) > 0 {
      var u := InHandsFound(s.hands, j);
      FromHand(s, u, j);
    } else if JobOf(s.hands[t]) == Some(j) {
      InHandsHas(s.hands, t, j);
    } else if InPending(s, j) > 0 {
      var k: nat :| k < 3 && j in s.pending[k];
      FromPending(s, t, j, k);
    } else {
      var k: nat :| k < 3 && j in JobsIn(s.queues[k]);
      var p, n := JobsInFound(s.queues[k], j);
      FromQueue(s, t, j, k, p, n);
    }
  }

  /** In every reachable state with a thread that is free or has the copy in its hand, an undelivered
      copy can still be delivered exactly if it is not doomed. */
  lemma DeliverableExactly(states: seq<State>, actions: seq<Action>, i: nat, t: nat, j: Job)
    requires RunFromStart(states, actions) && i < |states| && j in states[i].made && j !in states[i].delivered
    requires t < |states[i].hands| && (states[i].hands[t] == Free || JobOf(states[i].hands[t]) == Some(j))
    ensures Shaped(states[i]) && Genuine(states[i], j)
    ensures CanDeliver(states[i], j) <==> !Doomed(states[i], j)
  {
    var s := states[i];
    RunSane(states, actions, i);
    CopyInOnePlace(states, actions, i, j);
    assert Genuine(s, j);
    if Doomed(s, j) {
      LostForGood(s, j);
    } else if IsPurged(s, j) {
      var u :| 0 <= u < |s.hands| && s.hands[u] == Claimed(j);
      FromClaimed(s, u, j);
    } else {
      FromAnywhere(s, t, j);
    }
  }
}
