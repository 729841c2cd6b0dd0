/** At-most-once delivery, and no progress after the claim. */
module PipelineDelivery {
  import opened Jobs
  import opened PipelineSteps
  import opened PipelineInvariant

  predicate BelongsTo(s: State, j: Job, r: nat) {
    j.data < |s.table| && s.table[j.data].request == r
  }

  /** How many of `js` belong to request `r`. */
  function DoneFor(s: State, js: seq<Job>, r: nat): nat {
    if js == [] then 0 else One(BelongsTo(s, js[0], r)) + DoneFor(s, js[1..], r)
  }

  /** How many threads are about to call done for request `r`. */
  function ClaimedFor(s: State, hands: seq<Hand>, r: nat): nat {
    if hands == [] then 0
    else One(hands[0].Claimed? && BelongsTo(s, hands[0].job, r)) + ClaimedFor(s, hands[1..], r)
  }

  /** The done callback of a request has run, or is about to run in one thread, exactly when the
      request is purged. */
  ghost predicate Once(s: State, r: nat)
    requires r < |s.purged|
  {
    DoneFor(s, s.delivered, r) + ClaimedFor(s, s.hands, r) == One(s.purged[r])
  }

  ghost predicate Complete(s: State)
    requires Shaped(s)
  {
    && (forall j <- s.delivered :: Genuine(s, j) && Full(BodyOf(s, j)))
    && (forall t :: 0 <= t < |s.hands| && s.hands[t].Claimed? ==> Full(BodyOf(s, s.hands[t].job)))
  }

  ghost predicate Inv(s: State) {
    Conserved(s) && Complete(s) && forall r :: 0 <= r < |s.purged| ==> Once(s, r)
  }

  // ----- counting by request -----

  lemma {:induction false} DoneForStable(s: State, s': State, js: seq<Job>, r: nat)
    requires Extends(s, s') && forall j <- js :: Genuine(s, j)
    ensures DoneFor(s', js, r) == DoneFor(s, js, r)
  {
    if js != [] {
      assert Genuine(s, js[0]);
      DoneForStable(s, s', js[1..], r);
    }
  }

  lemma {:induction false} DoneForAppend(s: State, js: seq<Job>, j: Job, r: nat)
    ensures DoneFor(s, js + [j], r) == DoneFor(s, js, r) + One(BelongsTo(s, j, r))
  {
    if js == [] {
      assert js + [j] == [j];
    } else {
      assert (js + [j])[1..] == js[1..] + [j];
      DoneForAppend(s, js[1..], j, r);
    }
  }

  lemma {:induction false} ClaimedForSet(s: State, hands: seq<Hand>, t: nat, h: Hand, r: nat)
    requires t < |hands|
    ensures ClaimedFor(s, hands[t := h], r) + One(hands[t].Claimed? && BelongsTo(s, hands[t].job, r)) ==
            ClaimedFor(s, hands, r) + One(h.Claimed? && BelongsTo(s, h.job, r))
  {
    if t == 0 {
      assert hands[t := h][1..] == hands[1..];
    } else {
      assert hands[t := h][1..] == hands[1..][t - 1 := h];
      ClaimedForSet(s, hands[1..], t - 1, h, r);
    }
  }

  // ----- once -----

  /** The step claims completion of request `r`. */
  predicate Claims(s: State, a: Action, r: nat) {
    && Possible(s, a) && a.Step? && s.hands[a.t].Leaving? && BelongsTo(s, s.hands[a.t].job, r)
    && Full(BodyOf(s, s.hands[a.t].job)) && !IsPurged(s, s.hands[a.t].job)
  }

  /** What a step does to the purge states, the delivered copies and the claimed hands. */
  lemma DeliveryStep(s: State, a: Action, r: nat)
    requires Possible(s, a) && r < |s.purged|
    ensures var e, h := Effect(s, a), s.hands[a.t];
            && r < |e.purged| && (e.purged[r] <==> s.purged[r] || Claims(s, a, r))
            && e.delivered == (if a.Step? && h.Claimed? then s.delivered + [h.job] else s.delivered)
            && (Target(s, a).Claimed? && BelongsTo(s, Target(s, a).job, r) <==> Claims(s, a, r))
            && (Claims(s, a, r) ==> !s.purged[r])
            && (h.Claimed? ==> a.Step?)
  {
  }

  lemma OnceKept(s: State, a: Action, r: nat)
    requires Inv(s) && Possible(s, a) && r < |s.purged| && Shaped(Do(s, a)) && Extends(s, Do(s, a))
    ensures Once(Do(s, a), r)
  {
    var s', h := Do(s, a), s.hands[a.t];
    assert Once(s, r);
    DeliveryStep(s, a, r);
    ClaimedForSet(s, s.hands, a.t, Target(s, a), r);
    TargetClaimed(s, a);
    assert forall g <- s'.hands :: g.Claimed? ==> HandOk(s, g);
    ClaimedForChanged(s, s', s'.hands, r);
    DoneForStable(s, s', s.delivered, r);
    DoneForAppend(s', s.delivered, if h.Claimed? then h.job else Job(0, 0, 0), r);
  }

  lemma TargetClaimed(s: State, a: Action)
    requires Possible(s, a)
    ensures Target(s, a).Claimed? ==> HandOk(s, Target(s, a))
  {
    assert HandOk(s, s.hands[a.t]);
  }

  lemma {:induction false} ClaimedForChanged(s: State, s': State, hands: seq<Hand>, r: nat)
    requires Extends(s, s') && forall h <- hands :: h.Claimed? ==> HandOk(s, h)
    ensures ClaimedFor(s', hands, r) == ClaimedFor(s, hands, r)
  {
    if hands != [] {
      assert hands[0].Claimed? ==> HandOk(s, hands[0]);
      ClaimedForChanged(s, s', hands[1..], r);
    }
  }

  lemma {:induction false} DoneForNew(s: State, js: seq<Job>, r: nat)
    requires Shaped(s) && |s.purged| <= r && forall j <- js :: Genuine(s, j)
    ensures DoneFor(s, js, r) == 0
  {
    if js != [] {
      assert Genuine(s, js[0]);
      DoneForNew(s, js[1..], r);
    }
  }

  lemma {:induction false} ClaimedForNew(s: State, hands: seq<Hand>, r: nat)
    requires Shaped(s) && |s.purged| <= r && forall h <- hands :: HandOk(s, h)
    ensures ClaimedFor(s, hands, r) == 0
  {
    if hands != [] {
      assert HandOk(s, hands[0]);
      ClaimedForNew(s, hands[1..], r);
    }
  }

  lemma OnceNew(s: State, a: Action)
    requires Inv(s) && Possible(s, a) && a.Dispatch?
    ensures Do(s, a).purged == s.purged + [false] && Once(Do(s, a), |s.purged|)
  {
    var s', r := Do(s, a), |s.purged|;
    DoneForNew(s, s.delivered, r);
    ClaimedForNew(s, s.hands, r);
    ClaimedForSet(s, s.hands, a.t, Target(s, a), r);
    ShapedKept(s, a);
    DoneForStable(s, s', s.delivered, r);
    TargetClaimed(s, a);
    assert forall g <- s'.hands :: g.Claimed? ==> HandOk(s, g);
    ClaimedForChanged(s, s', s'.hands, r);
  }

  // ----- complete -----

  lemma {:induction false} InHandsTwice(hands: seq<Hand>, t: nat, u: nat, x: Job)
    requires t < u < |hands| && JobOf(hands[t]) == Some(x) == JobOf(hands[u])
    ensures InHands(hands, x) > 1
  {
    if t == 0 {
      InHandsHas(hands[1..], u - 1, x);
    } else {
      InHandsTwice(hands[1..], t - 1, u - 1, x);
    }
  }

  /** The copy in a reading hand has not been delivered and is in no other hand. */
  lemma ReadingAlone(s: State, t: nat)
    requires Conserved(s) && t < |s.hands| && s.hands[t].Reading?
    ensures s.hands[t].job !in s.delivered
    ensures forall u :: 0 <= u < |s.hands| && u != t ==> JobOf(s.hands[u]) != Some(s.hands[t].job)
  {
    var x := s.hands[t].job;
    InHandsHas(s.hands, t, x);
    assert Places(s, x) == One(Genuine(s, x));
    assert multiset(s.delivered)[x] == 0;
    forall u | 0 <= u < |s.hands| && u != t
      ensures JobOf(s.hands[u]) != Some(x)
    {
      if JobOf(s.hands[u]) == Some(x) {
        InHandsTwice(s.hands, if t < u then t else u, if t < u then u else t, x);
      }
    }
  }

  /** Bodies change only under a reading hand. */
  lemma BodyKept(s: State, a: Action, j: Job)
    requires Possible(s, a) && Genuine(s, j) && Shaped(Do(s, a)) && Extends(s, Do(s, a))
    requires a.Net? ==> j != s.hands[a.t].job
    ensures Genuine(Do(s, a), j) && BodyOf(Do(s, a), j) == BodyOf(s, j)
  {
  }

  lemma CompleteKept(s: State, a: Action)
    requires Inv(s) && Possible(s, a) && Shaped(Do(s, a)) && Extends(s, Do(s, a))
    ensures Complete(Do(s, a))
  {
    var s' := Do(s, a);
    if a.Net? {
      ReadingAlone(s, a.t);
    }
    forall j <- s'.delivered
      ensures Genuine(s', j) && Full(BodyOf(s', j))
    {
      NewlyDelivered(s, a, j);
      BodyKept(s, a, j);
    }
    forall t | 0 <= t < |s'.hands| && s'.hands[t].Claimed?
      ensures Full(BodyOf(s', s'.hands[t].job))
    {
      if t == a.t {
        NewlyClaimed(s, a);
      } else {
        assert HandOk(s, s.hands[t]);
      }
      BodyKept(s, a, s'.hands[t].job);
    }
  }

  lemma NewlyDelivered(s: State, a: Action, j: Job)
    requires Inv(s) && Possible(s, a) && j in Do(s, a).delivered
    ensures Genuine(s, j) && Full(BodyOf(s, j))
    ensures j in s.delivered || (a.Step? && s.hands[a.t] == Claimed(j))
  {
    assert HandOk(s, s.hands[a.t]);
  }

  lemma NewlyClaimed(s: State, a: Action)
    requires Inv(s) && Possible(s, a) && Target(s, a).Claimed?
    ensures !a.Net? && Genuine(s, Target(s, a).job) && Full(BodyOf(s, Target(s, a).job))
  {
    assert HandOk(s, s.hands[a.t]);
  }

  lemma InvKept(s: State, a: Action)
    requires Inv(s) && Possible(s, a)
    ensures Inv(Do(s, a))
  {
    ConservedKept(s, a);
    ShapedKept(s, a);
    CompleteKept(s, a);
    var s' := Do(s, a);
    assert |s'.purged| == |s.purged| + One(a.Dispatch?);
    forall r | 0 <= r < |s'.purged|
      ensures Once(s', r)
    {
      if r < |s.purged| {
        OnceKept(s, a, r);
      } else {
        OnceNew(s, a);
      }
    }
  }

  lemma InvInit(width: nat, threads: nat)
    ensures Inv(Init(width, threads))
  {
    ConservedInit(width, threads);
  }
}
