/** Which copies can still be delivered. */
module PipelineHope {
  import opened Jobs
  import opened PipelineSteps
  import opened PipelineInvariant
  import opened PipelineDelivery
  import opened PipelineRuns
  import opened PipelineRoute
  import opened PipelineThreads

  // ----- only a copy that has been read has a full buffer -----

  predicate Sound(b: Body) {
    b.Body? ==> b.start <= b.index <= |b.buffer| && b.pos <= |b.stream| && b.index - b.start == b.pos
  }

  predicate FullCopy(s: State, j: Job) {
    j.data < |s.table| && Full(s.table[j.data].body)
  }

  /** The hand holds the copy before it is read, or holds none. */
  predicate Early(h: Hand) {
    !h.Reading? && !h.Leaving? && !h.Claimed?
  }

  /** A full copy is in none of the places before the read loop. */
  ghost predicate Late(s: State, j: Job)
    requires |s.queues| == 3 && |s.pending| == 3
  {
    && (forall k :: 0 <= k < 3 ==> j !in JobsIn(s.queues[k]) && j !in s.pending[k])
    && (forall t :: 0 <= t < |s.hands| && JobOf(s.hands[t]) == Some(j) ==> !Early(s.hands[t]))
  }

  ghost predicate Sane(s: State) {
    && Inv(s)
    && (forall i :: 0 <= i < |s.table| ==> Sound(s.table[i].body))
    && (forall j :: Genuine(s, j) && FullCopy(s, j) ==> Late(s, j))
  }

  lemma SoundKept(s: State, a: Action)
    requires Possible(s, a) && forall i :: 0 <= i < |s.table| ==> Sound(s.table[i].body)
    ensures forall i :: 0 <= i < |Do(s, a).table| ==> Sound(Do(s, a).table[i].body)
  {
    if a.Net? {
      assert HandOk(s, s.hands[a.t]);
    }
  }

  /** A copy in a hand is nowhere else. */
  lemma OnlyInHand(s: State, t: nat, j: Job)
    requires Conserved(s) && t < |s.hands| && JobOf(s.hands[t]) == Some(j)
    ensures forall k :: 0 <= k < 3 ==> j !in JobsIn(s.queues[k]) && j !in s.pending[k]
    ensures forall u :: 0 <= u < |s.hands| && u != t ==> JobOf(s.hands[u]) != Some(j)
    ensures j !in s.dropped && j !in s.delivered
  {
    forall u | 0 <= u < |s.hands| && u != t
      ensures JobOf(s.hands[u]) != Some(j)
    {
      LeavingAlone(s, t, u);
    }
    InHandsHas(s.hands, t, j);
    assert Places(s, j) <= 1;
  }

  /** The copy being read is late whatever the network does to it. */
  lemma LateRead(s: State, a: Action)
    requires Conserved(s) && Possible(s, a) && a.Net?
    ensures Shaped(Do(s, a)) && Late(Do(s, a), s.hands[a.t].job)
  {
    ShapedKept(s, a);
    OnlyInHand(s, a.t, s.hands[a.t].job);
  }

  lemma LateQueues(s: State, a: Action, k: nat, j: Job)
    requires Possible(s, a) && Genuine(s, j) && Late(s, j) && k < 3
    ensures j !in JobsIn(Do(s, a).queues[k])
  {
    if j in JobsIn(Do(s, a).queues[k]) {
      EntersQueue(s, a, k, j);
      assert false;
    }
  }

  lemma LatePending(s: State, a: Action, k: nat, j: Job)
    requires Possible(s, a) && Genuine(s, j) && FullCopy(s, j) && Late(s, j) && k < 3
    ensures j !in Do(s, a).pending[k]
  {
  }

  lemma LateHand(s: State, a: Action, j: Job)
    requires Possible(s, a) && Genuine(s, j) && Late(s, j)
    ensures JobOf(Target(s, a)) == Some(j) ==> !Early(Target(s, a))
  {
    if a.Dequeue? {
      JobsInHas(s.queues[a.stage], a.prio, s.queues[a.stage][a.prio][0]);
    }
  }

  lemma LateKept(s: State, a: Action, j: Job)
    requires Possible(s, a) && Genuine(s, j) && FullCopy(s, j) && Late(s, j)
    ensures Shaped(Do(s, a)) && Late(Do(s, a), j)
  {
    ShapedKept(s, a);
    forall k | 0 <= k < 3
      ensures j !in JobsIn(Do(s, a).queues[k]) && j !in Do(s, a).pending[k]
    {
      LateQueues(s, a, k, j);
      LatePending(s, a, k, j);
    }
    LateHand(s, a, j);
    EffectExtends(s, a);
  }

  /** A full buffer after a step was full before it, or is the one being read. */
  lemma FullBefore(s: State, a: Action, j: Job)
    requires Possible(s, a) && Genuine(Do(s, a), j) && FullCopy(Do(s, a), j)
    ensures (a.Net? && s.hands[a.t].job == j) || (Genuine(s, j) && FullCopy(s, j))
  {
    ShapedKept(s, a);
    if a.Net? {
      assert HandOk(s, s.hands[a.t]);
    }
  }

  lemma SaneKept(s: State, a: Action)
    requires Sane(s) && Possible(s, a)
    ensures Sane(Do(s, a))
  {
    InvKept(s, a);
    SoundKept(s, a);
    var s' := Do(s, a);
    forall j | Genuine(s', j) && FullCopy(s', j)
      ensures Late(s', j)
    {
      FullBefore(s, a, j);
      if a.Net? && s.hands[a.t].job == j {
        LateRead(s, a);
      } else {
        LateKept(s, a, j);
      }
    }
  }

  lemma {:induction false} RunSane(states: seq<State>, actions: seq<Action>, n: nat)
    requires RunFromStart(states, actions) && n < |states|
    ensures Sane(states[n])
  {
    if n == 0 {
      RunInv(states, actions, 0);
    } else {
      RunSane(states, actions, n - 1);
      SaneKept(states[n - 1], actions[n - 1]);
    }
  }

  // ----- ways to a delivery -----

  /** Some run that starts in `s` delivers the copy. */
  ghost predicate CanDeliver(s: State, j: Job) {
    exists states, actions :: Delivering(states, actions, s, j)
  }

  ghost predicate Delivering(states: seq<State>, actions: seq<Action>, s: State, j: Job) {
    Run(states, actions) && states[0] == s && j in states[|actions|].delivered
  }

  lemma RunFrom(s: State, a: Action, states: seq<State>, actions: seq<Action>)
    requires Possible(s, a) && Run(states, actions) && states[0] == Do(s, a)
    ensures Run([s] + states, [a] + actions)
  {
    var ss, acts := [s] + states, [a] + actions;
    forall i | 0 <= i < |acts|
      ensures Possible(ss[i], acts[i]) && ss[i + 1] == Do(ss[i], acts[i])
    {
      if i > 0 {
        assert ss[i] == states[i - 1] && acts[i] == actions[i - 1] && ss[i + 1] == states[i];
      }
    }
  }

  lemma Before(s: State, a: Action, j: Job)
    requires Possible(s, a) && CanDeliver(Do(s, a), j)
    ensures CanDeliver(s, j)
  {
    var states, actions :| Delivering(states, actions, Do(s, a), j);
    RunFrom(s, a, states, actions);
    assert ([s] + states)[|[a] + actions|] == states[|actions|];
    assert Delivering([s] + states, [a] + actions, s, j);
  }

  /** The server of the copy sends enough to fill its buffer, or has not said yet. */
  predicate Long(b: Body) {
    b.Body? ==> |b.stream| >= |b.buffer| - b.start
  }

  ghost predicate Hopeful(s: State, j: Job) {
    Sane(s) && Genuine(s, j) && !IsPurged(s, j) && Long(BodyOf(s, j))
  }

  /** The step takes no copy out of the read loop with a full buffer, and brings no header too long for
      what the server of `j` will send. */
  predicate Harmless(s: State, a: Action, j: Job)
    requires Possible(s, a)
  {
    && (a.Step? && s.hands[a.t].Leaving? ==> !Full(BodyOf(s, s.hands[a.t].job)))
    && (a.Net? && a.event.Header? && s.hands[a.t].job == j ==> |a.event.stream| >= a.event.size - a.event.start)
  }

  lemma LongKept(s: State, a: Action, j: Job)
    requires Possible(s, a) && Genuine(s, j) && Long(BodyOf(s, j)) && Harmless(s, a, j)
    ensures Shaped(Do(s, a)) && Genuine(Do(s, a), j) && Long(BodyOf(Do(s, a), j))
  {
    ShapedKept(s, a);
    if !(a.Net? && s.hands[a.t].job == j) {
      BodyKept(s, a, j);
    }
  }

  lemma HopefulKept(s: State, a: Action, j: Job)
    requires Hopeful(s, j) && Possible(s, a) && Harmless(s, a, j)
    ensures Hopeful(Do(s, a), j)
  {
    SaneKept(s, a);
    LongKept(s, a, j);
    DeliveryStep(s, a, s.table[j.data].request);
    assert s.made <= Do(s, a).made by { ShapedKept(s, a); }
    EffectExtends(s, a);
  }

  lemma FromClaimed(s: State, t: nat, j: Job)
    requires Shaped(s) && t < |s.hands| && s.hands[t] == Claimed(j)
    ensures CanDeliver(s, j)
  {
    var s' := Do(s, Step(t));
    assert Delivering([s'], [], s', j);
    Before(s, Step(t), j);
  }

  lemma FromFull(s: State, t: nat, j: Job, closed: bool)
    requires Hopeful(s, j) && t < |s.hands| && s.hands[t] == Leaving(j, closed) && Full(BodyOf(s, j))
    ensures CanDeliver(s, j)
  {
    ShapedKept(s, Step(t));
    EffectExtends(s, Step(t));
    FromClaimed(Do(s, Step(t)), t, j);
    Before(s, Step(t), j);
  }

  lemma FromReadFull(s: State, t: nat, j: Job)
    requires Hopeful(s, j) && t < |s.hands| && s.hands[t] == Reading(j) && Full(BodyOf(s, j))
    ensures CanDeliver(s, j)
  {
    var a := Net(t, Stop(true));
    HopefulKept(s, a, j);
    FromFull(Do(s, a), t, j, true);
    Before(s, a, j);
  }

  lemma FromBody(s: State, t: nat, j: Job)
    requires Hopeful(s, j) && t < |s.hands| && s.hands[t] == Reading(j) && BodyOf(s, j).Body?
    ensures CanDeliver(s, j)
  {
    var b := BodyOf(s, j);
    if Full(b) {
      FromReadFull(s, t, j);
    } else {
      assert Sound(b);
      var a := Net(t, Offer(|b.buffer| - b.index));
      HopefulKept(s, a, j);
      OfferReads(s, t, |b.buffer| - b.index);
      FromReadFull(Do(s, a), t, j);
      Before(s, a, j);
    }
  }

  lemma FromReading(s: State, t: nat, j: Job)
    requires Hopeful(s, j) && t < |s.hands| && s.hands[t] == Reading(j)
    ensures CanDeliver(s, j)
  {
    if BodyOf(s, j).Body? {
      FromBody(s, t, j);
    } else {
      var a := Net(t, Header(0, 1, [0]));
      HopefulKept(s, a, j);
      FromBody(Do(s, a), t, j);
      Before(s, a, j);
    }
  }

  // ----- out of the way -----

  /** The copy is at index `n` of the queue of stage `k` and priority `p`, behind no more than `n` others,
      and thread `t` works for it. */
  ghost predicate Waits(s: State, t: nat, j: Job, k: nat, p: nat, n: nat) {
    && Hopeful(s, j) && t < |s.hands| && k < 3 && p < s.width
    && n < |s.queues[k][p]| && s.queues[k][p][n] == j
  }

  /** A step of thread `t` with another copy in hand leaves the queues and this copy as they are. */
  lemma Aside(s: State, a: Action, t: nat, j: Job, k: nat, p: nat, n: nat)
    requires Waits(s, t, j, k, p, n) && Possible(s, a) && a.t == t && Harmless(s, a, j)
    requires a.Net? || (a.Step? && (s.hands[t].Checking? || s.hands[t].Sending? || s.hands[t].Leaving?))
    ensures Waits(Do(s, a), t, j, k, p, n) && Do(s, a).hands[t] == Target(s, a)
  {
    HopefulKept(s, a, j);
    EffectExtends(s, a);
  }

  lemma QueuedNotInHand(s: State, t: nat, j: Job, k: nat, p: nat, n: nat)
    requires Waits(s, t, j, k, p, n)
    ensures JobOf(s.hands[t]) != Some(j)
  {
    JobsInHas(s.queues[k], p, j);
    if JobOf(s.hands[t]) == Some(j) {
      OnlyInHand(s, t, j);
      assert false;
    }
  }

  lemma DequeueOther(s: State, t: nat, j: Job, k: nat, p: nat, n: nat)
    requires Waits(s, t, j, k, p, n) && s.hands[t] == Free && n > 0
    ensures Possible(s, Dequeue(t, k, p)) && Waits(Do(s, Dequeue(t, k, p)), t, j, k, p, n - 1)
    ensures Do(s, Dequeue(t, k, p)).hands[t] == Checking(k, s.queues[k][p][0])
  {
    JobsInHas(s.queues[k], p, s.queues[k][p][0]);
    EverywhereGenuine(s, s.queues[k][p][0]);
    HopefulKept(s, Dequeue(t, k, p), j);
  }

  lemma FromQueue(s: State, t: nat, j: Job, k: nat, p: nat, n: nat)
    requires Waits(s, t, j, k, p, n) && s.hands[t] == Free
    ensures CanDeliver(s, j)
    decreases 2 - k, 6, n, 5
  {
    var a := Dequeue(t, k, p);
    if n == 0 {
      HopefulKept(s, a, j);
      FromChecking(Do(s, a), t, j, k);
    } else {
      DequeueOther(s, t, j, k, p, n);
      EvictChecked(Do(s, a), t, j, k, p, n - 1);
    }
    Before(s, a, j);
  }

  /** Another copy taken from the queue goes on to wait for its callback, or, at the last stage, finds
      its connection closed. */
  lemma EvictChecked(s: State, t: nat, j: Job, k: nat, p: nat, n: nat)
    requires Waits(s, t, j, k, p, n) && s.hands[t].Checking? && s.hands[t].stage == k
    ensures CanDeliver(s, j)
    decreases 2 - k, 6, n + 1, 4
  {
    var a := Step(t);
    Aside(s, a, t, j, k, p, n);
    var h := Do(s, a).hands[t];
    if h.Free? {
      FromQueue(Do(s, a), t, j, k, p, n);
    } else if h.Sending? {
      EvictSending(Do(s, a), t, j, k, p, n);
    } else {
      assert HandOk(s, s.hands[t]);
      assert !FullCopy(s, h.job);
      EvictReading(Do(s, a), t, j, k, p, n);
    }
    Before(s, a, j);
  }

  lemma EvictSending(s: State, t: nat, j: Job, k: nat, p: nat, n: nat)
    requires Waits(s, t, j, k, p, n) && s.hands[t].Sending?
    ensures CanDeliver(s, j)
    decreases 2 - k, 6, n + 1, 3
  {
    Aside(s, Step(t), t, j, k, p, n);
    FromQueue(Do(s, Step(t)), t, j, k, p, n);
    Before(s, Step(t), j);
  }

  lemma EvictReading(s: State, t: nat, j: Job, k: nat, p: nat, n: nat)
    requires Waits(s, t, j, k, p, n) && s.hands[t].Reading? && !FullCopy(s, s.hands[t].job)
    ensures CanDeliver(s, j)
    decreases 2 - k, 6, n + 1, 3
  {
    QueuedNotInHand(s, t, j, k, p, n);
    assert HandOk(s, s.hands[t]);
    if BodyOf(s, s.hands[t].job).Body? {
      EvictBody(s, t, j, k, p, n);
    } else {
      var a := Net(t, Header(0, 1, []));
      Aside(s, a, t, j, k, p, n);
      EvictBody(Do(s, a), t, j, k, p, n);
      Before(s, a, j);
    }
  }

  lemma EvictBody(s: State, t: nat, j: Job, k: nat, p: nat, n: nat)
    requires Waits(s, t, j, k, p, n) && s.hands[t].Reading?
    requires Genuine(s, s.hands[t].job) && BodyOf(s, s.hands[t].job).Body? && !Full(BodyOf(s, s.hands[t].job))
    ensures CanDeliver(s, j)
    decreases 2 - k, 6, n + 1, 2
  {
    var a := Net(t, Stop(true));
    Aside(s, a, t, j, k, p, n);
    EvictLeaving(Do(s, a), t, j, k, p, n);
    Before(s, a, j);
  }

  lemma EvictLeaving(s: State, t: nat, j: Job, k: nat, p: nat, n: nat)
    requires Waits(s, t, j, k, p, n) && s.hands[t].Leaving? && s.hands[t].closed
    requires Genuine(s, s.hands[t].job) && !Full(BodyOf(s, s.hands[t].job))
    ensures CanDeliver(s, j)
    decreases 2 - k, 6, n + 1, 1
  {
    Aside(s, Step(t), t, j, k, p, n);
    FromQueue(Do(s, Step(t)), t, j, k, p, n);
    Before(s, Step(t), j);
  }

  // ----- from every place -----

  lemma FromChecking(s: State, t: nat, j: Job, k: nat)
    requires Hopeful(s, j) && t < |s.hands| && s.hands[t] == Checking(k, j) && k < 3
    ensures CanDeliver(s, j)
    decreases 2 - k, 5
  {
    HopefulKept(s, Step(t), j);
    if k == RESPONSE {
      FromReading(Do(s, Step(t)), t, j);
    } else {
      FromSending(Do(s, Step(t)), t, j, k);
    }
    Before(s, Step(t), j);
  }

  lemma FromSending(s: State, t: nat, j: Job, k: nat)
    requires Hopeful(s, j) && t < |s.hands| && s.hands[t] == Sending(k, j) && k < 2
    ensures CanDeliver(s, j)
    decreases 2 - k, 4
  {
    HopefulKept(s, Step(t), j);
    FromPending(Do(s, Step(t)), t, j, k);
    Before(s, Step(t), j);
  }

  lemma FromPending(s: State, t: nat, j: Job, k: nat)
    requires Hopeful(s, j) && t < |s.hands| && s.hands[t] == Free && k < 3 && j in s.pending[k]
    ensures CanDeliver(s, j)
    decreases 2 - k, if k == RESPONSE then 9 else 3
  {
    var a := Fire(t, k, j, true);
    HopefulKept(s, a, j);
    FromFiring(Do(s, a), t, j, k);
    Before(s, a, j);
  }

  lemma FromFiring(s: State, t: nat, j: Job, k: nat)
    requires Hopeful(s, j) && t < |s.hands| && s.hands[t] == Firing(k, j) && k < 3
    ensures CanDeliver(s, j)
    decreases 2 - k, if k == RESPONSE then 8 else 2
  {
    HopefulKept(s, Step(t), j);
    FromPassing(Do(s, Step(t)), t, j, k);
    Before(s, Step(t), j);
  }

  lemma FromPassing(s: State, t: nat, j: Job, k: nat)
    requires Hopeful(s, j) && t < |s.hands| && s.hands[t] == Passing(k, j) && k < 3
    ensures CanDeliver(s, j)
    decreases 2 - k, if k == RESPONSE then 7 else 1
  {
    HopefulKept(s, Step(t), j);
    PassesOn(s, t, k, j);
    var next := if k == RESPONSE then RESPONSE else k + 1;
    FromQueue(Do(s, Step(t)), t, j, next, j.prio, |s.queues[next][j.prio]|);
    Before(s, Step(t), j);
  }

  lemma FromLeaving(s: State, t: nat, j: Job)
    requires Hopeful(s, j) && t < |s.hands| && s.hands[t] == Leaving(j, false) && !Full(BodyOf(s, j))
    ensures CanDeliver(s, j)
  {
    HopefulKept(s, Step(t), j);
    FromPending(Do(s, Step(t)), t, j, RESPONSE);
    Before(s, Step(t), j);
  }
}
