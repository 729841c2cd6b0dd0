/** What one thread of the pipeline gets done between two of its own steps, whatever the others do
    meanwhile. */
module PipelineThreads {
  import opened Jobs
  import opened PipelineSteps
  import opened PipelineInvariant
  import opened PipelineDelivery
  import opened PipelineRuns

  /** Thread `t` does nothing from step `m` up to step `n`. */
  predicate Away(actions: seq<Action>, t: nat, m: nat, n: nat)
    requires n <= |actions|
  {
    forall i :: m <= i < n ==> actions[i].t != t
  }

  lemma {:induction false} HandWaits(states: seq<State>, actions: seq<Action>, t: nat, m: nat, n: nat)
    requires Run(states, actions) && m <= n <= |actions| && t < |states[m].hands| && Away(actions, t, m, n)
    ensures |states[n].hands| == |states[m].hands| && states[n].hands[t] == states[m].hands[t]
  {
    if m < n {
      HandWaits(states, actions, t, m, n - 1);
      EffectExtends(states[n - 1], actions[n - 1]);
    }
  }

  // ----- after a callback -----

  predicate Unclaimed(s: State, j: Job) {
    Shaped(s) && Genuine(s, j) && !IsPurged(s, j)
  }

  /** The callback of a registered copy comes without error at step `i`, and the next two actions of
      the thread are `a` and `b`.  If the request is unclaimed at `a`, then step `b` leaves the copy at
      the back of its priority in the queue of the next stage, where Response follows Response, and
      touches nothing else in any queue. */
  lemma CallbackPassesOn(states: seq<State>, actions: seq<Action>, i: nat, a: nat, b: nat, t: nat, k: nat, j: Job)
    requires Run(states, actions) && i < a < b < |actions|
    requires actions[i] == Fire(t, k, j, true) && actions[a].t == t == actions[b].t
    requires Away(actions, t, i + 1, a) && Away(actions, t, a + 1, b) && Unclaimed(states[a], j)
    ensures t < |states[b + 1].hands| && states[b + 1].hands[t] == Free && k < 3
    ensures |states[b].queues| == 3 == |states[b + 1].queues|
    ensures forall q :: 0 <= q < 3 ==> |states[b + 1].queues[q]| == |states[b].queues[q]|
    ensures forall q, p :: 0 <= q < 3 && 0 <= p < |states[b].queues[q]| ==>
      states[b + 1].queues[q][p] ==
        states[b].queues[q][p] + if p == j.prio && (q == k + 1 || q == k == RESPONSE) then [j] else []
  {
    HandWaits(states, actions, t, i + 1, a);
    assert states[a].hands[t] == Firing(k, j);
    EffectExtends(states[a], actions[a]);
    assert states[a + 1].hands[t] == Passing(k, j);
    HandWaits(states, actions, t, a + 1, b);
    PassesOn(states[b], t, k, j);
  }

  lemma PassesOn(s: State, t: nat, k: nat, j: Job)
    requires Possible(s, Step(t)) && s.hands[t] == Passing(k, j)
    ensures Do(s, Step(t)).hands == s.hands[t := Free] && k < 3 && |s.queues| == 3 == |Do(s, Step(t)).queues|
    ensures forall q :: 0 <= q < 3 ==> |Do(s, Step(t)).queues[q]| == |s.queues[q]|
    ensures forall q, p :: 0 <= q < 3 && 0 <= p < |s.queues[q]| ==>
      Do(s, Step(t)).queues[q][p] == s.queues[q][p] + if p == j.prio && (q == k + 1 || q == k == RESPONSE) then [j] else []
  {
    assert HandOk(s, s.hands[t]);
    ShapedKept(s, Step(t));
  }

  // ----- after the read loop -----

  lemma LeavingAlone(s: State, t: nat, u: nat)
    requires Conserved(s) && t < |s.hands| && u < |s.hands| && t != u && JobOf(s.hands[t]).Some?
    ensures JobOf(s.hands[u]) != JobOf(s.hands[t])
  {
    if JobOf(s.hands[u]) == JobOf(s.hands[t]) {
      var x := JobOf(s.hands[t]).value;
      assert Places(s, x) <= 1;
      InHandsTwice(s.hands, if t < u then t else u, if t < u then u else t, x);
      assert false;
    }
  }

  /** Thread `t` has `h` in its hand, and the buffer of copy `j` is `b`. */
  predicate Carries(s: State, t: nat, h: Hand, j: Job, b: Body) {
    Shaped(s) && t < |s.hands| && s.hands[t] == h && JobOf(h) == Some(j) && Genuine(s, j) && BodyOf(s, j) == b
  }

  lemma CarriesNext(s: State, a: Action, t: nat, h: Hand, j: Job, b: Body)
    requires Inv(s) && Possible(s, a) && a.t != t && Carries(s, t, h, j, b)
    ensures Carries(Do(s, a), t, h, j, b)
  {
    ShapedKept(s, a);
    LeavingAlone(s, t, a.t);
    BodyKept(s, a, j);
    EffectExtends(s, a);
  }

  lemma {:induction false} CarriesUpTo(states: seq<State>, m: nat, n: nat, t: nat, h: Hand, j: Job, b: Body)
    requires m <= n < |states| && Carries(states[m], t, h, j, b)
    requires forall i :: m <= i < n && Carries(states[i], t, h, j, b) ==> Carries(states[i + 1], t, h, j, b)
    ensures Carries(states[n], t, h, j, b)
  {
    if m < n {
      CarriesUpTo(states, m, n - 1, t, h, j, b);
    }
  }

  /** A copy in a thread's hand stays there with its buffer as it is while that thread does nothing. */
  lemma BodyWaits(states: seq<State>, actions: seq<Action>, t: nat, m: nat, n: nat, h: Hand, j: Job, b: Body)
    requires RunFromStart(states, actions) && m <= n <= |actions| && Away(actions, t, m, n)
    requires Carries(states[m], t, h, j, b)
    ensures Carries(states[n], t, h, j, b)
  {
    forall i | m <= i < n && Carries(states[i], t, h, j, b)
      ensures Carries(states[i + 1], t, h, j, b)
    {
      RunInv(states, actions, i);
      CarriesNext(states[i], actions[i], t, h, j, b);
    }
    CarriesUpTo(states, m, n, t, h, j, b);
  }

  /** The network lets the read loop of a copy end at step `i` with its buffer not full, and the thread
      acts next at `n`.  If the connection has failed or ended, that step drops the copy; if
      a read would block, it registers the copy for another callback of the Response stage and loses
      nothing. */
  lemma WouldBlockWaits(states: seq<State>, actions: seq<Action>, i: nat, n: nat, t: nat, e: Event, j: Job)
    requires RunFromStart(states, actions) && i < n < |actions| && Away(actions, t, i + 1, n)
    requires actions[i] == Net(t, e) && actions[n].t == t
    requires t < |states[i].hands| && states[i].hands[t] == Reading(j)
    requires t < |states[i + 1].hands| && (e.Stop? || states[i + 1].hands[t] != Reading(j))
    ensures Shaped(states[i + 1]) && Genuine(states[i + 1], j) && Shaped(states[n]) && Shaped(states[n + 1])
    ensures !Full(BodyOf(states[i + 1], j)) ==>
      && states[n + 1].hands == states[n].hands[t := Free]
      && states[n + 1].dropped == states[n].dropped + (if e == Stop(true) then multiset{j} else multiset{})
      && states[n + 1].pending[RESPONSE] == states[n].pending[RESPONSE] + (if e == Stop(true) then multiset{} else multiset{j})
  {
    LeavesAs(states[i], t, e);
    BodyWaits(states, actions, t, i + 1, n, states[i + 1].hands[t], j, BodyOf(states[i + 1], j));
    ShapedKept(states[n], actions[n]);
    EffectExtends(states[n], actions[n]);
  }

  /** Out of the read loop with room left, a copy counts as closed only after a failure or an end. */
  lemma LeavesAs(s: State, t: nat, e: Event)
    requires Possible(s, Net(t, e)) && Target(s, Net(t, e)).Leaving?
    ensures var j := s.hands[t].job;
      Genuine(Do(s, Net(t, e)), j) && Shaped(Do(s, Net(t, e))) && Target(s, Net(t, e)).job == j &&
      (!Full(BodyOf(Do(s, Net(t, e)), j)) ==> Target(s, Net(t, e)).closed == (e == Stop(true)))
  {
    assert HandOk(s, s.hands[t]);
    ShapedKept(s, Net(t, e));
    if e.Offer? {
      var b := BodyOf(s, s.hands[t].job);
      assert Put(b.buffer, b.index, []) == b.buffer;
    }
  }

  // ----- a read -----

  function Least(x: int, y: int, z: int): int {
    if x <= y && x <= z then x else if y <= z then y else z
  }

  /** The copy `j` in the read loop of thread `t` goes from body `b` to body `b'` by a read of `n` bytes. */
  predicate Reads(s: State, s': State, t: nat, j: Job, n: int) {
    && Shaped(s) && Shaped(s') && Genuine(s, j) && Genuine(s', j) && BodyOf(s, j).Body? && BodyOf(s', j).Body?
    && var b, b' := BodyOf(s, j), BodyOf(s', j);
    && |b'.buffer| == |b.buffer| && b'.stream == b.stream && b'.index == b.index + n && b'.pos == b.pos + n
    && t < |s'.hands| && (s'.hands[t].Reading? <==> n > 0)
  }

  lemma OfferReads(s: State, t: nat, count: nat)
    requires Possible(s, Net(t, Offer(count)))
    ensures Genuine(s, s.hands[t].job) && BodyOf(s, s.hands[t].job).Body?
    ensures Reads(s, Do(s, Net(t, Offer(count))), t, s.hands[t].job, |Got(BodyOf(s, s.hands[t].job), count)|)
  {
    assert HandOk(s, s.hands[t]);
    ShapedKept(s, Net(t, Offer(count)));
  }

  /** A read takes as many bytes as are offered, as there is room for and as the stream still has,
      whichever is least, and the thread stays in its loop exactly if it took one. */
  lemma OfferTakesAll(states: seq<State>, actions: seq<Action>, i: nat, t: nat, count: nat)
    requires RunFromStart(states, actions) && i < |actions| && actions[i] == Net(t, Offer(count))
    ensures Shaped(states[i]) && t < |states[i].hands| && states[i].hands[t].Reading? && Genuine(states[i], states[i].hands[t].job)
    ensures var j := states[i].hands[t].job; var b := BodyOf(states[i], j);
      && b.Body? && b.index <= |b.buffer| && b.pos <= |b.stream|
      && Reads(states[i], states[i + 1], t, j, Least(count, |b.buffer| - b.index, |b.stream| - b.pos))
  {
    var j := states[i].hands[t].job;
    OfferReads(states[i], t, count);
    Reassembled(states, actions, i, j);
    GotLength(BodyOf(states[i], j), Received(states, actions, i, j), count);
  }

  lemma GotLength(b: Body, read: seq<int>, count: nat)
    requires b.Body? && Holding(b, read)
    ensures b.index <= |b.buffer| && b.pos <= |b.stream|
    ensures |Got(b, count)| == Least(count, |b.buffer| - b.index, |b.stream| - b.pos)
  {
  }

  // ----- after a delivery -----

  /** The queue of stage `k` has no job with this id. */
  ghost predicate Clean(s: State, k: nat, id: JobId) {
    k < |s.queues| && forall x <- JobsIn(s.queues[k]) :: x.id != id
  }

  /** It had none in some state from `i` up to `n`. */
  ghost predicate Swept(states: seq<State>, i: nat, n: nat, k: nat, id: JobId) {
    exists m: nat :: i <= m < n <= |states| && Clean(states[m], k, id)
  }

  ghost predicate SweptBefore(states: seq<State>, i: nat, n: nat, stage: nat, id: JobId) {
    forall k: nat :: k < stage ==> Swept(states, i, n, k, id)
  }

  /** The purge of a thread has reached a stage, and the stages before it have been swept. */
  ghost predicate Sweeping(states: seq<State>, i: nat, n: nat, t: nat, id: JobId)
    requires n < |states|
  {
    && t < |states[n].hands|
    && states[n].hands[t].Purging? && states[n].hands[t].id == id && states[n].hands[t].stage < 3
    && SweptBefore(states, i, n + 1, states[n].hands[t].stage, id)
  }

  lemma SweptLater(states: seq<State>, i: nat, m: nat, n: nat, stage: nat, id: JobId)
    requires m <= n <= |states| && SweptBefore(states, i, m, stage, id)
    ensures SweptBefore(states, i, n, stage, id)
  {
    forall k: nat | k < stage
      ensures Swept(states, i, n, k, id)
    {
      assert Swept(states, i, m, k, id);
    }
  }

  lemma StageCleared(s: State, t: nat)
    requires Possible(s, Step(t)) && s.hands[t].Purging?
    ensures var h, s' := s.hands[t], Do(s, Step(t));
      && |s'.hands| == |s.hands| && h.stage < 3 && Clean(s', h.stage, h.id)
      && s'.hands[t] == if h.stage < 2 then Purging(h.id, h.stage + 1) else Free
  {
    var h := s.hands[t];
    assert HandOk(s, h);
    forall x | x in JobsIn(Do(s, Step(t)).queues[h.stage])
      ensures x.id != h.id
    {
      JobsInFilter(s.queues[h.stage], h.id, x);
    }
  }

  lemma SweptMore(states: seq<State>, i: nat, n: nat, k: nat, id: JobId)
    requires i <= n < |states| && SweptBefore(states, i, n, k, id) && Clean(states[n], k, id)
    ensures SweptBefore(states, i, n + 1, k + 1, id)
  {
    SweptLater(states, i, n, n + 1, k, id);
    assert Swept(states, i, n + 1, k, id);
  }

  lemma SweepNext(states: seq<State>, actions: seq<Action>, i: nat, n: nat, t: nat, id: JobId)
    requires Run(states, actions) && i <= n < |actions| && Sweeping(states, i, n, t, id)
    ensures t < |states[n + 1].hands|
    ensures states[n + 1].hands[t] != Free ==> Sweeping(states, i, n + 1, t, id)
    ensures states[n + 1].hands[t] == Free ==> SweptBefore(states, i, n + 2, 3, id)
  {
    var k := states[n].hands[t].stage;
    if actions[n].t == t {
      StageCleared(states[n], t);
      SweptMore(states, i, n + 1, k, id);
    } else {
      EffectExtends(states[n], actions[n]);
      SweptLater(states, i, n + 1, n + 2, k, id);
    }
  }

  /** The purge is on its way, or has swept every stage. */
  ghost predicate Sweeps(states: seq<State>, i: nat, n: nat, t: nat, id: JobId)
    requires n < |states|
  {
    Sweeping(states, i, n, t, id) || SweptBefore(states, i, n + 1, 3, id)
  }

  lemma SweepsNext(states: seq<State>, actions: seq<Action>, i: nat, n: nat, t: nat, id: JobId)
    requires Run(states, actions) && i <= n < |actions| && Sweeps(states, i, n, t, id)
    ensures Sweeps(states, i, n + 1, t, id)
  {
    if SweptBefore(states, i, n + 1, 3, id) {
      SweptLater(states, i, n + 1, n + 2, 3, id);
    } else {
      SweepNext(states, actions, i, n, t, id);
    }
  }

  lemma {:induction false} SweepsOn(states: seq<State>, i: nat, n: nat, t: nat, id: JobId)
    requires i <= n < |states| && Sweeps(states, i, i, t, id)
    requires forall m :: i <= m < n && Sweeps(states, i, m, t, id) ==> Sweeps(states, i, m + 1, t, id)
    ensures Sweeps(states, i, n, t, id)
  {
    if i < n {
      SweepsOn(states, i, n - 1, t, id);
    }
  }

  /** A purge that has begun by step `i` has swept every stage when its thread is free again. */
  lemma SweepsAll(states: seq<State>, actions: seq<Action>, i: nat, n: nat, t: nat, id: JobId)
    requires Run(states, actions) && i <= n < |states| && Sweeping(states, i, i, t, id)
    requires t < |states[n].hands| && states[n].hands[t] == Free
    ensures SweptBefore(states, i, n + 1, 3, id)
  {
    forall m | i <= m < n && Sweeps(states, i, m, t, id)
      ensures Sweeps(states, i, m + 1, t, id)
    {
      SweepsNext(states, actions, i, m, t, id);
    }
    SweepsOn(states, i, n, t, id);
  }

  /** A thread that has claimed a request delivers its copy with its next action `i`, once.  Whenever
      its hand is free after that, it has cleared the queue of every stage of the jobs with that id. */
  lemma DeliversThenPurges(states: seq<State>, actions: seq<Action>, i: nat, n: nat, t: nat, j: Job)
    requires RunFromStart(states, actions) && i < n <= |actions|
    requires actions[i].t == t && t < |states[i].hands| && states[i].hands[t] == Claimed(j)
    requires t < |states[n].hands| && states[n].hands[t] == Free
    ensures states[i + 1].delivered == states[i].delivered + [j] && j !in states[i].delivered
    ensures SweptBefore(states, i + 1, n + 1, 3, j.id)
  {
    ClaimedNotDelivered(states, actions, i, t, j);
    EffectExtends(states[i], actions[i]);
    assert Sweeping(states, i + 1, i + 1, t, j.id);
    SweepsAll(states, actions, i + 1, n, t, j.id);
  }

  lemma ClaimedNotDelivered(states: seq<State>, actions: seq<Action>, i: nat, t: nat, j: Job)
    requires RunFromStart(states, actions) && i < |states| && t < |states[i].hands| && states[i].hands[t] == Claimed(j)
    ensures j !in states[i].delivered
  {
    RunInv(states, actions, i);
    InHandsHas(states[i].hands, t, j);
    assert Places(states[i], j) <= 1;
  }

  /** The purge of an id by a caller sweeps every stage in the same way. */
  lemma PurgeSweepsAll(states: seq<State>, actions: seq<Action>, i: nat, n: nat, t: nat, id: JobId)
    requires Run(states, actions) && i < n <= |actions| && actions[i] == Purge(t, id)
    requires t < |states[n].hands| && states[n].hands[t] == Free
    ensures SweptBefore(states, i + 1, n + 1, 3, id)
  {
    assert Sweeping(states, i + 1, i + 1, t, id);
    SweepsAll(states, actions, i + 1, n, t, id);
  }

  // ----- losing a copy -----

  /** Why a step may drop a copy: its request was claimed when a thread looked, its callback failed,
      its connection closed before its buffer was full, or a purge of its id found it in a queue. */
  ghost predicate Reason(s: State, a: Action, j: Job)
    requires Possible(s, a)
  {
    match a
    case Fire(_, _, x, ok) => x == j && !ok
    case Step(t) =>
      (match s.hands[t]
       case Checking(_, x) => x == j && IsPurged(s, x)
       case Firing(_, x) => x == j && IsPurged(s, x)
       case Leaving(x, closed) => x == j && if Full(BodyOf(s, x)) then IsPurged(s, x) else closed
       case Purging(id, k) => j.id == id && j in JobsIn(s.queues[k])
       case _ => false)
    case _ => false
  }

  lemma ClearDrops(s: State, k: nat, id: JobId, j: Job)
    requires k < |s.queues|
    ensures Clear(s, k, id).dropped[j] == s.dropped[j] + if j.id == id then JobsIn(s.queues[k])[j] else 0
  {
    JobsInFilter(s.queues[k], id, j);
  }

  /** A step of a run drops a copy exactly for one of these reasons. */
  lemma EveryLossHasAReason(states: seq<State>, actions: seq<Action>, i: nat, j: Job)
    requires RunFromStart(states, actions) && i < |actions|
    ensures states[i + 1].dropped[j] > states[i].dropped[j] <==> Reason(states[i], actions[i], j)
  {
    var s, a := states[i], actions[i];
    if a.Step? {
      assert HandOk(s, s.hands[a.t]);
      if s.hands[a.t].Purging? {
        ClearDrops(s, s.hands[a.t].stage, s.hands[a.t].id, j);
      }
    }
  }
}
