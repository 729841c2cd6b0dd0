/** What holds over every run of the pipeline. */
module PipelineRuns {
  import opened Jobs
  import opened PipelineSteps
  import opened PipelineInvariant
  import opened PipelineDelivery

  ghost predicate RunFromStart(states: seq<State>, actions: seq<Action>) {
    Run(states, actions) && exists width: nat, threads: nat :: states[0] == Init(width, threads)
  }

  lemma {:induction false} RunInv(states: seq<State>, actions: seq<Action>, i: nat)
    requires RunFromStart(states, actions) && i < |states|
    ensures Inv(states[i])
  {
    if i == 0 {
      var width: nat, threads: nat :| states[0] == Init(width, threads);
      InvInit(width, threads);
    } else {
      RunInv(states, actions, i - 1);
      InvKept(states[i - 1], actions[i - 1]);
    }
  }

  /** Every copy made so far is in exactly one place, and nothing else is anywhere. */
  lemma CopyInOnePlace(states: seq<State>, actions: seq<Action>, i: nat, x: Job)
    requires RunFromStart(states, actions) && i < |states|
    ensures Shaped(states[i])
    ensures Places(states[i], x) == if x in states[i].made then 1 else 0
  {
    RunInv(states, actions, i);
    assert Places(states[i], x) == One(Genuine(states[i], x));
    if x in states[i].made {
      var n: nat :| n < |states[i].made| && states[i].made[n] == x;
    }
  }

  ghost predicate Marked(s: State, r: nat) {
    r < |s.purged| && s.purged[r]
  }

  lemma MarkedNext(states: seq<State>, actions: seq<Action>, k: nat, r: nat)
    requires Run(states, actions) && k < |actions|
    ensures Marked(states[k], r) ==> Marked(states[k + 1], r)
  {
    if Marked(states[k], r) {
      DeliveryStep(states[k], actions[k], r);
    }
  }

  /** A purge mark is never taken back. */
  lemma {:induction false} MarkedStays(states: seq<State>, i: nat, k: nat, r: nat)
    requires i <= k < |states| && Marked(states[i], r)
    requires forall m :: i <= m < k ==> Marked(states[m], r) ==> Marked(states[m + 1], r)
    ensures Marked(states[k], r)
  {
    if i < k {
      MarkedStays(states, i, k - 1, r);
    }
  }

  /** In every reachable state an idle thread can take the front of any queue with a job in it, and
      any registered callback can fire. */
  lemma NothingIsStuck(states: seq<State>, actions: seq<Action>, i: nat, t: nat, k: nat)
    requires RunFromStart(states, actions) && i < |states| && t < |states[i].hands| && states[i].hands[t].Free? && k < 3
    ensures Shaped(states[i])
    ensures forall p: nat :: p < states[i].width && states[i].queues[k][p] != [] ==> Possible(states[i], Dequeue(t, k, p))
    ensures forall j, ok :: j in states[i].pending[k] ==> Possible(states[i], Fire(t, k, j, ok))
  {
    RunInv(states, actions, i);
    var s := states[i];
    forall p: nat | p < s.width && s.queues[k][p] != []
      ensures Possible(s, Dequeue(t, k, p))
    {
      JobsInHas(s.queues[k], p, s.queues[k][p][0]);
      EverywhereGenuine(s, s.queues[k][p][0]);
    }
    forall j, ok | j in s.pending[k]
      ensures Possible(s, Fire(t, k, j, ok))
    {
      EverywhereGenuine(s, j);
    }
  }

  lemma {:induction false} JobsInHas(a: Queues, p: nat, j: Job)
    requires p < |a| && j in a[p]
    ensures j in JobsIn(a)
  {
    if p > 0 {
      JobsInHas(a[1..], p - 1, j);
    }
  }

  lemma {:induction false} DoneForHas(s: State, js: seq<Job>, n: nat, r: nat)
    requires n < |js| && BelongsTo(s, js[n], r)
    ensures DoneFor(s, js, r) > 0
  {
    if n > 0 {
      DoneForHas(s, js[1..], n - 1, r);
    }
  }

  lemma {:induction false} DoneForTwice(s: State, js: seq<Job>, m: nat, n: nat, r: nat)
    requires m < n < |js| && BelongsTo(s, js[m], r) && BelongsTo(s, js[n], r)
    ensures DoneFor(s, js, r) > 1
  {
    if m == 0 {
      DoneForHas(s, js[1..], n - 1, r);
    } else {
      DoneForTwice(s, js[1..], m - 1, n - 1, r);
    }
  }

  /** The done callback runs at most once for a request, only after its purge state was claimed
      and only with a complete object. */
  lemma AtMostOnceDelivery(states: seq<State>, actions: seq<Action>, i: nat, m: nat, n: nat)
    requires RunFromStart(states, actions) && i < |states| && m < n < |states[i].delivered|
    ensures var s := states[i]; var x, y := s.delivered[m], s.delivered[n];
            && Shaped(s) && Genuine(s, x) && Genuine(s, y)
            && s.table[x.data].request != s.table[y.data].request
  {
    RunInv(states, actions, i);
    var s := states[i];
    var x, y := s.delivered[m], s.delivered[n];
    assert Genuine(s, x) && Genuine(s, y);
    var r := s.table[x.data].request;
    assert Once(s, r);
    if s.table[y.data].request == r {
      DoneForTwice(s, s.delivered, m, n, r);
    }
  }

  /** A delivered object is whole, is what was read for that copy, and its request was claimed. */
  lemma DeliveredIsComplete(states: seq<State>, actions: seq<Action>, i: nat, m: nat)
    requires RunFromStart(states, actions) && i < |states| && m < |states[i].delivered|
    ensures var s := states[i]; var x := s.delivered[m];
            && Shaped(s) && Genuine(s, x) && IsPurged(s, x) && Full(BodyOf(s, x))
            && var b := BodyOf(s, x);
               b.start <= |b.buffer| && b.buffer[b.start..] == Received(states, actions, i, x) <= b.stream
  {
    RunInv(states, actions, i);
    Reassembled(states, actions, i, states[i].delivered[m]);
    var s := states[i];
    var x := s.delivered[m];
    assert Genuine(s, x);
    assert Once(s, s.table[x.data].request);
    DoneForHas(s, s.delivered, m, s.table[x.data].request);
  }

  /** Exactly one claim is ever made for a request. */
  lemma SingleClaim(states: seq<State>, actions: seq<Action>, i: nat, k: nat, r: nat)
    requires RunFromStart(states, actions) && i < |actions| && k < |actions|
    requires Claims(states[i], actions[i], r) && Claims(states[k], actions[k], r)
    ensures i == k
  {
    if i != k {
      var lo, hi := if i < k then i else k, if i < k then k else i;
      assert Claims(states[lo], actions[lo], r) && Claims(states[hi], actions[hi], r);
      ClaimedRequest(states[lo], actions[lo], r);
      ClaimedRequest(states[hi], actions[hi], r);
      DeliveryStep(states[lo], actions[lo], r);
      forall m | lo + 1 <= m < hi
        ensures Marked(states[m], r) ==> Marked(states[m + 1], r)
      {
        MarkedNext(states, actions, m, r);
      }
      MarkedStays(states, lo + 1, hi, r);
    }
  }

  lemma ClaimedRequest(s: State, a: Action, r: nat)
    requires Claims(s, a, r)
    ensures r < |s.purged| && !s.purged[r]
  {
    assert HandOk(s, s.hands[a.t]);
  }

  // ----- after the claim -----

  /** The thread works on `j` for stage `k` and has yet to test its purge state before passing it on. */
  predicate Handles(h: Hand, j: Job, k: nat) {
    || h == Checking(k, j)
    || h == Sending(k, j)
    || h == Firing(k, j)
    || (k == RESPONSE && (h == Reading(j) || h == Leaving(j, true) || h == Leaving(j, false)))
  }

  ghost predicate AtStage(s: State, j: Job, k: nat)
    requires Shaped(s) && k < 3
  {
    || j in JobsIn(s.queues[k])
    || j in s.pending[k]
    || exists t :: 0 <= t < |s.hands| && Handles(s.hands[t], j, k)
  }

  /** Another copy has claimed completion, and `j` is at stage `k` or gone. */
  ghost predicate Halted(s: State, j: Job, k: nat)
    requires k < 3
  {
    Shaped(s) && Genuine(s, j) && IsPurged(s, j) && (AtStage(s, j, k) || j in s.dropped)
  }

  lemma DroppedStays(s: State, a: Action, j: Job)
    requires Possible(s, a) && j in s.dropped
    ensures j in Do(s, a).dropped
  {
  }

  lemma HandledStays(s: State, a: Action, j: Job, k: nat, t: nat)
    requires Possible(s, a) && k < 3 && t < |s.hands| && Handles(s.hands[t], j, k)
    requires Genuine(s, j) && IsPurged(s, j) && Shaped(Do(s, a))
    ensures AtStage(Do(s, a), j, k) || j in Do(s, a).dropped
  {
    var s' := Do(s, a);
    if Handles(s'.hands[t], j, k) {
      assert AtStage(s', j, k);
    } else {
      assert a.t == t;
    }
  }

  lemma PendingStays(s: State, a: Action, j: Job, k: nat)
    requires Possible(s, a) && k < 3 && j in s.pending[k] && Shaped(Do(s, a))
    ensures AtStage(Do(s, a), j, k) || j in Do(s, a).dropped
  {
    var s' := Do(s, a);
    if j !in s'.pending[k] {
      assert a.Fire? && a.stage == k && a.job == j;
      if a.ok {
        assert Handles(s'.hands[a.t], j, k);
      }
    }
  }

  lemma DequeuedStays(s: State, a: Action, j: Job, k: nat)
    requires Possible(s, a) && a.Dequeue? && a.stage == k && j in JobsIn(s.queues[k]) && Shaped(Do(s, a))
    ensures AtStage(Do(s, a), j, k)
  {
    JobsInPop(s.queues[k], a.prio, j);
    if s.queues[k][a.prio][0] == j {
      assert Handles(Do(s, a).hands[a.t], j, k);
    }
  }

  lemma EnqueuedStays(s: State, a: Action, j: Job, k: nat)
    requires Possible(s, a) && a.Step? && k < 3 && j in JobsIn(s.queues[k])
    requires s.hands[a.t].Spreading? || s.hands[a.t].Passing?
    ensures j in JobsIn(Do(s, a).queues[k])
  {
    var h := s.hands[a.t];
    assert HandOk(s, h);
    JobsInAppend(s.queues[k], if h.Passing? then h.job else NextCopy(s, h), j);
  }

  lemma QueuedStays(s: State, a: Action, j: Job, k: nat)
    requires Possible(s, a) && k < 3 && j in JobsIn(s.queues[k]) && Shaped(Do(s, a))
    ensures AtStage(Do(s, a), j, k) || j in Do(s, a).dropped
  {
    var s', h := Do(s, a), s.hands[a.t];
    if a.Dequeue? && a.stage == k {
      DequeuedStays(s, a, j, k);
    } else if a.Step? && (h.Spreading? || h.Passing?) {
      EnqueuedStays(s, a, j, k);
    } else if !(a.Step? && h.Purging? && h.stage == k) {
      assert s'.queues[k] == s.queues[k];
    }
  }

  lemma HaltedKept(s: State, a: Action, j: Job, k: nat)
    requires Inv(s) && Possible(s, a) && k < 3 && Halted(s, j, k)
    ensures Halted(Do(s, a), j, k)
  {
    ShapedKept(s, a);
    DeliveryStep(s, a, s.table[j.data].request);
    if j in s.dropped {
      DroppedStays(s, a, j);
    } else if j in s.pending[k] {
      PendingStays(s, a, j, k);
    } else if j in JobsIn(s.queues[k]) {
      QueuedStays(s, a, j, k);
    } else {
      var t: nat :| t < |s.hands| && Handles(s.hands[t], j, k);
      HandledStays(s, a, j, k, t);
    }
  }

  lemma HaltedNext(states: seq<State>, actions: seq<Action>, n: nat, j: Job, k: nat)
    requires RunFromStart(states, actions) && n < |actions| && k < 3
    ensures Halted(states[n], j, k) ==> Halted(states[n + 1], j, k)
  {
    if Halted(states[n], j, k) {
      RunInv(states, actions, n);
      HaltedKept(states[n], actions[n], j, k);
    }
  }

  lemma {:induction false} HaltedStays(states: seq<State>, i: nat, n: nat, j: Job, k: nat)
    requires i <= n < |states| && k < 3 && Halted(states[i], j, k)
    requires forall m :: i <= m < n ==> Halted(states[m], j, k) ==> Halted(states[m + 1], j, k)
    ensures Halted(states[n], j, k)
  {
    if i < n {
      HaltedStays(states, i, n - 1, j, k);
    }
  }

  /** A copy whose purge check comes after the claim never advances: from then on it is at the
      stage where the claim found it, or dropped. */
  lemma NoAdvanceAfterClaim(states: seq<State>, actions: seq<Action>, i: nat, n: nat, j: Job, k: nat)
    requires RunFromStart(states, actions) && i <= n < |states| && k < 3 && Halted(states[i], j, k)
    ensures Halted(states[n], j, k)
  {
    forall m | i <= m < n
      ensures Halted(states[m], j, k) ==> Halted(states[m + 1], j, k)
    {
      HaltedNext(states, actions, m, j, k);
    }
    HaltedStays(states, i, n, j, k);
  }

  lemma HaltedAlone(s: State, j: Job, k: nat)
    requires Inv(s) && k < 3 && Halted(s, j, k)
    ensures j !in s.delivered
    ensures forall q :: 0 <= q < 3 && q != k ==> j !in JobsIn(s.queues[q])
  {
    assert Places(s, j) == One(Genuine(s, j));
    if !(j in s.dropped || j in s.pending[k] || j in JobsIn(s.queues[k])) {
      var t: nat :| t < |s.hands| && Handles(s.hands[t], j, k);
      InHandsHas(s.hands, t, j);
    }
    assert multiset(s.delivered)[j] == 0;
  }

  /** So a halted copy is never delivered, nor found in the queue of another stage. */
  lemma HaltedNeverDelivered(states: seq<State>, actions: seq<Action>, i: nat, n: nat, j: Job, k: nat)
    requires RunFromStart(states, actions) && i <= n < |states| && k < 3 && Halted(states[i], j, k)
    ensures |states[n].queues| == 3 && j !in states[n].delivered
    ensures forall q :: 0 <= q < 3 && q != k ==> j !in JobsIn(states[n].queues[q])
  {
    NoAdvanceAfterClaim(states, actions, i, n, j, k);
    RunInv(states, actions, n);
    HaltedAlone(states[n], j, k);
  }

  lemma {:induction false} InHandsFound(hands: seq<Hand>, x: Job) returns (t: nat)
    requires InHands(hands, x) > 0
    ensures t < |hands| && JobOf(hands[t]) == Some(x)
  {
    if JobOf(hands[0]) == Some(x) {
      t := 0;
    } else {
      t := InHandsFound(hands[1..], x);
      t := t + 1;
    }
  }

  /** Once a request is claimed, each of its copies is halted, or is the one being delivered, or had
      passed its check before the claim and is on its way into the next queue. */
  lemma ClaimHalts(states: seq<State>, actions: seq<Action>, i: nat, j: Job)
    requires RunFromStart(states, actions) && i < |states| && j in states[i].made
    ensures var s := states[i];
            && Shaped(s) && Genuine(s, j)
            && (IsPurged(s, j) ==>
                  || Halted(s, j, CONNECT) || Halted(s, j, REQUEST) || Halted(s, j, RESPONSE)
                  || j in s.delivered
                  || exists t :: 0 <= t < |s.hands| && (s.hands[t] == Claimed(j) || (s.hands[t].Passing? && s.hands[t].job == j)))
  {
    RunInv(states, actions, i);
    CopyInOnePlace(states, actions, i, j);
    if IsPurged(states[i], j) {
      Whereabouts(states[i], j);
    }
  }

  lemma Whereabouts(s: State, j: Job)
    requires Inv(s) && Genuine(s, j) && IsPurged(s, j)
    ensures || Halted(s, j, CONNECT) || Halted(s, j, REQUEST) || Halted(s, j, RESPONSE)
            || j in s.delivered
            || exists t :: 0 <= t < |s.hands| && (s.hands[t] == Claimed(j) || (s.hands[t].Passing? && s.hands[t].job == j))
  {
    assert Places(s, j) == One(Genuine(s, j));
    if InHands(s.hands, j) > 0 {
      var t := InHandsFound(s.hands, j);
      assert HandOk(s, s.hands[t]);
      var h := s.hands[t];
      assert h.Claimed? || h.Passing? || Handles(h, j, if h.Checking? || h.Sending? || h.Firing? then h.stage else RESPONSE);
    }
  }

  // ----- reassembly -----

  predicate Feeds(s: State, a: Action, j: Job) {
    Possible(s, a) && a.Net? && a.event.Offer? && s.hands[a.t].job == j
  }

  /** Everything the reads for the copy `j` returned in the first `i` steps, whichever threads made
      them. */
  ghost function Received(states: seq<State>, actions: seq<Action>, i: nat, j: Job): seq<int>
    requires Run(states, actions) && i < |states|
  {
    if i == 0 then []
    else if Feeds(states[i - 1], actions[i - 1], j) then
      Received(states, actions, i - 1, j) + Got(BodyOf(states[i - 1], j), actions[i - 1].event.count)
    else Received(states, actions, i - 1, j)
  }

  /** The part of the buffer from the start index to the index holds `read`, which is a prefix of
      what the server sends; the index is within the buffer, and the rest of it is untouched. */
  ghost predicate Holding(b: Body, read: seq<int>)
    requires b.Body?
  {
    && b.start <= b.index <= |b.buffer| && b.pos <= |b.stream|
    && b.index - b.start == b.pos && b.buffer[b.start..b.index] == read == b.stream[..b.pos]
    && forall i :: 0 <= i < b.start || b.index <= i < |b.buffer| ==> b.buffer[i] == 0
  }

  ghost predicate Holds(s: State, j: Job, read: seq<int>)
    requires Shaped(s)
  {
    if Genuine(s, j) && BodyOf(s, j).Body? then Holding(BodyOf(s, j), read) else read == []
  }

  /** A read writes the next bytes of the stream at the index and nothing anywhere else. */
  lemma FilledHolds(b: Body, count: nat, read: seq<int>)
    requires b.Body? && Holding(b, read)
    ensures Holding(Filled(b, Got(b, count)), read + Got(b, count))
  {
    var bytes := Got(b, count);
    var c := Filled(b, bytes);
    assert bytes == b.stream[b.pos..b.pos + |bytes|];
    assert c.stream[..c.pos] == b.stream[..b.pos] + bytes;
    assert c.buffer[c.start..c.index] == b.buffer[b.start..b.index] + bytes;
  }

  lemma HoldsKept(s: State, a: Action, j: Job, read: seq<int>)
    requires Shaped(s) && Possible(s, a) && Holds(s, j, read)
    ensures Shaped(Do(s, a))
    ensures Holds(Do(s, a), j, if Feeds(s, a, j) then read + Got(BodyOf(s, j), a.event.count) else read)
  {
    ShapedKept(s, a);
    assert HandOk(s, s.hands[a.t]);
    if Genuine(s, j) {
      if a.Net? && s.hands[a.t].job == j {
        FedHolds(s, a, j, read);
      } else {
        BodyKept(s, a, j);
      }
    }
  }

  lemma FedHolds(s: State, a: Action, j: Job, read: seq<int>)
    requires Shaped(s) && Possible(s, a) && Holds(s, j, read) && Genuine(s, j) && Shaped(Do(s, a))
    requires a.Net? && s.hands[a.t].job == j
    ensures Holds(Do(s, a), j, if Feeds(s, a, j) then read + Got(BodyOf(s, j), a.event.count) else read)
  {
    match a.event
    case Offer(count) => FilledHolds(BodyOf(s, j), count, read);
    case Header(start, size, stream) => assert BodyOf(Do(s, a), j) == Body(stream, 0, start, seq(size, _ => 0), start);
    case Stop(_) =>
  }

  /** Over any interleaving, split into short reads and number of trips through the queue, the buffer
      of a copy holds the bytes read for it at their places and nothing else, they are the first
      bytes its server sent, and the index never passes the end. */
  lemma {:induction false} Reassembled(states: seq<State>, actions: seq<Action>, i: nat, j: Job)
    requires RunFromStart(states, actions) && i < |states|
    ensures Shaped(states[i]) && Holds(states[i], j, Received(states, actions, i, j))
  {
    RunInv(states, actions, i);
    if i > 0 {
      Reassembled(states, actions, i - 1, j);
      HoldsKept(states[i - 1], actions[i - 1], j, Received(states, actions, i - 1, j));
    }
  }
}
