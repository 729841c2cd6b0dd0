/** No lost wakeup: a job in a queue always has an open gate, or a thread that will pop or
    that will open the gate. */
module QueueWakeup {
  import opened Jobs
  import opened QueueSteps
  import opened QueueInvariant
  import opened QueueData
  import opened QueueRuns

  /** A dequeuer past the gate on its way to the pop, or a thread about to open the gate. */
  predicate Serves(s: State, t: Tid, p: nat)
    requires t in s.pcs && p < |s.queues|
  {
    match s.pcs[t]
    case DFlag(r) => r == p
    case DShared(r) => r == p
    case DTest(r) => r == p
    case DRelease(r) => r == p
    case DRetest(r) => r == p
    case DQueue(r) => r == p
    case DPop(r) => r == p
    case DPopGate(r, _) => r == p && s.queues[p] != []
    case EGate(j, _) => j.prio == p && |s.queues[p]| == 1
    case _ => false
  }

  /** A queue with jobs has its gate open, or a thread that serves it. */
  ghost predicate Served(s: State, p: nat)
    requires Shaped(s) && p < |s.queues|
  {
    s.queues[p] != [] ==> s.gates[p] || exists t :: t in s.pcs && Serves(s, t, p)
  }

  /** The one step that strands a queue: a dequeuer takes a pending release and returns null,
      though there are jobs, the gate it passed is still closed and nobody else serves them. */
  ghost predicate Strands(s: State, a: Action, p: nat)
    requires Possible(s, a) && p < |s.queues|
  {
    && a.Take? && s.pcs[a.t] == DFlag(p) && s.flags[p] && s.queues[p] != [] && !s.gates[p]
    && forall u <- s.pcs :: u != a.t ==> !Serves(s, u, p)
  }

  /** Served, and no release pending on a queue with jobs. */
  ghost predicate Awake(s: State, p: nat)
    requires Shaped(s) && p < |s.queues|
  {
    Served(s, p) && (s.queues[p] != [] ==> !s.flags[p])
  }

  /** The condition on the callers: a release is consumed before the next insert at its
      priority. */
  predicate ReleaseConsumed(s: State, a: Action)
    requires Possible(s, a)
  {
    a.Take? && s.pcs[a.t].EInsert? ==> !s.flags[s.pcs[a.t].job.prio]
  }

  // ----- one step -----

  /** Nobody but the owner of the queue lock inserts or pops, and no purge runs beside it. */
  lemma QueueFrozen(s: State, t: Tid, u: Tid, p: nat)
    requires Locks(s) && t in s.pcs && u in s.pcs && t != u && p < |s.queues|
    requires QueueHeld(s.pcs[u]) == Some(p) && HoldsShared(s.pcs[u])
    ensures Effect(s, t).queues[p] == s.queues[p]
  {
    assert LockView(s, t) && LockView(s, u);
  }

  lemma ServesOther(s: State, t: Tid, u: Tid, p: nat)
    requires Locks(s) && t in s.pcs && u in s.pcs && t != u && p < |s.queues|
    requires Serves(s, u, p) && Next(s, t).queues[p] != []
    ensures Serves(Next(s, t), u, p)
  {
    assert Next(s, t).pcs[u] == s.pcs[u];
    if s.pcs[u].EGate? {
      QueueFrozen(s, t, u, p);
    }
  }

  lemma ServesSelf(s: State, t: Tid, p: nat)
    requires Shaped(s) && t in s.pcs && p < |s.queues|
    requires Serves(s, t, p) && s.queues[p] != [] && Next(s, t).queues[p] != []
    requires !(s.pcs[t] == DFlag(p) && s.flags[p])
    ensures Next(s, t).gates[p] || Serves(Next(s, t), t, p)
  {
  }

  lemma GateStaysOpen(s: State, t: Tid, p: nat)
    requires Shaped(s) && t in s.pcs && p < |s.queues| && s.gates[p]
    ensures Effect(s, t).gates[p] || s.pcs[t] == DGate(p)
  {
  }

  lemma FlagSetBy(s: State, t: Tid, p: nat)
    requires Shaped(s) && t in s.pcs && p < |s.queues| && !s.flags[p] && Effect(s, t).flags[p]
    ensures s.pcs[t].OTest? && s.pcs[t].prio == p && s.queues[p] == []
  {
  }

  lemma FlagStaysClear(s: State, t: Tid, p: nat)
    requires Shaped(s) && t in s.pcs && p < |s.queues| && !s.flags[p]
    requires Effect(s, t).queues[p] != []
    ensures !Effect(s, t).flags[p]
  {
    if Effect(s, t).flags[p] {
      FlagSetBy(s, t, p);
    }
  }

  lemma FirstInsert(s: State, t: Tid, p: nat)
    requires Shaped(s) && t in s.pcs && p < |s.queues| && !s.pcs[t].PErase?
    requires s.queues[p] == [] && Effect(s, t).queues[p] != []
    ensures s.pcs[t].EInsert? && s.pcs[t].job.prio == p && |Effect(s, t).queues[p]| == 1
  {
  }

  lemma PurgeAddsNothing(s: State, t: Tid, p: nat)
    requires Inv(s) && t in s.pcs && p < |s.queues| && s.pcs[t].PErase? && s.queues[p] == []
    ensures Effect(s, t).queues[p] == []
  {
    assert LockView(s, t);
    PurgeAgrees(s, s.pcs[t].id, p);
  }

  lemma ServedAfter(s: State, t: Tid, p: nat)
    requires Inv(s) && t in s.pcs && Possible(s, Take(t)) && p < |s.queues| && Served(s, p)
    requires Shaped(Next(s, t)) && !Strands(s, Take(t), p)
    ensures Served(Next(s, t), p)
  {
    var s' := Next(s, t);
    if s'.queues[p] != [] {
      if s.queues[p] == [] {
        if s.pcs[t].PErase? {
          PurgeAddsNothing(s, t, p);
        } else {
          FirstInsert(s, t, p);
          assert Serves(s', t, p);
        }
      } else if s.gates[p] {
        GateStaysOpen(s, t, p);
        assert s'.gates[p] || Serves(s', t, p);
      } else {
        AnotherServes(s, t, p);
      }
    }
  }

  lemma AnotherServes(s: State, t: Tid, p: nat)
    requires Inv(s) && t in s.pcs && Possible(s, Take(t)) && p < |s.queues| && Served(s, p)
    requires Shaped(Next(s, t)) && !Strands(s, Take(t), p)
    requires s.queues[p] != [] && !s.gates[p] && Next(s, t).queues[p] != []
    ensures Served(Next(s, t), p)
  {
    if u :| u in s.pcs && u != t && Serves(s, u, p) {
      ServesOther(s, t, u, p);
    } else {
      assert Serves(s, t, p);
      ServesSelf(s, t, p);
    }
  }

  lemma StrandsIndeed(s: State, t: Tid, p: nat)
    requires Possible(s, Take(t)) && p < |s.queues| && Strands(s, Take(t), p) && Shaped(Next(s, t))
    ensures !Served(Next(s, t), p)
  {
    var s' := Next(s, t);
    forall u <- s'.pcs
      ensures !Serves(s', u, p)
    {
      assert u != t ==> !Serves(s, u, p);
    }
  }

  lemma ServedBegin(s: State, t: Tid, c: Call, p: nat)
    requires Possible(s, Begin(t, c)) && p < |s.queues| && Served(s, p)
    requires Shaped(Do(s, Begin(t, c)))
    ensures Served(Do(s, Begin(t, c)), p)
  {
    var s' := Do(s, Begin(t, c));
    if s.queues[p] != [] && !s.gates[p] {
      var u :| u in s.pcs && Serves(s, u, p);
      assert u != t;
      assert Serves(s', u, p);
    }
  }

  /** A queue stays served through every step but the one that strands it. */
  lemma ServedExactly(s: State, a: Action, p: nat)
    requires Inv(s) && Possible(s, a) && !PopsEmpty(s, a) && p < |s.queues| && Served(s, p)
    ensures Shaped(Do(s, a)) && |Do(s, a).queues| == |s.queues|
    ensures Served(Do(s, a), p) <==> !Strands(s, a, p)
  {
    InvKept(s, a);
    match a
    case Begin(t, c) => ServedBegin(s, t, c, p);
    case Take(t) =>
      if Strands(s, a, p) {
        StrandsIndeed(s, t, p);
      } else {
        ServedAfter(s, t, p);
      }
  }

  /** While releases are consumed in time, no step strands a queue. */
  lemma AwakeKept(s: State, a: Action, p: nat)
    requires Inv(s) && Possible(s, a) && !PopsEmpty(s, a) && ReleaseConsumed(s, a)
    requires p < |s.queues| && Awake(s, p)
    ensures Shaped(Do(s, a)) && |Do(s, a).queues| == |s.queues| && Awake(Do(s, a), p) && !Strands(s, a, p)
  {
    ServedExactly(s, a, p);
    if a.Take? {
      FlagKept(s, a.t, p);
    }
  }

  lemma FlagKept(s: State, t: Tid, p: nat)
    requires Inv(s) && t in s.pcs && p < |s.queues| && Awake(s, p)
    requires s.pcs[t].EInsert? && s.pcs[t].job.prio == p ==> !s.flags[p]
    ensures Next(s, t).queues[p] != [] ==> !Next(s, t).flags[p]
  {
    if Next(s, t).queues[p] != [] {
      if s.flags[p] && s.pcs[t].PErase? {
        PurgeAddsNothing(s, t, p);
      } else if s.flags[p] {
        FirstInsert(s, t, p);
      } else {
        FlagStaysClear(s, t, p);
      }
    }
  }

  // ----- whole runs -----

  /** Over a clean run a queue that starts served is served in every state if and only if no step
      strands it, whatever the number of dequeuers, purges and releases. */
  lemma ServedThroughout(states: seq<State>, actions: seq<Action>, p: nat)
    requires Clean(states, actions) && p < |states[0].queues| && Served(states[0], p)
    ensures forall k :: 0 <= k < |states| ==> Shaped(states[k]) && p < |states[k].queues|
    ensures (forall k :: 0 <= k < |states| ==> Served(states[k], p)) <==>
            forall i :: 0 <= i < |actions| ==> Possible(states[i], actions[i]) && !Strands(states[i], actions[i], p)
  {
    forall k | 0 <= k < |states|
      ensures Shaped(states[k]) && p < |states[k].queues|
    {
      CleanInv(states, actions, k);
      SameWidth(states, actions, k);
    }
    forall i | 0 <= i < |actions|
      ensures Possible(states[i], actions[i])
      ensures Served(states[i], p) ==> (Served(states[i + 1], p) <==> !Strands(states[i], actions[i], p))
    {
      ServedAt(states, actions, i, p);
    }
    if forall k :: 0 <= k < |states| ==> Served(states[k], p) {
      forall i | 0 <= i < |actions|
        ensures !Strands(states[i], actions[i], p)
      {
        assert Served(states[i], p) && Served(states[i + 1], p);
      }
    }
    if forall i :: 0 <= i < |actions| ==> !Strands(states[i], actions[i], p) {
      forall k | 0 <= k < |states|
        ensures Served(states[k], p)
      {
        ServedUpTo(states, |actions|, p, k);
      }
    }
  }

  lemma ServedAt(states: seq<State>, actions: seq<Action>, i: nat, p: nat)
    requires Clean(states, actions) && i < |actions| && Shaped(states[i]) && p < |states[i].queues|
    requires Shaped(states[i + 1]) && p < |states[i + 1].queues|
    ensures Possible(states[i], actions[i])
    ensures Served(states[i], p) ==> (Served(states[i + 1], p) <==> !Strands(states[i], actions[i], p))
  {
    CleanInv(states, actions, i);
    if Served(states[i], p) {
      ServedExactly(states[i], actions[i], p);
    }
  }

  lemma {:induction false} ServedUpTo(states: seq<State>, n: nat, p: nat, k: nat)
    requires |states| == n + 1 && k <= n
    requires forall i :: 0 <= i <= n ==> Shaped(states[i]) && p < |states[i].queues|
    requires Served(states[0], p) && forall i :: 0 <= i < n ==> Served(states[i], p) ==> Served(states[i + 1], p)
    ensures Served(states[k], p)
  {
    if k > 0 {
      ServedUpTo(states, n, p, k - 1);
    }
  }

  lemma {:induction false} SameWidth(states: seq<State>, actions: seq<Action>, k: nat)
    requires Clean(states, actions) && k < |states|
    ensures |states[k].queues| == |states[0].queues|
  {
    if k > 0 {
      SameWidth(states, actions, k - 1);
      CleanInv(states, actions, k - 1);
      WidthKept(states[k - 1], actions[k - 1]);
    }
  }

  lemma WidthKept(s: State, a: Action)
    requires Possible(s, a)
    ensures |Do(s, a).queues| == |s.queues|
  {
  }

  /** Over every clean run whose releases are consumed in time, with any number of purges and
      of dequeuers, no job is left behind a closed gate with nobody to serve it. */
  lemma {:induction false} NoLostWakeup(states: seq<State>, actions: seq<Action>, p: nat, k: nat)
    requires Clean(states, actions) && k <= |actions|
    requires p < |states[0].queues| && Awake(states[0], p)
    requires forall i :: 0 <= i < |actions| ==> ReleaseConsumed(states[i], actions[i])
    ensures Shaped(states[k]) && p < |states[k].queues| && Awake(states[k], p)
  {
    if k > 0 {
      NoLostWakeup(states, actions, p, k - 1);
      CleanInv(states, actions, k - 1);
      AwakeKept(states[k - 1], actions[k - 1], p);
    }
  }
}
