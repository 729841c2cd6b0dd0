/** Shutdown: once ReleaseQueues has run, an empty queue goes on letting dequeuers through to return
    null, for as long as nothing is inserted into it and no single release is asked for. */
module QueueRelease {
  import opened Jobs
  import opened QueueSteps
  import opened QueueData
  import opened QueueRuns
  import opened QueueWakeup
  import opened QueueAlone
  import opened QueueCalls

  /** A dequeuer past the gate of a released, empty queue, on its way to reopen it. */
  predicate Returning(pc: Pc, p: nat) {
    pc == DFlag(p) || pc == DShared(p) || pc == DTest(p) || pc == DRelease(p)
  }

  /** Released and empty, with the gate open or a dequeuer about to reopen it. */
  ghost predicate Drained(s: State, p: nat) {
    && Shaped(s) && p < |s.queues| && s.released && s.queues[p] == [] && !s.flags[p]
    && (s.gates[p] || exists t :: t in s.pcs && Returning(s.pcs[t], p))
  }

  /** The step inserts at `p`, or flags it for a single release. */
  predicate Stirs(s: State, a: Action, p: nat)
    requires Possible(s, a)
  {
    a.Take? && ((s.pcs[a.t].EInsert? && s.pcs[a.t].job.prio == p) || (s.pcs[a.t].OTest? && s.pcs[a.t].prio == p))
  }

  lemma StaysEmpty(s: State, t: Tid, p: nat)
    requires Inv(s) && Possible(s, Take(t)) && p < |s.queues| && s.queues[p] == []
    ensures Next(s, t).queues[p] == [] <==> !(s.pcs[t].EInsert? && s.pcs[t].job.prio == p)
  {
    if s.pcs[t].PErase? {
      PurgeAddsNothing(s, t, p);
    } else if Effect(s, t).queues[p] != [] {
      FirstInsert(s, t, p);
    }
  }

  lemma StaysReleased(s: State, t: Tid)
    requires Shaped(s) && t in s.pcs && s.released
    ensures Effect(s, t).released
  {
  }

  lemma FlagsAt(s: State, t: Tid, p: nat)
    requires Shaped(s) && t in s.pcs && p < |s.queues| && !s.flags[p] && s.queues[p] == []
    ensures Effect(s, t).flags[p] <==> s.pcs[t].OTest? && s.pcs[t].prio == p
  {
    if Effect(s, t).flags[p] {
      FlagSetBy(s, t, p);
    }
  }

  lemma ReturningStep(s: State, t: Tid, p: nat)
    requires Shaped(s) && t in s.pcs && p < |s.queues| && s.released && s.queues[p] == [] && !s.flags[p]
    requires Returning(s.pcs[t], p)
    ensures Effect(s, t).gates[p] || Returning(Target(s, t), p)
  {
  }

  lemma StillOpen(s: State, t: Tid, p: nat)
    requires Inv(s) && Possible(s, Take(t)) && Drained(s, p)
    ensures Next(s, t).gates[p] || exists u :: u in Next(s, t).pcs && Returning(Next(s, t).pcs[u], p)
  {
    var s' := Next(s, t);
    if s.gates[p] {
      GateStaysOpen(s, t, p);
      assert s.pcs[t] == DGate(p) ==> s'.pcs[t] == DFlag(p);
    } else {
      var u :| u in s.pcs && Returning(s.pcs[u], p);
      if u == t {
        ReturningStep(s, t, p);
        assert s'.pcs[t] == Target(s, t);
      } else {
        assert s'.pcs[u] == s.pcs[u];
      }
    }
  }

  lemma DrainedTake(s: State, t: Tid, p: nat)
    requires Inv(s) && Possible(s, Take(t)) && Drained(s, p) && Shaped(Next(s, t))
    ensures Drained(Next(s, t), p) <==> !Stirs(s, Take(t), p)
  {
    StaysEmpty(s, t, p);
    StaysReleased(s, t);
    FlagsAt(s, t, p);
    StillOpen(s, t, p);
    var e, s' := Effect(s, t), Next(s, t);
    assert s'.flags == e.flags && s'.released == e.released && s'.queues == e.queues;
  }

  lemma DrainedBegin(s: State, t: Tid, c: Call, p: nat)
    requires Possible(s, Begin(t, c)) && Drained(s, p) && Shaped(Do(s, Begin(t, c)))
    ensures Drained(Do(s, Begin(t, c)), p)
  {
    var s' := Do(s, Begin(t, c));
    if !s.gates[p] {
      var u :| u in s.pcs && Returning(s.pcs[u], p);
      assert s'.pcs[u] == s.pcs[u];
    }
  }

  /** A drained queue stays drained through every step but an insert and a single release. */
  lemma DrainedExactly(s: State, a: Action, p: nat)
    requires Inv(s) && Possible(s, a) && !PopsEmpty(s, a) && Drained(s, p)
    ensures Drained(Do(s, a), p) <==> !Stirs(s, a, p)
  {
    InvKept(s, a);
    match a
    case Begin(t, c) => DrainedBegin(s, t, c, p);
    case Take(t) => DrainedTake(s, t, p);
  }

  lemma DrainedNext(states: seq<State>, actions: seq<Action>, p: nat, m: nat)
    requires Clean(states, actions) && m < |actions| && Possible(states[m], actions[m])
    ensures Drained(states[m], p) ==> (Drained(states[m + 1], p) <==> !Stirs(states[m], actions[m], p))
  {
    if Drained(states[m], p) {
      CleanInv(states, actions, m);
      DrainedExactly(states[m], actions[m], p);
    }
  }

  lemma {:induction false} DrainedUpTo(states: seq<State>, p: nat, i: nat, k: nat)
    requires i <= k < |states| && Drained(states[i], p)
    requires forall m :: i <= m < k ==> Drained(states[m], p) ==> Drained(states[m + 1], p)
    ensures Drained(states[k], p)
  {
    if i < k {
      DrainedUpTo(states, p, i, k - 1);
    }
  }

  /** Over whole runs, with any number of dequeuers: no dequeuer of a drained queue is left at a
      closed gate with nobody to open it. */
  lemma StaysDrained(states: seq<State>, actions: seq<Action>, p: nat, i: nat, k: nat)
    requires Clean(states, actions) && i <= k <= |actions| && Drained(states[i], p)
    requires forall m :: i <= m < k ==> Possible(states[m], actions[m]) && !Stirs(states[m], actions[m], p)
    ensures Drained(states[k], p)
  {
    forall m | i <= m < k
      ensures Drained(states[m], p) ==> Drained(states[m + 1], p)
    {
      DrainedNext(states, actions, p, m);
    }
    DrainedUpTo(states, p, i, k);
  }

  /** And ReleaseQueues, run alone, drains every empty queue without a pending release. */
  lemma ReleaseDrains(s: State, t: Tid) returns (states: seq<State>, actions: seq<Action>)
    requires Inv(s) && t in s.pcs && s.pcs[t].Idle? && s.exclusive.None? && s.shared == {}
    ensures Plays(s, t, ReleaseQueues, states, actions)
    ensures forall p :: 0 <= p < |s.queues| && s.queues[p] == [] && !s.flags[p] ==> Drained(states[|actions|], p)
  {
    states, actions := ReleaseQueuesAlone(s, t);
  }
}
