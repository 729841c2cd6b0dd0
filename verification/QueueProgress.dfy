/** Lock order: state, purge, queue, index.  A thread parked at a gate holds none of them, so
    the scoped locks never deadlock. */
module QueueProgress {
  import opened Jobs
  import opened QueueSteps
  import opened QueueInvariant

  /** Thread `t` waits for a scoped lock that `u` holds.  Parking at a gate is not counted. */
  predicate BlockedBy(s: State, t: Tid, u: Tid)
    requires Shaped(s) && t in s.pcs
  {
    match s.pcs[t]
    case EShared(_) => s.exclusive == Some(u)
    case DShared(_) => s.exclusive == Some(u)
    case PLock(_) => s.exclusive == Some(u) || u in s.shared
    case QLock => s.exclusive == Some(u) || u in s.shared
    case OLock(_, _) => s.exclusive == Some(u) || u in s.shared
    case EQueue(j) => s.queueLocks[j.prio] == Some(u)
    case DQueue(p) => s.queueLocks[p] == Some(u)
    case OQueue(p, _) => s.queueLocks[p] == Some(u)
    case EIndexLock(_, _) => s.indexLock == Some(u)
    case DIndexLock(_, _) => s.indexLock == Some(u)
    case TLock(_) => s.stateLock == Some(u)
    case _ => false
  }

  /** The rank of the lock a thread is about to take; 5 when it is not taking one. */
  function Rank(pc: Pc): nat {
    match pc
    case TLock(_) => 1
    case EShared(_) | DShared(_) | PLock(_) | QLock | OLock(_, _) => 2
    case EQueue(_) | DQueue(_) | OQueue(_, _) => 3
    case EIndexLock(_, _) | DIndexLock(_, _) => 4
    case _ => 5
  }

  lemma RankRises(s: State, t: Tid, u: Tid)
    requires Locks(s) && t in s.pcs && u in s.pcs && BlockedBy(s, t, u)
    ensures Rank(s.pcs[t]) < Rank(s.pcs[u])
    ensures !s.pcs[u].Idle? && !s.pcs[u].DGate?
  {
    assert LockView(s, u) && LockView(s, t);
  }

  lemma {:induction false} RankAlong(s: State, c: seq<Tid>, k: nat)
    requires Locks(s) && 0 < k < |c| && (forall t <- c :: t in s.pcs)
    requires forall i :: 0 <= i < |c| - 1 ==> BlockedBy(s, c[i], c[i + 1])
    ensures Rank(s.pcs[c[0]]) < Rank(s.pcs[c[k]])
  {
    RankRises(s, c[k - 1], c[k]);
    if k > 1 {
      RankAlong(s, c, k - 1);
    }
  }

  /** Each thread waits for the next, and the last for the first. */
  predicate WaitCycle(s: State, c: seq<Tid>)
    requires Shaped(s) && c != [] && forall t <- c :: t in s.pcs
  {
    (forall i :: 0 <= i < |c| - 1 ==> BlockedBy(s, c[i], c[i + 1])) && BlockedBy(s, c[|c| - 1], c[0])
  }

  /** No reachable state has a cycle of threads each waiting for the next. */
  lemma NoWaitCycle(s: State, c: seq<Tid>)
    requires Locks(s) && c != [] && forall t <- c :: t in s.pcs
    ensures !WaitCycle(s, c)
  {
    if WaitCycle(s, c) {
      if |c| > 1 {
        RankAlong(s, c, |c| - 1);
      }
      RankRises(s, c[|c| - 1], c[0]);
    }
  }

  /** A thread that cannot step is parked at a closed gate, idle, or waits for an owner. */
  lemma Blocker(s: State, t: Tid) returns (u: Tid)
    requires Locks(s) && t in s.pcs && !Enabled(s, t) && !s.pcs[t].Idle? && !s.pcs[t].DGate?
    ensures u in s.pcs && BlockedBy(s, t, u)
  {
    var pc := s.pcs[t];
    if pc.TLock? {
      u := s.stateLock.value;
    } else if pc.EIndexLock? || pc.DIndexLock? {
      u := s.indexLock.value;
    } else if pc.EQueue? {
      u := s.queueLocks[pc.job.prio].value;
    } else if pc.DQueue? || pc.OQueue? {
      u := s.queueLocks[pc.prio].value;
    } else if s.exclusive.Some? {
      u := s.exclusive.value;
    } else {
      u :| u in s.shared;
    }
  }

  /** Whenever some thread is inside a call and not parked at a gate, some such thread can take
      a step: the locks alone never stop everybody. */
  lemma {:induction false} Progress(s: State, t: Tid)
    requires Locks(s) && t in s.pcs && !s.pcs[t].Idle? && !s.pcs[t].DGate?
    ensures exists u :: u in s.pcs && !s.pcs[u].Idle? && !s.pcs[u].DGate? && Enabled(s, u)
    decreases 5 - Rank(s.pcs[t])
  {
    if !Enabled(s, t) {
      var u := Blocker(s, t);
      RankRises(s, t, u);
      Progress(s, u);
    }
  }

  /** Parking holds nothing: not the purge lock, no queue lock, not the index or state lock. */
  lemma ParkedHoldsNothing(s: State, t: Tid)
    requires Locks(s) && t in s.pcs && s.pcs[t].DGate?
    ensures t !in s.shared && s.exclusive != Some(t) && s.indexLock != Some(t) && s.stateLock != Some(t)
    ensures forall p :: 0 <= p < |s.queueLocks| ==> s.queueLocks[p] != Some(t)
    ensures forall u <- s.pcs :: !BlockedBy(s, u, t)
  {
    assert LockView(s, t);
  }

  lemma {:induction false} RunLocks(states: seq<State>, actions: seq<Action>, maxPrio: nat, threads: set<Tid>, k: nat)
    requires Run(states, actions) && states[0] == Init(maxPrio, threads) && k < |states|
    ensures Locks(states[k])
  {
    if k == 0 {
      LocksInit(maxPrio, threads);
    } else {
      RunLocks(states, actions, maxPrio, threads, k - 1);
      LocksKept(states[k - 1], actions[k - 1]);
    }
  }

  /** In every state of every run: no cycle of waiting threads, and unless all threads are idle or
      parked at a gate, one of the others can step. */
  lemma NeverDeadlocks(states: seq<State>, actions: seq<Action>, maxPrio: nat, threads: set<Tid>, k: nat)
    requires Run(states, actions) && states[0] == Init(maxPrio, threads) && k < |states|
    ensures Locks(states[k])
    ensures forall c: seq<Tid> :: c != [] && (forall t <- c :: t in states[k].pcs) ==> !WaitCycle(states[k], c)
    ensures var s := states[k];
            (exists t :: t in s.pcs && !s.pcs[t].Idle? && !s.pcs[t].DGate?) ==>
              exists u :: u in s.pcs && !s.pcs[u].Idle? && !s.pcs[u].DGate? && Enabled(s, u)
  {
    RunLocks(states, actions, maxPrio, threads, k);
    var s := states[k];
    forall c: seq<Tid> | c != [] && (forall t <- c :: t in s.pcs)
      ensures !WaitCycle(s, c)
    {
      NoWaitCycle(s, c);
    }
    if exists t :: t in s.pcs && !s.pcs[t].Idle? && !s.pcs[t].DGate? {
      var t :| t in s.pcs && !s.pcs[t].Idle? && !s.pcs[t].DGate?;
      Progress(s, t);
    }
  }
}
