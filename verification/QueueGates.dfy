/** The gate as an exact semaphore: without purges and releases, and below the last priority,
    open gate plus dequeuers past it is one for a non-empty queue and zero for an empty one,
    for any number of dequeuers. */
module QueueGates {
  import opened Jobs
  import opened QueueSteps
  import opened QueueInvariant
  import opened QueueData
  import opened QueueRuns
  import opened QueueWakeup

  /** Only Enqueue, Dequeue and decisions that release nothing. */
  predicate PlainCall(c: Call) {
    c.Enqueue? || c.Dequeue? || c == Decide(false)
  }

  predicate PlainPc(pc: Pc) {
    match pc
    case PLock(_) | PErase(_) | PDone(_, _) | QLock | QSet | QGates(_) => false
    case OLock(_, _) | OQueue(_, _) | OTest(_, _) | OGate(_, _) | DRelease(_) => false
    case TLock(r) => !r
    case TDecide(r) => !r
    case _ => true
  }

  ghost predicate Plain(s: State) {
    && Shaped(s) && !s.released
    && (forall t <- s.pcs :: PlainPc(s.pcs[t]))
    && (forall p :: 0 <= p < |s.flags| ==> !s.flags[p])
  }

  ghost function Servers(s: State, p: nat): set<Tid>
    requires p < |s.queues|
  {
    set t | t in s.pcs && Serves(s, t, p)
  }

  ghost predicate Exact(s: State, p: nat)
    requires Shaped(s) && p < |s.queues|
  {
    One(s.gates[p]) + |Servers(s, p)| == One(s.queues[p] != [])
  }

  lemma PlainEffect(s: State, t: Tid)
    requires Plain(s) && t in s.pcs
    ensures PlainPc(Target(s, t)) && !Effect(s, t).released
    ensures forall p :: 0 <= p < |s.flags| ==> !Effect(s, t).flags[p]
  {
    assert PlainPc(s.pcs[t]);
  }

  lemma PlainNext(s: State, t: Tid)
    requires Plain(s) && t in s.pcs && Shaped(Next(s, t))
    ensures Plain(Next(s, t))
  {
    PlainEffect(s, t);
    var e, pc := Effect(s, t), Target(s, t);
    assert e.pcs == s.pcs && |e.flags| == |s.flags|;
    var s' := Move(e, t, pc);
    assert s'.flags == e.flags && s'.released == e.released;
  }

  lemma ServesSame(s: State, t: Tid, u: Tid, p: nat)
    requires Locks(s) && t in s.pcs && u in s.pcs && t != u && p < |s.queues|
    ensures Serves(Next(s, t), u, p) <==> Serves(s, u, p)
  {
    assert Next(s, t).pcs[u] == s.pcs[u] && Next(s, t).queues == Effect(s, t).queues;
    if QueueHeld(s.pcs[u]) == Some(p) && HoldsShared(s.pcs[u]) {
      QueueFrozen(s, t, u, p);
    }
  }

  /** The token a thread holds or hands on changes only with the first insert and the last pop. */
  lemma TokenStep(s: State, t: Tid, p: nat)
    requires Plain(s) && t in s.pcs && Enabled(s, t) && p < |s.queues|
    requires Serves(s, t, p) ==> s.queues[p] != [] && !s.gates[p]
    requires s.gates[p] ==> s.queues[p] != []
    ensures var s' := Next(s, t);
            One(s'.gates[p]) + One(Serves(s', t, p)) + One(s.queues[p] != []) ==
            One(s.gates[p]) + One(Serves(s, t, p)) + One(s'.queues[p] != [])
  {
  }

  lemma CardinalityWithout<T>(a: set<T>, x: T)
    ensures |a| == |a - {x}| + One(x in a)
  {
    if x in a {
      assert a == (a - {x}) + {x};
    } else {
      assert a == a - {x};
    }
  }

  lemma ExactNext(s: State, t: Tid, p: nat)
    requires Locks(s) && Plain(s) && t in s.pcs && Enabled(s, t) && p < |s.queues| && Exact(s, p)
    requires Shaped(Next(s, t))
    ensures Exact(Next(s, t), p)
  {
    var s' := Next(s, t);
    CardinalityWithout(Servers(s, p), t);
    CardinalityWithout(Servers(s', p), t);
    forall u
      ensures u in Servers(s', p) - {t} <==> u in Servers(s, p) - {t}
    {
      if u in s.pcs && u != t {
        ServesSame(s, t, u, p);
      }
    }
    assert Servers(s', p) - {t} == Servers(s, p) - {t};
    TokenStep(s, t, p);
  }

  lemma ExactBegin(s: State, t: Tid, c: Call, p: nat)
    requires Plain(s) && Possible(s, Begin(t, c)) && PlainCall(c) && p < |s.queues| && Exact(s, p)
    requires Shaped(Do(s, Begin(t, c)))
    ensures Plain(Do(s, Begin(t, c))) && Exact(Do(s, Begin(t, c)), p)
  {
    var s' := Do(s, Begin(t, c));
    assert forall u <- s.pcs :: Serves(s', u, p) == Serves(s, u, p);
    assert Servers(s', p) == Servers(s, p);
  }

  lemma ExactKept(s: State, a: Action, p: nat)
    requires Inv(s) && Plain(s) && Possible(s, a) && !PopsEmpty(s, a) && p < |s.queues| && Exact(s, p)
    requires a.Begin? ==> PlainCall(a.call)
    ensures Plain(Do(s, a)) && |Do(s, a).queues| == |s.queues| && Exact(Do(s, a), p)
  {
    InvKept(s, a);
    match a
    case Begin(t, c) => ExactBegin(s, t, c, p);
    case Take(t) =>
      PlainNext(s, t);
      ExactNext(s, t, p);
  }

  lemma ExactInit(maxPrio: nat, threads: set<Tid>, p: nat)
    requires p < maxPrio
    ensures Inv(Init(maxPrio, threads)) && Plain(Init(maxPrio, threads)) && Exact(Init(maxPrio, threads), p)
  {
    InvInit(maxPrio, threads);
    assert Servers(Init(maxPrio, threads), p) == {};
  }

  ghost predicate PlainRun(states: seq<State>, actions: seq<Action>, maxPrio: nat, threads: set<Tid>) {
    && Run(states, actions) && states[0] == Init(maxPrio, threads)
    && forall i :: 0 <= i < |actions| && actions[i].Begin? ==> PlainCall(actions[i].call)
  }

  /** The semaphore law over whole runs. */
  lemma {:induction false} ExactGate(states: seq<State>, actions: seq<Action>, maxPrio: nat, threads: set<Tid>, p: nat, k: nat)
    requires PlainRun(states, actions, maxPrio, threads) && Inv(states[0]) && Clean(states, actions)
    requires p < maxPrio && k <= |actions|
    ensures Plain(states[k]) && |states[k].queues| == maxPrio + 1 && Exact(states[k], p)
  {
    if k == 0 {
      ExactInit(maxPrio, threads, p);
    } else {
      ExactGate(states, actions, maxPrio, threads, p, k - 1);
      CleanInv(states, actions, k - 1);
      ExactKept(states[k - 1], actions[k - 1], p);
    }
  }

  /** Between critical sections the servers are exactly the dequeuers past the gate. */
  lemma ServersAreDequeuers(s: State, p: nat, t: Tid)
    requires Inv(s) && Plain(s) && p < |s.queues| && s.queueLocks[p].None? && t in s.pcs
    ensures t in Servers(s, p) <==>
            s.pcs[t] in {DFlag(p), DShared(p), DTest(p), DRetest(p), DQueue(p)}
  {
    assert LockView(s, t);
  }

  /** The dequeuers past the gate of `p` and before its queue lock. */
  ghost function PastGate(s: State, p: nat): set<Tid> {
    set t | t in s.pcs && s.pcs[t] in {DFlag(p), DShared(p), DTest(p), DRetest(p), DQueue(p)}
  }

  /** So while nobody holds the queue lock, open gate plus dequeuers past it is exactly one on a
      non-empty queue and zero on an empty one. */
  lemma ExactDequeuers(states: seq<State>, actions: seq<Action>, maxPrio: nat, threads: set<Tid>, p: nat, k: nat)
    requires PlainRun(states, actions, maxPrio, threads) && Clean(states, actions) && p < maxPrio && k <= |actions|
    ensures Plain(states[k]) && |states[k].queues| == maxPrio + 1
    ensures states[k].queueLocks[p].None? ==>
              One(states[k].gates[p]) + |PastGate(states[k], p)| == One(states[k].queues[p] != [])
  {
    ExactGate(states, actions, maxPrio, threads, p, k);
    CleanInv(states, actions, k);
    var s := states[k];
    if s.queueLocks[p].None? {
      forall t
        ensures t in Servers(s, p) <==> t in PastGate(s, p)
      {
        if t in s.pcs {
          ServersAreDequeuers(s, p, t);
        }
      }
      assert Servers(s, p) == PastGate(s, p);
    }
  }

  /** So no thread ever pops an empty list below the last priority, however many dequeue. */
  lemma NoEmptyPop(states: seq<State>, actions: seq<Action>, maxPrio: nat, threads: set<Tid>, k: nat)
    requires PlainRun(states, actions, maxPrio, threads) && k < |actions|
    requires actions[k].Take? && states[k].pcs[actions[k].t].DPop?
    requires states[k].pcs[actions[k].t].prio < maxPrio
    ensures states[k].queues[states[k].pcs[actions[k].t].prio] != []
  {
    var p := states[k].pcs[actions[k].t].prio;
    ExactInit(maxPrio, threads, p);
    assert Possible(states[k], actions[k]);
    assert Clean(states[..k + 1], actions[..k]);
    assert PlainRun(states[..k + 1], actions[..k], maxPrio, threads);
    ExactGate(states[..k + 1], actions[..k], maxPrio, threads, p, k);
    assert actions[k].t in Servers(states[k], p);
  }
}
