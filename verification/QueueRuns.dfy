/** Whole runs with one dequeuer per priority: nothing faults, every step refines the
    specification, jobs leave in the order they came, and none is lost. */
module QueueRuns {
  import opened Jobs
  import opened QueueIndex
  import opened QueueSteps
  import opened QueueInvariant
  import opened QueueData
  import opened QueueRefinement

  // ----- one dequeuer per priority -----

  predicate DequeuesAt(pc: Pc, p: nat) {
    match pc
    case DGate(r) => r == p
    case DFlag(r) => r == p
    case DShared(r) => r == p
    case DTest(r) => r == p
    case DRelease(r) => r == p
    case DRetest(r) => r == p
    case DQueue(r) => r == p
    case DPop(r) => r == p
    case DPopGate(r, _) => r == p
    case DIndexLock(r, _) => r == p
    case DIndex(r, _) => r == p
    case _ => false
  }

  /** The caller's side of it: nobody starts a Dequeue while another one of that priority is
      under way. */
  ghost predicate Sole(s: State, a: Action) {
    a.Begin? && a.call.Dequeue? ==> forall t <- s.pcs :: t != a.t ==> !DequeuesAt(s.pcs[t], a.call.prio)
  }

  ghost predicate Unique(pcs: map<Tid, Pc>) {
    forall t, u, p: nat ::
      t in pcs && u in pcs && DequeuesAt(pcs[t], p) && DequeuesAt(pcs[u], p) ==> t == u
  }

  /** Whoever goes for the pop has something to pop. */
  ghost predicate Ready(s: State) {
    Shaped(s) && forall t <- s.pcs :: s.pcs[t].DQueue? || s.pcs[t].DPop? ==> s.queues[s.pcs[t].prio] != []
  }

  ghost predicate SoleInv(s: State) {
    Unique(s.pcs) && Ready(s)
  }

  /** A non-empty queue stays so unless its dequeuer pops or a purge runs. */
  lemma StaysNonEmpty(s: State, t: Tid, p: nat)
    requires Shaped(s) && t in s.pcs && p < |s.queues| && s.queues[p] != []
    requires s.pcs[t] != DPop(p) && !s.pcs[t].PErase?
    ensures Next(s, t).queues[p] != []
  {
  }

  lemma TargetPriority(s: State, t: Tid, p: nat)
    requires Shaped(s) && t in s.pcs && DequeuesAt(Target(s, t), p)
    ensures DequeuesAt(s.pcs[t], p)
  {
  }

  lemma UniqueNext(pcs: map<Tid, Pc>, t: Tid, pc: Pc)
    requires Unique(pcs) && t in pcs
    requires forall p: nat :: DequeuesAt(pc, p) ==> DequeuesAt(pcs[t], p)
    ensures Unique(pcs[t := pc])
  {
  }

  /** Sharing the purge lock keeps a purge away. */
  lemma NoPurgeBeside(s: State, t: Tid, u: Tid)
    requires Locks(s) && t in s.pcs && u in s.pcs && HoldsShared(s.pcs[u])
    ensures !s.pcs[t].PErase?
  {
    assert LockView(s, t) && LockView(s, u);
  }

  lemma ReadySelf(s: State, t: Tid)
    requires Ready(s) && t in s.pcs && (Target(s, t).DQueue? || Target(s, t).DPop?)
    requires s.pcs[t].DPop? ==> s.queues[s.pcs[t].prio] != []
    ensures Next(s, t).queues[Target(s, t).prio] != []
  {
  }

  lemma ReadyOther(s: State, t: Tid, u: Tid)
    requires Locks(s) && SoleInv(s) && t in s.pcs && u in s.pcs && t != u
    requires s.pcs[u].DQueue? || s.pcs[u].DPop?
    ensures Next(s, t).queues[s.pcs[u].prio] != []
  {
    var p := s.pcs[u].prio;
    NoPurgeBeside(s, t, u);
    assert DequeuesAt(s.pcs[u], p) && !DequeuesAt(s.pcs[t], p);
    StaysNonEmpty(s, t, p);
  }

  lemma ReadyNext(s: State, t: Tid)
    requires Locks(s) && SoleInv(s) && t in s.pcs && Enabled(s, t)
    requires Shaped(Next(s, t))
    ensures Ready(Next(s, t))
  {
    var s' := Next(s, t);
    forall u <- s'.pcs | s'.pcs[u].DQueue? || s'.pcs[u].DPop?
      ensures s'.queues[s'.pcs[u].prio] != []
    {
      if u == t {
        ReadySelf(s, t);
      } else {
        ReadyOther(s, t, u);
      }
    }
  }

  lemma SoleNext(s: State, t: Tid)
    requires Inv(s) && SoleInv(s) && t in s.pcs && Enabled(s, t)
    requires Shaped(Next(s, t))
    ensures SoleInv(Next(s, t))
  {
    ReadyNext(s, t);
    forall p: nat | DequeuesAt(Target(s, t), p)
      ensures DequeuesAt(s.pcs[t], p)
    {
      TargetPriority(s, t, p);
    }
    UniqueNext(s.pcs, t, Target(s, t));
  }

  lemma SoleKept(s: State, a: Action)
    requires Inv(s) && SoleInv(s) && Possible(s, a) && Sole(s, a)
    ensures !PopsEmpty(s, a)
    ensures Inv(Do(s, a)) && SoleInv(Do(s, a))
  {
    InvKept(s, a);
    match a
    case Begin(t, c) => SoleBegin(s, t, c);
    case Take(t) => SoleNext(s, t);
  }

  lemma SoleBegin(s: State, t: Tid, c: Call)
    requires SoleInv(s) && Possible(s, Begin(t, c)) && Sole(s, Begin(t, c)) && Shaped(Do(s, Begin(t, c)))
    ensures SoleInv(Do(s, Begin(t, c)))
  {
    var s' := Do(s, Begin(t, c));
    assert s'.pcs == s.pcs[t := Entry0(c)] && s'.queues == s.queues;
  }

  // ----- whole runs -----

  /** A run from a good state that has not faulted. */
  ghost predicate Clean(states: seq<State>, actions: seq<Action>) {
    Run(states, actions) && Inv(states[0]) && states[|actions|].fault == NoFault
  }

  lemma NoEmptyPopWithin(states: seq<State>, actions: seq<Action>, i: nat)
    requires Clean(states, actions) && i < |actions|
    ensures Possible(states[i], actions[i]) && !PopsEmpty(states[i], actions[i])
  {
    assert states[i + 1].fault == NoFault by {
      assert i + 1 < |actions| ==> Possible(states[i + 1], actions[i + 1]);
    }
    EmptyPopFaults(states[i], actions[i]);
  }

  lemma {:induction false} CleanInv(states: seq<State>, actions: seq<Action>, i: nat)
    requires Clean(states, actions) && i <= |actions|
    ensures Inv(states[i])
    ensures i < |actions| ==> !PopsEmpty(states[i], actions[i])
  {
    if i < |actions| {
      NoEmptyPopWithin(states, actions, i);
    }
    if i > 0 {
      CleanInv(states, actions, i - 1);
      InvKept(states[i - 1], actions[i - 1]);
    }
  }

  /** Whatever the callers do, the only fault a run can meet is popping an empty list. */
  lemma {:induction false} LookupsNeverFail(states: seq<State>, actions: seq<Action>)
    requires Run(states, actions) && Inv(states[0])
    ensures states[|actions|].fault != LookupFailed
  {
    if |actions| > 0 {
      var n := |actions| - 1;
      assert Clean(states[..n + 1], actions[..n]);
      CleanInv(states[..n + 1], actions[..n], n);
      EmptyPopFaults(states[n], actions[n]);
      if !PopsEmpty(states[n], actions[n]) {
        InvKept(states[n], actions[n]);
      }
    }
  }

  /** One dequeuer per priority: no run faults. */
  lemma {:induction false} SoleRunsAreClean(states: seq<State>, actions: seq<Action>)
    requires Run(states, actions) && Inv(states[0]) && SoleInv(states[0])
    requires forall i :: 0 <= i < |actions| ==> Sole(states[i], actions[i])
    ensures Clean(states, actions) && SoleInv(states[|actions|])
  {
    if |actions| > 0 {
      var n := |actions| - 1;
      assert Run(states[..n + 1], actions[..n]);
      SoleRunsAreClean(states[..n + 1], actions[..n]);
      CleanInv(states[..n + 1], actions[..n], n);
      SoleKept(states[n], actions[n]);
    }
  }

  lemma SoleInit(maxPrio: nat, threads: set<Tid>)
    ensures Inv(Init(maxPrio, threads)) && SoleInv(Init(maxPrio, threads))
  {
    InvInit(maxPrio, threads);
  }

  /** Every interleaving of a clean run is, step for step, a run of the specification. */
  lemma RunRefines(states: seq<State>, actions: seq<Action>, i: nat)
    requires Clean(states, actions) && i < |actions|
    ensures Keyed(states[i]) && Keyed(states[i + 1]) && !PopsEmpty(states[i], actions[i])
    ensures SpecStep(Abs(states[i]), EventOf(states[i], actions[i]), Abs(states[i + 1]))
  {
    CleanInv(states, actions, i);
    ActionRefines(states[i], actions[i]);
  }

  /** From the constructor, with one dequeuer per priority and any purges and releases: no run
      faults, and every step is a step of the specification. */
  lemma SoleRunRefines(states: seq<State>, actions: seq<Action>, maxPrio: nat, threads: set<Tid>, i: nat)
    requires Run(states, actions) && states[0] == Init(maxPrio, threads) && i < |actions|
    requires forall k :: 0 <= k < |actions| ==> Sole(states[k], actions[k])
    ensures states[|actions|].fault == NoFault
    ensures Keyed(states[i]) && Keyed(states[i + 1]) && !PopsEmpty(states[i], actions[i])
    ensures SpecStep(Abs(states[i]), EventOf(states[i], actions[i]), Abs(states[i + 1]))
  {
    SoleInit(maxPrio, threads);
    SoleRunsAreClean(states, actions);
    RunRefines(states, actions, i);
  }

  // ----- what a Dequeue returns -----

  predicate Delivering(pc: Pc) {
    pc.DPopGate? || pc.DIndexLock? || pc.DIndex?
  }

  ghost predicate DeliveringAt(s: State, t: Tid) {
    t in s.pcs && Delivering(s.pcs[t])
  }

  /** The thread still carries the node it popped. */
  ghost predicate SameNode(s: State, s': State, t: Tid)
    requires DeliveringAt(s, t) && DeliveringAt(s', t)
  {
    s'.pcs[t].node == s.pcs[t].node && s'.pcs[t].prio == s.pcs[t].prio && s.born <= s'.born
  }

  lemma {:induction false} SameNodeChain(states: seq<State>, t: Tid, i: nat, k: nat)
    requires i <= k < |states| && forall m :: i <= m <= k ==> DeliveringAt(states[m], t)
    requires forall m :: i <= m < k ==> SameNode(states[m], states[m + 1], t)
    ensures DeliveringAt(states[i], t) && DeliveringAt(states[k], t) && SameNode(states[i], states[k], t)
  {
    assert DeliveringAt(states[i], t) && DeliveringAt(states[k], t);
    if i < k {
      SameNodeChain(states, t, i, k - 1);
      assert SameNode(states[k - 1], states[k - 1 + 1], t);
    }
  }

  lemma NodeStays(states: seq<State>, actions: seq<Action>, t: Tid, i: nat, k: nat)
    requires Run(states, actions) && i <= k <= |actions|
    requires forall m :: i <= m <= k ==> DeliveringAt(states[m], t)
    ensures DeliveringAt(states[i], t) && DeliveringAt(states[k], t) && SameNode(states[i], states[k], t)
  {
    forall m | i <= m < k
      ensures SameNode(states[m], states[m + 1], t)
    {
      assert DeliveringAt(states[m], t) && DeliveringAt(states[m + 1], t);
      NodeKept(states[m], actions[m], states[m + 1], t);
    }
    SameNodeChain(states, t, i, k);
  }

  lemma BornGrows(s: State, a: Action)
    requires Possible(s, a)
    ensures s.born <= Do(s, a).born
  {
    if a.Take? {
      var e := Effect(s, a.t);
      assert s.born <= e.born && Do(s, a).born == e.born;
    }
  }

  lemma NodeKept(s: State, a: Action, s': State, t: Tid)
    requires Possible(s, a) && s' == Do(s, a) && DeliveringAt(s, t) && DeliveringAt(s', t)
    ensures SameNode(s, s', t)
  {
    BornGrows(s, a);
    if a.t == t {
      assert s'.pcs[t] == Target(s, t);
    } else {
      assert s'.pcs[t] == s.pcs[t];
    }
  }

  /** The job the index yields when a Dequeue gets there. */
  function Found(s: State, t: Tid): Option<Job>
    requires t in s.pcs && s.pcs[t].DIndex?
  {
    var es := ListOf(s.index, s.pcs[t].node.id);
    var i := FirstAt(es, s.pcs[t].prio);
    if i < |es| then Some(es[i].job) else None
  }

  /** A Dequeue that pops at step `i` and reaches the index at state `k` returns exactly the
      job object that was at the front when it popped. */
  lemma ReturnsTheFront(states: seq<State>, actions: seq<Action>, t: Tid, i: nat, k: nat)
    requires Clean(states, actions) && i < k <= |actions|
    requires actions[i] == Take(t) && states[i].pcs[t].DPop?
    requires forall m :: i < m <= k ==> DeliveringAt(states[m], t)
    requires DeliveringAt(states[k], t) && states[k].pcs[t].DIndex?
    ensures Keyed(states[i])
    ensures var p := states[i].pcs[t].prio;
            Abs(states[i])[p] != [] && Found(states[k], t) == Some(Abs(states[i])[p][0])
  {
    RunRefines(states, actions, i);
    assert states[i + 1] == Do(states[i], actions[i]);
    NodeStays(states, actions, t, i + 1, k);
    CleanInv(states, actions, k);
    LookupFinds(states[k], t, states[k].pcs[t].prio, states[k].pcs[t].node);
  }

  // ----- order -----

  /** Keys number the insertions, so larger means inserted later. */
  ghost predicate Above(s: State, p: nat, key: nat) {
    && p < |s.queues| && key < |s.born|
    && forall n <- s.queues[p] :: key < n.key
  }

  lemma AboveKept(s: State, a: Action, p: nat, key: nat)
    requires Inv(s) && Possible(s, a) && Above(s, p, key)
    ensures Above(Do(s, a), p, key)
  {
    if a.Take? && s.pcs[a.t].PErase? {
      assert LockView(s, a.t);
      PurgeAgrees(s, s.pcs[a.t].id, p);
      WithoutIdMembers(s.queues[p], s.pcs[a.t].id);
      assert Do(s, a).queues[p] == WithoutId(s.queues[p], s.pcs[a.t].id);
    } else {
      AboveQuiet(s, a, p, key);
    }
  }

  lemma AboveQuiet(s: State, a: Action, p: nat, key: nat)
    requires Possible(s, a) && Above(s, p, key) && !(a.Take? && s.pcs[a.t].PErase?)
    ensures Above(Do(s, a), p, key)
  {
    match a
    case Begin(t, c) => assert Do(s, a).queues == s.queues && Do(s, a).born == s.born;
    case Take(t) =>
      var e := Effect(s, t);
      assert Do(s, a).queues == e.queues && Do(s, a).born == e.born;
      AboveEffect(s, t, p, key);
  }

  lemma AboveEffect(s: State, t: Tid, p: nat, key: nat)
    requires Shaped(s) && t in s.pcs && Above(s, p, key) && !s.pcs[t].PErase?
    ensures Above(Effect(s, t), p, key)
  {
  }

  lemma {:induction false} StaysAbove(states: seq<State>, actions: seq<Action>, p: nat, key: nat, i: nat, k: nat)
    requires Clean(states, actions) && i <= k <= |actions| && Above(states[i], p, key)
    ensures Above(states[k], p, key)
  {
    if i < k {
      StaysAbove(states, actions, p, key, i, k - 1);
      CleanInv(states, actions, k - 1);
      AboveKept(states[k - 1], actions[k - 1], p, key);
    }
  }

  ghost predicate Pops(states: seq<State>, actions: seq<Action>, i: nat, p: nat)
    requires Run(states, actions)
  {
    i < |actions| && actions[i].Take? && states[i].pcs[actions[i].t] == DPop(p)
  }

  /** Two pops of one priority take jobs in the order in which they were inserted, and never
      the same job twice, whatever is purged in between. */
  lemma FirstInFirstOut(states: seq<State>, actions: seq<Action>, p: nat, i: nat, k: nat)
    requires Clean(states, actions) && i < k
    requires Pops(states, actions, i, p) && Pops(states, actions, k, p)
    ensures p < |states[i].queues| && p < |states[k].queues|
    ensures states[i].queues[p] != [] && states[k].queues[p] != []
    ensures states[i].queues[p][0].key < states[k].queues[p][0].key
  {
    CleanInv(states, actions, i);
    CleanInv(states, actions, k);
    assert LagAt(states[i], p);
    var n := states[i].queues[p][0];
    AfterPop(states[i], actions[i].t, p);
    assert states[i + 1] == Do(states[i], actions[i]);
    StaysAbove(states, actions, p, n.key, i + 1, k);
  }

  lemma AfterPop(s: State, t: Tid, p: nat)
    requires Inv(s) && t in s.pcs && s.pcs[t] == DPop(p) && s.queues[p] != []
    ensures Above(Next(s, t), p, s.queues[p][0].key)
  {
    assert LagAt(s, p);
    var all, k := Popped(s, p) + s.queues[p], |Popped(s, p)|;
    assert all[k] == s.queues[p][0];
    forall n <- s.queues[p][1..]
      ensures s.queues[p][0].key < n.key
    {
      var i :| 0 <= i < |s.queues[p]| - 1 && s.queues[p][1..][i] == n;
      assert all[k + 1 + i] == n;
    }
    assert Next(s, t).queues[p] == s.queues[p][1..] && Next(s, t).born == s.born;
  }

  // ----- nothing lost -----

  /** The step takes node `n` off queue `p`, for a Dequeue or for a Purge of its id. */
  ghost predicate Removes(s: State, a: Action, n: Node, p: nat) {
    && Possible(s, a) && a.Take? && p < |s.queues| && n in s.queues[p]
    && ((s.pcs[a.t] == DPop(p) && s.queues[p][0] == n) || s.pcs[a.t] == PErase(n.id))
  }

  lemma NodeRemains(s: State, a: Action, n: Node, p: nat)
    requires Inv(s) && Possible(s, a) && !PopsEmpty(s, a) && p < |s.queues| && n in s.queues[p]
    requires !Removes(s, a, n, p)
    ensures p < |Do(s, a).queues| && n in Do(s, a).queues[p]
  {
    if a.Take? && s.pcs[a.t].PErase? {
      assert LockView(s, a.t);
      PurgeAgrees(s, s.pcs[a.t].id, p);
      WithoutIdMembers(s.queues[p], s.pcs[a.t].id);
      assert Do(s, a).queues[p] == WithoutId(s.queues[p], s.pcs[a.t].id);
    } else if a.Take? {
      assert Do(s, a).queues == Effect(s, a.t).queues;
      RemainsQuiet(s, a.t, n, p);
    }
  }

  lemma RemainsQuiet(s: State, t: Tid, n: Node, p: nat)
    requires Shaped(s) && t in s.pcs && p < |s.queues| && n in s.queues[p] && !s.pcs[t].PErase?
    requires s.pcs[t] == DPop(p) ==> s.queues[p][0] != n
    ensures n in Effect(s, t).queues[p]
  {
  }

  lemma BornNext(s: State, a: Action)
    requires Possible(s, a)
    ensures Do(s, a).born == s.born ||
            (a.Take? && s.pcs[a.t].EInsert? && Do(s, a).born == s.born + [s.pcs[a.t].job]
             && Node(|s.born|, s.pcs[a.t].job.id) in Do(s, a).queues[s.pcs[a.t].job.prio])
  {
    if a.Take? {
      BornEffect(s, a.t);
      var e := Effect(s, a.t);
      assert Do(s, a).queues == e.queues && Do(s, a).born == e.born;
    }
  }

  lemma BornEffect(s: State, t: Tid)
    requires Shaped(s) && t in s.pcs
    ensures var e := Effect(s, t);
            e.born == s.born ||
            (s.pcs[t].EInsert? && e.born == s.born + [s.pcs[t].job]
             && Node(|s.born|, s.pcs[t].job.id) in e.queues[s.pcs[t].job.prio])
  {
  }

  /** The job numbered `key` is queued under its own node. */
  ghost predicate Queued(s: State, key: nat)
    requires key < |s.born|
  {
    s.born[key].prio < |s.queues| && Node(key, s.born[key].id) in s.queues[s.born[key].prio]
  }

  ghost predicate Removal(s: State, a: Action, key: nat)
  {
    key < |s.born| && Removes(s, a, Node(key, s.born[key].id), s.born[key].prio)
  }

  lemma StepAccounts(s: State, a: Action, key: nat)
    requires Inv(s) && Possible(s, a) && !PopsEmpty(s, a) && key < |s.born| && Queued(s, key)
    ensures key < |Do(s, a).born| && (Queued(Do(s, a), key) || Removal(s, a, key))
  {
    BornGrows(s, a);
    if !Removal(s, a, key) {
      NodeRemains(s, a, Node(key, s.born[key].id), s.born[key].prio);
    }
  }

  lemma NewlyQueued(s: State, a: Action, key: nat)
    requires Possible(s, a) && |s.born| <= key < |Do(s, a).born|
    ensures Queued(Do(s, a), key)
  {
    BornNext(s, a);
  }

  /** The job numbered `key`, if inserted by state `m`, is queued there or was taken off before. */
  ghost predicate Accounted(states: seq<State>, actions: seq<Action>, m: nat, key: nat)
    requires m <= |actions| < |states|
  {
    key < |states[m].born| ==>
      Queued(states[m], key) || exists i :: 0 <= i < m && Removal(states[i], actions[i], key)
  }

  lemma AccountedStep(states: seq<State>, actions: seq<Action>, m: nat, key: nat)
    requires Clean(states, actions) && m < |actions| && Accounted(states, actions, m, key)
    ensures Accounted(states, actions, m + 1, key)
  {
    CleanInv(states, actions, m);
    var s, a := states[m], actions[m];
    BornGrows(s, a);
    if key < |s.born| {
      if Queued(s, key) {
        StepAccounts(s, a, key);
      }
    } else if key < |Do(s, a).born| {
      NewlyQueued(s, a, key);
    }
  }

  /** Every job ever inserted is still queued under its own node, or one step of the run took
      that very node off. */
  lemma {:induction false} NothingLost(states: seq<State>, actions: seq<Action>, m: nat, key: nat)
    requires Clean(states, actions) && states[0].born == [] && m <= |actions|
    ensures key < |states[m].born| ==>
              Queued(states[m], key) || exists i :: 0 <= i < m && Removal(states[i], actions[i], key)
  {
    if m > 0 {
      NothingLost(states, actions, m - 1, key);
      AccountedStep(states, actions, m - 1, key);
    }
  }
}
