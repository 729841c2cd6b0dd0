/** MultiQueue under concurrency.  Every thread has a program counter; one step is one
    lock acquisition, one queue change, one index change or one gate change.
    A gate (the "not empty" mutex of a priority, used as a binary semaphore) is open
    when the mutex is unlocked; unlocking an open gate changes nothing. */
module QueueSteps {
  import opened Jobs
  import opened QueueIndex
  import opened Runs

  datatype Call =
    | Enqueue(job: Job)
    | Dequeue(prio: nat)
    | Purge(id: JobId)
    | ReleaseQueues
    | ReleaseOne(prio: nat)
    | Decide(release: bool)  // a throttler decision, which may release the secondary queue

  /** Where a thread is.  The comment says what it is about to do. */
  datatype Pc =
    | Idle
    // Enqueue
    | EShared(job: Job)                // take the purge lock, shared
    | EQueue(job: Job)                 // take the queue lock
    | EInsert(job: Job)                // insert at the back
    | EGate(job: Job, node: Node)      // open the gate if the queue has one node
    | EIndexLock(job: Job, node: Node) // take the index lock, then drop the queue lock
    | EIndex(job: Job, node: Node)     // append to the index, drop the locks, return
    // Dequeue
    | DGate(prio: nat)                 // pass the gate, closing it
    | DFlag(prio: nat)                 // test and clear the release-one flag
    | DShared(prio: nat)               // take the purge lock, shared
    | DTest(prio: nat)                 // empty and released?
    | DRelease(prio: nat)              // yes: reopen the gate, return null
    | DRetest(prio: nat)               // empty? then back to the gate
    | DQueue(prio: nat)                // take the queue lock
    | DPop(prio: nat)                  // take the front node off
    | DPopGate(prio: nat, node: Node)  // reopen the gate if nodes are left
    | DIndexLock(prio: nat, node: Node) // take the index lock, then drop the queue lock
    | DIndex(prio: nat, node: Node)    // take the entry out of the index, return its job
    // Purge
    | PLock(id: JobId)                 // take the purge lock, exclusive
    | PErase(id: JobId)                // erase every node and the list of this id
    | PDone(id: JobId, purged: nat)    // drop the purge lock, return
    // ReleaseQueues
    | QLock                            // take the purge lock, exclusive
    | QSet                             // set the released flag
    | QGates(prio: nat)                // open the gate of this priority if it is empty
    // ReleaseOne, possibly called with the throttler's state lock held
    | OLock(prio: nat, nested: bool)   // take the purge lock, exclusive
    | OQueue(prio: nat, nested: bool)  // take the queue lock
    | OTest(prio: nat, nested: bool)   // empty? then set the release-one flag
    | OGate(prio: nat, nested: bool)   // open the gate, drop both locks
    // Throttler decision
    | TLock(release: bool)             // take the state lock
    | TDecide(release: bool)           // call ReleaseOne on the secondary queue, or not
    | TDone                            // drop the state lock

  /** What a thread could do wrong: pop an empty list, or fail a lookup of Dequeue. */
  datatype Fault = NoFault | EmptyPop | LookupFailed

  /** `born` only records: it lists every job ever inserted, and a node's key is its
      position there. */
  datatype State = State(
    queues: seq<seq<Node>>,
    index: Index,
    gates: seq<bool>,
    flags: seq<bool>,
    released: bool,
    stateLock: Option<Tid>,
    exclusive: Option<Tid>,
    shared: set<Tid>,
    queueLocks: seq<Option<Tid>>,
    indexLock: Option<Tid>,
    pcs: map<Tid, Pc>,
    born: seq<Job>,
    fault: Fault)

  /** The constructor locks every gate but the last. */
  function Init(maxPrio: nat, threads: set<Tid>): State {
    State(
      seq(maxPrio + 1, _ => []), map[],
      seq(maxPrio + 1, i => i == maxPrio), seq(maxPrio + 1, _ => false), false,
      None, None, {}, seq(maxPrio + 1, _ => None), None,
      map t <- threads :: Idle, [], NoFault)
  }

  // ----- which locks a program counter holds -----

  predicate HoldsShared(pc: Pc) {
    pc.EQueue? || pc.EInsert? || pc.EGate? || pc.EIndexLock? || pc.EIndex? ||
    pc.DTest? || pc.DRelease? || pc.DRetest? || pc.DQueue? || pc.DPop? || pc.DPopGate? ||
    pc.DIndexLock? || pc.DIndex?
  }

  predicate HoldsExclusive(pc: Pc) {
    pc.PErase? || pc.PDone? || pc.QSet? || pc.QGates? || pc.OQueue? || pc.OTest? || pc.OGate?
  }

  function QueueHeld(pc: Pc): Option<nat> {
    match pc
    case EInsert(j) => Some(j.prio)
    case EGate(j, _) => Some(j.prio)
    case EIndexLock(j, _) => Some(j.prio)
    case DPop(p) => Some(p)
    case DPopGate(p, _) => Some(p)
    case DIndexLock(p, _) => Some(p)
    case OTest(p, _) => Some(p)
    case OGate(p, _) => Some(p)
    case _ => None
  }

  predicate HoldsIndex(pc: Pc) {
    pc.EIndex? || pc.DIndex?
  }

  predicate HoldsState(pc: Pc) {
    match pc
    case OLock(_, nested) => nested
    case OQueue(_, nested) => nested
    case OTest(_, nested) => nested
    case OGate(_, nested) => nested
    case TDecide(_) => true
    case TDone => true
    case _ => false
  }

  /** The priority a thread works on. */
  predicate PrioOk(pc: Pc, width: nat) {
    match pc
    case Idle | PLock(_) | PErase(_) | PDone(_, _) | QLock | QSet | TDone => true
    case TLock(release) => release ==> 1 < width
    case TDecide(release) => release ==> 1 < width
    case QGates(p) => p <= width
    case EShared(j) => j.prio < width
    case EQueue(j) => j.prio < width
    case EInsert(j) => j.prio < width
    case EGate(j, _) => j.prio < width
    case EIndexLock(j, _) => j.prio < width
    case EIndex(j, _) => j.prio < width
    case _ => pc.prio < width
  }

  predicate CallOk(s: State, c: Call) {
    match c
    case Enqueue(j) => j.prio < |s.queues|
    case Dequeue(p) => p < |s.queues|
    case ReleaseOne(p) => p < |s.queues|
    case Decide(release) => release ==> 1 < |s.queues|
    case _ => true
  }

  function Entry0(c: Call): Pc {
    match c
    case Enqueue(j) => EShared(j)
    case Dequeue(p) => DGate(p)
    case Purge(id) => PLock(id)
    case ReleaseQueues => QLock
    case ReleaseOne(p) => OLock(p, false)
    case Decide(release) => TLock(release)
  }

  /** Every field has one slot per priority and every thread is inside that range. */
  predicate Shaped(s: State) {
    && |s.gates| == |s.queues| && |s.flags| == |s.queues| && |s.queueLocks| == |s.queues|
    && forall t <- s.pcs :: PrioOk(s.pcs[t], |s.queues|)
  }

  /** Whether thread `t` can take its next step; an idle thread waits for a call. */
  predicate Enabled(s: State, t: Tid)
    requires Shaped(s) && t in s.pcs
  {
    match s.pcs[t]
    case Idle => false
    case EShared(_) => s.exclusive.None?
    case DShared(_) => s.exclusive.None?
    case EQueue(j) => s.queueLocks[j.prio].None?
    case DQueue(p) => s.queueLocks[p].None?
    case OQueue(p, _) => s.queueLocks[p].None?
    case EIndexLock(_, _) => s.indexLock.None?
    case DIndexLock(_, _) => s.indexLock.None?
    case DGate(p) => s.gates[p]
    case PLock(_) => s.exclusive.None? && s.shared == {}
    case QLock => s.exclusive.None? && s.shared == {}
    case OLock(_, _) => s.exclusive.None? && s.shared == {}
    case TLock(_) => s.stateLock.None?
    case _ => true
  }

  // ----- the steps -----

  /** The program counters, the locks and the number of priorities are the same. */
  predicate SameControl(s: State, s': State) {
    && s'.pcs == s.pcs && s'.stateLock == s.stateLock && s'.exclusive == s.exclusive
    && s'.shared == s.shared && s'.queueLocks == s.queueLocks && s'.indexLock == s.indexLock
    && |s'.queues| == |s.queues| && |s'.gates| == |s.gates| && |s'.flags| == |s.flags|
  }

  /** What the step of `t` does to the data. */
  function Effect(s: State, t: Tid): (s': State)
    requires Shaped(s) && t in s.pcs
    ensures SameControl(s, s')
  {
    match s.pcs[t]
    case EInsert(j) =>
      s.(queues := s.queues[j.prio := s.queues[j.prio] + [Node(|s.born|, j.id)]], born := s.born + [j])
    case EGate(j, _) => if |s.queues[j.prio]| == 1 then Open(s, j.prio) else s
    case EIndex(j, n) => s.(index := Indexed(s.index, Entry(j, n)))
    case DGate(p) => s.(gates := s.gates[p := false])
    case DFlag(p) => s.(flags := s.flags[p := false])
    case DRelease(p) => Open(s, p)
    case DPop(p) =>
      if s.queues[p] == [] then s.(fault := EmptyPop)
      else s.(queues := s.queues[p := s.queues[p][1..]])
    case DPopGate(p, _) => if s.queues[p] != [] then Open(s, p) else s
    case DIndex(p, n) =>
      var es := ListOf(s.index, n.id);
      if FirstAt(es, p) == |es| then s.(fault := LookupFailed)
      else s.(index := Unindexed(s.index, n.id, FirstAt(es, p)))
    case PErase(id) =>
      var es := ListOf(s.index, id);
      if exists e <- es :: |s.queues| <= e.job.prio then s.(fault := LookupFailed)
      else s.(queues := EraseAll(s.queues, es), index := s.index - {id})
    case QSet => s.(released := true)
    case QGates(p) => if p < |s.queues| && s.queues[p] == [] then Open(s, p) else s
    case OTest(p, _) => if s.queues[p] == [] then s.(flags := s.flags[p := true]) else s
    case OGate(p, _) => Open(s, p)
    case _ => s
  }

  function Open(s: State, p: nat): State
    requires p < |s.gates|
  {
    s.(gates := s.gates[p := true])
  }

  /** Where the step takes `t`. */
  function Target(s: State, t: Tid): Pc
    requires Shaped(s) && t in s.pcs
  {
    match s.pcs[t]
    case Idle => Idle
    case EShared(j) => EQueue(j)
    case EQueue(j) => EInsert(j)
    case EInsert(j) => EGate(j, Node(|s.born|, j.id))
    case EGate(j, n) => EIndexLock(j, n)
    case EIndexLock(j, n) => EIndex(j, n)
    case EIndex(_, _) => Idle
    case DGate(p) => DFlag(p)
    case DFlag(p) => if s.flags[p] then Idle else DShared(p)
    case DShared(p) => DTest(p)
    case DTest(p) => if s.queues[p] == [] && s.released then DRelease(p) else DRetest(p)
    case DRelease(_) => Idle
    case DRetest(p) => if s.queues[p] == [] then DGate(p) else DQueue(p)
    case DQueue(p) => DPop(p)
    case DPop(p) => if s.queues[p] == [] then DPop(p) else DPopGate(p, s.queues[p][0])
    case DPopGate(p, n) => DIndexLock(p, n)
    case DIndexLock(p, n) => DIndex(p, n)
    case DIndex(_, _) => Idle
    case PLock(id) => PErase(id)
    case PErase(id) => PDone(id, |ListOf(s.index, id)|)
    case PDone(_, _) => Idle
    case QLock => QSet
    case QSet => QGates(0)
    case QGates(p) => if p < |s.queues| then QGates(p + 1) else Idle
    case OLock(p, b) => OQueue(p, b)
    case OQueue(p, b) => OTest(p, b)
    case OTest(p, b) => if s.queues[p] == [] then OGate(p, b) else if b then TDone else Idle
    case OGate(p, b) => if b then TDone else Idle
    case TLock(r) => TDecide(r)
    case TDecide(r) => if r then OLock(1, true) else TDone
    case TDone => Idle
  }

  /** Moving to a program counter takes the locks it holds and drops the others. */
  function Move(s: State, t: Tid, pc: Pc): State {
    s.(pcs := s.pcs[t := pc],
    shared := if HoldsShared(pc) then s.shared + {t} else s.shared - {t},
    exclusive := Owner(s.exclusive, t, HoldsExclusive(pc)),
    indexLock := Owner(s.indexLock, t, HoldsIndex(pc)),
    stateLock := Owner(s.stateLock, t, HoldsState(pc)),
    queueLocks := seq(|s.queueLocks|, p requires 0 <= p < |s.queueLocks| =>
      Owner(s.queueLocks[p], t, QueueHeld(pc) == Some(p))))
  }

  function Next(s: State, t: Tid): State
    requires Shaped(s) && t in s.pcs
  {
    Move(Effect(s, t), t, Target(s, t))
  }

  /** An action of one thread: it begins a call, or it takes a step inside one. */
  datatype Action = Begin(t: Tid, call: Call) | Take(t: Tid)

  predicate Possible(s: State, a: Action) {
    && Shaped(s) && a.t in s.pcs && s.fault == NoFault
    && match a
       case Begin(t, c) => s.pcs[t].Idle? && CallOk(s, c)
       case Take(t) => Enabled(s, t)
  }

  function Do(s: State, a: Action): State
    requires Possible(s, a)
  {
    match a
    case Begin(t, c) => Move(s, t, Entry0(c))
    case Take(t) => Next(s, t)
  }

  /** A run: a sequence of states, each the result of an action on the one before. */
  ghost predicate Run(states: seq<State>, actions: seq<Action>) {
    && |states| == |actions| + 1
    && forall i :: 0 <= i < |actions| ==> Possible(states[i], actions[i]) && states[i + 1] == Do(states[i], actions[i])
  }

  ghost predicate Goes(s: State, a: Action, s': State) {
    Possible(s, a) && s' == Do(s, a)
  }

  lemma LinkedIsRun(states: seq<State>, actions: seq<Action>)
    requires Linked(Goes, states, actions)
    ensures Run(states, actions)
  {
    forall i | 0 <= i < |actions|
      ensures Possible(states[i], actions[i]) && states[i + 1] == Do(states[i], actions[i])
    {
      assert Goes(states[i], actions[i], states[i + 1]);
    }
  }
}
