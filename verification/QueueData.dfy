/** The index against the queues, in every reachable state. */
module QueueData {
  import opened Jobs
  import opened QueueIndex
  import opened QueueLag
  import opened QueueRep
  import opened QueueSteps
  import opened QueueInvariant

  /** The node a thread has taken off queue `p` and not yet out of the index. */
  function TakenBy(pc: Pc, p: nat): seq<Node> {
    match pc
    case DPopGate(r, n) => if r == p then [n] else []
    case DIndexLock(r, n) => if r == p then [n] else []
    case DIndex(r, n) => if r == p then [n] else []
    case _ => []
  }

  /** The node a thread has put on queue `p` and not yet into the index. */
  function PutBy(pc: Pc, p: nat): seq<Node> {
    match pc
    case EGate(j, n) => if j.prio == p then [n] else []
    case EIndexLock(j, n) => if j.prio == p then [n] else []
    case EIndex(j, n) => if j.prio == p then [n] else []
    case _ => []
  }

  function PcOf(s: State, owner: Option<Tid>): Pc {
    if owner.Some? && owner.value in s.pcs then s.pcs[owner.value] else Idle
  }

  /** At most two threads stand between a change of queue `p` and the matching change of the
      index: the owner of the index lock, then the owner of the queue lock. */
  function Popped(s: State, p: nat): seq<Node>
    requires p < |s.queueLocks|
  {
    TakenBy(PcOf(s, s.indexLock), p) + TakenBy(PcOf(s, s.queueLocks[p]), p)
  }

  function Added(s: State, p: nat): seq<Node>
    requires p < |s.queueLocks|
  {
    PutBy(PcOf(s, s.indexLock), p) + PutBy(PcOf(s, s.queueLocks[p]), p)
  }

  ghost predicate LagAt(s: State, p: nat)
    requires p < |s.queueLocks| && p < |s.queues|
  {
    && Lag(Popped(s, p), s.queues[p], Added(s, p), s.index, p, s.born)
    && |PutBy(PcOf(s, s.queueLocks[p]), p)| <= |s.queues[p]|
  }

  /** The node an inserting thread carries was made for its job. */
  ghost predicate Carries(pc: Pc, born: seq<Job>) {
    (pc.EGate? || pc.EIndexLock? || pc.EIndex?) ==>
      pc.node.key < |born| && born[pc.node.key] == pc.job && pc.node.id == pc.job.id
  }

  ghost predicate Data(s: State) {
    && Shaped(s)
    && IndexOk(s.index, s.born, |s.queues|)
    && (forall t <- s.pcs :: Carries(s.pcs[t], s.born))
    && (forall p :: 0 <= p < |s.queues| ==> LagAt(s, p))
  }

  ghost predicate Inv(s: State) {
    Locks(s) && Data(s) && s.fault == NoFault
  }

  lemma InvInit(maxPrio: nat, threads: set<Tid>)
    ensures Inv(Init(maxPrio, threads))
  {
    LocksInit(maxPrio, threads);
  }

  // ----- who owns the two locks after a step -----

  lemma IndexOwnerAfter(s: State, t: Tid, pc: Pc)
    requires Locks(s) && t in s.pcs && Grants(s, t, pc)
    ensures var s' := Move(s, t, pc);
            PcOf(s', s'.indexLock) ==
            if HoldsIndex(pc) then pc else if s.indexLock == Some(t) then Idle else PcOf(s, s.indexLock)
  {
  }

  lemma QueueOwnerAfter(s: State, t: Tid, pc: Pc, p: nat)
    requires Locks(s) && t in s.pcs && Grants(s, t, pc) && p < |s.queueLocks|
    ensures var s' := Move(s, t, pc);
            PcOf(s', s'.queueLocks[p]) ==
            if QueueHeld(pc) == Some(p) then pc
            else if s.queueLocks[p] == Some(t) then Idle else PcOf(s, s.queueLocks[p])
  {
  }

  lemma OwnersBefore(s: State, t: Tid, p: nat)
    requires Locks(s) && t in s.pcs && p < |s.queueLocks|
    ensures HoldsIndex(s.pcs[t]) ==> PcOf(s, s.indexLock) == s.pcs[t]
    ensures s.indexLock == Some(t) ==> HoldsIndex(s.pcs[t])
    ensures QueueHeld(s.pcs[t]) == Some(p) ==> PcOf(s, s.queueLocks[p]) == s.pcs[t]
    ensures s.queueLocks[p] == Some(t) ==> QueueHeld(s.pcs[t]) == Some(p)
  {
    assert LockView(s, t);
  }

  // ----- steps that change neither queues nor index -----

  predicate Carrying(pc: Pc) {
    pc.EGate? || pc.EIndexLock? || pc.EIndex? || pc.DPopGate? || pc.DIndexLock? || pc.DIndex?
  }

  /** A step that changes neither queues nor index nor what threads carry. */
  ghost predicate Quiet(s: State, t: Tid, pc: Pc)
    requires t in s.pcs
  {
    || (!Carrying(s.pcs[t]) && !Carrying(pc))
    || (s.pcs[t].EGate? && pc == EIndexLock(s.pcs[t].job, s.pcs[t].node))
    || (s.pcs[t].DPopGate? && pc == DIndexLock(s.pcs[t].prio, s.pcs[t].node))
    || (s.pcs[t].EIndexLock? && s.indexLock.None? && pc == EIndex(s.pcs[t].job, s.pcs[t].node))
    || (s.pcs[t].DIndexLock? && s.indexLock.None? && pc == DIndex(s.pcs[t].prio, s.pcs[t].node))
  }

  lemma PendingNone(s: State, t: Tid, pc: Pc, p: nat)
    requires Locks(s) && t in s.pcs && Grants(s, t, pc) && p < |s.queueLocks|
    requires !Carrying(s.pcs[t]) && !Carrying(pc)
    ensures SamePending(s, Move(s, t, pc), p)
  {
    OwnersBefore(s, t, p);
    IndexOwnerAfter(s, t, pc);
    QueueOwnerAfter(s, t, pc, p);
  }

  lemma PendingHeld(s: State, t: Tid, was: Pc, pc: Pc, p: nat)
    requires Locks(s) && t in s.pcs && was == s.pcs[t] && Grants(s, t, pc) && p < |s.queueLocks|
    requires (was.EGate? && pc == EIndexLock(was.job, was.node)) || (was.DPopGate? && pc == DIndexLock(was.prio, was.node))
    ensures SamePending(s, Move(s, t, pc), p)
  {
    OwnersBefore(s, t, p);
    IndexOwnerAfter(s, t, pc);
    QueueOwnerAfter(s, t, pc, p);
  }

  /** A node goes from the owner of the queue lock to the owner of the index lock. */
  lemma HandedOver(s: State, s': State, was: Pc, pc: Pc, p: nat)
    requires p < |s.queueLocks| && p < |s'.queueLocks|
    requires (was.EIndexLock? && pc == EIndex(was.job, was.node)) || (was.DIndexLock? && pc == DIndex(was.prio, was.node))
    requires PcOf(s, s.indexLock) == Idle && PcOf(s', s'.indexLock) == pc
    requires if QueueHeld(was) == Some(p) then PcOf(s, s.queueLocks[p]) == was && PcOf(s', s'.queueLocks[p]) == Idle
             else PcOf(s', s'.queueLocks[p]) == PcOf(s, s.queueLocks[p])
    ensures SamePending(s, s', p)
  {
    assert TakenBy(pc, p) == TakenBy(was, p) && PutBy(pc, p) == PutBy(was, p);
  }

  lemma PendingHanded(s: State, t: Tid, was: Pc, pc: Pc, p: nat)
    requires Locks(s) && t in s.pcs && was == s.pcs[t] && Grants(s, t, pc) && p < |s.queueLocks| && s.indexLock.None?
    requires (was.EIndexLock? && pc == EIndex(was.job, was.node)) || (was.DIndexLock? && pc == DIndex(was.prio, was.node))
    ensures SamePending(s, Move(s, t, pc), p)
  {
    OwnersBefore(s, t, p);
    IndexOwnerAfter(s, t, pc);
    QueueOwnerAfter(s, t, pc, p);
    HandedOver(s, Move(s, t, pc), was, pc, p);
  }

  ghost predicate SamePending(s: State, s': State, p: nat)
    requires p < |s.queueLocks| && p < |s'.queueLocks|
  {
    && Popped(s', p) == Popped(s, p)
    && Added(s', p) == Added(s, p)
    && |PutBy(PcOf(s', s'.queueLocks[p]), p)| <= |PutBy(PcOf(s, s.queueLocks[p]), p)|
  }

  lemma CarriesMoved(s: State, t: Tid, pc: Pc, born: seq<Job>)
    requires (forall u <- s.pcs :: Carries(s.pcs[u], s.born)) && s.born <= born && Carries(pc, born)
    ensures forall u <- Move(s, t, pc).pcs :: Carries(Move(s, t, pc).pcs[u], born)
  {
  }

  /** What Data asks of the state a thread moves to. */
  lemma DataMoved(e: State, t: Tid, pc: Pc)
    requires Locks(e) && t in e.pcs && Grants(e, t, pc) && IndexOk(e.index, e.born, |e.queues|)
    requires forall u <- Move(e, t, pc).pcs :: Carries(Move(e, t, pc).pcs[u], e.born)
    requires forall p :: 0 <= p < |e.queues| ==> LagAt(Move(e, t, pc), p)
    ensures Data(Move(e, t, pc))
  {
    LocksMoved(e, t, pc);
  }

  lemma QuietKeeps(s: State, t: Tid, pc: Pc)
    requires Locks(s) && Data(s) && t in s.pcs && Grants(s, t, pc)
    requires Carries(pc, s.born) && Quiet(s, t, pc)
    ensures Data(Move(s, t, pc))
  {
    CarriesMoved(s, t, pc, s.born);
    forall p | 0 <= p < |s.queues|
      ensures LagAt(Move(s, t, pc), p)
    {
      assert LagAt(s, p);
      if s.pcs[t].EGate? || s.pcs[t].DPopGate? {
        PendingHeld(s, t, s.pcs[t], pc, p);
      } else if Carrying(s.pcs[t]) {
        PendingHanded(s, t, s.pcs[t], pc, p);
      } else {
        PendingNone(s, t, pc, p);
      }
      SameLag(s, Move(s, t, pc), p);
    }
    DataMoved(s, t, pc);
  }

  // ----- the five steps that change queues or index -----

  lemma PutPending(s: State, t: Tid, j: Job, n: Node, p: nat)
    requires Locks(s) && t in s.pcs && s.pcs[t] == EInsert(j) && p < |s.queueLocks|
    ensures var s' := Move(s, t, EGate(j, n));
            && Popped(s', p) == Popped(s, p)
            && Added(s', p) == (if p == j.prio then Added(s, p) + [n] else Added(s, p))
            && |PutBy(PcOf(s', s'.queueLocks[p]), p)| <= |PutBy(PcOf(s, s.queueLocks[p]), p)| + (if p == j.prio then 1 else 0)
  {
    OwnersBefore(s, t, p);
    IndexOwnerAfter(s, t, EGate(j, n));
    QueueOwnerAfter(s, t, EGate(j, n), p);
  }

  lemma InsertLag(s: State, s': State, p: nat, j: Job)
    requires p < |s.queues| && p < |s.queueLocks| && p < |s'.queues| && p < |s'.queueLocks| && LagAt(s, p)
    requires s'.index == s.index && s'.born == s.born + [j]
    requires Popped(s', p) == Popped(s, p)
    requires p == j.prio ==> s'.queues[p] == s.queues[p] + [Node(|s.born|, j.id)] && Added(s', p) == Added(s, p) + [Node(|s.born|, j.id)]
    requires p != j.prio ==> s'.queues[p] == s.queues[p] && Added(s', p) == Added(s, p)
    requires |PutBy(PcOf(s', s'.queueLocks[p]), p)| <= |s'.queues[p]|
    ensures LagAt(s', p)
  {
    var popped, q, added := Popped(s, p), s.queues[p], Added(s, p);
    if p == j.prio {
      LagInsert(popped, q, added, s.index, p, s.born, j);
    } else {
      LagBorn(popped, q, added, s.index, p, s.born, j);
    }
  }

  lemma InsertAt(s: State, e: State, t: Tid, j: Job, n: Node, p: nat)
    requires Locks(e) && t in s.pcs && s.pcs[t] == EInsert(j) && j.prio < |s.queues| && n == Node(|s.born|, j.id)
    requires p < |s.queues| && p < |s.queueLocks| && LagAt(s, p)
    requires e == s.(queues := s.queues[j.prio := s.queues[j.prio] + [n]], born := s.born + [j])
    ensures LagAt(Move(e, t, EGate(j, n)), p)
  {
    PutPending(e, t, j, n, p);
    InsertLag(s, Move(e, t, EGate(j, n)), p, j);
  }

  lemma InsertKeeps(s: State, t: Tid, j: Job)
    requires Inv(s) && t in s.pcs && s.pcs[t] == EInsert(j)
    ensures var n := Node(|s.born|, j.id);
            Data(Move(s.(queues := s.queues[j.prio := s.queues[j.prio] + [n]], born := s.born + [j]), t, EGate(j, n)))
  {
    var n := Node(|s.born|, j.id);
    var e := s.(queues := s.queues[j.prio := s.queues[j.prio] + [n]], born := s.born + [j]);
    LocksSame(s, e);
    CarriesMoved(e, t, EGate(j, n), e.born);
    IndexOkGrows(s.index, s.born, j, |s.queues|);
    forall p | 0 <= p < |s.queues|
      ensures LagAt(Move(e, t, EGate(j, n)), p)
    {
      InsertAt(s, e, t, j, n, p);
    }
    DataMoved(e, t, EGate(j, n));
  }

  lemma ListPending(s: State, t: Tid, j: Job, n: Node, p: nat)
    requires Locks(s) && t in s.pcs && s.pcs[t] == EIndex(j, n) && p < |s.queueLocks|
    ensures var s' := Move(s, t, Idle);
            && Popped(s', p) == Popped(s, p)
            && (p == j.prio ==> Added(s, p) == [n] + Added(s', p))
            && (p != j.prio ==> Added(s', p) == Added(s, p))
            && PcOf(s', s'.queueLocks[p]) == PcOf(s, s.queueLocks[p])
  {
    OwnersBefore(s, t, p);
    IndexOwnerAfter(s, t, Idle);
    QueueOwnerAfter(s, t, Idle, p);
  }

  lemma IndexLag(s: State, s': State, p: nat, e: Entry)
    requires p < |s.queues| && p < |s.queueLocks| && p < |s'.queues| && p < |s'.queueLocks| && LagAt(s, p)
    requires e.iter.id == e.job.id && s'.index == Indexed(s.index, e) && s'.born == s.born
    requires Popped(s', p) == Popped(s, p) && s'.queues[p] == s.queues[p]
    requires if p == e.job.prio then Added(s, p) == [e.iter] + Added(s', p) else Added(s', p) == Added(s, p)
    requires PcOf(s', s'.queueLocks[p]) == PcOf(s, s.queueLocks[p])
    ensures LagAt(s', p)
  {
    LagIndexed(Popped(s, p), s.queues[p], Added(s, p), s.index, p, s.born, e);
  }

  lemma IndexKeeps(s: State, t: Tid, j: Job, n: Node)
    requires Inv(s) && t in s.pcs && s.pcs[t] == EIndex(j, n)
    ensures Data(Move(s.(index := Indexed(s.index, Entry(j, n))), t, Idle))
  {
    var e := s.(index := Indexed(s.index, Entry(j, n)));
    LocksSame(s, e);
    CarriesMoved(e, t, Idle, e.born);
    assert Carries(s.pcs[t], s.born);
    IndexedOk(s.index, Entry(j, n), s.born, |s.queues|);
    forall p | 0 <= p < |s.queues|
      ensures LagAt(Move(e, t, Idle), p)
    {
      assert LagAt(s, p);
      ListPending(e, t, j, n, p);
      IndexLag(s, Move(e, t, Idle), p, Entry(j, n));
    }
  }

  lemma TakePending(s: State, t: Tid, p: nat, n: Node)
    requires Locks(s) && t in s.pcs && s.pcs[t] == DPop(p)
    ensures var s' := Move(s, t, DPopGate(p, n));
            && Popped(s', p) == Popped(s, p) + [n]
            && Added(s', p) == Added(s, p)
            && PutBy(PcOf(s', s'.queueLocks[p]), p) == []
  {
    var pc := DPopGate(p, n);
    OwnersBefore(s, t, p);
    IndexOwnerAfter(s, t, pc);
    QueueOwnerAfter(s, t, pc, p);
    assert TakenBy(PcOf(s, s.queueLocks[p]), p) == [] && TakenBy(pc, p) == [n];
    assert PutBy(PcOf(s, s.queueLocks[p]), p) == [] && PutBy(pc, p) == [];
  }

  lemma TakeElsewhere(s: State, t: Tid, r: nat, n: Node, p: nat)
    requires Locks(s) && t in s.pcs && s.pcs[t] == DPop(r) && p < |s.queueLocks| && p != r
    ensures SamePending(s, Move(s, t, DPopGate(r, n)), p)
  {
    OwnersBefore(s, t, p);
    IndexOwnerAfter(s, t, DPopGate(r, n));
    QueueOwnerAfter(s, t, DPopGate(r, n), p);
  }

  lemma PopLag(s: State, s': State, p: nat)
    requires p < |s.queues| && p < |s.queueLocks| && p < |s'.queues| && p < |s'.queueLocks| && LagAt(s, p)
    requires s.queues[p] != [] && s'.queues[p] == s.queues[p][1..] && s'.index == s.index && s'.born == s.born
    requires Popped(s', p) == Popped(s, p) + [s.queues[p][0]] && Added(s', p) == Added(s, p)
    requires PutBy(PcOf(s', s'.queueLocks[p]), p) == []
    ensures LagAt(s', p)
  {
    LagPop(Popped(s, p), s.queues[p], Added(s, p), s.index, p, s.born);
  }

  lemma SameLag(s: State, s': State, p: nat)
    requires p < |s.queues| && p < |s.queueLocks| && p < |s'.queues| && p < |s'.queueLocks| && LagAt(s, p)
    requires s'.queues[p] == s.queues[p] && s'.index == s.index && s'.born == s.born && SamePending(s, s', p)
    ensures LagAt(s', p)
  {
  }

  lemma PopAt(s: State, e: State, t: Tid, r: nat, n: Node, p: nat)
    requires Locks(e) && t in s.pcs && s.pcs[t] == DPop(r) && r < |s.queues| && s.queues[r] != [] && n == s.queues[r][0]
    requires p < |s.queues| && p < |s.queueLocks| && LagAt(s, p) && e == s.(queues := s.queues[r := s.queues[r][1..]])
    ensures LagAt(Move(e, t, DPopGate(r, n)), p)
  {
    if p == r {
      TakePending(e, t, r, n);
      PopLag(s, Move(e, t, DPopGate(r, n)), p);
    } else {
      TakeElsewhere(e, t, r, n, p);
      SameLag(s, Move(e, t, DPopGate(r, n)), p);
    }
  }

  lemma PopKeeps(s: State, t: Tid, r: nat)
    requires Inv(s) && t in s.pcs && s.pcs[t] == DPop(r) && s.queues[r] != []
    ensures Data(Move(s.(queues := s.queues[r := s.queues[r][1..]]), t, DPopGate(r, s.queues[r][0])))
  {
    var n := s.queues[r][0];
    var e := s.(queues := s.queues[r := s.queues[r][1..]]);
    LocksSame(s, e);
    CarriesMoved(e, t, DPopGate(r, n), e.born);
    forall p | 0 <= p < |s.queues|
      ensures LagAt(Move(e, t, DPopGate(r, n)), p)
    {
      PopAt(s, e, t, r, n, p);
    }
    DataMoved(e, t, DPopGate(r, n));
  }

  lemma DropPending(s: State, t: Tid, r: nat, n: Node, p: nat)
    requires Locks(s) && t in s.pcs && s.pcs[t] == DIndex(r, n) && p < |s.queueLocks|
    ensures var s' := Move(s, t, Idle);
            && Added(s', p) == Added(s, p) == PutBy(PcOf(s, s.queueLocks[p]), p)
            && (p == r ==> Popped(s, p) == [n] + Popped(s', p))
            && (p != r ==> Popped(s', p) == Popped(s, p))
            && PcOf(s', s'.queueLocks[p]) == PcOf(s, s.queueLocks[p])
  {
    OwnersBefore(s, t, p);
    IndexOwnerAfter(s, t, Idle);
    QueueOwnerAfter(s, t, Idle, p);
    Dropped(s, Move(s, t, Idle), r, n, p);
  }

  /** The owner of the index lock lets go of the node it took. */
  lemma Dropped(s: State, s': State, r: nat, n: Node, p: nat)
    requires p < |s.queueLocks| && p < |s'.queueLocks|
    requires PcOf(s, s.indexLock) == DIndex(r, n) && PcOf(s', s'.indexLock) == Idle
    requires PcOf(s', s'.queueLocks[p]) == PcOf(s, s.queueLocks[p])
    ensures Added(s', p) == Added(s, p) == PutBy(PcOf(s, s.queueLocks[p]), p)
    ensures p == r ==> Popped(s, p) == [n] + Popped(s', p)
    ensures p != r ==> Popped(s', p) == Popped(s, p)
  {
  }

  /** Both lookups of a Dequeue succeed, and the entry found is the one whose saved iterator
      names the node this thread popped, whatever else is queued under the same id. */
  lemma LookupFinds(s: State, t: Tid, r: nat, n: Node)
    requires Inv(s) && t in s.pcs && s.pcs[t] == DIndex(r, n)
    ensures n.id in s.index
    ensures var es := s.index[n.id];
            && FirstAt(es, r) < |es|
            && es[FirstAt(es, r)].iter == n
            && n.key < |s.born| && es[FirstAt(es, r)].job == s.born[n.key]
  {
    assert LagAt(s, r);
    DropPending(s, t, r, n, r);
    LagLookup(Popped(s, r), s.queues[r], Added(s, r), s.index, r, s.born);
    var es := ListOf(s.index, n.id);
    assert EntryOk(es[FirstAt(es, r)], n.id, s.born, |s.queues|);
  }

  lemma UnindexLag(s: State, s': State, p: nat, r: nat, n: Node)
    requires p < |s.queues| && p < |s.queueLocks| && p < |s'.queues| && p < |s'.queueLocks| && LagAt(s, p)
    requires FirstAt(ListOf(s.index, n.id), r) < |ListOf(s.index, n.id)|
    requires s'.index == Unindexed(s.index, n.id, FirstAt(ListOf(s.index, n.id), r)) && s'.born == s.born
    requires s'.queues[p] == s.queues[p] && Added(s', p) == Added(s, p) == PutBy(PcOf(s, s.queueLocks[p]), p)
    requires if p == r then Popped(s, p) == [n] + Popped(s', p) else Popped(s', p) == Popped(s, p)
    requires PcOf(s', s'.queueLocks[p]) == PcOf(s, s.queueLocks[p])
    ensures LagAt(s', p)
  {
    LagUnindexed(Popped(s, p), s.queues[p], Added(s, p), s.index, p, s.born, n, r);
    if p == r {
      assert Popped(s, p)[1..] == Popped(s', p);
    }
  }

  lemma UnindexAt(s: State, e: State, t: Tid, r: nat, n: Node, p: nat)
    requires Locks(e) && t in s.pcs && s.pcs[t] == DIndex(r, n) && FirstAt(ListOf(s.index, n.id), r) < |ListOf(s.index, n.id)|
    requires p < |s.queues| && p < |s.queueLocks| && LagAt(s, p)
    requires e == s.(index := Unindexed(s.index, n.id, FirstAt(ListOf(s.index, n.id), r)))
    ensures LagAt(Move(e, t, Idle), p)
  {
    DropPending(e, t, r, n, p);
    UnindexLag(s, Move(e, t, Idle), p, r, n);
  }

  lemma UnindexKeeps(s: State, t: Tid, r: nat, n: Node)
    requires Inv(s) && t in s.pcs && s.pcs[t] == DIndex(r, n)
    requires FirstAt(ListOf(s.index, n.id), r) < |ListOf(s.index, n.id)|
    ensures Data(Move(s.(index := Unindexed(s.index, n.id, FirstAt(ListOf(s.index, n.id), r))), t, Idle))
  {
    var i := FirstAt(ListOf(s.index, n.id), r);
    var e := s.(index := Unindexed(s.index, n.id, i));
    LocksSame(s, e);
    CarriesMoved(e, t, Idle, e.born);
    UnindexedOk(s.index, n.id, i, s.born, |s.queues|);
    forall p | 0 <= p < |s.queues|
      ensures LagAt(Move(e, t, Idle), p)
    {
      UnindexAt(s, e, t, r, n, p);
    }
    DataMoved(e, t, Idle);
  }

  // ----- exclusive access -----

  lemma CarryingShares(s: State)
    requires Locks(s)
    ensures forall t <- s.pcs :: Carrying(s.pcs[t]) ==> t in s.shared
  {
    forall t <- s.pcs
      ensures Carrying(s.pcs[t]) ==> t in s.shared
    {
      assert LockView(s, t);
    }
  }

  lemma AlonePending(s: State, p: nat)
    requires Locks(s) && s.exclusive.Some? && p < |s.queueLocks|
    ensures Popped(s, p) == [] && Added(s, p) == []
  {
    CarryingShares(s);
  }

  /** With the purge lock held exclusively, index and queues agree node by node. */
  lemma AloneAgrees(s: State, p: nat)
    requires Inv(s) && s.exclusive.Some? && p < |s.queues|
    ensures Increasing(s.queues[p]) && Genuine(s.queues[p], p, s.born) && Agree(s.index, s.queues[p], p)
  {
    assert LagAt(s, p);
    AlonePending(s, p);
    NoLag(s.queues[p], s.index, p, s.born);
  }

  lemma AloneRep(s: State)
    requires Inv(s) && s.exclusive.Some?
    ensures Rep(s.queues, s.index, s.born)
  {
    forall p | 0 <= p < |s.queues|
      ensures Increasing(s.queues[p]) && Genuine(s.queues[p], p, s.born) && Agree(s.index, s.queues[p], p)
    {
      AloneAgrees(s, p);
    }
  }

  lemma PurgeAgrees(s: State, id: JobId, p: nat)
    requires Inv(s) && s.exclusive.Some? && p < |s.queues|
    ensures forall e <- ListOf(s.index, id) :: e.job.prio < |s.queues|
    ensures var q := EraseAll(s.queues, ListOf(s.index, id))[p];
            q == WithoutId(s.queues[p], id) && Lag([], q, [], s.index - {id}, p, s.born)
  {
    AloneRep(s);
    PurgedQueue(s.queues, s.index, s.born, id, p);
    NoLag(WithoutId(s.queues[p], id), s.index - {id}, p, s.born);
  }

  lemma PurgeLag(s: State, e: State, t: Tid, id: JobId, p: nat)
    requires Inv(s) && s.exclusive.Some? && t in s.pcs && p < |s.queues|
    requires forall e <- ListOf(s.index, id) :: e.job.prio < |s.queues|
    requires e == s.(queues := EraseAll(s.queues, ListOf(s.index, id)), index := s.index - {id})
    requires Locks(Move(e, t, PDone(id, |ListOf(s.index, id)|)))
    requires Move(e, t, PDone(id, |ListOf(s.index, id)|)).exclusive.Some?
    ensures LagAt(Move(e, t, PDone(id, |ListOf(s.index, id)|)), p)
  {
    PurgeAgrees(s, id, p);
    var s' := Move(e, t, PDone(id, |ListOf(s.index, id)|));
    AlonePending(s', p);
  }

  lemma PurgeKeeps(s: State, t: Tid, id: JobId)
    requires Inv(s) && t in s.pcs && s.pcs[t] == PErase(id)
    ensures forall e <- ListOf(s.index, id) :: e.job.prio < |s.queues|
    ensures Data(Move(s.(queues := EraseAll(s.queues, ListOf(s.index, id)), index := s.index - {id}),
                      t, PDone(id, |ListOf(s.index, id)|)))
  {
    assert LockView(s, t);
    var es := ListOf(s.index, id);
    assert forall e <- es :: EntryOk(e, id, s.born, |s.queues|);
    var e := s.(queues := EraseAll(s.queues, es), index := s.index - {id});
    LocksSame(s, e);
    var pc := PDone(id, |es|);
    CarriesMoved(e, t, pc, e.born);
    LocksMoved(e, t, pc);
    forall p | 0 <= p < |s.queues|
      ensures LagAt(Move(e, t, pc), p)
    {
      PurgeLag(s, e, t, id, p);
    }
  }

  // ----- every action -----

  predicate Changing(pc: Pc) {
    pc.EInsert? || pc.EIndex? || pc.DPop? || pc.DIndex? || pc.PErase?
  }

  /** Popping an empty list is the one thing a step can do wrong. */
  predicate PopsEmpty(s: State, a: Action)
    requires Possible(s, a)
  {
    a.Take? && s.pcs[a.t].DPop? && s.queues[s.pcs[a.t].prio] == []
  }

  lemma DataSame(s: State, e: State)
    requires Data(s) && SameControl(s, e) && e.queues == s.queues && e.index == s.index && e.born == s.born
    ensures Data(e)
  {
    forall p | 0 <= p < |e.queues|
      ensures LagAt(e, p)
    {
      assert LagAt(s, p);
    }
  }

  lemma QuietEffect(s: State, t: Tid)
    requires Shaped(s) && t in s.pcs && !Changing(s.pcs[t])
    ensures var e := Effect(s, t);
            e.queues == s.queues && e.index == s.index && e.born == s.born && e.fault == s.fault
  {
  }

  lemma QuietTarget(s: State, t: Tid)
    requires Locks(s) && t in s.pcs && Enabled(s, t) && !Changing(s.pcs[t])
    requires Carries(s.pcs[t], s.born)
    ensures Quiet(s, t, Target(s, t)) && Carries(Target(s, t), s.born)
  {
  }

  lemma QuietNext(s: State, t: Tid)
    requires Inv(s) && t in s.pcs && Enabled(s, t) && !Changing(s.pcs[t])
    ensures Data(Next(s, t)) && Next(s, t).fault == NoFault
  {
    var e, pc := Effect(s, t), Target(s, t);
    QuietEffect(s, t);
    QuietTarget(s, t);
    DataSame(s, e);
    Granted(s, t);
    LocksSame(s, e);
    QuietKeeps(e, t, pc);
  }

  lemma ProducingNext(s: State, t: Tid)
    requires Inv(s) && t in s.pcs && (s.pcs[t].EInsert? || s.pcs[t].EIndex?)
    ensures Data(Next(s, t)) && Next(s, t).fault == NoFault
  {
    if s.pcs[t].EInsert? {
      InsertKeeps(s, t, s.pcs[t].job);
    } else {
      IndexKeeps(s, t, s.pcs[t].job, s.pcs[t].node);
    }
  }

  lemma ConsumingNext(s: State, t: Tid)
    requires Inv(s) && t in s.pcs && (s.pcs[t].DPop? || s.pcs[t].DIndex?)
    requires s.pcs[t].DPop? ==> s.queues[s.pcs[t].prio] != []
    ensures Data(Next(s, t)) && Next(s, t).fault == NoFault
  {
    if s.pcs[t].DPop? {
      PopKeeps(s, t, s.pcs[t].prio);
    } else {
      LookupFinds(s, t, s.pcs[t].prio, s.pcs[t].node);
      UnindexKeeps(s, t, s.pcs[t].prio, s.pcs[t].node);
    }
  }

  lemma PurgingNext(s: State, t: Tid)
    requires Inv(s) && t in s.pcs && s.pcs[t].PErase?
    ensures Data(Next(s, t)) && Next(s, t).fault == NoFault
  {
    PurgeKeeps(s, t, s.pcs[t].id);
  }

  lemma DataNext(s: State, t: Tid)
    requires Inv(s) && t in s.pcs && Enabled(s, t)
    requires s.pcs[t].DPop? ==> s.queues[s.pcs[t].prio] != []
    ensures Data(Next(s, t)) && Next(s, t).fault == NoFault
  {
    if s.pcs[t].EInsert? || s.pcs[t].EIndex? {
      ProducingNext(s, t);
    } else if s.pcs[t].DPop? || s.pcs[t].DIndex? {
      ConsumingNext(s, t);
    } else if s.pcs[t].PErase? {
      PurgingNext(s, t);
    } else {
      QuietNext(s, t);
    }
  }

  lemma DataBegin(s: State, t: Tid, c: Call)
    requires Inv(s) && Possible(s, Begin(t, c))
    ensures Data(Do(s, Begin(t, c)))
  {
    QuietKeeps(s, t, Entry0(c));
  }

  /** Every action keeps the invariant unless it pops an empty list; in particular no lookup
      of a Dequeue or a Purge ever fails. */
  lemma InvKept(s: State, a: Action)
    requires Inv(s) && Possible(s, a) && !PopsEmpty(s, a)
    ensures Inv(Do(s, a))
  {
    LocksKept(s, a);
    match a
    case Begin(t, c) => DataBegin(s, t, c);
    case Take(t) => DataNext(s, t);
  }

  lemma EmptyPopFaults(s: State, a: Action)
    requires Possible(s, a)
    ensures PopsEmpty(s, a) ==> Do(s, a).fault == EmptyPop
  {
  }
}
