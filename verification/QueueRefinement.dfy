/** Every interleaving behaves like one sequence of jobs per priority. */
module QueueRefinement {
  import opened Jobs
  import opened QueueIndex
  import opened QueueLag
  import opened QueueRep
  import opened QueueSteps
  import opened QueueInvariant
  import opened QueueData

  // ----- index and queues -----

  /** While a thread holds the purge lock exclusively, nodes and index entries correspond one
      to one: every node has an entry, no iterator dangles, no key occurs twice in a queue,
      entries of one id and priority come in queue order, no list is empty. */
  lemma ExactUnderExclusive(s: State)
    requires Inv(s) && s.exclusive.Some?
    ensures forall id <- s.index :: s.index[id] != []
    ensures forall id <- s.index :: forall e <- s.index[id] ::
              e.job.id == id && e.job.prio < |s.queues| && e.iter in s.queues[e.job.prio]
              && e.iter.key < |s.born| && s.born[e.iter.key] == e.job
    ensures forall p, n :: 0 <= p < |s.queues| && n in s.queues[p] ==>
              n.id in s.index && exists e :: e in s.index[n.id] && e.job.prio == p && e.iter == n
    ensures forall p :: 0 <= p < |s.queues| ==> Increasing(s.queues[p])
    ensures forall p, id :: 0 <= p < |s.queues| && id in s.index ==>
              ItersAt(s.index[id], p) == WithId(s.queues[p], id)
  {
    AloneRep(s);
    forall p, n | 0 <= p < |s.queues| && n in s.queues[p]
      ensures n.id in s.index && exists e :: e in s.index[n.id] && e.job.prio == p && e.iter == n
    {
      InListing(s.index, s.queues[p], p, n);
    }
    forall id, e | id in s.index && e in s.index[id]
      ensures e.job.id == id && e.job.prio < |s.queues| && e.iter in s.queues[e.job.prio]
              && e.iter.key < |s.born| && s.born[e.iter.key] == e.job
    {
      assert EntryOk(e, id, s.born, |s.queues|);
      InListing(s.index, s.queues[e.job.prio], e.job.prio, e.iter);
    }
    forall p, id | 0 <= p < |s.queues| && id in s.index
      ensures ItersAt(s.index[id], p) == WithId(s.queues[p], id)
    {
      assert Agree(s.index, s.queues[p], p);
      assert ItersAt(ListOf(s.index, id), p) == WithId(s.queues[p], id);
    }
  }

  /** A queued node without an index entry belongs to a thread between its insert and its
      index step. */
  lemma UnlistedNodeIsCarried(s: State, p: nat, n: Node)
    requires Inv(s) && p < |s.queues| && n in s.queues[p]
    requires !exists e :: e in ListOf(s.index, n.id) && e.job.prio == p && e.iter == n
    ensures exists t :: t in s.pcs && PutBy(s.pcs[t], p) == [n]
  {
    assert LagAt(s, p);
    LagUnlisted(Popped(s, p), s.queues[p], Added(s, p), s.index, p, s.born, n);
    AddedByThread(s, p, n);
  }

  lemma AddedByThread(s: State, p: nat, n: Node)
    requires p < |s.queueLocks|
    ensures n in Added(s, p) ==> exists t :: t in s.pcs && PutBy(s.pcs[t], p) == [n]
  {
    var i, q := s.indexLock, s.queueLocks[p];
    if n in PutBy(PcOf(s, i), p) {
      assert i.value in s.pcs;
    } else if n in PutBy(PcOf(s, q), p) {
      assert q.value in s.pcs;
    }
  }

  lemma PoppedByThread(s: State, p: nat, n: Node)
    requires p < |s.queueLocks|
    ensures n in Popped(s, p) ==> exists t :: t in s.pcs && TakenBy(s.pcs[t], p) == [n]
  {
    var i, q := s.indexLock, s.queueLocks[p];
    if n in TakenBy(PcOf(s, i), p) {
      assert i.value in s.pcs;
    } else if n in TakenBy(PcOf(s, q), p) {
      assert q.value in s.pcs;
    }
  }

  /** An index entry whose iterator is no longer queued belongs to a thread between its pop
      and its index step. */
  lemma DanglingEntryIsCarried(s: State, id: JobId, e: Entry)
    requires Inv(s) && id in s.index && e in s.index[id]
    ensures e.job.prio < |s.queues|
    ensures e.iter !in s.queues[e.job.prio] ==> exists t :: t in s.pcs && TakenBy(s.pcs[t], e.job.prio) == [e.iter]
  {
    assert EntryOk(e, id, s.born, |s.queues|);
    var p := e.job.prio;
    assert LagAt(s, p);
    LagDangling(Popped(s, p), s.queues[p], Added(s, p), s.index, p, s.born, e);
    PoppedByThread(s, p, e.iter);
  }

  // ----- the specification -----

  datatype Event =
    | Silent
    | Inserted(job: Job)
    | Took(prio: nat, job: Job)
    | Purged(id: JobId, count: nat)

  ghost predicate SpecStep(a: Queues, e: Event, a': Queues) {
    match e
    case Silent => a' == a
    case Inserted(j) => j.prio < |a| && a' == Append(a, j)
    case Took(p, j) => p < |a| && a[p] != [] && j == a[p][0] && a' == PopFront(a, p)
    case Purged(id, n) => a' == Filter(a, id) && n == Occurrences(a, id, |a|)
  }

  ghost predicate Keyed(s: State) {
    AllGenuine(s.queues, s.born)
  }

  ghost function Abs(s: State): Queues
    requires Keyed(s)
  {
    Content(s.queues, s.born)
  }

  lemma InvKeyed(s: State)
    requires Inv(s)
    ensures Keyed(s)
  {
    forall p | 0 <= p < |s.queues|
      ensures Genuine(s.queues[p], p, s.born)
    {
      assert LagAt(s, p);
      assert forall n <- s.queues[p] :: n in Popped(s, p) + s.queues[p];
    }
  }

  /** The linearization points: the insert, the pop, and the purge. */
  ghost function EventOf(s: State, a: Action): Event
    requires Possible(s, a) && Keyed(s) && !PopsEmpty(s, a)
  {
    if a.Begin? then Silent
    else
      match s.pcs[a.t]
      case EInsert(j) => Inserted(j)
      case DPop(p) => Took(p, s.born[s.queues[p][0].key])
      case PErase(id) => Purged(id, |ListOf(s.index, id)|)
      case _ => Silent
  }

  lemma PurgeRefines(s: State, t: Tid, id: JobId)
    requires Inv(s) && Keyed(s) && t in s.pcs && s.pcs[t] == PErase(id)
    requires Keyed(Next(s, t))
    ensures Abs(Next(s, t)) == Filter(Abs(s), id)
    ensures |ListOf(s.index, id)| == Occurrences(Abs(s), id, |s.queues|)
  {
    assert LockView(s, t);
    AloneRep(s);
    RepPurge(s.queues, s.index, s.born, id);
    EraseEffect(s, t, id);
  }

  lemma EraseEffect(s: State, t: Tid, id: JobId)
    requires Shaped(s) && t in s.pcs && s.pcs[t] == PErase(id)
    requires forall e <- ListOf(s.index, id) :: e.job.prio < |s.queues|
    ensures Next(s, t).queues == EraseAll(s.queues, ListOf(s.index, id)) && Next(s, t).born == s.born
  {
  }

  lemma InsertRefines(s: State, t: Tid, j: Job)
    requires Keyed(s) && Shaped(s) && t in s.pcs && s.pcs[t] == EInsert(j)
    requires Keyed(Next(s, t))
    ensures Abs(Next(s, t)) == Append(Abs(s), j)
  {
    ContentAppend(s.queues, s.born, j);
  }

  lemma PopRefines(s: State, t: Tid, p: nat)
    requires Keyed(s) && Shaped(s) && t in s.pcs && s.pcs[t] == DPop(p) && s.queues[p] != []
    requires Keyed(Next(s, t))
    ensures Abs(Next(s, t)) == PopFront(Abs(s), p)
  {
    ContentPop(s.queues, s.born, p);
  }

  lemma ContentsUntouched(s: State, t: Tid)
    requires Shaped(s) && t in s.pcs
    requires !s.pcs[t].EInsert? && !s.pcs[t].DPop? && !s.pcs[t].PErase?
    ensures Effect(s, t).queues == s.queues && Effect(s, t).born == s.born
  {
  }

  lemma QuietRefines(s: State, t: Tid)
    requires Keyed(s) && Shaped(s) && t in s.pcs
    requires !s.pcs[t].EInsert? && !s.pcs[t].DPop? && !s.pcs[t].PErase?
    requires Keyed(Next(s, t))
    ensures Abs(Next(s, t)) == Abs(s)
  {
    ContentsUntouched(s, t);
    var e, pc := Effect(s, t), Target(s, t);
    assert Move(e, t, pc).queues == e.queues && Move(e, t, pc).born == e.born;
  }

  /** Every action is one step of the specification. */
  lemma ActionRefines(s: State, a: Action)
    requires Inv(s) && Possible(s, a) && !PopsEmpty(s, a)
    ensures Inv(Do(s, a)) && Keyed(s) && Keyed(Do(s, a))
    ensures SpecStep(Abs(s), EventOf(s, a), Abs(Do(s, a)))
  {
    InvKept(s, a);
    InvKeyed(s);
    InvKeyed(Do(s, a));
    if a.Take? {
      match s.pcs[a.t]
      case EInsert(j) => InsertRefines(s, a.t, j);
      case DPop(p) => PopRefines(s, a.t, p);
      case PErase(id) => PurgeRefines(s, a.t, id);
      case _ => QuietRefines(s, a.t);
    }
  }
}
