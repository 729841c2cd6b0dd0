/** What every step of every interleaving keeps: who holds which lock, and how far the
    index may lag behind the queues. */
module QueueInvariant {
  import opened Jobs
  import opened QueueSteps

  // ----- locks -----

  /** The lock fields say exactly what the program counters say. */
  ghost predicate LockView(s: State, t: Tid)
    requires Shaped(s) && t in s.pcs
  {
    var pc := s.pcs[t];
    && (HoldsShared(pc) <==> t in s.shared)
    && (HoldsExclusive(pc) <==> s.exclusive == Some(t))
    && (HoldsIndex(pc) <==> s.indexLock == Some(t))
    && (HoldsState(pc) <==> s.stateLock == Some(t))
    && forall p :: 0 <= p < |s.queueLocks| ==> (QueueHeld(pc) == Some(p) <==> s.queueLocks[p] == Some(t))
  }

  /** Owners are threads, and the purge lock is shared or exclusive but not both. */
  ghost predicate Owned(s: State) {
    && s.shared <= s.pcs.Keys
    && (s.exclusive.Some? ==> s.exclusive.value in s.pcs && s.shared == {})
    && (s.indexLock.Some? ==> s.indexLock.value in s.pcs)
    && (s.stateLock.Some? ==> s.stateLock.value in s.pcs)
    && (forall p :: 0 <= p < |s.queueLocks| && s.queueLocks[p].Some? ==> s.queueLocks[p].value in s.pcs)
  }

  ghost predicate Locks(s: State) {
    Shaped(s) && Owned(s) && forall t <- s.pcs :: LockView(s, t)
  }

  /** The locks a program counter holds are free for `t` to take, or already its own. */
  ghost predicate Grants(s: State, t: Tid, pc: Pc)
    requires Shaped(s)
  {
    && PrioOk(pc, |s.queues|)
    && (HoldsShared(pc) ==> t in s.shared || s.exclusive.None?)
    && (HoldsExclusive(pc) ==> s.exclusive == Some(t) || (s.exclusive.None? && s.shared == {}))
    && (HoldsIndex(pc) ==> s.indexLock.None? || s.indexLock == Some(t))
    && (HoldsState(pc) ==> s.stateLock.None? || s.stateLock == Some(t))
    && (QueueHeld(pc).Some? ==>
          var x := s.queueLocks[QueueHeld(pc).value]; x.None? || x == Some(t))
  }

  lemma LockViewMoved(s: State, t: Tid, pc: Pc, u: Tid)
    requires Locks(s) && t in s.pcs && u in s.pcs && Grants(s, t, pc)
    requires Shaped(Move(s, t, pc))
    ensures LockView(Move(s, t, pc), u)
  {
    assert LockView(s, u) && LockView(s, t);
  }

  lemma OwnedMoved(s: State, t: Tid, pc: Pc)
    requires Shaped(s) && Owned(s) && t in s.pcs && LockView(s, t) && Grants(s, t, pc)
    ensures Shaped(Move(s, t, pc)) && Owned(Move(s, t, pc))
  {
  }

  lemma LocksMoved(s: State, t: Tid, pc: Pc)
    requires Locks(s) && t in s.pcs && Grants(s, t, pc)
    ensures Locks(Move(s, t, pc))
  {
    assert LockView(s, t);
    OwnedMoved(s, t, pc);
    var s' := Move(s, t, pc);
    forall u <- s'.pcs
      ensures LockView(s', u)
    {
      LockViewMoved(s, t, pc, u);
    }
  }

  lemma LocksSame(s: State, s': State)
    requires Locks(s) && SameControl(s, s')
    ensures Locks(s')
    ensures forall t, pc :: Grants(s, t, pc) ==> Grants(s', t, pc)
  {
    forall t <- s'.pcs
      ensures LockView(s', t)
    {
      assert LockView(s, t);
    }
  }

  lemma LocksInit(maxPrio: nat, threads: set<Tid>)
    ensures Locks(Init(maxPrio, threads))
  {
  }

  predicate Producing(pc: Pc) {
    pc.EShared? || pc.EQueue? || pc.EInsert? || pc.EGate? || pc.EIndexLock? || pc.EIndex?
  }

  predicate Consuming(pc: Pc) {
    pc.DGate? || pc.DFlag? || pc.DShared? || pc.DTest? || pc.DRelease? || pc.DRetest? ||
    pc.DQueue? || pc.DPop? || pc.DPopGate? || pc.DIndexLock? || pc.DIndex?
  }

  lemma GrantedProducing(s: State, t: Tid)
    requires Locks(s) && t in s.pcs && Enabled(s, t) && Producing(s.pcs[t])
    ensures Grants(s, t, Target(s, t))
  {
    assert LockView(s, t);
  }

  lemma GrantedConsuming(s: State, t: Tid)
    requires Locks(s) && t in s.pcs && Enabled(s, t) && Consuming(s.pcs[t])
    ensures Grants(s, t, Target(s, t))
  {
    assert LockView(s, t);
  }

  lemma GrantedOther(s: State, t: Tid)
    requires Locks(s) && t in s.pcs && Enabled(s, t) && !Producing(s.pcs[t]) && !Consuming(s.pcs[t])
    ensures Grants(s, t, Target(s, t))
  {
    assert LockView(s, t);
  }

  lemma Granted(s: State, t: Tid)
    requires Locks(s) && t in s.pcs && Enabled(s, t)
    ensures Grants(s, t, Target(s, t))
  {
    if Producing(s.pcs[t]) {
      GrantedProducing(s, t);
    } else if Consuming(s.pcs[t]) {
      GrantedConsuming(s, t);
    } else {
      GrantedOther(s, t);
    }
  }

  lemma LocksNext(s: State, t: Tid)
    requires Locks(s) && t in s.pcs && Enabled(s, t)
    ensures Locks(Next(s, t))
  {
    Granted(s, t);
    LocksSame(s, Effect(s, t));
    LocksMoved(Effect(s, t), t, Target(s, t));
  }

  lemma LocksKept(s: State, a: Action)
    requires Locks(s) && Possible(s, a)
    ensures Locks(Do(s, a))
  {
    match a
    case Begin(t, c) => LocksMoved(s, t, Entry0(c));
    case Take(t) => LocksNext(s, t);
  }
}
