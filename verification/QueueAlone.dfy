/** A thread of the MultiQueue that is left alone: its steps as frames, the rest of the state and
    where the thread stands. */
module QueueAlone {
  import opened Jobs
  import opened Runs
  import opened QueueIndex
  import opened QueueSteps
  import opened QueueInvariant
  import opened QueueData

  /** Thread `t` is in no call and holds no lock. */
  ghost predicate Outside(s: State, t: Tid) {
    && Shaped(s) && s.fault == NoFault && t in s.pcs && s.pcs[t].Idle?
    && t !in s.shared && s.exclusive != Some(t) && s.indexLock != Some(t) && s.stateLock != Some(t)
    && forall p :: 0 <= p < |s.queueLocks| ==> s.queueLocks[p] != Some(t)
  }

  lemma IdleIsOutside(s: State, t: Tid)
    requires Inv(s) && t in s.pcs && s.pcs[t].Idle?
    ensures Outside(s, t)
  {
    assert LockView(s, t);
  }

  /** The locks that `pc` holds are free for `t` to have. */
  ghost predicate Has(s: State, pc: Pc) {
    && PrioOk(pc, |s.queues|)
    && (HoldsExclusive(pc) ==> s.exclusive.None?) && (HoldsIndex(pc) ==> s.indexLock.None?)
    && (HoldsState(pc) ==> s.stateLock.None?)
    && (QueueHeld(pc).Some? && QueueHeld(pc).value < |s.queueLocks| ==> s.queueLocks[QueueHeld(pc).value].None?)
  }

  lemma OwnerOn(o: Option<Tid>, t: Tid, a: bool, b: bool)
    requires o != Some(t) && (a ==> o.None?)
    ensures Owner(Owner(o, t, a), t, b) == Owner(o, t, b)
  {
  }

  lemma QueueLocksOn(s: State, t: Tid, a: Pc, b: Pc)
    requires Outside(s, t) && Has(s, a)
    ensures Move(Move(s, t, a), t, b).queueLocks == Move(s, t, b).queueLocks
  {
    var x, y := Move(Move(s, t, a), t, b), Move(s, t, b);
    forall p | 0 <= p < |s.queueLocks|
      ensures x.queueLocks[p] == y.queueLocks[p]
    {
      OwnerOn(s.queueLocks[p], t, QueueHeld(a) == Some(p), QueueHeld(b) == Some(p));
    }
  }

  /** Where a thread stands does not depend on how it got there. */
  lemma MovesOn(s: State, t: Tid, a: Pc, b: Pc)
    requires Outside(s, t) && Has(s, a)
    ensures Move(Move(s, t, a), t, b) == Move(s, t, b)
  {
    var x, y := Move(Move(s, t, a), t, b), Move(s, t, b);
    assert x.pcs == y.pcs;
    assert x.shared == y.shared;
    OwnerOn(s.exclusive, t, HoldsExclusive(a), HoldsExclusive(b));
    OwnerOn(s.indexLock, t, HoldsIndex(a), HoldsIndex(b));
    OwnerOn(s.stateLock, t, HoldsState(a), HoldsState(b));
    QueueLocksOn(s, t, a, b);
  }

  lemma MovesBack(s: State, t: Tid)
    requires Outside(s, t)
    ensures Move(s, t, Idle) == s
  {
    assert Move(s, t, Idle).pcs == s.pcs && Move(s, t, Idle).queueLocks == s.queueLocks;
  }

  /** The state with `t` at `pc` and no lock changed. */
  function Put(s: State, t: Tid, pc: Pc): State {
    s.(pcs := s.pcs[t := pc])
  }

  lemma PutShape(s: State, t: Tid, pc: Pc)
    requires Outside(s, t) && PrioOk(pc, |s.queues|)
    ensures Shaped(Put(s, t, pc)) && Shaped(Move(s, t, pc))
  {
  }

  /** The data of one state under the locks and program counters of another. */
  function Under(s: State, c: State): State {
    s.(pcs := c.pcs, stateLock := c.stateLock, exclusive := c.exclusive, shared := c.shared,
       queueLocks := c.queueLocks, indexLock := c.indexLock)
  }

  ghost predicate Alike(s: State, c: State, t: Tid) {
    Shaped(s) && Shaped(Under(s, c)) && t in s.pcs && t in c.pcs && s.pcs[t] == c.pcs[t]
  }

  /** What a step does does not depend on the locks, but for whether it can be taken. */
  lemma TargetAside(s: State, c: State, t: Tid)
    requires Alike(s, c, t)
    ensures Target(Under(s, c), t) == Target(s, t)
  {
  }

  lemma EffectAside(s: State, c: State, t: Tid)
    requires Alike(s, c, t)
    ensures Effect(Under(s, c), t) == Under(Effect(s, t), c)
  {
    var pc := s.pcs[t];
    if Producing(pc) {
      ProducingAside(s, c, t);
    } else if pc.DPop? || pc.DPopGate? {
      PopAside(s, c, t);
    } else if pc.DIndex? || pc.PErase? {
      IndexAside(s, c, t);
    } else if pc.DGate? || pc.DFlag? || pc.DRelease? {
      WaitAside(s, c, t);
    } else if pc.QSet? || pc.QGates? || pc.OTest? || pc.OGate? {
      ReleaseAside(s, c, t);
    }
  }

  lemma ProducingAside(s: State, c: State, t: Tid)
    requires Alike(s, c, t) && Producing(s.pcs[t])
    ensures Effect(Under(s, c), t) == Under(Effect(s, t), c)
  {
  }

  lemma PopAside(s: State, c: State, t: Tid)
    requires Alike(s, c, t) && (s.pcs[t].DPop? || s.pcs[t].DPopGate?)
    ensures Effect(Under(s, c), t) == Under(Effect(s, t), c)
  {
  }

  lemma IndexAside(s: State, c: State, t: Tid)
    requires Alike(s, c, t) && (s.pcs[t].DIndex? || s.pcs[t].PErase?)
    ensures Effect(Under(s, c), t) == Under(Effect(s, t), c)
  {
  }

  lemma WaitAside(s: State, c: State, t: Tid)
    requires Alike(s, c, t) && (s.pcs[t].DGate? || s.pcs[t].DFlag? || s.pcs[t].DRelease?)
    ensures Effect(Under(s, c), t) == Under(Effect(s, t), c)
  {
  }

  lemma ReleaseAside(s: State, c: State, t: Tid)
    requires Alike(s, c, t) && (s.pcs[t].QSet? || s.pcs[t].QGates? || s.pcs[t].OTest? || s.pcs[t].OGate?)
    ensures Effect(Under(s, c), t) == Under(Effect(s, t), c)
  {
  }

  lemma EnabledAside(s: State, t: Tid, pc: Pc)
    requires Outside(s, t) && Has(s, pc) && Shaped(Put(s, t, pc)) && Shaped(Move(s, t, pc)) && Enabled(Put(s, t, pc), t)
    ensures Enabled(Move(s, t, pc), t)
  {
  }

  /** Thread `t` at a program counter, the rest of the state as it would be without it. */
  datatype Frame = Frame(rest: State, pc: Pc)

  /** The step of `t` takes frame `f` to frame `g`. */
  ghost predicate Leads(f: Frame, t: Tid, g: Frame) {
    && Outside(f.rest, t) && Outside(g.rest, t) && SameControl(f.rest, g.rest) && Has(f.rest, f.pc)
    && Shaped(Put(f.rest, t, f.pc)) && Enabled(Put(f.rest, t, f.pc), t)
    && Effect(Put(f.rest, t, f.pc), t) == Put(g.rest, t, f.pc) && Target(Put(f.rest, t, f.pc), t) == g.pc
  }

  function Whole(f: Frame, t: Tid): State {
    Move(f.rest, t, f.pc)
  }

  lemma LeadsGoes(f: Frame, t: Tid, g: Frame)
    requires Leads(f, t, g)
    ensures Goes(Whole(f, t), Take(t), Whole(g, t))
  {
    var e, a := f.rest, f.pc;
    PutShape(e, t, a);
    EnabledAside(e, t, a);
    assert Under(Put(e, t, a), Move(e, t, a)) == Move(e, t, a);
    TargetAside(Put(e, t, a), Move(e, t, a), t);
    EffectAside(Put(e, t, a), Move(e, t, a), t);
    assert Effect(Move(e, t, a), t) == Move(g.rest, t, a);
    MovesOn(g.rest, t, a, g.pc);
  }

  ghost predicate Walk(fs: seq<Frame>, t: Tid) {
    |fs| > 0 && forall i :: 0 <= i < |fs| - 1 ==> Leads(fs[i], t, fs[i + 1])
  }

  /** Two walks of which one goes on where the other stops. */
  lemma Glued(a: seq<Frame>, b: seq<Frame>, t: Tid)
    requires Walk(a, t) && Walk(b, t) && a[|a| - 1] == b[0]
    ensures Walk(a + b[1..], t)
  {
    var fs := a + b[1..];
    forall i | 0 <= i < |fs| - 1
      ensures Leads(fs[i], t, fs[i + 1])
    {
      if i < |a| - 1 {
        assert Leads(a[i], t, a[i + 1]);
      } else {
        assert Leads(b[i - |a| + 1], t, b[i - |a| + 2]);
      }
    }
  }

  lemma OneStep(f: Frame, t: Tid, g: Frame)
    requires Leads(f, t, g)
    ensures Walk([f, g], t)
  {
  }

  /** A call of `t` and nothing but its steps: the whole run from `s`. */
  ghost predicate Plays(s: State, t: Tid, c: Call, states: seq<State>, actions: seq<Action>) {
    && Run(states, actions) && |actions| > 0 && states[0] == s && actions[0] == Begin(t, c)
    && forall i :: 0 < i < |actions| ==> actions[i] == Take(t)
  }

  function Played(s: State, t: Tid, fs: seq<Frame>): seq<State> {
    [s] + seq(|fs|, i requires 0 <= i < |fs| => Whole(fs[i], t))
  }

  function Moves(t: Tid, c: Call, n: nat): seq<Action> {
    seq(n, i => if i == 0 then Begin(t, c) else Take(t))
  }

  lemma Begins(s: State, t: Tid, c: Call)
    requires Outside(s, t) && CallOk(s, c)
    ensures Goes(s, Begin(t, c), Move(s, t, Entry0(c)))
  {
  }

  lemma WalkPlays(s: State, t: Tid, c: Call, fs: seq<Frame>)
    requires Outside(s, t) && CallOk(s, c) && Walk(fs, t) && fs[0] == Frame(s, Entry0(c))
    ensures Plays(s, t, c, Played(s, t, fs), Moves(t, c, |fs|))
    ensures Played(s, t, fs)[|fs|] == Whole(fs[|fs| - 1], t)
  {
    var states, actions := Played(s, t, fs), Moves(t, c, |fs|);
    forall i | 0 <= i < |actions|
      ensures Goes(states[i], actions[i], states[i + 1])
    {
      if i == 0 {
        Begins(s, t, c);
      } else {
        assert Leads(fs[i - 1], t, fs[i - 1 + 1]);
        LeadsGoes(fs[i - 1], t, fs[i]);
      }
    }
    LinkedIsRun(states, actions);
  }

  lemma WalkEnds(fs: seq<Frame>, t: Tid)
    requires Walk(fs, t) && |fs| > 1
    ensures Outside(fs[|fs| - 1].rest, t)
  {
    assert Leads(fs[|fs| - 2], t, fs[|fs| - 2 + 1]);
  }

  lemma PlaysBack(s: State, t: Tid, c: Call, fs: seq<Frame>)
    requires Outside(s, t) && CallOk(s, c) && Walk(fs, t) && fs[0] == Frame(s, Entry0(c)) && |fs| > 1
    requires fs[|fs| - 1].pc.Idle?
    ensures Plays(s, t, c, Played(s, t, fs), Moves(t, c, |fs|))
    ensures Played(s, t, fs)[|fs|] == fs[|fs| - 1].rest
  {
    WalkPlays(s, t, c, fs);
    WalkEnds(fs, t);
    MovesBack(fs[|fs| - 1].rest, t);
  }
}
