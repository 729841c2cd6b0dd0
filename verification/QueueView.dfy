/** States in which only one priority is in use, and the steps between them: a small window on
    the step system through which example runs can be followed. */
module QueueView {
  import opened Jobs
  import opened Runs
  import opened QueueIndex
  import opened QueueSteps

  /** What matters of a state whose queues are empty but for priority `p` of `m + 1`. */
  datatype View = View(
    m: nat,
    p: nat,
    queue: seq<Node>,
    index: Index,
    gate: bool,
    flag: bool,
    shared: set<Tid>,
    exclusive: Option<Tid>,
    queueLock: Option<Tid>,
    indexLock: Option<Tid>,
    pcs: map<Tid, Pc>,
    born: seq<Job>)

  /** The constructor's gates: all locked but the last. */
  function Whole(v: View): State {
    State(seq(v.m + 1, i => if i == v.p then v.queue else []), v.index,
          seq(v.m + 1, i => if i == v.p then v.gate else i == v.m), seq(v.m + 1, i => i == v.p && v.flag), false,
          None, v.exclusive, v.shared, seq(v.m + 1, i => if i == v.p then v.queueLock else None), v.indexLock,
          v.pcs, v.born, NoFault)
  }

  function Start(m: nat, p: nat, threads: set<Tid>): View {
    View(m, p, [], map[], p == m, false, {}, None, None, None, map t <- threads :: Idle, [])
  }

  lemma StartIsInit(m: nat, p: nat, threads: set<Tid>)
    requires p <= m
    ensures Whole(Start(m, p, threads)) == Init(m, threads)
  {
    var s, s' := Whole(Start(m, p, threads)), Init(m, threads);
    assert s.queues == s'.queues && s.gates == s'.gates && s.flags == s'.flags && s.queueLocks == s'.queueLocks;
  }

  predicate Fits(v: View) {
    v.p <= v.m && forall t <- v.pcs :: PrioOk(v.pcs[t], v.m + 1)
  }

  /** A program counter at work on priority `p`, outside throttler decisions. */
  predicate Here(pc: Pc, p: nat) {
    && !HoldsState(pc) && (QueueHeld(pc).Some? ==> QueueHeld(pc) == Some(p))
  }

  /** Moving one thread. */
  function At(v: View, t: Tid, pc: Pc): View {
    v.(pcs := v.pcs[t := pc],
    shared := if HoldsShared(pc) then v.shared + {t} else v.shared - {t},
    exclusive := Owner(v.exclusive, t, HoldsExclusive(pc)),
    indexLock := Owner(v.indexLock, t, HoldsIndex(pc)),
    queueLock := Owner(v.queueLock, t, QueueHeld(pc) == Some(v.p)))
  }

  lemma AtMoves(v: View, t: Tid, pc: Pc)
    requires Fits(v) && Here(pc, v.p)
    ensures Move(Whole(v), t, pc) == Whole(At(v, t, pc))
  {
    assert Move(Whole(v), t, pc).queueLocks == Whole(At(v, t, pc)).queueLocks;
  }

  /** The next view of a thread at work on `p`: through an Enqueue, through a Dequeue that finds a
      job up to the index lookup, or through a ReleaseOne on an empty queue. */
  function Stepped(v: View, t: Tid): Option<View>
    requires t in v.pcs
  {
    match v.pcs[t]
    case EShared(j) => if j.prio == v.p && v.exclusive.None? then Some(At(v, t, EQueue(j))) else None
    case EQueue(j) => if j.prio == v.p && v.queueLock.None? then Some(At(v, t, EInsert(j))) else None
    case EInsert(j) =>
      var n := Node(|v.born|, j.id);
      if j.prio == v.p then Some(At(v.(queue := v.queue + [n], born := v.born + [j]), t, EGate(j, n))) else None
    case EGate(j, n) =>
      if j.prio == v.p then Some(At(v.(gate := v.gate || |v.queue| == 1), t, EIndexLock(j, n))) else None
    case EIndexLock(j, n) => if j.prio == v.p && v.indexLock.None? then Some(At(v, t, EIndex(j, n))) else None
    case EIndex(j, n) =>
      if j.prio == v.p then Some(At(v.(index := Indexed(v.index, Entry(j, n))), t, Idle)) else None
    case DGate(p) => if p == v.p && v.gate then Some(At(v.(gate := false), t, DFlag(p))) else None
    case DFlag(p) =>
      if p == v.p then Some(At(v.(flag := false), t, if v.flag then Idle else DShared(p))) else None
    case DShared(p) => if p == v.p && v.exclusive.None? then Some(At(v, t, DTest(p))) else None
    case DTest(p) => if p == v.p then Some(At(v, t, DRetest(p))) else None
    case DRetest(p) => if p == v.p && v.queue != [] then Some(At(v, t, DQueue(p))) else None
    case DQueue(p) => if p == v.p && v.queueLock.None? then Some(At(v, t, DPop(p))) else None
    case DPop(p) =>
      if p == v.p && v.queue != [] then Some(At(v.(queue := v.queue[1..]), t, DPopGate(p, v.queue[0]))) else None
    case DPopGate(p, n) =>
      if p == v.p then Some(At(v.(gate := v.gate || v.queue != []), t, DIndexLock(p, n))) else None
    case DIndexLock(p, n) => if p == v.p && v.indexLock.None? then Some(At(v, t, DIndex(p, n))) else None
    case OLock(p, false) =>
      if p == v.p && v.exclusive.None? && v.shared == {} then Some(At(v, t, OQueue(p, false))) else None
    case OQueue(p, false) => if p == v.p && v.queueLock.None? then Some(At(v, t, OTest(p, false))) else None
    case OTest(p, false) =>
      if p == v.p && v.queue == [] then Some(At(v.(flag := true), t, OGate(p, false))) else None
    case OGate(p, false) => if p == v.p then Some(At(v.(gate := true), t, Idle)) else None
    case _ => None
  }

  lemma InsertStep(v: View, t: Tid, pc: Pc)
    requires Fits(v) && t in v.pcs && pc == v.pcs[t] && Stepped(v, t).Some? && (pc.EInsert? || pc.EGate?)
    ensures Goes(Whole(v), Take(t), Whole(Stepped(v, t).value))
  {
    var s := Whole(v);
    var w := if pc.EInsert? then v.(queue := v.queue + [Node(|v.born|, pc.job.id)], born := v.born + [pc.job])
             else v.(gate := v.gate || |v.queue| == 1);
    var e := Effect(s, t);
    assert e.queues == Whole(w).queues && e.gates == Whole(w).gates;
    assert e == Whole(w);
    AtMoves(w, t, Target(s, t));
  }

  lemma EnqueueStep(v: View, t: Tid, pc: Pc)
    requires Fits(v) && t in v.pcs && pc == v.pcs[t] && Stepped(v, t).Some?
    requires pc.EShared? || pc.EQueue? || pc.EIndexLock? || pc.EIndex?
    ensures Goes(Whole(v), Take(t), Whole(Stepped(v, t).value))
  {
    var s := Whole(v);
    var w := if pc.EIndex? then v.(index := Indexed(v.index, Entry(pc.job, pc.node))) else v;
    assert Effect(s, t) == Whole(w);
    AtMoves(w, t, Target(s, t));
  }

  lemma PassStep(v: View, t: Tid, pc: Pc)
    requires Fits(v) && t in v.pcs && pc == v.pcs[t] && Stepped(v, t).Some?
    requires pc.DGate? || pc.DFlag? || pc.DShared? || pc.DTest? || pc.DRetest?
    ensures Goes(Whole(v), Take(t), Whole(Stepped(v, t).value))
  {
    var s := Whole(v);
    var w := if pc.DGate? then v.(gate := false) else if pc.DFlag? then v.(flag := false) else v;
    var e := Effect(s, t);
    assert e.gates == Whole(w).gates && e.flags == Whole(w).flags;
    assert e == Whole(w);
    AtMoves(w, t, Target(s, t));
  }

  lemma PopStep(v: View, t: Tid, pc: Pc)
    requires Fits(v) && t in v.pcs && pc == v.pcs[t] && Stepped(v, t).Some? && (pc.DPop? || pc.DPopGate?)
    ensures Goes(Whole(v), Take(t), Whole(Stepped(v, t).value))
  {
    var s := Whole(v);
    var w := if pc.DPop? then v.(queue := v.queue[1..]) else v.(gate := v.gate || v.queue != []);
    var e := Effect(s, t);
    assert e.queues == Whole(w).queues && e.gates == Whole(w).gates;
    assert e == Whole(w);
    AtMoves(w, t, Target(s, t));
  }

  lemma LockStep(v: View, t: Tid, pc: Pc)
    requires Fits(v) && t in v.pcs && pc == v.pcs[t] && Stepped(v, t).Some? && (pc.DQueue? || pc.DIndexLock?)
    ensures Goes(Whole(v), Take(t), Whole(Stepped(v, t).value))
  {
    AtMoves(v, t, Target(Whole(v), t));
  }

  lemma ReleaseStep(v: View, t: Tid, pc: Pc)
    requires Fits(v) && t in v.pcs && pc == v.pcs[t] && Stepped(v, t).Some?
    requires pc.OLock? || pc.OQueue? || pc.OTest? || pc.OGate?
    ensures Goes(Whole(v), Take(t), Whole(Stepped(v, t).value))
  {
    var s := Whole(v);
    var w := if pc.OTest? then v.(flag := true) else if pc.OGate? then v.(gate := true) else v;
    var e := Effect(s, t);
    assert e.gates == Whole(w).gates && e.flags == Whole(w).flags;
    assert e == Whole(w);
    AtMoves(w, t, Target(s, t));
  }

  /** One step between views. */
  ghost predicate Steps(v: View, a: Action, v': View) {
    && a.t in v.pcs
    && match a
       case Begin(t, c) => v.pcs[t].Idle? && Calls(c, v.p) && v' == At(v, t, Entry0(c))
       case Take(t) => Stepped(v, t).Some? && Stepped(v, t).value == v'
  }

  predicate Calls(c: Call, p: nat) {
    match c
    case Enqueue(j) => j.prio == p
    case Dequeue(r) => r == p
    case ReleaseOne(r) => r == p
    case _ => false
  }

  lemma StepsGo(v: View, a: Action, v': View)
    requires Fits(v) && Steps(v, a, v')
    ensures Goes(Whole(v), a, Whole(v'))
  {
    match a
    case Begin(t, c) => AtMoves(v, t, Entry0(c));
    case Take(t) =>
      var pc := v.pcs[t];
      if pc.EInsert? || pc.EGate? {
        InsertStep(v, t, pc);
      } else if pc.EShared? || pc.EQueue? || pc.EIndexLock? || pc.EIndex? {
        EnqueueStep(v, t, pc);
      } else if pc.DGate? || pc.DFlag? || pc.DShared? || pc.DTest? || pc.DRetest? {
        PassStep(v, t, pc);
      } else if pc.DPop? || pc.DPopGate? {
        PopStep(v, t, pc);
      } else if pc.DQueue? || pc.DIndexLock? {
        LockStep(v, t, pc);
      } else {
        ReleaseStep(v, t, pc);
      }
  }

  function Wholes(vs: seq<View>): seq<State> {
    seq(|vs|, i requires 0 <= i < |vs| => Whole(vs[i]))
  }

  lemma AtFits(v: View, t: Tid, pc: Pc)
    requires Fits(v) && PrioOk(pc, v.m + 1)
    ensures Fits(At(v, t, pc))
  {
  }

  lemma SteppedFits(v: View, t: Tid, pc: Pc)
    requires Fits(v) && t in v.pcs && pc == v.pcs[t] && Stepped(v, t).Some?
    ensures Fits(Stepped(v, t).value)
  {
    var w := Stepped(v, t).value;
    if Dequeueing(pc) {
      DequeuePc(v, t, pc);
    } else {
      OtherPc(v, t, pc);
    }
    assert forall u <- w.pcs :: u == t || w.pcs[u] == v.pcs[u];
  }

  predicate Dequeueing(pc: Pc) {
    pc.DGate? || pc.DFlag? || pc.DShared? || pc.DTest? || pc.DRetest? || pc.DQueue? || pc.DPop? || pc.DPopGate? || pc.DIndexLock?
  }

  lemma DequeuePc(v: View, t: Tid, pc: Pc)
    requires v.p <= v.m && t in v.pcs && pc == v.pcs[t] && Stepped(v, t).Some? && Dequeueing(pc)
    ensures var w := Stepped(v, t).value;
            w.p == v.p && w.m == v.m && t in w.pcs && w.pcs == v.pcs[t := w.pcs[t]] && PrioOk(w.pcs[t], v.m + 1)
  {
  }

  lemma OtherPc(v: View, t: Tid, pc: Pc)
    requires v.p <= v.m && t in v.pcs && pc == v.pcs[t] && Stepped(v, t).Some? && !Dequeueing(pc)
    ensures var w := Stepped(v, t).value;
            w.p == v.p && w.m == v.m && t in w.pcs && w.pcs == v.pcs[t := w.pcs[t]] && PrioOk(w.pcs[t], v.m + 1)
  {
  }

  lemma StepsFit(v: View, a: Action, v': View)
    requires Fits(v) && Steps(v, a, v')
    ensures Fits(v')
  {
    match a
    case Begin(t, c) => AtFits(v, t, Entry0(c));
    case Take(t) => SteppedFits(v, t, v.pcs[t]);
  }

  lemma {:induction false} WalkFits(vs: seq<View>, actions: seq<Action>, k: nat)
    requires Linked(Steps, vs, actions) && Fits(vs[0]) && k < |vs|
    ensures Fits(vs[k])
  {
    if k > 0 {
      WalkFits(vs, actions, k - 1);
      assert Steps(vs[k - 1], actions[k - 1], vs[k]);
      StepsFit(vs[k - 1], actions[k - 1], vs[k]);
    }
  }

  lemma WalkIsRun(vs: seq<View>, actions: seq<Action>)
    requires Linked(Steps, vs, actions) && Fits(vs[0])
    ensures Run(Wholes(vs), actions)
  {
    forall i | 0 <= i < |actions|
      ensures Goes(Wholes(vs)[i], actions[i], Wholes(vs)[i + 1])
    {
      WalkFits(vs, actions, i);
      assert Steps(vs[i], actions[i], vs[i + 1]);
      StepsGo(vs[i], actions[i], vs[i + 1]);
    }
    LinkedIsRun(Wholes(vs), actions);
  }
}
