/** The throttler on top of the MultiQueue: both step systems at once, over the same threads.  A
    dequeuer enters the MultiQueue with its permit taken and leaves it to be counted; everybody else
    may call the MultiQueue at any time. */
module Composition {
  import opened Jobs
  import T = ThrottlerSteps
  import TI = ThrottlerInvariant
  import TR = ThrottlerRuns
  import Q = QueueSteps
  import QD = QueueData
  import QR = QueueRuns
  import QI = QueueIndex
  import QF = QueueRefinement

  datatype State = State(throttle: T.State, queue: Q.State)

  function Init(targets: seq<int>, threads: set<Tid>): State
    requires |targets| == 2
  {
    State(T.Init(targets, threads), Q.Init(1, threads))
  }

  datatype Action =
    | Throttle(a: T.Action)         // a step of the throttler outside the MultiQueue
    | Call(t: Tid, call: Q.Call)    // a thread enters the MultiQueue
    | Step(t: Tid)                  // and takes a step in it

  predicate Possible(s: State, x: Action) {
    match x
    case Throttle(a) =>
      T.Possible(s.throttle, a) && !a.Null? && !a.Queue? && (a.Take? ==> !s.throttle.pcs[a.t].Fetch?)
    case Call(t, c) =>
      && Q.Possible(s.queue, Q.Begin(t, c))
      && (c.Dequeue? ==> t in s.throttle.pcs && s.throttle.pcs[t] == T.Fetch(c.prio))
    case Step(t) => Q.Possible(s.queue, Q.Take(t)) && |s.queue.queues| == 2
  }

  /** The throttler sees the sizes of the two queues. */
  function Sized(th: T.State, queues: seq<seq<QI.Node>>): T.State
    requires |queues| == 2
  {
    th.(queued := [|queues[0]|, |queues[1]|])
  }

  /** A thread that returns from a Dequeue with a job goes on to count it, one that returns null to
      its decision. */
  function Returned(th: T.State, was: Q.Pc, now: Q.Pc, t: Tid): T.State {
    if now.Idle? && was.DIndex? then T.Move(th, t, T.Count(was.prio))
    else if now.Idle? && (was.DFlag? || was.DRelease?) then T.Move(th, t, T.Lock(T.Scheduled(was.prio, false)))
    else th
  }

  function Do(s: State, x: Action): State
    requires Possible(s, x)
  {
    match x
    case Throttle(a) => s.(throttle := T.Do(s.throttle, a))
    case Call(t, c) => s.(queue := Q.Do(s.queue, Q.Begin(t, c)))
    case Step(t) =>
      var queue := Q.Do(s.queue, Q.Take(t));
      if |queue.queues| == 2 then State(Returned(Sized(s.throttle, queue.queues), s.queue.pcs[t], queue.pcs[t], t), queue)
      else s.(queue := queue)
  }

  /** The priority a thread dequeues at. */
  function Dequeues(pc: Q.Pc): Option<nat> {
    if pc.DGate? || pc.DFlag? || pc.DShared? || pc.DTest? || pc.DRelease? || pc.DRetest? || pc.DQueue? || pc.DPop?
       || pc.DPopGate? || pc.DIndexLock? || pc.DIndex?
    then Some(pc.prio) else None
  }

  lemma DequeuesIs(pc: Q.Pc, p: nat)
    ensures QR.DequeuesAt(pc, p) <==> Dequeues(pc) == Some(p)
  {
  }

  /** Whoever dequeues inside the MultiQueue is past its throttle block, with the permit taken. */
  ghost predicate Licensed(outside: map<Tid, T.Pc>, inside: map<Tid, Q.Pc>) {
    forall t <- inside :: Dequeues(inside[t]).Some? ==> t in outside && outside[t] == T.Fetch(Dequeues(inside[t]).value)
  }

  ghost predicate Inv(s: State) {
    && TI.Inv(s.throttle) && QD.Inv(s.queue) && QR.SoleInv(s.queue)
    && |s.queue.queues| == 2 && s.throttle.queued == [|s.queue.queues[0]|, |s.queue.queues[1]|]
    && Licensed(s.throttle.pcs, s.queue.pcs)
  }

  // ----- the throttler's side -----

  lemma SizedInv(th: T.State, queues: seq<seq<QI.Node>>)
    requires TI.Inv(th) && |queues| == 2
    ensures TI.Inv(Sized(th, queues))
  {
    var a, b := T.Queue(0, |queues[0]|), T.Queue(1, |queues[1]|);
    TI.InvKept(th, a);
    TI.InvKept(T.Do(th, a), b);
    assert T.Do(T.Do(th, a), b).queued == Sized(th, queues).queued;
  }

  /** Leaving the MultiQueue with a job is a fetch of the throttler. */
  lemma FetchedInv(th: T.State, t: Tid, p: nat)
    requires TI.Inv(th) && t in th.pcs && th.pcs[t] == T.Fetch(p)
    ensures TI.Inv(T.Move(th, t, T.Count(p)))
  {
    assert T.PrioOk(th.pcs[t]);
    var a := T.Queue(p, th.queued[p] + 1);
    TI.InvKept(th, a);
    var th1 := T.Do(th, a);
    TI.InvKept(th1, T.Take(t));
    assert T.Do(th1, T.Take(t)).queued == th.queued;
    assert T.Do(th1, T.Take(t)) == T.Move(th, t, T.Count(p));
  }

  lemma ReturnedInv(th: T.State, was: Q.Pc, now: Q.Pc, t: Tid)
    requires TI.Inv(th)
    requires now.Idle? && (was.DIndex? || was.DFlag? || was.DRelease?) ==> t in th.pcs && th.pcs[t] == T.Fetch(was.prio)
    ensures TI.Inv(Returned(th, was, now, t))
  {
    if now.Idle? && was.DIndex? {
      FetchedInv(th, t, was.prio);
    } else if now.Idle? && (was.DFlag? || was.DRelease?) {
      TI.InvKept(th, T.Null(t));
    }
  }

  // ----- the MultiQueue's side -----

  /** The permit makes a dequeuer the only one of its priority. */
  lemma PermitIsSole(th: T.State, mq: Q.State, t: Tid, p: nat)
    requires TI.Inv(th) && Licensed(th.pcs, mq.pcs) && t in th.pcs && th.pcs[t] == T.Fetch(p)
    ensures QR.Sole(mq, Q.Begin(t, Q.Dequeue(p)))
  {
    assert T.PrioOk(th.pcs[t]);
    forall u <- mq.pcs
      ensures u != t ==> !QR.DequeuesAt(mq.pcs[u], p)
    {
      DequeuesIs(mq.pcs[u], p);
      if Dequeues(mq.pcs[u]) == Some(p) {
        TR.SoleHolder(th, p, t, u);
      }
    }
  }

  /** Outside the MultiQueue nobody leaves the fetch. */
  lemma ThrottleLinked(th: T.State, inside: map<Tid, Q.Pc>, a: T.Action)
    requires T.Possible(th, a) && !a.Null? && !a.Queue? && (a.Take? ==> !th.pcs[a.t].Fetch?) && Licensed(th.pcs, inside)
    ensures Licensed(T.Do(th, a).pcs, inside) && T.Do(th, a).queued == th.queued
  {
    var th' := T.Do(th, a);
    forall t <- inside
      ensures Dequeues(inside[t]).Some? ==> t in th'.pcs && th'.pcs[t] == T.Fetch(Dequeues(inside[t]).value)
    {
      assert t in th.pcs && th.pcs[t].Fetch? ==> t in th'.pcs && th'.pcs[t] == th.pcs[t];
    }
  }

  lemma ThrottleKeeps(s: State, a: T.Action)
    requires Inv(s) && Possible(s, Throttle(a))
    ensures Inv(Do(s, Throttle(a)))
  {
    TI.InvKept(s.throttle, a);
    ThrottleLinked(s.throttle, s.queue.pcs, a);
  }

  lemma CallKeeps(s: State, t: Tid, c: Q.Call)
    requires Inv(s) && Possible(s, Call(t, c))
    ensures Inv(Do(s, Call(t, c)))
  {
    if c.Dequeue? {
      PermitIsSole(s.throttle, s.queue, t, c.prio);
    }
    QR.SoleKept(s.queue, Q.Begin(t, c));
    EntryLinked(s.throttle.pcs, s.queue.pcs, t, c);
    BeginShape(s.queue, t, c);
  }

  lemma BeginShape(mq: Q.State, t: Tid, c: Q.Call)
    requires Q.Possible(mq, Q.Begin(t, c))
    ensures var mq' := Q.Do(mq, Q.Begin(t, c)); mq'.queues == mq.queues && mq'.pcs == mq.pcs[t := Q.Entry0(c)]
  {
  }

  lemma EntryLinked(outside: map<Tid, T.Pc>, inside: map<Tid, Q.Pc>, t: Tid, c: Q.Call)
    requires Licensed(outside, inside) && (c.Dequeue? ==> t in outside && outside[t] == T.Fetch(c.prio))
    ensures Licensed(outside, inside[t := Q.Entry0(c)])
  {
  }

  /** A step inside a call stays with its priority until the call returns. */
  lemma StepPriority(mq: Q.State, t: Tid)
    requires Q.Shaped(mq) && t in mq.pcs
    ensures var was, now := mq.pcs[t], Q.Target(mq, t);
            && (Dequeues(now).Some? ==> Dequeues(was) == Dequeues(now))
            && (Dequeues(was).Some? && Dequeues(now).None? ==> now.Idle? && (was.DIndex? || was.DFlag? || was.DRelease?))
  {
  }

  lemma StepShape(mq: Q.State, t: Tid)
    requires Q.Possible(mq, Q.Take(t))
    ensures var mq' := Q.Do(mq, Q.Take(t)); |mq'.queues| == |mq.queues| && mq'.pcs == mq.pcs[t := Q.Target(mq, t)]
  {
  }

  lemma StepLinked(th: T.State, inside: map<Tid, Q.Pc>, t: Tid, now: Q.Pc)
    requires t in inside && Licensed(th.pcs, inside) && (Dequeues(now).Some? ==> Dequeues(inside[t]) == Dequeues(now))
    ensures Licensed(Returned(th, inside[t], now, t).pcs, inside[t := now])
  {
    var th', was := Returned(th, inside[t], now, t), inside[t];
    forall u <- inside[t := now]
      ensures Dequeues(inside[t := now][u]).Some? ==>
                u in th'.pcs && th'.pcs[u] == T.Fetch(Dequeues(inside[t := now][u]).value)
    {
      assert u != t ==> u in inside && (u in th.pcs ==> u in th'.pcs && th'.pcs[u] == th.pcs[u]);
    }
  }

  lemma StepKeeps(s: State, t: Tid)
    requires Inv(s) && Possible(s, Step(t))
    ensures Inv(Do(s, Step(t)))
  {
    QR.SoleKept(s.queue, Q.Take(t));
    StepShape(s.queue, t);
    StepPriority(s.queue, t);
    var queue := Q.Do(s.queue, Q.Take(t));
    StepThrottle(s.throttle, queue.queues, s.queue.pcs, t, queue.pcs[t]);
  }

  lemma StepThrottle(th: T.State, queues: seq<seq<QI.Node>>, inside: map<Tid, Q.Pc>, t: Tid, now: Q.Pc)
    requires TI.Inv(th) && |queues| == 2 && t in inside && Licensed(th.pcs, inside)
    requires Dequeues(now).Some? ==> Dequeues(inside[t]) == Dequeues(now)
    ensures var th' := Returned(Sized(th, queues), inside[t], now, t);
            && TI.Inv(th') && th'.queued == [|queues[0]|, |queues[1]|] && Licensed(th'.pcs, inside[t := now])
  {
    SizedInv(th, queues);
    ReturnedInv(Sized(th, queues), inside[t], now, t);
    StepLinked(Sized(th, queues), inside, t, now);
  }

  lemma InvKept(s: State, x: Action)
    requires Inv(s) && Possible(s, x)
    ensures Inv(Do(s, x))
  {
    match x
    case Throttle(a) => ThrottleKeeps(s, a);
    case Call(t, c) => CallKeeps(s, t, c);
    case Step(t) => StepKeeps(s, t);
  }

  lemma InvInit(targets: seq<int>, threads: set<Tid>)
    requires |targets| == 2
    ensures Inv(Init(targets, threads))
  {
    TI.InvInit(targets, threads);
    QR.SoleInit(1, threads);
  }

  // ----- runs -----

  ghost predicate Run(states: seq<State>, actions: seq<Action>) {
    && |states| == |actions| + 1
    && forall i :: 0 <= i < |actions| ==> Possible(states[i], actions[i]) && states[i + 1] == Do(states[i], actions[i])
  }

  lemma {:induction false} RunInv(states: seq<State>, actions: seq<Action>, k: nat)
    requires Run(states, actions) && Inv(states[0]) && k < |states|
    ensures Inv(states[k])
  {
    if k > 0 {
      RunInv(states, actions, k - 1);
      InvKept(states[k - 1], actions[k - 1]);
    }
  }

  /** Under the throttler any number of threads may dequeue at either priority, with any purges and
      releases: no run pops an empty list or fails a lookup, whoever is in a MultiQueue dequeue holds
      the permit of that priority, there is at most one, and the sizes a decision reads are those of the
      queues. */
  lemma ThrottledNeverFaults(states: seq<State>, actions: seq<Action>, targets: seq<int>, threads: set<Tid>, k: nat)
    requires |targets| == 2 && Run(states, actions) && states[0] == Init(targets, threads) && k < |states|
    ensures states[k].queue.fault == Q.NoFault && |states[k].queue.queues| == 2
    ensures states[k].throttle.queued == [|states[k].queue.queues[0]|, |states[k].queue.queues[1]|]
    ensures Licensed(states[k].throttle.pcs, states[k].queue.pcs) && QR.Unique(states[k].queue.pcs)
  {
    InvInit(targets, threads);
    RunInv(states, actions, k);
  }

  /** So each step inside the MultiQueue is a step of one job sequence per priority. */
  lemma ThrottledRefines(states: seq<State>, actions: seq<Action>, targets: seq<int>, threads: set<Tid>, k: nat)
    requires |targets| == 2 && Run(states, actions) && states[0] == Init(targets, threads) && k < |actions|
    requires actions[k].Step?
    ensures var q, a := states[k].queue, Q.Take(actions[k].t);
            && Q.Possible(q, a) && !QD.PopsEmpty(q, a) && QF.Keyed(q) && QF.Keyed(states[k + 1].queue)
            && QF.SpecStep(QF.Abs(q), QF.EventOf(q, a), QF.Abs(states[k + 1].queue))
  {
    InvInit(targets, threads);
    RunInv(states, actions, k);
    var q, a := states[k].queue, Q.Take(actions[k].t);
    QR.SoleKept(q, a);
    QF.ActionRefines(q, a);
  }
}
