/** What the throttler promises about the jobs that leave the MultiQueue, counted at the MultiQueue
    and at the jobs' ends, whatever the throttler keeps in between. */
module CompositionBound {
  import opened Jobs
  import opened Composition
  import T = ThrottlerSteps
  import TI = ThrottlerInvariant
  import TR = ThrottlerRuns
  import Q = QueueSteps

  // ----- what a run does, seen from outside -----

  /** The step returns from a MultiQueue dequeue at `p` with a job. */
  predicate Hands(s: State, x: Action, s': State, p: nat) {
    && x.Step? && x.t in s.queue.pcs && s.queue.pcs[x.t].DIndex? && s.queue.pcs[x.t].prio == p
    && x.t in s'.queue.pcs && s'.queue.pcs[x.t].Idle?
  }

  /** The step ends a job of priority `p`. */
  predicate Ends(x: Action, p: nat) {
    x.Throttle? && x.a.Finish? && x.a.prio == p
  }

  /** The step takes a permit of `p`. */
  predicate TakesPermit(s: State, x: Action, p: nat) {
    x.Throttle? && x.a.Take? && x.a.t in s.throttle.pcs && s.throttle.pcs[x.a.t] == T.Block(p)
  }

  /** The step enters the MultiQueue to dequeue at `p`. */
  predicate Enters(x: Action, p: nat) {
    x.Call? && x.call == Q.Dequeue(p)
  }

  ghost function Handed(states: seq<State>, actions: seq<Action>, k: nat, p: nat): nat
    requires k <= |actions| < |states|
  {
    if k == 0 then 0
    else Handed(states, actions, k - 1, p) + One(Hands(states[k - 1], actions[k - 1], states[k], p))
  }

  ghost function Ended(actions: seq<Action>, k: nat, p: nat): nat
    requires k <= |actions|
  {
    if k == 0 then 0 else Ended(actions, k - 1, p) + One(Ends(actions[k - 1], p))
  }

  ghost function Permits(states: seq<State>, actions: seq<Action>, k: nat, p: nat): nat
    requires k <= |actions| < |states|
  {
    if k == 0 then 0
    else Permits(states, actions, k - 1, p) + One(TakesPermit(states[k - 1], actions[k - 1], p))
  }

  ghost function Entered(actions: seq<Action>, k: nat, p: nat): nat
    requires k <= |actions|
  {
    if k == 0 then 0 else Entered(actions, k - 1, p) + One(Enters(actions[k - 1], p))
  }

  // ----- jobs out -----

  /** The jobs of `p` that exist, as the throttler keeps track of them. */
  ghost function Out(th: T.State, p: nat): int
    requires T.Shaped(th) && p < 2
  {
    th.count[p] + |TI.Where(th.pcs, TI.Uncounted(p))|
  }

  lemma OutThrottle(th: T.State, a: T.Action, p: nat)
    requires TI.Inv(th) && T.Possible(th, a) && p < 2 && !a.Null? && !a.Queue? && (a.Take? ==> !th.pcs[a.t].Fetch?)
    requires T.Shaped(T.Do(th, a))
    ensures Out(T.Do(th, a), p) == Out(th, p) - One(a.Finish? && a.prio == p)
  {
    if !a.SetThrottle? {
      TI.WhereMoved(th.pcs, a.t, T.Do(th, a).pcs[a.t], TI.Uncounted(p));
    }
  }

  lemma OutReturned(th: T.State, was: Q.Pc, now: Q.Pc, t: Tid, p: nat)
    requires T.Shaped(th) && p < 2 && T.Shaped(Returned(th, was, now, t))
    requires Dequeues(was).Some? ==> t in th.pcs && th.pcs[t] == T.Fetch(was.prio)
    ensures Out(Returned(th, was, now, t), p) == Out(th, p) + One(was.DIndex? && was.prio == p && now.Idle?)
  {
    var th' := Returned(th, was, now, t);
    if Dequeues(was).Some? {
      TI.WhereMoved(th.pcs, t, th'.pcs[t], TI.Uncounted(p));
      assert th'.pcs == th.pcs[t := th'.pcs[t]];
    }
  }

  lemma OutStep(s: State, x: Action, p: nat)
    requires Inv(s) && Possible(s, x) && Inv(Do(s, x)) && p < 2
    ensures Out(Do(s, x).throttle, p) == Out(s.throttle, p) + One(Hands(s, x, Do(s, x), p)) - One(Ends(x, p))
  {
    match x
    case Throttle(a) => OutThrottle(s.throttle, a, p);
    case Call(t, c) =>
    case Step(t) =>
      StepShape(s.queue, t);
      var queue := Q.Do(s.queue, Q.Take(t));
      OutReturned(Sized(s.throttle, queue.queues), s.queue.pcs[t], queue.pcs[t], t, p);
  }

  /** The throttler's books always agree with what has left the MultiQueue and not ended. */
  lemma {:induction false} BooksAgree(states: seq<State>, actions: seq<Action>, targets: seq<int>, threads: set<Tid>, k: nat, p: nat)
    requires |targets| == 2 && Run(states, actions) && states[0] == Init(targets, threads) && k < |states| && p < 2
    ensures Inv(states[k])
    ensures Handed(states, actions, k, p) - Ended(actions, k, p) == Out(states[k].throttle, p)
  {
    InvInit(targets, threads);
    RunInv(states, actions, k);
    if k == 0 {
      TI.WhereIdle(threads, TI.Uncounted(p));
    } else {
      BooksAgree(states, actions, targets, threads, k - 1, p);
      OutStep(states[k - 1], actions[k - 1], p);
    }
  }

  // ----- the bound -----

  lemma UncountedUnspent(th: T.State, p: nat)
    requires T.Shaped(th) && p < 2
    ensures Out(th, p) <= TI.Committed(th, p)
  {
    TI.SubsetSize(TI.Where(th.pcs, TI.Uncounted(p)), TI.Where(th.pcs, TI.Unspent(p)));
  }

  lemma ReturnedCommitted(th: T.State, was: Q.Pc, now: Q.Pc, t: Tid, p: nat)
    requires T.Shaped(th) && p < 2 && T.Shaped(Returned(th, was, now, t))
    requires Dequeues(was).Some? ==> t in th.pcs && th.pcs[t] == T.Fetch(was.prio)
    ensures TI.Committed(Returned(th, was, now, t), p) == TI.Committed(th, p)
  {
    var th' := Returned(th, was, now, t);
    if Dequeues(was).Some? {
      TI.WhereMoved(th.pcs, t, th'.pcs[t], TI.Unspent(p));
      assert th'.pcs == th.pcs[t := th'.pcs[t]];
    }
  }

  lemma CommittedKept(s: State, x: Action, p: nat, target: int)
    requires Inv(s) && Possible(s, x) && Inv(Do(s, x)) && p < 2
    requires s.throttle.targets[p] == target && TI.Committed(s.throttle, p) <= target
    ensures TI.Committed(Do(s, x).throttle, p) <= target
  {
    match x
    case Throttle(a) => TR.CommittedStep(s.throttle, a, p);
    case Call(t, c) =>
    case Step(t) =>
      StepShape(s.queue, t);
      var queue := Q.Do(s.queue, Q.Take(t));
      ReturnedCommitted(Sized(s.throttle, queue.queues), s.queue.pcs[t], queue.pcs[t], t, p);
  }

  ghost predicate TargetStays(states: seq<State>, p: nat, target: int)
    requires p < 2
  {
    forall i :: 0 <= i < |states| ==> |states[i].throttle.targets| == 2 && states[i].throttle.targets[p] == target
  }

  lemma {:induction false} CommittedBound(states: seq<State>, actions: seq<Action>, targets: seq<int>, threads: set<Tid>, k: nat, p: nat)
    requires |targets| == 2 && Run(states, actions) && states[0] == Init(targets, threads) && k < |states| && p < 2
    requires targets[p] >= 0 && TargetStays(states, p, targets[p])
    ensures Inv(states[k]) && TI.Committed(states[k].throttle, p) <= targets[p]
  {
    InvInit(targets, threads);
    RunInv(states, actions, k);
    if k == 0 {
      TI.InvInit(targets, threads);
    } else {
      CommittedBound(states, actions, targets, threads, k - 1, p);
      CommittedKept(states[k - 1], actions[k - 1], p, targets[p]);
    }
  }

  /** With a fixed target the jobs of a priority that have left the MultiQueue and not ended are never
      more than the target, for any number of dequeuers, purges and releases. */
  lemma JobsWithinTarget(states: seq<State>, actions: seq<Action>, targets: seq<int>, threads: set<Tid>, k: nat, p: nat)
    requires |targets| == 2 && Run(states, actions) && states[0] == Init(targets, threads) && k < |states| && p < 2
    requires targets[p] >= 0 && TargetStays(states, p, targets[p])
    ensures 0 <= Handed(states, actions, k, p) - Ended(actions, k, p) <= targets[p]
  {
    BooksAgree(states, actions, targets, threads, k, p);
    CommittedBound(states, actions, targets, threads, k, p);
    UncountedUnspent(states[k].throttle, p);
    assert TI.Counts(states[k].throttle, p);
  }

  // ----- one permit, one dequeue -----

  /** The threads with a permit of `p` that have not entered the MultiQueue with it yet. */
  ghost function Ready(outside: map<Tid, T.Pc>, inside: map<Tid, Q.Pc>, p: nat): set<Tid> {
    set t | t in outside && outside[t] == T.Fetch(p) && !(t in inside && Dequeues(inside[t]).Some?)
  }

  lemma ReadySplit(all: set<Tid>, t: Tid, others: set<Tid>)
    requires all - {t} == others
    ensures |all| == |others| + One(t in all)
  {
    assert all == if t in all then others + {t} else others;
  }

  lemma ReadyMoved(o: map<Tid, T.Pc>, i: map<Tid, Q.Pc>, o': map<Tid, T.Pc>, i': map<Tid, Q.Pc>, t: Tid, p: nat)
    requires forall u :: u != t ==> (u in o <==> u in o') && (u in i <==> u in i')
    requires forall u :: u != t && u in o ==> o'[u] == o[u]
    requires forall u :: u != t && u in i ==> i'[u] == i[u]
    ensures |Ready(o', i', p)| + One(t in Ready(o, i, p)) == |Ready(o, i, p)| + One(t in Ready(o', i', p))
  {
    var others := Ready(o, i, p) - {t};
    assert Ready(o', i', p) - {t} == others;
    ReadySplit(Ready(o, i, p), t, others);
    ReadySplit(Ready(o', i', p), t, others);
  }

  lemma ReadyThrottle(s: State, a: T.Action, p: nat)
    requires Inv(s) && Possible(s, Throttle(a)) && p < 2
    ensures var th' := T.Do(s.throttle, a);
            |Ready(th'.pcs, s.queue.pcs, p)| == |Ready(s.throttle.pcs, s.queue.pcs, p)| + One(TakesPermit(s, Throttle(a), p))
  {
    if !a.SetThrottle? {
      ReadyMoved(s.throttle.pcs, s.queue.pcs, T.Do(s.throttle, a).pcs, s.queue.pcs, a.t, p);
    }
  }

  lemma ReadyCall(outside: map<Tid, T.Pc>, inside: map<Tid, Q.Pc>, t: Tid, c: Q.Call, p: nat)
    requires t in inside && inside[t].Idle? && (c.Dequeue? ==> t in outside && outside[t] == T.Fetch(c.prio))
    ensures |Ready(outside, inside[t := Q.Entry0(c)], p)| + One(c == Q.Dequeue(p)) == |Ready(outside, inside, p)|
  {
    ReadyMoved(outside, inside, outside, inside[t := Q.Entry0(c)], t, p);
  }

  lemma ReadyReturned(th: T.State, inside: map<Tid, Q.Pc>, t: Tid, now: Q.Pc, p: nat)
    requires t in inside && Licensed(th.pcs, inside)
    requires Dequeues(now).Some? ==> Dequeues(inside[t]) == Dequeues(now)
    requires Dequeues(inside[t]).Some? && Dequeues(now).None? ==>
               now.Idle? && (inside[t].DIndex? || inside[t].DFlag? || inside[t].DRelease?)
    ensures |Ready(Returned(th, inside[t], now, t).pcs, inside[t := now], p)| == |Ready(th.pcs, inside, p)|
  {
    ReadyMoved(th.pcs, inside, Returned(th, inside[t], now, t).pcs, inside[t := now], t, p);
  }

  lemma ReadyStep(s: State, x: Action, p: nat)
    requires Inv(s) && Possible(s, x) && p < 2
    ensures var s' := Do(s, x);
            |Ready(s'.throttle.pcs, s'.queue.pcs, p)| + One(Enters(x, p)) ==
            |Ready(s.throttle.pcs, s.queue.pcs, p)| + One(TakesPermit(s, x, p))
  {
    match x
    case Throttle(a) => ReadyThrottle(s, a, p);
    case Call(t, c) =>
      BeginShape(s.queue, t, c);
      ReadyCall(s.throttle.pcs, s.queue.pcs, t, c, p);
    case Step(t) =>
      StepShape(s.queue, t);
      StepPriority(s.queue, t);
      var queue := Q.Do(s.queue, Q.Take(t));
      ReadyReturned(Sized(s.throttle, queue.queues), s.queue.pcs, t, queue.pcs[t], p);
  }

  /** Every dequeue of the MultiQueue has its own permit: those begun and those still to begin are
      together the permits taken. */
  lemma {:induction false} OnePermitOneDequeue(states: seq<State>, actions: seq<Action>, targets: seq<int>, threads: set<Tid>, k: nat, p: nat)
    requires |targets| == 2 && Run(states, actions) && states[0] == Init(targets, threads) && k < |states| && p < 2
    ensures Entered(actions, k, p) + |Ready(states[k].throttle.pcs, states[k].queue.pcs, p)| == Permits(states, actions, k, p)
  {
    InvInit(targets, threads);
    if k == 0 {
      assert Ready(states[0].throttle.pcs, states[0].queue.pcs, p) == {};
    } else {
      OnePermitOneDequeue(states, actions, targets, threads, k - 1, p);
      RunInv(states, actions, k - 1);
      ReadyStep(states[k - 1], actions[k - 1], p);
    }
  }
}
