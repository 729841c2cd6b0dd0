/** What one decision of the throttler comes to, and that the fine-grained protocol refines it. */
module ThrottlerDecision {
  import opened Jobs
  import opened ThrottlerSteps
  import opened ThrottlerInvariant
  import opened ThrottlerRuns

  /** What a decision works on. */
  datatype Ledger = Ledger(targets: seq<int>, open: seq<bool>, waiting: seq<bool>, count: seq<int>)

  ghost predicate Sound(l: Ledger) {
    && |l.targets| == 2 && |l.open| == 2 && |l.waiting| == 2 && |l.count| == 2
    && forall p :: 0 <= p < 2 && l.open[p] ==> l.waiting[p]
  }

  /** Jobs plus outstanding permits fit the target at every priority. */
  ghost predicate Bounded(l: Ledger)
    requires Sound(l)
  {
    forall p :: 0 <= p < 2 ==> l.count[p] + One(l.waiting[p]) <= l.targets[p]
  }

  ghost function Granted(l: Ledger, p: nat): Ledger
    requires Sound(l) && p < 2
    ensures Sound(Granted(l, p))
  {
    l.(open := l.open[p := true], waiting := l.waiting[p := true])
  }

  predicate Lacks(l: Ledger, p: nat)
    requires p < |l.count| && p < |l.targets| && p < |l.waiting|
  {
    l.count[p] < l.targets[p] && !l.waiting[p]
  }

  /** What a decision comes to when nothing changes under it: one permit at most, and the primary
      priority first.  `queued` is the size of the primary queue. */
  ghost function Decided(l: Ledger, queued: nat): Ledger
    requires Sound(l)
  {
    if Lacks(l, PRIMARY) then Granted(l, PRIMARY)
    else if l.count[PRIMARY] + queued < l.targets[PRIMARY] && Lacks(l, SECONDARY) then Granted(l, SECONDARY)
    else l
  }

  /** A decision leaves no primary shortage behind, keeps the bound, issues at most one permit,
      and a secondary one only beside an outstanding primary permit. */
  lemma DecidedIsSafe(l: Ledger, queued: nat)
    requires Sound(l)
    ensures Sound(Decided(l, queued)) && !Lacks(Decided(l, queued), PRIMARY)
    ensures Bounded(l) ==> Bounded(Decided(l, queued))
    ensures var d := Decided(l, queued);
            && (d.waiting[SECONDARY] && !l.waiting[SECONDARY] ==>
                  d.waiting[PRIMARY] && l.waiting == [true, false] && l.count[PRIMARY] + queued < l.targets[PRIMARY])
            && (d == l || exists p: nat :: p < 2 && !l.waiting[p] && d == Granted(l, p))
  {
    var d := Decided(l, queued);
    if d != l {
      var p: nat := if Lacks(l, PRIMARY) then PRIMARY else SECONDARY;
      assert d == Granted(l, p);
    }
    if d.waiting[SECONDARY] && !l.waiting[SECONDARY] {
      assert l.waiting == [true, false];
    }
  }

  // ----- the same decision, step by step -----

  ghost function View(s: State): Ledger {
    Ledger(s.targets, s.open, s.waiting, s.count)
  }

  /** The action is a step of `t`, or changes nothing a decision reads or writes. */
  ghost predicate Undisturbed(s: State, a: Action, t: Tid) {
    Possible(s, a) && t in s.pcs
    && (a == Take(t) || a == Peek(t)
        || (View(Do(s, a)) == View(s) && Do(s, a).queued == s.queued && t in Do(s, a).pcs && Do(s, a).pcs[t] == s.pcs[t]))
  }

  /** How far the decision that `t` began on ledger `l` has come. */
  ghost predicate Deciding(s: State, t: Tid, l: Ledger, queued: nat)
    requires Sound(l)
  {
    && Shaped(s) && t in s.pcs && s.queued[PRIMARY] == queued
    && var high, tried := l.count[PRIMARY] + queued, Lacks(l, PRIMARY);
       match s.pcs[t]
       case Load(_) => View(s) == l
       case Size(_, c) => View(s) == l && c == l.count[PRIMARY]
       case Tally(_, q) => View(s) == l && q == queued
       case Recount(_, h) => View(s) == l && h == high
       case Primary(_, h, c) => View(s) == l && h == high && c == l.count[PRIMARY]
       case Secondary(_, h, d) => View(s) == (if tried then Granted(l, PRIMARY) else l) && h == high && d == tried
       case Recount2(_, h, d) =>
         && View(s) == (if tried then Granted(l, PRIMARY) else l) && h == high && d == tried
         && high < l.targets[PRIMARY]
       case Permit2(_, h, d, c) =>
         && View(s) == (if tried then Granted(l, PRIMARY) else l) && h == high && d == tried
         && high < l.targets[PRIMARY] && c == l.count[SECONDARY]
       case Unlock(_) => View(s) == Decided(l, queued)
       case _ => false
  }

  lemma DecidingStep(s: State, a: Action, t: Tid, l: Ledger, queued: nat)
    requires Sound(l) && Deciding(s, t, l, queued) && !s.pcs[t].Unlock? && Undisturbed(s, a, t)
    requires Shaped(Do(s, a))
    ensures Deciding(Do(s, a), t, l, queued)
  {
    if a == Take(t) {
      DecidingTake(s, t, s.pcs[t], l, queued);
    }
  }

  lemma DecidingTake(s: State, t: Tid, pc: Pc, l: Ledger, queued: nat)
    requires Sound(l) && Deciding(s, t, l, queued) && pc == s.pcs[t] && !pc.Unlock? && Possible(s, Take(t))
    requires Shaped(Do(s, Take(t)))
    ensures Deciding(Do(s, Take(t)), t, l, queued)
  {
    var e := Effect(s, t);
    assert View(Do(s, Take(t))) == View(e) && e.queued == s.queued;
    if pc.Primary? && Lacks(l, PRIMARY) {
      assert View(e) == Granted(l, PRIMARY);
    }
  }

  /** The ledger a decision starts from: a dequeuer first takes its own waiting flag down. */
  ghost function Before(s: State, r: Role): Ledger
    requires Shaped(s) && RoleOk(r)
  {
    if r.Scheduled? then View(s).(waiting := s.waiting[r.prio := false]) else View(s)
  }

  /** A dequeuer about to decide has its permit, so its block is locked. */
  lemma BeforeIsSound(s: State, t: Tid, r: Role)
    requires Inv(s) && t in s.pcs && s.pcs[t] == Lock(r)
    ensures Sound(Before(s, r))
  {
    assert Permits(s, PRIMARY) && Permits(s, SECONDARY) && PrioOk(s.pcs[t]);
    if r.Scheduled? {
      assert Permits(s, r.prio);
      WhereMoved(s.pcs, t, Idle, Holding(r.prio));
    }
  }

  /** A decision of the fine-grained protocol that nothing disturbs, whatever other threads do
      elsewhere in between, comes to exactly the one-shot decision. */
  lemma {:induction false} DecisionRefines(states: seq<State>, actions: seq<Action>, t: Tid, r: Role, n: nat)
    requires Run(states, actions) && Inv(states[0]) && 0 < n <= |actions| && t in states[0].pcs
    requires states[0].pcs[t] == Lock(r) && actions[0] == Take(t) && RoleOk(r)
    requires forall i :: 0 < i < n ==> Undisturbed(states[i], actions[i], t) && !states[i].pcs[t].Unlock?
    ensures Sound(Before(states[0], r)) && Deciding(states[n], t, Before(states[0], r), states[0].queued[PRIMARY])
    ensures states[n].pcs[t].Unlock? ==> View(states[n]) == Decided(Before(states[0], r), states[0].queued[PRIMARY])
  {
    BeforeIsSound(states[0], t, r);
    RunInv(states, actions, n);
    if n > 1 {
      DecisionRefines(states, actions, t, r, n - 1);
      DecidingStep(states[n - 1], actions[n - 1], t, Before(states[0], r), states[0].queued[PRIMARY]);
    } else {
      assert View(states[1]) == View(Effect(states[0], t)) == Before(states[0], r);
    }
  }
}
