/** What the throttler guarantees over whole runs. */
module ThrottlerRuns {
  import opened Jobs
  import opened ThrottlerSteps
  import opened ThrottlerInvariant

  lemma {:induction false} RunInv(states: seq<State>, actions: seq<Action>, k: nat)
    requires Run(states, actions) && Inv(states[0]) && k <= |actions|
    ensures Inv(states[k])
  {
    if k > 0 {
      RunInv(states, actions, k - 1);
      InvKept(states[k - 1], actions[k - 1]);
    }
  }

  // ----- permits -----

  /** In every state of every run: open permit plus dequeuers holding it is one exactly while
      `waiting` is set, so at most one dequeuer of a priority is in flight. */
  lemma PermitAccounting(states: seq<State>, actions: seq<Action>, k: nat, p: nat)
    requires Run(states, actions) && Inv(states[0]) && k <= |actions| && p < 2
    ensures Shaped(states[k])
    ensures One(states[k].open[p]) + |Where(states[k].pcs, Holding(p))| == One(states[k].waiting[p])
    ensures forall t, u :: t in Where(states[k].pcs, Holding(p)) && u in Where(states[k].pcs, Holding(p)) ==> t == u
  {
    RunInv(states, actions, k);
    assert Permits(states[k], p);
    forall t, u | t in Where(states[k].pcs, Holding(p)) && u in Where(states[k].pcs, Holding(p))
      ensures t == u
    {
      SoleHolder(states[k], p, t, u);
    }
  }

  lemma SoleHolder(s: State, p: nat, t: Tid, u: Tid)
    requires Inv(s) && p < 2 && t in Where(s.pcs, Holding(p)) && u in Where(s.pcs, Holding(p))
    ensures t == u
  {
    assert Permits(s, p);
    SubsetSize({t, u}, Where(s.pcs, Holding(p)));
  }

  // ----- the bound -----

  /** No action raises what is committed at a priority that has reached its target. */
  lemma CommittedStep(s: State, a: Action, p: nat)
    requires Inv(s) && Possible(s, a) && p < 2
    ensures Shaped(Do(s, a))
    ensures Committed(Do(s, a), p) > Committed(s, p) ==> Committed(Do(s, a), p) <= s.targets[p]
  {
    AccountsKept(s, a);
    if Issues(s, a, p) {
      IssueIsSafe(s, a, p);
    } else if a.Take? {
      CommittedTake(s, a.t, p);
    } else {
      CommittedOther(s, a, p);
    }
  }

  /** A priority at or above its target never gets more committed. */
  lemma NeverRises(states: seq<State>, actions: seq<Action>, p: nat, k: nat)
    requires Run(states, actions) && Inv(states[0]) && k < |actions| && p < 2
    ensures Shaped(states[k]) && Shaped(states[k + 1])
    ensures Committed(states[k], p) >= states[k].targets[p] ==> Committed(states[k + 1], p) <= Committed(states[k], p)
  {
    RunInv(states, actions, k);
    CommittedStep(states[k], actions[k], p);
  }

  ghost predicate TargetIs(states: seq<State>, p: nat, target: int, i: nat, k: nat)
    requires k < |states| && p < 2
  {
    forall m :: i <= m <= k ==> |states[m].targets| == 2 && states[m].targets[p] == target
  }

  /** From the moment a target stops changing, running jobs plus the reserved permit never
      exceed the larger of that target and their number at that moment. */
  lemma {:induction false} LoweringConverges(states: seq<State>, actions: seq<Action>, p: nat, target: int, i: nat, k: nat)
    requires Run(states, actions) && Inv(states[0]) && i <= k <= |actions| && p < 2
    requires TargetIs(states, p, target, i, k)
    ensures Shaped(states[i]) && Shaped(states[k])
    ensures Committed(states[k], p) <= target || Committed(states[k], p) <= Committed(states[i], p)
  {
    RunInv(states, actions, i);
    if i < k {
      LoweringConverges(states, actions, p, target, i, k - 1);
      RunInv(states, actions, k - 1);
      CommittedStep(states[k - 1], actions[k - 1], p);
    }
  }

  /** With a fixed target that is not negative, jobs plus the reserved permit never exceed it. */
  lemma ThrottleBound(states: seq<State>, actions: seq<Action>, targets: seq<int>, threads: set<Tid>, p: nat, k: nat)
    requires |targets| == 2 && p < 2 && targets[p] >= 0
    requires Run(states, actions) && states[0] == Init(targets, threads) && k <= |actions|
    requires TargetIs(states, p, targets[p], 0, k)
    ensures Shaped(states[k])
    ensures states[k].count[p] + Reserved(states[k], p) <= targets[p]
    ensures states[k].handed[p] <= states[k].count[p]
  {
    InvInit(targets, threads);
    LoweringConverges(states, actions, p, targets[p], 0, k);
    RunInv(states, actions, k);
    assert Counts(states[k], p);
  }

  // ----- primary precedence -----

  /** A decision issues a secondary permit only while a primary permit is out, and only when
      the primary load it read was below the primary target. */
  lemma SecondaryNeedsPrimary(s: State, a: Action)
    requires Inv(s) && Possible(s, a) && Issues(s, a, SECONDARY)
    ensures s.pcs[a.t].high < s.targets[PRIMARY]
    ensures s.waiting[PRIMARY] && One(s.open[PRIMARY]) + |Where(s.pcs, Holding(PRIMARY))| == 1
  {
    assert Registers(s, s.pcs[a.t]);
    assert Permits(s, PRIMARY);
  }

  /** Primary work, running and queued. */
  function PrimaryLoad(s: State): int
    requires Shaped(s)
  {
    s.count[PRIMARY] + s.queued[PRIMARY]
  }

  predicate AtTarget(s: State)
    requires Shaped(s)
  {
    PrimaryLoad(s) >= s.targets[PRIMARY]
  }

  /** Jobs leave the primary queue other than by a dequeue: a purge. */
  predicate Shrinks(s: State, a: Action)
    requires Shaped(s)
  {
    a.Queue? && a.prio == PRIMARY && a.size < s.queued[PRIMARY]
  }

  /** The step makes a decision under way misread the primary load, and nothing has yet kept it
      from issuing a secondary permit.  Count read first: a purge, when the count it read and the
      jobs left queued fall short.  Size read first: the end of a primary job, when the size it read
      and the jobs left running fall short. */
  predicate Misleads(s: State, a: Action)
    requires Possible(s, a)
  {
    && !s.waiting[SECONDARY] && s.stateLock.Some? && s.stateLock.value in s.pcs
    && var pc := s.pcs[s.stateLock.value];
       || (Shrinks(s, a) && pc.Size? && pc.c + a.size < s.targets[PRIMARY])
       || (a.Finish? && a.prio == PRIMARY && pc.Tally? && s.count[PRIMARY] - 1 + pc.q < s.targets[PRIMARY])
  }

  predicate StaysAtTarget(s: State, a: Action) {
    Possible(s, a) && Shaped(Do(s, a)) && AtTarget(s) && AtTarget(Do(s, a))
  }

  /** Primary work is at its target before and after the step, which misleads no decision. */
  predicate Steady(s: State, a: Action) {
    StaysAtTarget(s, a) && !Misleads(s, a)
  }

  /** The step starts a secondary job. */
  predicate Starts(s: State, a: Action) {
    Possible(s, a) && a.Take? && s.pcs[a.t] == Count(SECONDARY)
  }

  predicate LowReading(s: State, pc: Pc)
    requires Shaped(s)
  {
    || (pc.Size? && pc.c + s.queued[PRIMARY] < s.targets[PRIMARY])
    || (pc.Tally? && s.count[PRIMARY] + pc.q < s.targets[PRIMARY])
    || ((pc.Recount? || pc.Primary? || pc.Secondary? || pc.Recount2? || pc.Permit2?) && pc.high < s.targets[PRIMARY])
  }

  /** A decision under way that has read, or is about to read, a low load and may yet issue a
      secondary permit. */
  predicate Stale(s: State)
    requires Shaped(s)
  {
    && !s.waiting[SECONDARY]
    && s.stateLock.Some? && s.stateLock.value in s.pcs && LowReading(s, s.pcs[s.stateLock.value])
  }

  /** How many secondary jobs may still start without another low reading. */
  ghost function Chances(s: State): nat
    requires Shaped(s)
  {
    Reserved(s, SECONDARY) + One(Stale(s))
  }

  lemma AtMostOneChance(s: State)
    requires Inv(s)
    ensures Chances(s) <= 1
  {
    assert Permits(s, SECONDARY);
    UnspentHolds(s.pcs, SECONDARY);
  }

  lemma ReservedTake(s: State, t: Tid)
    requires Accounts(s) && Possible(s, Take(t)) && !Issues(s, Take(t), SECONDARY)
    requires Shaped(Do(s, Take(t)))
    ensures Reserved(Do(s, Take(t)), SECONDARY) + One(s.pcs[t] == Count(SECONDARY)) <= Reserved(s, SECONDARY)
  {
    WhereMoved(s.pcs, t, Target(s, t), Unspent(SECONDARY));
  }

  lemma ReservedOther(s: State, a: Action)
    requires Accounts(s) && Possible(s, a) && !a.Take?
    requires Shaped(Do(s, a))
    ensures Reserved(Do(s, a), SECONDARY) <= Reserved(s, SECONDARY)
  {
    if !a.SetThrottle? && !a.Queue? {
      WhereMoved(s.pcs, a.t, Do(s, a).pcs[a.t], Unspent(SECONDARY));
    }
  }

  /** With the count read first, only a purge can lower the reading to come: the one thread that
      may take a primary job off the queue meanwhile has not been counted. */
  lemma SizeReading(s: State, a: Action, c: int)
    requires Inv(s) && StaysAtTarget(s, a) && !a.SetThrottle? && !Shrinks(s, a)
    requires s.count[PRIMARY] + Reserved(s, PRIMARY) <= c + 1 && c + s.queued[PRIMARY] >= s.targets[PRIMARY]
    ensures c + Do(s, a).queued[PRIMARY] >= s.targets[PRIMARY]
  {
    if a.Take? && s.pcs[a.t] == Fetch(PRIMARY) {
      WhereMoved(s.pcs, a.t, Idle, Unspent(PRIMARY));
    }
  }

  /** Another thread's step, seen by the decision of `u`. */
  lemma StaleBeside(s: State, a: Action, u: Tid)
    requires Inv(s) && StaysAtTarget(s, a) && s.stateLock == Some(u) && u in s.pcs && !Stale(s)
    requires (a.Take? || a.Peek?) ==> a.t != u
    ensures Stale(Do(s, a)) <==> Misleads(s, a)
  {
    assert Registers(s, s.pcs[u]);
    var pc := s.pcs[u];
    if pc.Size? && !s.waiting[SECONDARY] && !Shrinks(s, a) {
      SizeReading(s, a, pc.c);
    }
  }

  /** With primary work at its target, a decision comes to misread the load through a misleading
      step and through no other, in either order of its two reads. */
  lemma StaleExactly(s: State, a: Action)
    requires Inv(s) && StaysAtTarget(s, a) && !Stale(s)
    ensures Stale(Do(s, a)) <==> Misleads(s, a)
  {
    if s.stateLock.Some? && !((a.Take? || a.Peek?) && a.t == s.stateLock.value) {
      StaleBeside(s, a, s.stateLock.value);
    } else if a.Take? || a.Peek? {
      assert Registers(s, s.pcs[a.t]);
    }
  }

  lemma NoNewStale(s: State, a: Action)
    requires Inv(s) && Steady(s, a)
    ensures Stale(Do(s, a)) ==> Stale(s) && !Issues(s, a, SECONDARY)
  {
    if !Stale(s) {
      StaleExactly(s, a);
    }
  }

  lemma ChancesStep(s: State, a: Action)
    requires Inv(s) && Steady(s, a)
    ensures Chances(Do(s, a)) + One(Starts(s, a)) <= Chances(s)
  {
    AccountsKept(s, a);
    NoNewStale(s, a);
    if Issues(s, a, SECONDARY) {
      IssueIsSafe(s, a, SECONDARY);
      assert Registers(s, s.pcs[a.t]);
    } else if a.Take? {
      ReservedTake(s, a.t);
    } else {
      ReservedOther(s, a);
    }
  }

  ghost function StartsIn(states: seq<State>, actions: seq<Action>, i: nat, k: nat): nat
    requires i <= k <= |actions| < |states|
  {
    if i == k then 0 else StartsIn(states, actions, i, k - 1) + One(Starts(states[k - 1], actions[k - 1]))
  }

  ghost function ChancesAt(states: seq<State>, k: nat): nat
    requires k < |states|
  {
    if Shaped(states[k]) then Chances(states[k]) else 0
  }

  /** A start costs a chance, and nothing brings one back. */
  ghost predicate Spends(states: seq<State>, actions: seq<Action>, k: nat)
    requires k < |actions| < |states|
  {
    ChancesAt(states, k + 1) + One(Starts(states[k], actions[k])) <= ChancesAt(states, k)
  }

  lemma SteadySpends(states: seq<State>, actions: seq<Action>, k: nat)
    requires Run(states, actions) && Inv(states[0]) && k < |actions| && Steady(states[k], actions[k])
    ensures Spends(states, actions, k)
  {
    RunInv(states, actions, k);
    ChancesStep(states[k], actions[k]);
  }

  lemma {:induction false} StartsAreSpent(states: seq<State>, actions: seq<Action>, i: nat, k: nat)
    requires i <= k <= |actions| < |states| && forall m :: i <= m < k ==> Spends(states, actions, m)
    ensures StartsIn(states, actions, i, k) + ChancesAt(states, k) <= ChancesAt(states, i)
  {
    if i < k {
      StartsAreSpent(states, actions, i, k - 1);
      assert Spends(states, actions, k - 1);
    }
  }

  /** In any stretch of a run in which primary work is at its target in every state and no step
      misleads a decision, at most one secondary job starts. */
  lemma PrimaryPrecedence(states: seq<State>, actions: seq<Action>, i: nat, k: nat)
    requires Run(states, actions) && Inv(states[0]) && i <= k <= |actions|
    requires forall m :: i <= m < k ==> Steady(states[m], actions[m])
    ensures StartsIn(states, actions, i, k) <= 1
  {
    forall m | i <= m < k
      ensures Spends(states, actions, m)
    {
      SteadySpends(states, actions, m);
    }
    StartsAreSpent(states, actions, i, k);
    RunInv(states, actions, i);
    AtMostOneChance(states[i]);
  }
}
