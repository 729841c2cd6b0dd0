/** Primary work never wedges while the primary target stays positive, and how it does wedge
    when a target is raised from zero. */
module ThrottlerProgress {
  import opened Jobs
  import opened ThrottlerSteps
  import opened ThrottlerInvariant
  import opened ThrottlerRuns

  /** The thread has yet to decide on the primary permit, or has read a count that will make
      it issue one. */
  predicate WillDecide(s: State, pc: Pc)
    requires Shaped(s)
  {
    pc.Lock? || pc.Load? || pc.Size? || pc.Tally? || pc.Recount? || (pc.Primary? && pc.c < s.targets[PRIMARY])
  }

  /** Below its target, primary has a permit out or a decision coming. */
  ghost predicate Live(s: State)
    requires Shaped(s)
  {
    s.count[PRIMARY] < s.targets[PRIMARY] ==>
      s.waiting[PRIMARY] || exists t :: t in s.pcs && WillDecide(s, s.pcs[t])
  }

  lemma LiveTake(s: State, t: Tid)
    requires Inv(s) && Possible(s, Take(t)) && Live(s) && Shaped(Do(s, Take(t)))
    ensures Live(Do(s, Take(t)))
  {
    var s' := Do(s, Take(t));
    assert Permits(s, PRIMARY);
    HolderWaits(s, t, PRIMARY);
    if s'.count[PRIMARY] < s'.targets[PRIMARY] && !s'.waiting[PRIMARY] && !s.waiting[PRIMARY] {
      var u :| u in s.pcs && WillDecide(s, s.pcs[u]);
      assert u != t ==> s'.pcs[u] == s.pcs[u];
      assert WillDecide(s', s'.pcs[u]);
    } else if s.waiting[PRIMARY] && !s'.waiting[PRIMARY] {
      assert s'.pcs[t].Load?;
    }
  }

  lemma LiveOther(s: State, a: Action)
    requires Inv(s) && Possible(s, a) && !a.Take? && !a.SetThrottle? && Live(s) && Shaped(Do(s, a))
    ensures Live(Do(s, a))
  {
    var s' := Do(s, a);
    if s'.count[PRIMARY] < s'.targets[PRIMARY] && !s'.waiting[PRIMARY] {
      if a.Finish? {
        assert s'.pcs[a.t].Lock?;
      } else {
        var u :| u in s.pcs && WillDecide(s, s.pcs[u]);
        assert u in s'.pcs && WillDecide(s', s'.pcs[u]);
      }
    }
  }

  lemma LiveInit(targets: seq<int>, threads: set<Tid>)
    requires |targets| == 2
    ensures Live(Init(targets, threads))
  {
  }

  /** With targets that do not change, whenever fewer primary jobs run than the target allows,
      a primary permit is out or some thread still has its decision to make. */
  lemma {:induction false} PrimaryNeverWedges(states: seq<State>, actions: seq<Action>, targets: seq<int>, threads: set<Tid>, k: nat)
    requires |targets| == 2 && Run(states, actions) && states[0] == Init(targets, threads) && k <= |actions|
    requires forall i :: 0 <= i < |actions| ==> !actions[i].SetThrottle?
    ensures Shaped(states[k]) && Live(states[k])
  {
    if k == 0 {
      LiveInit(targets, threads);
    } else {
      InvInit(targets, threads);
      PrimaryNeverWedges(states, actions, targets, threads, k - 1);
      RunInv(states, actions, k - 1);
      InvKept(states[k - 1], actions[k - 1]);
      if actions[k - 1].Take? {
        LiveTake(states[k - 1], actions[k - 1].t);
      } else {
        LiveOther(states[k - 1], actions[k - 1]);
      }
    }
  }

  // ----- targets that change but stay positive -----

  /** Like WillDecide, for any positive target. */
  predicate WillRevive(pc: Pc) {
    pc.Lock? || pc.Load? || pc.Size? || pc.Tally? || pc.Recount? || (pc.Primary? && pc.c <= 0)
  }

  /** A primary permit is out, or a primary job runs whose end brings a decision, or a decision
      is coming. */
  ghost predicate Alive(s: State)
    requires Shaped(s)
  {
    s.waiting[PRIMARY] || s.count[PRIMARY] > 0 || exists t :: t in s.pcs && WillRevive(s.pcs[t])
  }

  /** The one step that takes the life out: a decision that read no primary job lets the primary
      permit lie because the target is not above that reading, no primary job runs, and nobody else
      has a decision coming. */
  predicate GivesUp(s: State, a: Action)
    requires Possible(s, a)
  {
    && a.Take? && s.pcs[a.t].Primary? && s.pcs[a.t].c <= 0 && s.targets[PRIMARY] <= s.pcs[a.t].c
    && !s.waiting[PRIMARY] && s.count[PRIMARY] <= 0
    && forall u <- s.pcs :: u != a.t ==> !WillRevive(s.pcs[u])
  }

  lemma AliveTake(s: State, t: Tid)
    requires Inv(s) && Possible(s, Take(t)) && Alive(s) && Shaped(Do(s, Take(t)))
    ensures Alive(Do(s, Take(t))) <==> !GivesUp(s, Take(t))
  {
    var s' := Do(s, Take(t));
    if !s'.waiting[PRIMARY] && s'.count[PRIMARY] <= 0 {
      if s.waiting[PRIMARY] {
        assert s'.pcs[t].Load?;
      } else if u :| u in s.pcs && u != t && WillRevive(s.pcs[u]) {
        assert s'.pcs[u] == s.pcs[u];
      } else {
        LastHope(s, t);
      }
    }
  }

  /** The only thread that may still decide takes its step. */
  lemma LastHope(s: State, t: Tid)
    requires Inv(s) && Possible(s, Take(t)) && Alive(s) && Shaped(Do(s, Take(t)))
    requires !s.waiting[PRIMARY] && !Do(s, Take(t)).waiting[PRIMARY] && Do(s, Take(t)).count[PRIMARY] <= 0
    requires forall u <- s.pcs :: u != t ==> !WillRevive(s.pcs[u])
    ensures Alive(Do(s, Take(t))) <==> !GivesUp(s, Take(t))
  {
    var s' := Do(s, Take(t));
    assert forall u <- s'.pcs :: u != t ==> s'.pcs[u] == s.pcs[u];
    assert s.pcs[t] != Count(PRIMARY) ==> s'.count[PRIMARY] == s.count[PRIMARY];
    HolderWaits(s, t, PRIMARY);
    assert WillRevive(s.pcs[t]);
    assert GivesUp(s, Take(t)) <==> !WillRevive(s'.pcs[t]);
  }

  lemma AliveOther(s: State, a: Action)
    requires Inv(s) && Possible(s, a) && !a.Take? && Alive(s) && Shaped(Do(s, a))
    ensures Alive(Do(s, a))
  {
    var s' := Do(s, a);
    if !s'.waiting[PRIMARY] && s'.count[PRIMARY] <= 0 {
      if a.Finish? {
        assert s'.pcs[a.t].Lock?;
      } else {
        var u :| u in s.pcs && WillRevive(s.pcs[u]);
        assert u in s'.pcs && WillRevive(s'.pcs[u]);
      }
    }
  }

  /** Primary work stays alive through every step but the one that gives it up. */
  lemma AliveExactly(s: State, a: Action)
    requires Inv(s) && Possible(s, a) && Alive(s)
    ensures Shaped(Do(s, a)) && (Alive(Do(s, a)) <==> !GivesUp(s, a))
  {
    InvKept(s, a);
    if a.Take? {
      AliveTake(s, a.t);
    } else {
      AliveOther(s, a);
    }
  }

  /** The step brings a decision about: a job is counted, a fetch returns null, or a job finishes. */
  predicate CallsForDecision(s: State, a: Action)
    requires Possible(s, a)
  {
    a.Finish? || a.Null? || (a.Take? && s.pcs[a.t].Count?)
  }

  /** And from a state without life it returns with the steps that bring a decision about or issue a
      primary permit, and with no other. */
  lemma RevivesExactly(s: State, a: Action)
    requires Inv(s) && Possible(s, a) && !Alive(s)
    ensures Shaped(Do(s, a))
    ensures Alive(Do(s, a)) <==> CallsForDecision(s, a) || Issues(s, a, PRIMARY)
  {
    InvKept(s, a);
    var s' := Do(s, a);
    if CallsForDecision(s, a) {
      assert s'.pcs[a.t].Lock?;
    } else if !Issues(s, a, PRIMARY) {
      StaysDead(s, a);
    }
  }

  lemma StaysDead(s: State, a: Action)
    requires Inv(s) && Possible(s, a) && !Alive(s) && Shaped(Do(s, a))
    requires !CallsForDecision(s, a) && !Issues(s, a, PRIMARY)
    ensures !Alive(Do(s, a))
  {
    var s' := Do(s, a);
    assert s'.count == s.count && !s'.waiting[PRIMARY];
    assert forall u <- s'.pcs :: u in s.pcs && (s'.pcs[u] == s.pcs[u] || u == a.t);
    if !a.SetThrottle? && !a.Queue? {
      assert !WillRevive(s.pcs[a.t]);
      assert !WillRevive(s'.pcs[a.t]);
    }
  }

  /** Over a run that starts alive, primary work is alive in every state if and only if no step
      gives it up, whatever the targets are set to. */
  lemma AliveThroughout(states: seq<State>, actions: seq<Action>)
    requires Run(states, actions) && Inv(states[0]) && Alive(states[0])
    ensures forall k :: 0 <= k < |states| ==> Shaped(states[k])
    ensures (forall k :: 0 <= k < |states| ==> Alive(states[k])) <==>
            forall i :: 0 <= i < |actions| ==> Possible(states[i], actions[i]) && !GivesUp(states[i], actions[i])
  {
    forall k | 0 <= k < |states|
      ensures Shaped(states[k])
    {
      RunInv(states, actions, k);
    }
    forall i | 0 <= i < |actions|
      ensures Possible(states[i], actions[i])
      ensures Alive(states[i]) ==> (Alive(states[i + 1]) <==> !GivesUp(states[i], actions[i]))
    {
      AliveAt(states, actions, i);
    }
    if forall k :: 0 <= k < |states| ==> Alive(states[k]) {
      forall i | 0 <= i < |actions|
        ensures !GivesUp(states[i], actions[i])
      {
        assert Alive(states[i]) && Alive(states[i + 1]);
      }
    }
    if forall i :: 0 <= i < |actions| ==> !GivesUp(states[i], actions[i]) {
      forall k | 0 <= k < |states|
        ensures Alive(states[k])
      {
        AliveUpTo(states, |actions|, k);
      }
    }
  }

  lemma AliveAt(states: seq<State>, actions: seq<Action>, i: nat)
    requires Run(states, actions) && Inv(states[0]) && i < |actions| && Shaped(states[i]) && Shaped(states[i + 1])
    ensures Possible(states[i], actions[i])
    ensures Alive(states[i]) ==> (Alive(states[i + 1]) <==> !GivesUp(states[i], actions[i]))
  {
    RunInv(states, actions, i);
    if Alive(states[i]) {
      AliveExactly(states[i], actions[i]);
    }
  }

  lemma {:induction false} AliveUpTo(states: seq<State>, n: nat, k: nat)
    requires |states| == n + 1 && k <= n && forall i :: 0 <= i <= n ==> Shaped(states[i])
    requires Alive(states[0]) && forall i :: 0 <= i < n ==> Alive(states[i]) ==> Alive(states[i + 1])
    ensures Alive(states[k])
  {
    if k > 0 {
      AliveUpTo(states, n, k - 1);
    }
  }

  /** While the primary target stays positive, changing as it may, no step gives up. */
  lemma PositiveTargetStaysAlive(states: seq<State>, actions: seq<Action>, k: nat)
    requires Run(states, actions) && Inv(states[0]) && Alive(states[0]) && k < |states|
    requires forall i :: 0 <= i < |states| ==> Shaped(states[i]) && states[i].targets[PRIMARY] > 0
    ensures Alive(states[k])
  {
    AliveThroughout(states, actions);
    forall i | 0 <= i < |actions|
      ensures Possible(states[i], actions[i]) && !GivesUp(states[i], actions[i])
    {
      assert states[i].targets[PRIMARY] > 0;
    }
  }

  // ----- a target raised from zero -----

  /** No permit out, no job, nobody past a throttle block. */
  ghost predicate Wedged(s: State) {
    && Shaped(s) && s.open == [false, false] && s.waiting == [false, false]
    && s.count == [0, 0] && s.handed == [0, 0]
    && forall t <- s.pcs :: s.pcs[t].Idle? || s.pcs[t].Block?
  }

  /** It lasts for ever: whatever is queued and whatever the targets are set to, no dequeuer
      gets past its block again. */
  lemma {:induction false} WedgedForever(states: seq<State>, actions: seq<Action>, i: nat, k: nat)
    requires Run(states, actions) && i <= k <= |actions| && Wedged(states[i])
    ensures Wedged(states[k])
  {
    if i < k {
      WedgedForever(states, actions, i, k - 1);
      WedgedStep(states[k - 1], actions[k - 1]);
    }
  }

  lemma WedgedStep(s: State, a: Action)
    requires Wedged(s) && Possible(s, a)
    ensures Wedged(Do(s, a))
  {
  }
}
