/** What a misled decision does when left alone: it issues a secondary permit, unless it has a
    primary one to issue or the secondary priority is at its target. */
module ThrottlerMisled {
  import opened Jobs
  import opened Runs
  import opened ThrottlerSteps
  import opened ThrottlerInvariant
  import opened ThrottlerRuns

  function At(s: State, u: Tid, pc: Pc): State {
    s.(pcs := s.pcs[u := pc])
  }

  /** A step of the owner of the state lock that only moves it on. */
  lemma Onward(s: State, u: Tid, pc: Pc, next: Pc)
    requires Shaped(At(s, u, pc)) && s.stateLock == Some(u) && HoldsLock(pc) && HoldsLock(next)
    requires Effect(At(s, u, pc), u) == At(s, u, pc) && Target(At(s, u, pc), u) == next
    ensures Goes(At(s, u, pc), Take(u), At(s, u, next))
  {
    assert s.pcs[u := pc][u := next] == s.pcs[u := next];
  }

  lemma AtShaped(s: State, u: Tid, pc: Pc)
    requires Shaped(s) && PrioOk(pc)
    ensures Shaped(At(s, u, pc))
  {
  }

  /** The reading is taken, the primary count read again, and the primary permit decided on. */
  lemma ReadsOn(s: State, u: Tid, r: Role, high: int) returns (states: seq<State>, actions: seq<Action>)
    requires Shaped(s) && s.stateLock == Some(u) && u in s.pcs && RoleOk(r)
    requires s.pcs[u] == Size(r, high - s.queued[PRIMARY]) || (s.pcs[u].Tally? && s.pcs[u] == Tally(r, s.pcs[u].q) && high == s.count[PRIMARY] + s.pcs[u].q)
    ensures Linked(Goes, states, actions) && states[0] == s && (forall a <- actions :: a == Take(u))
    ensures states[|actions|] == At(s, u, Primary(r, high, s.count[PRIMARY]))
  {
    var was := s.pcs[u];
    assert At(s, u, was) == s;
    AtShaped(s, u, Recount(r, high));
    Onward(s, u, was, Recount(r, high));
    Onward(s, u, Recount(r, high), Primary(r, high, s.count[PRIMARY]));
    states := [s, At(s, u, Recount(r, high)), At(s, u, Primary(r, high, s.count[PRIMARY]))];
    actions := [Take(u), Take(u)];
  }

  lemma Decides(s: State, u: Tid, r: Role, high: int)
    requires Shaped(s) && s.stateLock == Some(u) && u in s.pcs && RoleOk(r) && high < s.targets[PRIMARY]
    requires s.count[PRIMARY] >= s.targets[PRIMARY] || s.waiting[PRIMARY]
    ensures Goes(At(s, u, Primary(r, high, s.count[PRIMARY])), Take(u), At(s, u, Secondary(r, high, false)))
  {
    AtShaped(s, u, Primary(r, high, s.count[PRIMARY]));
    Onward(s, u, Primary(r, high, s.count[PRIMARY]), Secondary(r, high, false));
  }

  lemma Recounts(s: State, u: Tid, r: Role, high: int)
    requires Shaped(s) && s.stateLock == Some(u) && u in s.pcs && RoleOk(r) && high < s.targets[PRIMARY]
    ensures Goes(At(s, u, Secondary(r, high, false)), Take(u), At(s, u, Recount2(r, high, false)))
    ensures Goes(At(s, u, Recount2(r, high, false)), Take(u), At(s, u, Permit2(r, high, false, s.count[SECONDARY])))
  {
    AtShaped(s, u, Secondary(r, high, false));
    AtShaped(s, u, Recount2(r, high, false));
    Onward(s, u, Secondary(r, high, false), Recount2(r, high, false));
    Onward(s, u, Recount2(r, high, false), Permit2(r, high, false, s.count[SECONDARY]));
  }

  /** With no primary permit to issue, a low reading leads to the secondary permit. */
  lemma IssuesOn(s: State, u: Tid, r: Role, high: int) returns (states: seq<State>, actions: seq<Action>)
    requires Shaped(s) && s.stateLock == Some(u) && u in s.pcs && RoleOk(r) && high < s.targets[PRIMARY]
    requires s.count[PRIMARY] >= s.targets[PRIMARY] || s.waiting[PRIMARY]
    ensures Linked(Goes, states, actions) && states[0] == At(s, u, Primary(r, high, s.count[PRIMARY]))
    ensures forall a <- actions :: a == Take(u)
    ensures states[|actions|] ==
            At(if s.count[SECONDARY] < s.targets[SECONDARY] && !s.waiting[SECONDARY] then Issue(s, SECONDARY) else s, u, Unlock(r))
  {
    var pc0, pc1 := Primary(r, high, s.count[PRIMARY]), Secondary(r, high, false);
    var pc2, pc3 := Recount2(r, high, false), Permit2(r, high, false, s.count[SECONDARY]);
    Decides(s, u, r, high);
    Recounts(s, u, r, high);
    var last := At(if s.count[SECONDARY] < s.targets[SECONDARY] && !s.waiting[SECONDARY] then Issue(s, SECONDARY) else s, u, Unlock(r));
    LastStep(s, u, r, high, last);
    states := [At(s, u, pc0), At(s, u, pc1), At(s, u, pc2), At(s, u, pc3), last];
    actions := [Take(u), Take(u), Take(u), Take(u)];
  }

  lemma LastStep(s: State, u: Tid, r: Role, high: int, last: State)
    requires Shaped(s) && s.stateLock == Some(u) && u in s.pcs && RoleOk(r)
    requires last == At(if s.count[SECONDARY] < s.targets[SECONDARY] && !s.waiting[SECONDARY] then Issue(s, SECONDARY) else s, u, Unlock(r))
    ensures Goes(At(s, u, Permit2(r, high, false, s.count[SECONDARY])), Take(u), last)
  {
    var pc := Permit2(r, high, false, s.count[SECONDARY]);
    AtShaped(s, u, pc);
    assert s.pcs[u := pc][u := Unlock(r)] == s.pcs[u := Unlock(r)];
  }

  /** A misled decision that is left alone, and has no primary permit to issue, issues a secondary
      one exactly if the secondary priority is below its target. */
  lemma MisledIssues(s: State, u: Tid) returns (states: seq<State>, actions: seq<Action>)
    requires Inv(s) && Stale(s) && s.stateLock == Some(u) && (s.pcs[u].Size? || s.pcs[u].Tally?)
    requires s.count[PRIMARY] >= s.targets[PRIMARY] || s.waiting[PRIMARY]
    ensures Run(states, actions) && states[0] == s && forall a <- actions :: a == Take(u)
    ensures Shaped(states[|actions|]) && states[|actions|].pcs == s.pcs[u := Unlock(s.pcs[u].role)]
    ensures states[|actions|].waiting[SECONDARY] <==> s.count[SECONDARY] < s.targets[SECONDARY]
    ensures states[|actions|].open[SECONDARY] == states[|actions|].waiting[SECONDARY]
  {
    var pc := s.pcs[u];
    assert PrioOk(pc) && Permits(s, SECONDARY);
    var high := if pc.Size? then pc.c + s.queued[PRIMARY] else s.count[PRIMARY] + pc.q;
    var a, x := ReadsOn(s, u, pc.role, high);
    var b, y := IssuesOn(s, u, pc.role, high);
    Joined(Goes, a, x, b, y);
    states, actions := a + b[1..], x + y;
    LinkedIsRun(states, actions);
  }
}
