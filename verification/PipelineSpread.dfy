/** What a dispatch makes of a request: one copy for every priority from the base to the last. */
module PipelineSpread {
  import opened Jobs
  import opened PipelineSteps
  import opened PipelineInvariant
  import opened PipelineDelivery
  import opened PipelineRuns
  import opened PipelineThreads

  /** Copy number `c` belongs to request `r`. */
  predicate Of(s: State, c: nat, r: nat) {
    c < |s.table| == |s.made| && s.table[c].request == r
  }

  // ----- copies of one request -----

  /** One thread at a time makes the copies of a request. */
  predicate OneSpreads(s: State) {
    forall t, u :: 0 <= t < |s.hands| && 0 <= u < |s.hands| && s.hands[t].Spreading? && s.hands[u].Spreading? ==>
      s.hands[t].request != s.hands[u].request || t == u
  }

  /** What has been made of a request that is being spread has its id and lower priorities. */
  predicate Behind(s: State) {
    forall t, c :: 0 <= t < |s.hands| && s.hands[t].Spreading? && 0 <= c < |s.made| && Of(s, c, s.hands[t].request) ==>
      s.made[c].id == s.hands[t].id && s.made[c].prio < s.hands[t].prio
  }

  /** The copies of a request have one id and different priorities. */
  predicate Apart(s: State) {
    forall c, d :: 0 <= c < d < |s.made| == |s.table| && Of(s, c, s.table[d].request) ==>
      s.made[c].id == s.made[d].id && s.made[c].prio != s.made[d].prio
  }

  predicate Spread(s: State) {
    Shaped(s) && OneSpreads(s) && Behind(s) && Apart(s)
  }

  /** Every step but that of a dispatching thread leaves the copies alone. */
  lemma SameCopies(s: State, a: Action)
    requires Possible(s, a) && !(a.Step? && s.hands[a.t].Spreading?)
    ensures Do(s, a).made == s.made && |Do(s, a).table| == |s.table|
    ensures forall c, r :: Of(Do(s, a), c, r) <==> Of(s, c, r)
    ensures !a.Dispatch? ==> !Target(s, a).Spreading?
  {
  }

  lemma SpreadElsewhere(s: State, a: Action)
    requires Spread(s) && Possible(s, a) && !(a.Step? && s.hands[a.t].Spreading?)
    ensures Spread(Do(s, a))
  {
    ShapedKept(s, a);
    SameCopies(s, a);
    if a.Dispatch? {
      assert forall t :: 0 <= t < |s.hands| && s.hands[t].Spreading? ==> HandOk(s, s.hands[t]);
    }
  }

  lemma CopyMade(s: State, t: nat)
    requires Possible(s, Step(t)) && s.hands[t].Spreading?
    ensures var h, s' := s.hands[t], Do(s, Step(t));
      && Shaped(s') && s'.made == s.made + [Job(h.id, h.prio, |s.made|)] && s'.table == s.table + [Copy(h.request, NoBody)]
      && (forall c: nat, r :: c < |s.made| ==> (Of(s', c, r) <==> Of(s, c, r))) && Of(s', |s.made|, h.request)
      && s'.hands == s.hands[t := if h.prio < h.last then h.(prio := h.prio + 1) else Free]
  {
    assert HandOk(s, s.hands[t]);
    ShapedKept(s, Step(t));
  }

  lemma SpreadByThread(s: State, t: nat)
    requires Spread(s) && Possible(s, Step(t)) && s.hands[t].Spreading?
    ensures Spread(Do(s, Step(t)))
  {
    CopyMade(s, t);
    ApartByThread(s, t);
    BehindByThread(s, t);
  }

  lemma ApartByThread(s: State, t: nat)
    requires Spread(s) && Possible(s, Step(t)) && s.hands[t].Spreading?
    ensures Apart(Do(s, Step(t)))
  {
    CopyMade(s, t);
    var s' := Do(s, Step(t));
    forall c, d | 0 <= c < d < |s'.made| && Of(s', c, s'.table[d].request)
      ensures s'.made[c].id == s'.made[d].id && s'.made[c].prio != s'.made[d].prio
    {
      assert Of(s, c, s'.table[d].request);
    }
  }

  lemma BehindByThread(s: State, t: nat)
    requires Spread(s) && Possible(s, Step(t)) && s.hands[t].Spreading?
    ensures Behind(Do(s, Step(t)))
  {
    CopyMade(s, t);
    var s' := Do(s, Step(t));
    forall u, c | 0 <= u < |s'.hands| && s'.hands[u].Spreading? && 0 <= c < |s'.made| && Of(s', c, s'.hands[u].request)
      ensures s'.made[c].id == s'.hands[u].id && s'.made[c].prio < s'.hands[u].prio
    {
      assert s.hands[u].Spreading? && s.hands[u].request == s'.hands[u].request;
      if c < |s.made| {
        assert Of(s, c, s.hands[u].request);
      } else {
        assert u == t;
      }
    }
  }

  lemma SpreadKept(s: State, a: Action)
    requires Spread(s) && Possible(s, a)
    ensures Spread(Do(s, a))
  {
    if a.Step? && s.hands[a.t].Spreading? {
      SpreadByThread(s, a.t);
    } else {
      SpreadElsewhere(s, a);
    }
  }

  lemma {:induction false} RunSpread(states: seq<State>, actions: seq<Action>, n: nat)
    requires RunFromStart(states, actions) && n < |states|
    ensures Spread(states[n])
  {
    if n == 0 {
      RunInv(states, actions, 0);
    } else {
      RunSpread(states, actions, n - 1);
      SpreadKept(states[n - 1], actions[n - 1]);
    }
  }

  // ----- one dispatch -----

  predicate MadeFor(s: State, r: nat, p: nat) {
    exists c: nat :: c < |s.made| && Of(s, c, r) && s.made[c].prio == p
  }

  /** The copies of request `r` are those of the priorities from `base` up to `next`, with this id. */
  predicate Covers(s: State, r: nat, id: JobId, base: nat, next: nat) {
    && |s.table| == |s.made|
    && (forall c: nat :: c < |s.made| && Of(s, c, r) ==> s.made[c].id == id && base <= s.made[c].prio < next)
    && forall p: nat :: base <= p < next ==> MadeFor(s, r, p)
  }

  /** A thread is making the copies of request `r`. */
  predicate AtWork(s: State, t: nat, r: nat, id: JobId, base: nat, last: nat) {
    && t < |s.hands| && s.hands[t].Spreading? && s.hands[t] == Spreading(r, id, s.hands[t].prio, last)
    && Covers(s, r, id, base, s.hands[t].prio) && base <= s.hands[t].prio <= last
  }

  lemma CoversMore(s: State, t: nat, r: nat, id: JobId, base: nat, last: nat)
    requires Possible(s, Step(t)) && AtWork(s, t, r, id, base, last)
    ensures Covers(Do(s, Step(t)), r, id, base, s.hands[t].prio + 1)
  {
    CopyMade(s, t);
    var s', q := Do(s, Step(t)), s.hands[t].prio;
    forall c: nat | c < |s'.made| && Of(s', c, r)
      ensures s'.made[c].id == id && base <= s'.made[c].prio < q + 1
    {
      assert c < |s.made| ==> Of(s, c, r);
    }
    forall p: nat | base <= p < q + 1
      ensures MadeFor(s', r, p)
    {
      if p < q {
        assert MadeFor(s, r, p);
        var c: nat :| c < |s.made| && Of(s, c, r) && s.made[c].prio == p;
        assert Of(s', c, r) && s'.made[c].prio == p;
      } else {
        assert Of(s', |s.made|, r) && s'.made[|s.made|].prio == p;
      }
    }
  }

  /** The work of other threads, and of this one on its own request, keeps what has been made. */
  lemma CoversKept(s: State, a: Action, r: nat, id: JobId, base: nat, next: nat)
    requires Possible(s, a) && Covers(s, r, id, base, next)
    requires a.Step? && s.hands[a.t].Spreading? ==> s.hands[a.t].request != r
    ensures Covers(Do(s, a), r, id, base, next)
  {
    var s' := Do(s, a);
    if a.Step? && s.hands[a.t].Spreading? {
      CopyMade(s, a.t);
    } else {
      SameCopies(s, a);
    }
    forall p: nat | base <= p < next
      ensures MadeFor(s', r, p)
    {
      assert MadeFor(s, r, p);
      var c: nat :| c < |s.made| && Of(s, c, r) && s.made[c].prio == p;
      assert Of(s', c, r) && s'.made[c].prio == p;
    }
    forall c: nat | c < |s'.made| && Of(s', c, r)
      ensures s'.made[c].id == id && base <= s'.made[c].prio < next
    {
      assert c < |s.made| && Of(s, c, r);
    }
  }

  lemma WorkNext(s: State, a: Action, t: nat, r: nat, id: JobId, base: nat, last: nat)
    requires Spread(s) && Possible(s, a) && AtWork(s, t, r, id, base, last)
    ensures t < |Do(s, a).hands|
    ensures Do(s, a).hands[t] != Free ==> AtWork(Do(s, a), t, r, id, base, last)
    ensures Do(s, a).hands[t] == Free ==> Covers(Do(s, a), r, id, base, last + 1)
  {
    if a.t == t {
      CopyMade(s, t);
      CoversMore(s, t, r, id, base, last);
    } else {
      CoversKept(s, a, r, id, base, s.hands[t].prio);
      EffectExtends(s, a);
    }
  }

  /** The copies of request `r` are all made, and nobody makes more. */
  predicate AllMade(s: State, r: nat, id: JobId, base: nat, last: nat) {
    && Covers(s, r, id, base, last + 1) && r < |s.purged|
    && forall t :: 0 <= t < |s.hands| && s.hands[t].Spreading? ==> s.hands[t].request != r
  }

  lemma AllMadeKept(s: State, a: Action, r: nat, id: JobId, base: nat, last: nat)
    requires Possible(s, a) && AllMade(s, r, id, base, last)
    ensures AllMade(Do(s, a), r, id, base, last)
  {
    CoversKept(s, a, r, id, base, last + 1);
    EffectExtends(s, a);
    if !(a.Step? && s.hands[a.t].Spreading?) {
      SameCopies(s, a);
    }
  }

  lemma AllMadeByThread(s: State, t: nat, r: nat, id: JobId, base: nat, last: nat)
    requires Spread(s) && Possible(s, Step(t)) && AtWork(s, t, r, id, base, last) && s.hands[t].prio == last
    ensures AllMade(Do(s, Step(t)), r, id, base, last)
  {
    assert HandOk(s, s.hands[t]);
    CopyMade(s, t);
    CoversMore(s, t, r, id, base, last);
    ShapedKept(s, Step(t));
  }

  /** The dispatch is at work, or done. */
  predicate Works(s: State, t: nat, r: nat, id: JobId, base: nat, last: nat) {
    AtWork(s, t, r, id, base, last) || AllMade(s, r, id, base, last)
  }

  lemma WorksNext(s: State, a: Action, t: nat, r: nat, id: JobId, base: nat, last: nat)
    requires Spread(s) && Possible(s, a) && Works(s, t, r, id, base, last)
    ensures Works(Do(s, a), t, r, id, base, last)
  {
    if AllMade(s, r, id, base, last) {
      AllMadeKept(s, a, r, id, base, last);
    } else if a == Step(t) && s.hands[t].prio == last {
      AllMadeByThread(s, t, r, id, base, last);
    } else {
      WorkNext(s, a, t, r, id, base, last);
    }
  }

  lemma {:induction false} WorksOn(states: seq<State>, i: nat, n: nat, t: nat, r: nat, id: JobId, base: nat, last: nat)
    requires i <= n < |states| && Works(states[i], t, r, id, base, last)
    requires forall m :: i <= m < n && Works(states[m], t, r, id, base, last) ==> Works(states[m + 1], t, r, id, base, last)
    ensures Works(states[n], t, r, id, base, last)
  {
    if i < n {
      WorksOn(states, i, n - 1, t, r, id, base, last);
    }
  }

  /** A dispatch at work at step `i` has made every copy when its thread is free again. */
  lemma WorkEnds(states: seq<State>, actions: seq<Action>, i: nat, n: nat, t: nat, r: nat, id: JobId, base: nat, last: nat)
    requires RunFromStart(states, actions) && i <= n < |states| && AtWork(states[i], t, r, id, base, last)
    requires t < |states[n].hands| && states[n].hands[t] == Free
    ensures Covers(states[n], r, id, base, last + 1)
  {
    forall m | i <= m < n && Works(states[m], t, r, id, base, last)
      ensures Works(states[m + 1], t, r, id, base, last)
    {
      RunSpread(states, actions, m);
      WorksNext(states[m], actions[m], t, r, id, base, last);
    }
    WorksOn(states, i, n, t, r, id, base, last);
  }

  lemma WorkStarts(s: State, a: Action)
    requires Possible(s, a) && a.Dispatch?
    ensures AtWork(Do(s, a), a.t, |s.purged|, a.id, a.base, a.last)
  {
    SameCopies(s, a);
  }

  /** A dispatch begins at step `i`.  Whenever its thread is free after that, its request has exactly
      one copy for each priority from `base` to `last`, all with its id, and no other copy. */
  lemma DispatchMakesEveryCopy(states: seq<State>, actions: seq<Action>, i: nat, n: nat, t: nat, id: JobId, base: nat, last: nat)
    requires RunFromStart(states, actions) && i < n <= |actions| && actions[i] == Dispatch(t, id, base, last)
    requires t < |states[n].hands| && states[n].hands[t] == Free
    ensures Shaped(states[i]) && Shaped(states[n])
    ensures var s, r := states[n], |states[i].purged|;
      && (forall c: nat :: c < |s.made| && Of(s, c, r) ==> s.made[c].id == id && base <= s.made[c].prio <= last)
      && (forall p: nat :: base <= p <= last ==> MadeFor(s, r, p))
      && forall c: nat, d: nat :: c < d < |s.made| && Of(s, c, r) && Of(s, d, r) ==> s.made[c].prio != s.made[d].prio
  {
    WorkStarts(states[i], actions[i]);
    WorkEnds(states, actions, i + 1, n, t, |states[i].purged|, id, base, last);
    RunSpread(states, actions, n);
    CopiesApart(states[n], |states[i].purged|);
  }

  lemma CopiesApart(s: State, r: nat)
    requires Spread(s)
    ensures forall c: nat, d: nat :: c < d < |s.made| && Of(s, c, r) && Of(s, d, r) ==> s.made[c].prio != s.made[d].prio
  {
  }
}
