/** The throttler's statistics: finished jobs push a latency and a size onto two lists of their
    priority, while a runner wipes the lists when it starts and then delivers them in batches. */
module Statistics {
  import opened Jobs

  datatype Record = Record(serial: nat, prio: nat, latency: int, size: int)

  /** `log` is the jobs behind the two lists of each side. */
  datatype Batch = Batch(latencies: seq<seq<int>>, sizes: seq<seq<int>>, log: seq<seq<Record>>)

  /** A thread in AddStat. */
  datatype Pc =
    | Idle
    | Arrive(rec: Record)  // lock the updater lock shared
    | Shared(rec: Record)  // lock the lists of its side
    | Locked(rec: Record)  // push the latency
    | Half(rec: Record)    // push the size and unlock

  datatype Runner =
    | Off
    | Start            // lock the updater lock exclusively
    | Wiping           // clear the lists
    | Asleep           // wait, then lock exclusively
    | Copying
    | Clearing(batch: Batch)  // clear the lists, unlock and call back with the batch

  datatype State = State(
    lists: Batch,
    finished: seq<Record>,
    wiped: multiset<Record>,
    delivered: seq<Batch>,
    runner: Runner,
    pcs: seq<Pc>)

  /** Priority 0 has its own lists; all others share the second pair. */
  function Side(r: Record): nat {
    if r.prio == 0 then 0 else 1
  }

  const EMPTY := Batch([[], []], [[], []], [[], []])

  function Init(threads: nat): State {
    State(EMPTY, [], multiset{}, [], Off, seq(threads, _ => Idle))
  }

  predicate HoldsShared(pc: Pc) {
    pc.Shared? || pc.Locked? || pc.Half?
  }

  predicate HoldsSide(pc: Pc, p: nat) {
    (pc.Locked? || pc.Half?) && Side(pc.rec) == p
  }

  predicate HoldsExclusive(r: Runner) {
    r.Wiping? || r.Copying? || r.Clearing?
  }

  datatype Action =
    | Finish(t: nat, prio: nat, latency: int, size: int)
    | Take(t: nat)
    | Launch  // RunEveryT, after the previous runner has been joined
    | Join    // the runner sees that it is to stop
    | Run

  predicate Shaped(b: Batch) {
    |b.latencies| == 2 && |b.sizes| == 2 && |b.log| == 2
  }

  predicate Possible(s: State, a: Action) {
    && Shaped(s.lists)
    && match a
       case Finish(t, _, _, _) => t < |s.pcs| && s.pcs[t].Idle?
       case Take(t) =>
         && t < |s.pcs| && !s.pcs[t].Idle?
         && (s.pcs[t].Arrive? ==> !HoldsExclusive(s.runner))
         && (s.pcs[t].Shared? ==> forall pc <- s.pcs :: !HoldsSide(pc, Side(s.pcs[t].rec)))
       case Launch => s.runner.Off?
       case Join => s.runner.Asleep?
       case Run => !s.runner.Off? && (HoldsExclusive(s.runner) || forall pc <- s.pcs :: !HoldsShared(pc))
  }

  function Pushed<T>(lists: seq<seq<T>>, p: nat, x: T): seq<seq<T>>
    requires p < |lists|
  {
    lists[p := lists[p] + [x]]
  }

  function Effect(s: State, pc: Pc): Batch
    requires Shaped(s.lists)
  {
    match pc
    case Locked(r) =>
      s.lists.(latencies := Pushed(s.lists.latencies, Side(r), r.latency), log := Pushed(s.lists.log, Side(r), r))
    case Half(r) => s.lists.(sizes := Pushed(s.lists.sizes, Side(r), r.size))
    case _ => s.lists
  }

  function Target(pc: Pc): Pc {
    match pc
    case Idle | Half(_) => Idle
    case Arrive(r) => Shared(r)
    case Shared(r) => Locked(r)
    case Locked(r) => Half(r)
  }

  function Advance(s: State): State {
    match s.runner
    case Off => s
    case Start => s.(runner := Wiping)
    case Wiping => s.(runner := Asleep, lists := EMPTY, wiped := s.wiped + Logged(s.lists))
    case Asleep => s.(runner := Copying)
    case Copying => s.(runner := Clearing(s.lists))
    case Clearing(b) => s.(runner := Asleep, lists := EMPTY, delivered := s.delivered + [b])
  }

  function Logged(b: Batch): multiset<Record> {
    if Shaped(b) then multiset(b.log[0]) + multiset(b.log[1]) else multiset{}
  }

  function Do(s: State, a: Action): State
    requires Possible(s, a)
  {
    match a
    case Finish(t, prio, latency, size) =>
      var r := Record(|s.finished|, prio, latency, size);
      s.(finished := s.finished + [r], pcs := s.pcs[t := Arrive(r)])
    case Take(t) => s.(lists := Effect(s, s.pcs[t]), pcs := s.pcs[t := Target(s.pcs[t])])
    case Launch => s.(runner := Start)
    case Join => s.(runner := Off)
    case Run => Advance(s)
  }

  // ----- the lists line up -----

  function Latencies(log: seq<Record>): seq<int> {
    seq(|log|, k requires 0 <= k < |log| => log[k].latency)
  }

  function Sizes(log: seq<Record>): seq<int> {
    seq(|log|, k requires 0 <= k < |log| => log[k].size)
  }

  /** The k-th latency and the k-th size of a side come from the k-th job, one of that side. */
  ghost predicate LinedUp(b: Batch, p: nat)
    requires Shaped(b) && p < 2
  {
    && b.latencies[p] == Latencies(b.log[p]) && b.sizes[p] == Sizes(b.log[p])
    && forall r <- b.log[p] :: Side(r) == p
  }

  /** As seen by a thread that has pushed the latency of `r` and not yet its size. */
  ghost predicate HalfUp(b: Batch, r: Record)
    requires Shaped(b)
  {
    var p, log := Side(r), b.log[Side(r)];
    && |log| > 0 && log[|log| - 1] == r
    && b.latencies[p] == Latencies(log) && b.sizes[p] == Sizes(log[..|log| - 1])
    && forall x <- log :: Side(x) == p
  }

  ghost predicate Locks(s: State) {
    && (HoldsExclusive(s.runner) ==> forall t :: 0 <= t < |s.pcs| ==> !HoldsShared(s.pcs[t]))
    && forall t, u, p :: 0 <= t < |s.pcs| && 0 <= u < |s.pcs| && HoldsSide(s.pcs[t], p) && HoldsSide(s.pcs[u], p) ==> t == u
  }

  predicate Halved(pcs: seq<Pc>, p: nat) {
    exists t :: 0 <= t < |pcs| && pcs[t].Half? && Side(pcs[t].rec) == p
  }

  ghost predicate Lists(s: State) {
    && Shaped(s.lists) && Locks(s)
    && (forall p :: 0 <= p < 2 && !Halved(s.pcs, p) ==> LinedUp(s.lists, p))
    && (forall t :: 0 <= t < |s.pcs| && s.pcs[t].Half? ==> HalfUp(s.lists, s.pcs[t].rec))
    && (s.runner.Clearing? ==> s.runner.batch == s.lists)
    && forall b <- s.delivered :: Shaped(b) && LinedUp(b, 0) && LinedUp(b, 1)
  }

  lemma LocksKept(s: State, a: Action)
    requires Locks(s) && Possible(s, a)
    ensures Locks(Do(s, a))
  {
    var s' := Do(s, a);
    if a.Take? && s.pcs[a.t].Shared? {
      assert forall u :: 0 <= u < |s.pcs| ==> !HoldsSide(s.pcs[u], Side(s.pcs[a.t].rec));
    }
    if a.Run? && HoldsExclusive(s'.runner) && !HoldsExclusive(s.runner) {
      assert forall t :: 0 <= t < |s.pcs| ==> !HoldsShared(s.pcs[t]);
    }
  }

  lemma PushLatency(b: Batch, r: Record)
    requires Shaped(b) && LinedUp(b, Side(r))
    ensures HalfUp(b.(latencies := Pushed(b.latencies, Side(r), r.latency), log := Pushed(b.log, Side(r), r)), r)
  {
    var log := b.log[Side(r)];
    assert (log + [r])[..|log|] == log;
    assert Latencies(log + [r]) == Latencies(log) + [r.latency];
  }

  lemma PushSize(b: Batch, r: Record)
    requires Shaped(b) && HalfUp(b, r)
    ensures LinedUp(b.(sizes := Pushed(b.sizes, Side(r), r.size)), Side(r))
  {
    var log := b.log[Side(r)];
    assert Sizes(log) == Sizes(log[..|log| - 1]) + [r.size];
  }

  lemma HalvedStays(pcs: seq<Pc>, t: nat, pc: Pc, q: nat)
    requires t < |pcs| && !(pcs[t].Half? && Side(pcs[t].rec) == q)
    ensures Halved(pcs, q) ==> Halved(pcs[t := pc], q)
  {
    if Halved(pcs, q) {
      var u: nat :| u < |pcs| && pcs[u].Half? && Side(pcs[u].rec) == q;
      assert pcs[t := pc][u].Half?;
    }
  }

  /** The step of a thread that holds the lists of its side, seen from that side. */
  lemma SideKept(s: State, t: nat, p: nat)
    requires Lists(s) && Possible(s, Take(t)) && HoldsSide(s.pcs[t], p)
    ensures var s' := Do(s, Take(t));
            && (s.pcs[t].Locked? ==> HalfUp(s'.lists, s.pcs[t].rec))
            && (s.pcs[t].Half? ==> LinedUp(s'.lists, p))
  {
    if s.pcs[t].Locked? {
      assert !Halved(s.pcs, p) by {
        assert forall u :: 0 <= u < |s.pcs| && u != t ==> !HoldsSide(s.pcs[u], p);
      }
      PushLatency(s.lists, s.pcs[t].rec);
    } else {
      PushSize(s.lists, s.pcs[t].rec);
    }
  }

  /** Every side that nobody is half way through lines up after the step. */
  lemma SidesLineUp(s: State, t: nat, q: nat)
    requires Lists(s) && Possible(s, Take(t)) && q < 2 && !Halved(Do(s, Take(t)).pcs, q)
    ensures LinedUp(Do(s, Take(t)).lists, q)
  {
    var pc := s.pcs[t];
    assert Do(s, Take(t)).pcs[t] == Target(pc);
    if HoldsSide(pc, q) {
      SideKept(s, t, q);
    } else {
      HalvedStays(s.pcs, t, Target(pc), q);
    }
  }

  /** And a thread half way through still is. */
  lemma HalvesKept(s: State, t: nat, u: nat)
    requires Lists(s) && Possible(s, Take(t)) && u < |s.pcs| && Do(s, Take(t)).pcs[u].Half?
    ensures HalfUp(Do(s, Take(t)).lists, Do(s, Take(t)).pcs[u].rec)
  {
    if u == t {
      SideKept(s, t, Side(s.pcs[t].rec));
    } else {
      assert HalfUp(s.lists, s.pcs[u].rec) && HoldsSide(s.pcs[u], Side(s.pcs[u].rec));
      assert !HoldsSide(s.pcs[t], Side(s.pcs[u].rec));
    }
  }

  lemma TakeKeeps(s: State, t: nat)
    requires Lists(s) && Possible(s, Take(t))
    ensures Lists(Do(s, Take(t)))
  {
    LocksKept(s, Take(t));
    var s' := Do(s, Take(t));
    forall q | 0 <= q < 2 && !Halved(s'.pcs, q)
      ensures LinedUp(s'.lists, q)
    {
      SidesLineUp(s, t, q);
    }
    forall u | 0 <= u < |s'.pcs| && s'.pcs[u].Half?
      ensures HalfUp(s'.lists, s'.pcs[u].rec)
    {
      HalvesKept(s, t, u);
    }
    assert HoldsExclusive(s.runner) ==> !HoldsShared(s.pcs[t]);
  }

  lemma ListsKept(s: State, a: Action)
    requires Lists(s) && Possible(s, a)
    ensures Lists(Do(s, a))
  {
    LocksKept(s, a);
    var s' := Do(s, a);
    if a.Take? {
      TakeKeeps(s, a.t);
    } else if a.Run? && HoldsExclusive(s.runner) {
      assert !Halved(s.pcs, 0) && !Halved(s.pcs, 1) && s'.pcs == s.pcs;
      assert LinedUp(EMPTY, 0) && LinedUp(EMPTY, 1);
    } else {
      assert s'.lists == s.lists;
      assert forall q :: Halved(s'.pcs, q) <==> Halved(s.pcs, q) by {
        assert forall t :: 0 <= t < |s.pcs| ==> (s'.pcs[t].Half? <==> s.pcs[t].Half?);
      }
    }
  }

  // ----- every record in one place -----

  /** The thread carries the record of `x` and has pushed nothing of it. */
  predicate Carries(pc: Pc, x: Record) {
    (pc.Arrive? || pc.Shared? || pc.Locked?) && pc.rec == x
  }

  function InThreads(pcs: seq<Pc>, x: Record): nat {
    if pcs == [] then 0 else One(Carries(pcs[0], x)) + InThreads(pcs[1..], x)
  }

  function InBatches(bs: seq<Batch>, x: Record): nat {
    if bs == [] then 0 else Logged(bs[0])[x] + InBatches(bs[1..], x)
  }

  function Places(s: State, x: Record): nat {
    InThreads(s.pcs, x) + Logged(s.lists)[x] + s.wiped[x] + InBatches(s.delivered, x)
  }

  ghost predicate Conserved(s: State) {
    && (forall i :: 0 <= i < |s.finished| ==> s.finished[i].serial == i)
    && forall x :: Places(s, x) == One(x in s.finished)
  }

  lemma {:induction false} InThreadsSet(pcs: seq<Pc>, t: nat, pc: Pc, x: Record)
    requires t < |pcs|
    ensures InThreads(pcs[t := pc], x) + One(Carries(pcs[t], x)) == InThreads(pcs, x) + One(Carries(pc, x))
  {
    if t == 0 {
      assert pcs[t := pc][1..] == pcs[1..];
    } else {
      assert pcs[t := pc][1..] == pcs[1..][t - 1 := pc];
      InThreadsSet(pcs[1..], t - 1, pc, x);
    }
  }

  lemma {:induction false} InThreadsIdle(n: nat, x: Record)
    ensures InThreads(seq(n, _ => Idle), x) == 0
  {
    if n > 0 {
      assert seq(n, _ => Idle)[1..] == seq(n - 1, _ => Idle);
      InThreadsIdle(n - 1, x);
    }
  }

  lemma {:induction false} InBatchesAppend(bs: seq<Batch>, b: Batch, x: Record)
    ensures InBatches(bs + [b], x) == InBatches(bs, x) + Logged(b)[x]
  {
    if bs == [] {
      assert bs + [b] == [b];
    } else {
      assert (bs + [b])[1..] == bs[1..] + [b];
      InBatchesAppend(bs[1..], b, x);
    }
  }

  lemma EffectLogs(s: State, pc: Pc, x: Record)
    requires Shaped(s.lists)
    ensures Logged(Effect(s, pc))[x] == Logged(s.lists)[x] + One(pc.Locked? && pc.rec == x)
  {
    if pc.Locked? {
      var log, p := s.lists.log, Side(pc.rec);
      var e := Effect(s, pc);
      assert multiset(log[p] + [pc.rec]) == multiset(log[p]) + multiset{pc.rec};
      assert e.log[p] == log[p] + [pc.rec] && e.log[1 - p] == log[1 - p];
    }
  }

  lemma TakePlaces(s: State, t: nat, x: Record)
    requires Possible(s, Take(t))
    ensures Places(Do(s, Take(t)), x) == Places(s, x)
  {
    EffectLogs(s, s.pcs[t], x);
    InThreadsSet(s.pcs, t, Target(s.pcs[t]), x);
  }

  lemma FinishPlaces(s: State, a: Action, x: Record)
    requires Conserved(s) && Possible(s, a) && a.Finish?
    ensures Places(Do(s, a), x) == One(x in Do(s, a).finished)
  {
    var r := Record(|s.finished|, a.prio, a.latency, a.size);
    assert Places(s, x) == One(x in s.finished);
    InThreadsSet(s.pcs, a.t, Arrive(r), x);
    assert r !in s.finished;
  }

  lemma RunnerPlaces(s: State, x: Record)
    requires Lists(s)
    ensures Places(Advance(s), x) == Places(s, x)
  {
    assert Logged(EMPTY)[x] == 0;
    var s' := Advance(s);
    match s.runner
    case Wiping => assert s'.wiped[x] == s.wiped[x] + Logged(s.lists)[x];
    case Clearing(b) => InBatchesAppend(s.delivered, b, x);
    case _ => assert s'.lists == s.lists && s'.delivered == s.delivered && s'.wiped == s.wiped;
  }

  lemma ConservedKept(s: State, a: Action)
    requires Lists(s) && Conserved(s) && Possible(s, a)
    ensures Conserved(Do(s, a))
  {
    forall x
      ensures Places(Do(s, a), x) == One(x in Do(s, a).finished)
    {
      assert Places(s, x) == One(x in s.finished);
      match a
      case Finish(_, _, _, _) => FinishPlaces(s, a, x);
      case Take(t) => TakePlaces(s, t, x);
      case Run => RunnerPlaces(s, x);
      case _ =>
    }
  }

  // ----- runs -----

  ghost predicate RunFromStart(states: seq<State>, actions: seq<Action>) {
    && |states| == |actions| + 1
    && (exists threads: nat :: states[0] == Init(threads))
    && forall i :: 0 <= i < |actions| ==> Possible(states[i], actions[i]) && states[i + 1] == Do(states[i], actions[i])
  }

  lemma {:induction false} RunInv(states: seq<State>, actions: seq<Action>, i: nat)
    requires RunFromStart(states, actions) && i < |states|
    ensures Lists(states[i]) && Conserved(states[i])
  {
    if i == 0 {
      var threads: nat :| states[0] == Init(threads);
      forall x
        ensures Places(states[0], x) == 0
      {
        InThreadsIdle(threads, x);
      }
    } else {
      RunInv(states, actions, i - 1);
      ListsKept(states[i - 1], actions[i - 1]);
      ConservedKept(states[i - 1], actions[i - 1]);
    }
  }

  /** Every finished job's record is in exactly one place: with the thread that finished it,
      in the lists, among those wiped by a starting runner, or in one delivered batch. */
  lemma RecordInOnePlace(states: seq<State>, actions: seq<Action>, i: nat, k: nat)
    requires RunFromStart(states, actions) && i < |states| && k < |states[i].finished|
    ensures var s := states[i]; var x := s.finished[k];
            InThreads(s.pcs, x) + Logged(s.lists)[x] + s.wiped[x] + InBatches(s.delivered, x) == 1
  {
    RunInv(states, actions, i);
    assert Places(states[i], states[i].finished[k]) == 1;
  }

  /** In every batch the callback gets, the k-th latency and the k-th size of a side are those of
      one and the same finished job, a primary one on the first side and any other on the second. */
  lemma BatchesLineUp(states: seq<State>, actions: seq<Action>, i: nat, n: nat, p: nat)
    requires RunFromStart(states, actions) && i < |states| && n < |states[i].delivered| && p < 2
    ensures var b := states[i].delivered[n];
            && Shaped(b) && |b.latencies[p]| == |b.sizes[p]| == |b.log[p]|
            && forall k :: 0 <= k < |b.log[p]| ==>
                 && b.latencies[p][k] == b.log[p][k].latency && b.sizes[p][k] == b.log[p][k].size
                 && (p == 0 <==> b.log[p][k].prio == 0) && b.log[p][k] in states[i].finished
  {
    RunInv(states, actions, i);
    var s := states[i];
    var b := s.delivered[n];
    assert LinedUp(b, p);
    assert forall k :: 0 <= k < |b.log[p]| ==> b.log[p][k] in b.log[p] && Side(b.log[p][k]) == p;
    forall k | 0 <= k < |b.log[p]|
      ensures b.log[p][k] in s.finished
    {
      InBatchesHas(s.delivered, n, b.log[p][k]);
      assert Places(s, b.log[p][k]) == One(b.log[p][k] in s.finished);
    }
  }

  /** At every step, whoever holds a lock, the sizes of a side belong to the same jobs as the
      latencies in front of them; only the newest job may still owe its size. */
  lemma ListsLineUp(states: seq<State>, actions: seq<Action>, i: nat, p: nat)
    requires RunFromStart(states, actions) && i < |states| && p < 2
    ensures var b := states[i].lists;
            && Shaped(b) && |b.latencies[p]| == |b.log[p]|
            && |b.log[p]| == |b.sizes[p]| + One(Halved(states[i].pcs, p))
            && (forall k :: 0 <= k < |b.log[p]| ==> b.latencies[p][k] == b.log[p][k].latency && (p == 0 <==> b.log[p][k].prio == 0))
            && (forall k :: 0 <= k < |b.sizes[p]| ==> b.sizes[p][k] == b.log[p][k].size)
  {
    RunInv(states, actions, i);
    var s := states[i];
    if Halved(s.pcs, p) {
      var t: nat :| t < |s.pcs| && s.pcs[t].Half? && Side(s.pcs[t].rec) == p;
      assert HalfUp(s.lists, s.pcs[t].rec);
    }
    assert forall k :: 0 <= k < |s.lists.log[p]| ==> s.lists.log[p][k] in s.lists.log[p] && Side(s.lists.log[p][k]) == p;
  }

  lemma {:induction false} InBatchesHas(bs: seq<Batch>, n: nat, x: Record)
    requires n < |bs| && x in Logged(bs[n])
    ensures InBatches(bs, x) > 0
  {
    if n > 0 {
      InBatchesHas(bs[1..], n - 1, x);
    }
  }

  // ----- what a call and a round leave behind -----

  /** The thread still has the record it came with. */
  ghost predicate Bears(s: State, t: nat, r: Record) {
    t < |s.pcs| && !s.pcs[t].Idle? && s.pcs[t].rec == r
  }

  lemma BearsNext(s: State, a: Action, t: nat, r: Record)
    requires Possible(s, a) && Bears(s, t, r)
    ensures Bears(Do(s, a), t, r) || (a == Take(t) && s.pcs[t] == Half(r))
  {
  }

  lemma {:induction false} BearsOn(states: seq<State>, actions: seq<Action>, t: nat, r: Record, i: nat, n: nat)
    requires RunFromStart(states, actions) && i <= n < |states| && Bears(states[i], t, r)
    requires forall m :: i <= m <= n ==> t < |states[m].pcs| && !states[m].pcs[t].Idle?
    ensures Bears(states[n], t, r)
    decreases n
  {
    if i < n {
      BearsOn(states, actions, t, r, i, n - 1);
      BearsNext(states[n - 1], actions[n - 1], t, r);
    }
  }

  lemma HalfReturns(s: State, t: nat, r: Record)
    requires Lists(s) && Possible(s, Take(t)) && s.pcs[t] == Half(r)
    ensures var b, p := Do(s, Take(t)).lists, Side(r);
            && Shaped(b) && |b.latencies[p]| == |b.sizes[p]| > 0
            && b.latencies[p][|b.latencies[p]| - 1] == r.latency && b.sizes[p][|b.sizes[p]| - 1] == r.size
  {
    assert HalfUp(s.lists, r);
  }

  /** When the destructor of a job returns from AddStat, however many threads report meanwhile, the
      newest entry of the lists of its side, the first for priority 0 and the second for any other, is
      the latency and the size it came with. */
  lemma AddStatRecords(states: seq<State>, actions: seq<Action>, i: nat, n: nat, t: nat)
    requires RunFromStart(states, actions) && i < n <= |actions| && actions[i].Finish? && actions[i].t == t
    requires forall m :: i < m < n ==> t < |states[m].pcs| && !states[m].pcs[t].Idle?
    requires t < |states[n].pcs| && states[n].pcs[t].Idle?
    ensures var b, p := states[n].lists, if actions[i].prio == 0 then 0 else 1;
            && Shaped(b) && |b.latencies[p]| == |b.sizes[p]| > 0
            && b.latencies[p][|b.latencies[p]| - 1] == actions[i].latency
            && b.sizes[p][|b.sizes[p]| - 1] == actions[i].size
  {
    var r := Record(|states[i].finished|, actions[i].prio, actions[i].latency, actions[i].size);
    assert states[i + 1] == Do(states[i], actions[i]);
    assert Bears(states[i + 1], t, r);
    BearsOn(states, actions, t, r, i + 1, n - 1);
    RunInv(states, actions, n - 1);
    BearsNext(states[n - 1], actions[n - 1], t, r);
    HalfReturns(states[n - 1], t, r);
  }

  /** A round of the runner that nobody disturbs: one batch, which is the lists as they were, and
      then empty lists; nothing is wiped. */
  lemma RoundAlone(s: State) returns (s1: State, s2: State, s3: State)
    requires Lists(s) && s.runner.Asleep? && forall pc <- s.pcs :: !HoldsShared(pc)
    ensures Possible(s, Run) && s1 == Do(s, Run) && Possible(s1, Run) && s2 == Do(s1, Run) && Possible(s2, Run) && s3 == Do(s2, Run)
    ensures s3 == s.(lists := EMPTY, delivered := s.delivered + [s.lists])
  {
    s1 := Do(s, Run);
    s2 := Do(s1, Run);
    s3 := Do(s2, Run);
  }

  /** Its start: what had gathered is wiped and nothing is delivered. */
  lemma StartAlone(s: State) returns (s1: State, s2: State, s3: State)
    requires Lists(s) && s.runner.Off? && forall pc <- s.pcs :: !HoldsShared(pc)
    ensures Possible(s, Launch) && s1 == Do(s, Launch) && Possible(s1, Run) && s2 == Do(s1, Run) && Possible(s2, Run) && s3 == Do(s2, Run)
    ensures s3 == s.(lists := EMPTY, runner := Asleep, wiped := s.wiped + (multiset(s.lists.log[0]) + multiset(s.lists.log[1])))
  {
    s1 := Do(s, Launch);
    s2 := Do(s1, Run);
    s3 := Do(s2, Run);
  }

  /** How often the lists were wiped without being delivered, and how often a runner was launched. */
  function Wipes(states: seq<State>, actions: seq<Action>, k: nat): nat
    requires k <= |actions| < |states|
  {
    if k == 0 then 0 else Wipes(states, actions, k - 1) + One(actions[k - 1].Run? && states[k - 1].runner.Wiping?)
  }

  function Launches(actions: seq<Action>, k: nat): nat
    requires k <= |actions|
  {
    if k == 0 then 0 else Launches(actions, k - 1) + One(actions[k - 1].Launch?)
  }

  /** Records are wiped only by a runner that starts, once for each launch, and at no other step; and
      they are delivered only as a whole batch. */
  lemma {:induction false} WipedOnlyAtStart(states: seq<State>, actions: seq<Action>, k: nat)
    requires RunFromStart(states, actions) && k <= |actions|
    ensures Launches(actions, k) == Wipes(states, actions, k) + One(states[k].runner.Start? || states[k].runner.Wiping?)
    ensures k < |actions| && states[k + 1].wiped != states[k].wiped ==> actions[k].Run? && states[k].runner.Wiping?
    ensures k < |actions| && states[k + 1].delivered != states[k].delivered ==>
              states[k + 1].delivered == states[k].delivered + [states[k].lists]
  {
    RunInv(states, actions, k);
    if k > 0 {
      WipedOnlyAtStart(states, actions, k - 1);
      assert states[k] == Do(states[k - 1], actions[k - 1]);
    }
    if k < |actions| {
      assert states[k + 1] == Do(states[k], actions[k]);
    }
  }
}
