/** Two dequeuers of the last priority, whose gate the constructor leaves open: for every number
    of priorities a run with no purge and no release in which one of them pops an empty list. */
module QueueRace {
  import opened Jobs
  import opened Runs
  import opened QueueIndex
  import opened QueueSteps
  import opened QueueGates
  import opened QueueView

  const NODE := Node(0, 7)

  function J(m: nat): Job {
    Job(7, m, 0)
  }

  /** Two threads at the last priority `m`; the one job is not there yet (0), inserted (1), or
      inserted and indexed (2). */
  function V(m: nat, queue: seq<Node>, job: nat, gate: bool, shared: set<Tid>, queueLock: Option<Tid>,
             indexLock: Option<Tid>, pc0: Pc, pc1: Pc): View
  {
    View(m, m, queue, if job < 2 then map[] else map[7 := [Entry(J(m), NODE)]], gate, false, shared, None,
         queueLock, indexLock, map[0 := pc0, 1 := pc1], if job < 1 then [] else [J(m)])
  }

  function W0(m: nat): View {
    V(m, [], 0, true, {}, None, None, Idle, Idle)
  }

  function W1(m: nat): View {
    V(m, [], 0, true, {}, None, None, DGate(m), Idle)
  }

  function W2(m: nat): View {
    V(m, [], 0, false, {}, None, None, DFlag(m), Idle)
  }

  function W3(m: nat): View {
    V(m, [], 0, false, {}, None, None, DFlag(m), EShared(J(m)))
  }

  function W4(m: nat): View {
    V(m, [], 0, false, {1}, None, None, DFlag(m), EQueue(J(m)))
  }

  function W5(m: nat): View {
    V(m, [], 0, false, {1}, Some(1), None, DFlag(m), EInsert(J(m)))
  }

  function W6(m: nat): View {
    V(m, [NODE], 1, false, {1}, Some(1), None, DFlag(m), EGate(J(m), NODE))
  }

  function W7(m: nat): View {
    V(m, [NODE], 1, true, {1}, Some(1), None, DFlag(m), EIndexLock(J(m), NODE))
  }

  function W8(m: nat): View {
    V(m, [NODE], 1, true, {1}, None, Some(1), DFlag(m), EIndex(J(m), NODE))
  }

  function W9(m: nat): View {
    V(m, [NODE], 2, true, {}, None, None, DFlag(m), Idle)
  }

  function W10(m: nat): View {
    V(m, [NODE], 2, true, {}, None, None, DFlag(m), DGate(m))
  }

  function W11(m: nat): View {
    V(m, [NODE], 2, false, {}, None, None, DFlag(m), DFlag(m))
  }

  function W12(m: nat): View {
    V(m, [NODE], 2, false, {}, None, None, DFlag(m), DShared(m))
  }

  function W13(m: nat): View {
    V(m, [NODE], 2, false, {1}, None, None, DFlag(m), DTest(m))
  }

  function W14(m: nat): View {
    V(m, [NODE], 2, false, {1}, None, None, DFlag(m), DRetest(m))
  }

  function W15(m: nat): View {
    V(m, [NODE], 2, false, {1}, None, None, DFlag(m), DQueue(m))
  }

  function W16(m: nat): View {
    V(m, [NODE], 2, false, {1}, None, None, DShared(m), DQueue(m))
  }

  function W17(m: nat): View {
    V(m, [NODE], 2, false, {0, 1}, None, None, DTest(m), DQueue(m))
  }

  function W18(m: nat): View {
    V(m, [NODE], 2, false, {0, 1}, None, None, DRetest(m), DQueue(m))
  }

  function W19(m: nat): View {
    V(m, [NODE], 2, false, {0, 1}, None, None, DQueue(m), DQueue(m))
  }

  function W20(m: nat): View {
    V(m, [NODE], 2, false, {0, 1}, Some(0), None, DPop(m), DQueue(m))
  }

  function W21(m: nat): View {
    V(m, [], 2, false, {0, 1}, Some(0), None, DPopGate(m, NODE), DQueue(m))
  }

  function W22(m: nat): View {
    V(m, [], 2, false, {0, 1}, Some(0), None, DIndexLock(m, NODE), DQueue(m))
  }

  function W23(m: nat): View {
    V(m, [], 2, false, {0, 1}, None, Some(0), DIndex(m, NODE), DQueue(m))
  }

  function W24(m: nat): View {
    V(m, [], 2, false, {0, 1}, Some(1), Some(0), DIndex(m, NODE), DPop(m))
  }

  lemma Goes0(m: nat)
    ensures Steps(W0(m), Begin(0, Dequeue(m)), W1(m))
    ensures Steps(W1(m), Take(0), W2(m))
  {
  }

  lemma Goes2(m: nat)
    ensures Steps(W2(m), Begin(1, Enqueue(J(m))), W3(m))
    ensures Steps(W3(m), Take(1), W4(m))
  {
  }

  lemma Goes4(m: nat)
    ensures Steps(W4(m), Take(1), W5(m))
    ensures Steps(W5(m), Take(1), W6(m))
  {
    var none: seq<Node>, noJobs: seq<Job> := [], [];
    assert none + [NODE] == [NODE] && noJobs + [J(m)] == [J(m)];
  }

  lemma Goes6(m: nat)
    ensures Steps(W6(m), Take(1), W7(m))
    ensures Steps(W7(m), Take(1), W8(m))
  {
  }

  lemma Goes8(m: nat)
    ensures Steps(W8(m), Take(1), W9(m))
    ensures Steps(W9(m), Begin(1, Dequeue(m)), W10(m))
  {
    var none: seq<Entry> := [];
    assert none + [Entry(J(m), NODE)] == [Entry(J(m), NODE)];
  }

  lemma Goes10(m: nat)
    ensures Steps(W10(m), Take(1), W11(m))
    ensures Steps(W11(m), Take(1), W12(m))
  {
  }

  lemma Goes12(m: nat)
    ensures Steps(W12(m), Take(1), W13(m))
    ensures Steps(W13(m), Take(1), W14(m))
  {
  }

  lemma Goes14(m: nat)
    ensures Steps(W14(m), Take(1), W15(m))
  {
  }

  lemma Goes15(m: nat)
    ensures Steps(W15(m), Take(0), W16(m))
  {
  }

  lemma Goes16(m: nat)
    ensures Steps(W16(m), Take(0), W17(m))
  {
  }

  lemma Goes17(m: nat)
    ensures Steps(W17(m), Take(0), W18(m))
  {
  }

  lemma Goes18(m: nat)
    ensures Steps(W18(m), Take(0), W19(m))
  {
  }

  lemma Goes19(m: nat)
    ensures Steps(W19(m), Take(0), W20(m))
  {
  }

  lemma Goes20(m: nat)
    ensures Steps(W20(m), Take(0), W21(m))
  {
    assert [NODE][1..] == [];
  }

  lemma Goes21(m: nat)
    ensures Steps(W21(m), Take(0), W22(m))
  {
  }

  lemma Goes22(m: nat)
    ensures Steps(W22(m), Take(0), W23(m))
  {
  }

  lemma Goes23(m: nat)
    ensures Steps(W23(m), Take(1), W24(m))
  {
  }

  function X0(m: nat): seq<View> {
    [W0(m), W1(m), W2(m), W3(m), W4(m)]
  }

  function Y0(m: nat): seq<Action> {
    [Begin(0, Dequeue(m)), Take(0), Begin(1, Enqueue(J(m))), Take(1)]
  }

  lemma Walk0(m: nat)
    ensures Linked(Steps, X0(m), Y0(m))
  {
    Goes0(m);
    Goes2(m);
  }

  function X1(m: nat): seq<View> {
    [W4(m), W5(m), W6(m), W7(m), W8(m)]
  }

  function Y1(m: nat): seq<Action> {
    [Take(1), Take(1), Take(1), Take(1)]
  }

  lemma Walk1(m: nat)
    ensures Linked(Steps, X1(m), Y1(m))
  {
    Goes4(m);
    Goes6(m);
  }

  function X2(m: nat): seq<View> {
    [W8(m), W9(m), W10(m), W11(m), W12(m)]
  }

  function Y2(m: nat): seq<Action> {
    [Take(1), Begin(1, Dequeue(m)), Take(1), Take(1)]
  }

  lemma Walk2(m: nat)
    ensures Linked(Steps, X2(m), Y2(m))
  {
    Goes8(m);
    Goes10(m);
  }

  function X3(m: nat): seq<View> {
    [W12(m), W13(m), W14(m), W15(m), W16(m)]
  }

  function Y3(m: nat): seq<Action> {
    [Take(1), Take(1), Take(1), Take(0)]
  }

  lemma Walk3(m: nat)
    ensures Linked(Steps, X3(m), Y3(m))
  {
    Goes12(m);
    Goes14(m);
    Goes15(m);
  }

  function X4(m: nat): seq<View> {
    [W16(m), W17(m), W18(m), W19(m), W20(m)]
  }

  function Y4(m: nat): seq<Action> {
    [Take(0), Take(0), Take(0), Take(0)]
  }

  lemma Walk4(m: nat)
    ensures Linked(Steps, X4(m), Y4(m))
  {
    Goes16(m);
    Goes17(m);
    Goes18(m);
    Goes19(m);
  }

  function X5(m: nat): seq<View> {
    [W20(m), W21(m), W22(m), W23(m), W24(m)]
  }

  function Y5(m: nat): seq<Action> {
    [Take(0), Take(0), Take(0), Take(1)]
  }

  lemma Walk5(m: nat)
    ensures Linked(Steps, X5(m), Y5(m))
  {
    Goes20(m);
    Goes21(m);
    Goes22(m);
    Goes23(m);
  }

  function RaceViews(m: nat): seq<View> {
    X0(m) + X1(m)[1..] + X2(m)[1..] + X3(m)[1..] + X4(m)[1..] + X5(m)[1..]
  }

  function RaceActions(m: nat): seq<Action> {
    Y0(m) + Y1(m) + Y2(m) + Y3(m) + Y4(m) + Y5(m)
  }

  lemma RaceViewsLink(m: nat)
    ensures Linked(Steps, RaceViews(m), RaceActions(m))
  {
    Walk0(m);
    Walk1(m);
    Joined(Steps, X0(m), Y0(m), X1(m), Y1(m));
    Walk2(m);
    Joined(Steps, X0(m) + X1(m)[1..], Y0(m) + Y1(m), X2(m), Y2(m));
    Walk3(m);
    Joined(Steps, X0(m) + X1(m)[1..] + X2(m)[1..], Y0(m) + Y1(m) + Y2(m), X3(m), Y3(m));
    Walk4(m);
    Joined(Steps, X0(m) + X1(m)[1..] + X2(m)[1..] + X3(m)[1..], Y0(m) + Y1(m) + Y2(m) + Y3(m), X4(m), Y4(m));
    Walk5(m);
    Joined(Steps, X0(m) + X1(m)[1..] + X2(m)[1..] + X3(m)[1..] + X4(m)[1..], Y0(m) + Y1(m) + Y2(m) + Y3(m) + Y4(m), X5(m), Y5(m));
  }

  ghost predicate PlainActions(actions: seq<Action>) {
    forall i :: 0 <= i < |actions| && actions[i].Begin? ==> PlainCall(actions[i].call)
  }

  lemma RaceIsPlain(m: nat)
    ensures PlainActions(RaceActions(m))
  {
    assert PlainActions(Y0(m)) && PlainActions(Y1(m)) && PlainActions(Y2(m));
    assert PlainActions(Y3(m)) && PlainActions(Y4(m)) && PlainActions(Y5(m));
  }

  lemma RaceRuns(m: nat)
    ensures var states := Wholes(RaceViews(m));
            Run(states, RaceActions(m)) && |states| == 25 && states[0] == Init(m, {0, 1}) && states[24] == Whole(W24(m))
  {
    var vs := RaceViews(m);
    RaceViewsLink(m);
    StartIsInit(m, m, {0, 1});
    assert vs[0] == Start(m, m, {0, 1});
    WalkIsRun(vs, RaceActions(m));
  }

  /** Thread 1 is about to pop an empty list. */
  lemma RaceFaults(m: nat)
    ensures var s := Whole(W24(m));
            && Possible(s, Take(1)) && s.pcs[1] == DPop(m) && s.queues[m] == [] && Do(s, Take(1)).fault == EmptyPop
  {
  }

  /** For every number of priorities, two dequeuers of the last one can pop an empty list. */
  lemma LastPriorityPopsEmpty(m: nat) returns (states: seq<State>, actions: seq<Action>)
    ensures PlainRun(states, actions, m, {0, 1}) && |actions| == 25 && states[25].fault == EmptyPop
    ensures actions[24] == Take(1) && states[24].pcs == map[0 := DIndex(m, NODE), 1 := DPop(m)] && states[24].queues[m] == []
  {
    var vs := RaceViews(m);
    RaceRuns(m);
    RaceIsPlain(m);
    RaceFaults(m);
    var s := Whole(W24(m));
    states, actions := Wholes(vs) + [Do(s, Take(1))], RaceActions(m) + [Take(1)];
    OneMore(Wholes(vs), RaceActions(m), Take(1));
  }

  lemma OneMore(states: seq<State>, actions: seq<Action>, a: Action)
    requires Run(states, actions) && Possible(states[|actions|], a)
    ensures Run(states + [Do(states[|actions|], a)], actions + [a])
  {
  }

  /** Some plain run ends in the pop of an empty list at priority `p`. */
  ghost predicate CanPopEmpty(maxPrio: nat, p: nat) {
    exists states: seq<State>, actions: seq<Action>, threads: set<Tid> ::
      PlainRun(states, actions, maxPrio, threads) && EndsInEmptyPop(states, actions, p)
  }

  ghost predicate EndsInEmptyPop(states: seq<State>, actions: seq<Action>, p: nat) {
    && |actions| > 0 && |states| == |actions| + 1
    && var s, a := states[|actions| - 1], actions[|actions| - 1];
       a.Take? && a.t in s.pcs && s.pcs[a.t] == DPop(p) && p < |s.queues| && s.queues[p] == []
  }

  /** Without purges and releases, and for any number of dequeuers, an empty list can be popped at
      the last priority and at no other. */
  lemma PopsEmptyExactly(maxPrio: nat, p: nat)
    requires p <= maxPrio
    ensures CanPopEmpty(maxPrio, p) <==> p == maxPrio
  {
    if p == maxPrio {
      var states, actions := LastPriorityPopsEmpty(maxPrio);
      assert EndsInEmptyPop(states, actions, p);
    } else {
      forall states: seq<State>, actions: seq<Action>, threads: set<Tid> |
        PlainRun(states, actions, maxPrio, threads) && EndsInEmptyPop(states, actions, p)
        ensures false
      {
        NoEmptyPop(states, actions, maxPrio, threads, |actions| - 1);
      }
    }
  }
}
