/** A release that is not consumed before the next insert: for every number of priorities and at
    each of them, one thread that releases, enqueues and dequeues returns null from a queue with a
    job in it and leaves the job behind a closed gate. */
module QueueStranded {
  import opened Jobs
  import opened Runs
  import opened QueueIndex
  import opened QueueSteps
  import opened QueueData
  import opened QueueRuns
  import opened QueueWakeup
  import opened QueueView

  const NODE := Node(0, 7)

  function J(p: nat): Job {
    Job(7, p, 0)
  }

  /** One thread at priority `p`; the job is not there yet (0), inserted (1), or inserted and
      indexed (2). */
  function V(m: nat, p: nat, queue: seq<Node>, job: nat, gate: bool, flag: bool, shared: set<Tid>, exclusive: Option<Tid>,
             queueLock: Option<Tid>, indexLock: Option<Tid>, pc: Pc): View
  {
    View(m, p, queue, if job < 2 then map[] else map[7 := [Entry(J(p), NODE)]], gate, flag, shared, exclusive,
         queueLock, indexLock, map[0 := pc], if job < 1 then [] else [J(p)])
  }

  function W0(m: nat, p: nat): View {
    V(m, p, [], 0, p == m, false, {}, None, None, None, Idle)
  }

  function W1(m: nat, p: nat): View {
    V(m, p, [], 0, p == m, false, {}, None, None, None, OLock(p, false))
  }

  function W2(m: nat, p: nat): View {
    V(m, p, [], 0, p == m, false, {}, Some(0), None, None, OQueue(p, false))
  }

  function W3(m: nat, p: nat): View {
    V(m, p, [], 0, p == m, false, {}, Some(0), Some(0), None, OTest(p, false))
  }

  function W4(m: nat, p: nat): View {
    V(m, p, [], 0, p == m, true, {}, Some(0), Some(0), None, OGate(p, false))
  }

  function W5(m: nat, p: nat): View {
    V(m, p, [], 0, true, true, {}, None, None, None, Idle)
  }

  function W6(m: nat, p: nat): View {
    V(m, p, [], 0, true, true, {}, None, None, None, EShared(J(p)))
  }

  function W7(m: nat, p: nat): View {
    V(m, p, [], 0, true, true, {0}, None, None, None, EQueue(J(p)))
  }

  function W8(m: nat, p: nat): View {
    V(m, p, [], 0, true, true, {0}, None, Some(0), None, EInsert(J(p)))
  }

  function W9(m: nat, p: nat): View {
    V(m, p, [NODE], 1, true, true, {0}, None, Some(0), None, EGate(J(p), NODE))
  }

  function W10(m: nat, p: nat): View {
    V(m, p, [NODE], 1, true, true, {0}, None, Some(0), None, EIndexLock(J(p), NODE))
  }

  function W11(m: nat, p: nat): View {
    V(m, p, [NODE], 1, true, true, {0}, None, None, Some(0), EIndex(J(p), NODE))
  }

  function W12(m: nat, p: nat): View {
    V(m, p, [NODE], 2, true, true, {}, None, None, None, Idle)
  }

  function W13(m: nat, p: nat): View {
    V(m, p, [NODE], 2, true, true, {}, None, None, None, DGate(p))
  }

  function W14(m: nat, p: nat): View {
    V(m, p, [NODE], 2, false, true, {}, None, None, None, DFlag(p))
  }

  function W15(m: nat, p: nat): View {
    V(m, p, [NODE], 2, false, false, {}, None, None, None, Idle)
  }

  lemma Goes0(m: nat, p: nat)
    ensures Steps(W0(m, p), Begin(0, ReleaseOne(p)), W1(m, p))
  {
  }

  lemma Goes1(m: nat, p: nat)
    ensures Steps(W1(m, p), Take(0), W2(m, p))
  {
  }

  lemma Goes2(m: nat, p: nat)
    ensures Steps(W2(m, p), Take(0), W3(m, p))
  {
  }

  lemma Goes3(m: nat, p: nat)
    ensures Steps(W3(m, p), Take(0), W4(m, p))
  {
  }

  lemma Goes4(m: nat, p: nat)
    ensures Steps(W4(m, p), Take(0), W5(m, p))
  {
  }

  lemma Goes5(m: nat, p: nat)
    ensures Steps(W5(m, p), Begin(0, Enqueue(J(p))), W6(m, p))
  {
  }

  lemma Goes6(m: nat, p: nat)
    ensures Steps(W6(m, p), Take(0), W7(m, p))
  {
  }

  lemma Goes7(m: nat, p: nat)
    ensures Steps(W7(m, p), Take(0), W8(m, p))
  {
  }

  lemma Goes8(m: nat, p: nat)
    ensures Steps(W8(m, p), Take(0), W9(m, p))
  {
    var none: seq<Node>, noJobs: seq<Job> := [], [];
    assert none + [NODE] == [NODE] && noJobs + [J(p)] == [J(p)];
  }

  lemma Goes9(m: nat, p: nat)
    ensures Steps(W9(m, p), Take(0), W10(m, p))
  {
  }

  lemma Goes10(m: nat, p: nat)
    ensures Steps(W10(m, p), Take(0), W11(m, p))
  {
  }

  lemma Goes11(m: nat, p: nat)
    ensures Steps(W11(m, p), Take(0), W12(m, p))
  {
    var none: seq<Entry> := [];
    assert none + [Entry(J(p), NODE)] == [Entry(J(p), NODE)];
  }

  lemma Goes12(m: nat, p: nat)
    ensures Steps(W12(m, p), Begin(0, Dequeue(p)), W13(m, p))
  {
  }

  lemma Goes13(m: nat, p: nat)
    ensures Steps(W13(m, p), Take(0), W14(m, p))
  {
  }

  lemma Goes14(m: nat, p: nat)
    ensures Steps(W14(m, p), Take(0), W15(m, p))
  {
  }

  function X0(m: nat, p: nat): seq<View> {
    [W0(m, p), W1(m, p), W2(m, p), W3(m, p), W4(m, p), W5(m, p)]
  }

  function Y0(m: nat, p: nat): seq<Action> {
    [Begin(0, ReleaseOne(p)), Take(0), Take(0), Take(0), Take(0)]
  }

  lemma Walk0(m: nat, p: nat)
    ensures Linked(Steps, X0(m, p), Y0(m, p))
  {
    Goes0(m, p);
    Goes1(m, p);
    Goes2(m, p);
    Goes3(m, p);
    Goes4(m, p);
  }

  function X1(m: nat, p: nat): seq<View> {
    [W5(m, p), W6(m, p), W7(m, p), W8(m, p), W9(m, p), W10(m, p)]
  }

  function Y1(m: nat, p: nat): seq<Action> {
    [Begin(0, Enqueue(J(p))), Take(0), Take(0), Take(0), Take(0)]
  }

  lemma Walk1(m: nat, p: nat)
    ensures Linked(Steps, X1(m, p), Y1(m, p))
  {
    Goes5(m, p);
    Goes6(m, p);
    Goes7(m, p);
    Goes8(m, p);
    Goes9(m, p);
  }

  function X2(m: nat, p: nat): seq<View> {
    [W10(m, p), W11(m, p), W12(m, p), W13(m, p), W14(m, p), W15(m, p)]
  }

  function Y2(m: nat, p: nat): seq<Action> {
    [Take(0), Take(0), Begin(0, Dequeue(p)), Take(0), Take(0)]
  }

  lemma Walk2(m: nat, p: nat)
    ensures Linked(Steps, X2(m, p), Y2(m, p))
  {
    Goes10(m, p);
    Goes11(m, p);
    Goes12(m, p);
    Goes13(m, p);
    Goes14(m, p);
  }

  function StrandedViews(m: nat, p: nat): seq<View> {
    X0(m, p) + X1(m, p)[1..] + X2(m, p)[1..]
  }

  function StrandedActions(m: nat, p: nat): seq<Action> {
    Y0(m, p) + Y1(m, p) + Y2(m, p)
  }

  lemma StrandedViewsLink(m: nat, p: nat)
    ensures Linked(Steps, StrandedViews(m, p), StrandedActions(m, p))
  {
    Walk0(m, p);
    Walk1(m, p);
    Joined(Steps, X0(m, p), Y0(m, p), X1(m, p), Y1(m, p));
    Walk2(m, p);
    Joined(Steps, X0(m, p) + X1(m, p)[1..], Y0(m, p) + Y1(m, p), X2(m, p), Y2(m, p));
  }

  /** The run: it starts at the constructor, faults nowhere, ends with every call returned, and its
      last step strands the queue. */
  lemma ReleaseStrands(m: nat, p: nat) returns (states: seq<State>, actions: seq<Action>)
    requires p <= m
    ensures Clean(states, actions) && states[0] == Init(m, {0}) && |actions| == 15
    ensures Possible(states[14], actions[14]) && p < |states[14].queues| && Strands(states[14], actions[14], p)
    ensures states[15].pcs == map[0 := Idle] && Shaped(states[15]) && p < |states[15].queues| && !Served(states[15], p)
  {
    states, actions := Wholes(StrandedViews(m, p)), StrandedActions(m, p);
    StrandedRuns(m, p);
    InvInit(m, {0});
    LastStepStrands(m, p);
  }

  lemma StrandedRuns(m: nat, p: nat)
    requires p <= m
    ensures var states := Wholes(StrandedViews(m, p));
            && Run(states, StrandedActions(m, p)) && |states| == 16 && states[0] == Init(m, {0})
            && states[14] == Whole(W14(m, p)) && states[15] == Whole(W15(m, p))
  {
    var vs := StrandedViews(m, p);
    StrandedViewsLink(m, p);
    StartIsInit(m, p, {0});
    assert vs[0] == Start(m, p, {0});
    WalkIsRun(vs, StrandedActions(m, p));
  }

  lemma LastStepStrands(m: nat, p: nat)
    requires p <= m
    ensures var s, s' := Whole(W14(m, p)), Whole(W15(m, p));
            && Possible(s, Take(0)) && Strands(s, Take(0), p)
            && s'.pcs == map[0 := Idle] && Shaped(s') && !Served(s', p)
  {
  }
}
