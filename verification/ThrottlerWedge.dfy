/** A run that wedges the throttler, for every secondary target and every later primary target: start
    with primary target 0, let one secondary job run and finish, then raise the primary target. */
module ThrottlerWedge {
  import opened Jobs
  import opened Runs
  import opened ThrottlerSteps
  import opened ThrottlerProgress

  /** Primary target 0 and secondary target `m`; one thread, whose secondary job is the only job. */
  function S(m: int, open: seq<bool>, waiting: seq<bool>, count: int, handed: nat, queued: nat,
             lock: Option<Tid>, pc: Pc): State
  {
    State([0, m], open, waiting, [0, count], [0, handed], [0, queued], lock, map[0 := pc])
  }

  function W0(m: int): State {
    S(m, [false, true], [false, true], 0, 0, 0, None, Idle)
  }

  function W1(m: int): State {
    S(m, [false, true], [false, true], 0, 0, 1, None, Idle)
  }

  function W2(m: int): State {
    S(m, [false, true], [false, true], 0, 0, 1, None, Block(1))
  }

  function W3(m: int): State {
    S(m, [false, false], [false, true], 0, 0, 1, None, Fetch(1))
  }

  function W4(m: int): State {
    S(m, [false, false], [false, true], 0, 0, 0, None, Count(1))
  }

  function W5(m: int): State {
    S(m, [false, false], [false, true], 1, 0, 0, None, Lock(Scheduled(1, true)))
  }

  function W6(m: int): State {
    S(m, [false, false], [false, false], 1, 0, 0, Some(0), Load(Scheduled(1, true)))
  }

  function W7(m: int): State {
    S(m, [false, false], [false, false], 1, 0, 0, Some(0), Size(Scheduled(1, true), 0))
  }

  function W8(m: int): State {
    S(m, [false, false], [false, false], 1, 0, 0, Some(0), Recount(Scheduled(1, true), 0))
  }

  function W9(m: int): State {
    S(m, [false, false], [false, false], 1, 0, 0, Some(0), Primary(Scheduled(1, true), 0, 0))
  }

  function W10(m: int): State {
    S(m, [false, false], [false, false], 1, 0, 0, Some(0), Secondary(Scheduled(1, true), 0, false))
  }

  function W11(m: int): State {
    S(m, [false, false], [false, false], 1, 0, 0, Some(0), Unlock(Scheduled(1, true)))
  }

  function W12(m: int): State {
    S(m, [false, false], [false, false], 1, 1, 0, None, Idle)
  }

  function W13(m: int): State {
    S(m, [false, false], [false, false], 0, 0, 0, None, Lock(Completed))
  }

  function W14(m: int): State {
    S(m, [false, false], [false, false], 0, 0, 0, Some(0), Load(Completed))
  }

  function W15(m: int): State {
    S(m, [false, false], [false, false], 0, 0, 0, Some(0), Size(Completed, 0))
  }

  function W16(m: int): State {
    S(m, [false, false], [false, false], 0, 0, 0, Some(0), Recount(Completed, 0))
  }

  function W17(m: int): State {
    S(m, [false, false], [false, false], 0, 0, 0, Some(0), Primary(Completed, 0, 0))
  }

  function W18(m: int): State {
    S(m, [false, false], [false, false], 0, 0, 0, Some(0), Secondary(Completed, 0, false))
  }

  function W19(m: int): State {
    S(m, [false, false], [false, false], 0, 0, 0, Some(0), Unlock(Completed))
  }

  function W20(m: int): State {
    S(m, [false, false], [false, false], 0, 0, 0, None, Idle)
  }

  lemma Step0(m: int)
    ensures Goes(W0(m), Queue(1, 1), W1(m)) && Goes(W1(m), Call(0, 1), W2(m))
  {
  }

  lemma Step2(m: int)
    ensures Goes(W2(m), Take(0), W3(m)) && Goes(W3(m), Take(0), W4(m))
  {
  }

  lemma Step4(m: int)
    ensures Goes(W4(m), Take(0), W5(m)) && Goes(W5(m), Take(0), W6(m))
  {
  }

  lemma Step6(m: int)
    ensures Goes(W6(m), Take(0), W7(m)) && Goes(W7(m), Take(0), W8(m))
  {
  }

  lemma Step8(m: int)
    ensures Goes(W8(m), Take(0), W9(m)) && Goes(W9(m), Take(0), W10(m))
  {
  }

  lemma Step10(m: int)
    ensures Goes(W10(m), Take(0), W11(m)) && Goes(W11(m), Take(0), W12(m))
  {
  }

  lemma Step12(m: int)
    ensures Goes(W12(m), Finish(0, 1), W13(m)) && Goes(W13(m), Take(0), W14(m))
  {
  }

  lemma Step14(m: int)
    ensures Goes(W14(m), Take(0), W15(m)) && Goes(W15(m), Take(0), W16(m))
  {
  }

  lemma Step16(m: int)
    ensures Goes(W16(m), Take(0), W17(m)) && Goes(W17(m), Take(0), W18(m))
  {
  }

  lemma Step18(m: int)
    ensures Goes(W18(m), Take(0), W19(m)) && Goes(W19(m), Take(0), W20(m))
  {
  }

  function X0(m: int): seq<State> {
    [W0(m), W1(m), W2(m), W3(m), W4(m)]
  }

  const Y0 := [Queue(1, 1), Call(0, 1), Take(0), Take(0)]

  lemma Part0(m: int)
    ensures Linked(Goes, X0(m), Y0)
  {
    Step0(m);
    Step2(m);
  }

  function X1(m: int): seq<State> {
    [W4(m), W5(m), W6(m), W7(m), W8(m)]
  }

  const Y1 := [Take(0), Take(0), Take(0), Take(0)]

  lemma Part1(m: int)
    ensures Linked(Goes, X1(m), Y1)
  {
    Step4(m);
    Step6(m);
  }

  function X2(m: int): seq<State> {
    [W8(m), W9(m), W10(m), W11(m), W12(m)]
  }

  const Y2 := [Take(0), Take(0), Take(0), Take(0)]

  lemma Part2(m: int)
    ensures Linked(Goes, X2(m), Y2)
  {
    Step8(m);
    Step10(m);
  }

  function X3(m: int): seq<State> {
    [W12(m), W13(m), W14(m), W15(m), W16(m)]
  }

  const Y3 := [Finish(0, 1), Take(0), Take(0), Take(0)]

  lemma Part3(m: int)
    ensures Linked(Goes, X3(m), Y3)
  {
    Step12(m);
    Step14(m);
  }

  function X4(m: int): seq<State> {
    [W16(m), W17(m), W18(m), W19(m), W20(m)]
  }

  const Y4 := [Take(0), Take(0), Take(0), Take(0)]

  lemma Part4(m: int)
    ensures Linked(Goes, X4(m), Y4)
  {
    Step16(m);
    Step18(m);
  }

  function Drained(m: int): seq<State> {
    X0(m) + X1(m)[1..] + X2(m)[1..] + X3(m)[1..] + X4(m)[1..]
  }

  const DRAIN := Y0 + Y1 + Y2 + Y3 + Y4

  lemma Drains(m: int)
    ensures Linked(Goes, Drained(m), DRAIN) && |DRAIN| == 20 && Drained(m)[0] == W0(m) && Drained(m)[20] == W20(m)
  {
    Part0(m);
    Part1(m);
    Joined(Goes, X0(m), Y0, X1(m), Y1);
    Part2(m);
    Joined(Goes, X0(m) + X1(m)[1..], Y0 + Y1, X2(m), Y2);
    Part3(m);
    Joined(Goes, X0(m) + X1(m)[1..] + X2(m)[1..], Y0 + Y1 + Y2, X3(m), Y3);
    Part4(m);
    Joined(Goes, X0(m) + X1(m)[1..] + X2(m)[1..] + X3(m)[1..], Y0 + Y1 + Y2 + Y3, X4(m), Y4);
  }

  lemma StartsAtInit(m: int)
    requires m != 0
    ensures W0(m) == Init([0, m], {0})
  {
    assert W0(m).pcs == Init([0, m], {0}).pcs;
  }

  lemma Raised(m: int, n: int)
    requires m != 0
    ensures Possible(W20(m), SetThrottle(PRIMARY, n))
    ensures Wedged(Do(W20(m), SetThrottle(PRIMARY, n))) && Do(W20(m), SetThrottle(PRIMARY, n)).targets == [n, m]
  {
    assert W20(m).targets[PRIMARY := n] == [n, m] && [n, m][1] != 0;
  }

  /** From the constructor with primary target 0 and any other secondary target, to a state with any
      primary target at all in which nothing will ever run again. */
  lemma RaisingFromZeroWedges(m: int, n: int) returns (states: seq<State>, actions: seq<Action>)
    requires m != 0
    ensures Run(states, actions) && states[0] == Init([0, m], {0})
    ensures Wedged(states[|actions|]) && states[|actions|].targets == [n, m]
  {
    Drains(m);
    StartsAtInit(m);
    Raised(m, n);
    var last := Do(W20(m), SetThrottle(PRIMARY, n));
    states, actions := Drained(m) + [last], DRAIN + [SetThrottle(PRIMARY, n)];
    Extended(Goes, Drained(m), DRAIN, SetThrottle(PRIMARY, n), last);
    LinkedIsRun(states, actions);
  }
}
