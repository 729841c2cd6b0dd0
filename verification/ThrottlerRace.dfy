/** The primary count read first: a job counted after the first read, and a purge before the second,
    leave a decision with a load that never was. */
module ThrottlerRace {
  import opened Jobs
  import opened Runs
  import opened ThrottlerSteps
  import opened ThrottlerRuns
  import opened ThrottlerStarts

  /** Targets 1 and 2, two threads. */
  function S(open: seq<bool>, waiting: seq<bool>, count: seq<int>, handed: seq<nat>, queued: seq<nat>,
             lock: Option<Tid>, pc0: Pc, pc1: Pc): State
  {
    State([1, 2], open, waiting, count, handed, queued, lock, map[0 := pc0, 1 := pc1])
  }

  const S0 := S([true, true], [true, true], [0, 0], [0, 0], [0, 0], None, Idle, Idle)
  const S1 := S([true, true], [true, true], [0, 0], [0, 0], [2, 0], None, Idle, Idle)
  const S2 := S([true, true], [true, true], [0, 0], [0, 0], [2, 2], None, Idle, Idle)
  const S3 := S([true, true], [true, true], [0, 0], [0, 0], [2, 2], None, Block(0), Idle)
  const S4 := S([false, true], [true, true], [0, 0], [0, 0], [2, 2], None, Fetch(0), Idle)
  const S5 := S([false, true], [true, true], [0, 0], [0, 0], [1, 2], None, Count(0), Idle)
  const S6 := S([false, true], [true, true], [0, 0], [0, 0], [1, 2], None, Count(0), Block(1))
  const S7 := S([false, false], [true, true], [0, 0], [0, 0], [1, 2], None, Count(0), Fetch(1))
  const S8 := S([false, false], [true, true], [0, 0], [0, 0], [1, 1], None, Count(0), Count(1))
  const S9 := S([false, false], [true, true], [0, 1], [0, 0], [1, 1], None, Count(0), Lock(Scheduled(1, true)))
  const S10 := S([false, false], [true, false], [0, 1], [0, 0], [1, 1], Some(1), Count(0), Load(Scheduled(1, true)))
  const S11 := S([false, false], [true, false], [0, 1], [0, 0], [1, 1], Some(1), Count(0), Size(Scheduled(1, true), 0))
  const S12 := S([false, false], [true, false], [1, 1], [0, 0], [1, 1], Some(1), Lock(Scheduled(0, true)), Size(Scheduled(1, true), 0))
  const S13 := S([false, false], [true, false], [1, 1], [0, 0], [0, 1], Some(1), Lock(Scheduled(0, true)), Size(Scheduled(1, true), 0))
  const S14 := S([false, false], [true, false], [1, 1], [0, 0], [0, 1], Some(1), Lock(Scheduled(0, true)), Recount(Scheduled(1, true), 0))
  const S15 := S([false, false], [true, false], [1, 1], [0, 0], [0, 1], Some(1), Lock(Scheduled(0, true)), Primary(Scheduled(1, true), 0, 1))
  const S16 := S([false, false], [true, false], [1, 1], [0, 0], [0, 1], Some(1), Lock(Scheduled(0, true)), Secondary(Scheduled(1, true), 0, false))
  const S17 := S([false, false], [true, false], [1, 1], [0, 0], [0, 1], Some(1), Lock(Scheduled(0, true)), Recount2(Scheduled(1, true), 0, false))
  const S18 := S([false, false], [true, false], [1, 1], [0, 0], [0, 1], Some(1), Lock(Scheduled(0, true)), Permit2(Scheduled(1, true), 0, false, 1))
  const S19 := S([false, true], [true, true], [1, 1], [0, 0], [0, 1], Some(1), Lock(Scheduled(0, true)), Unlock(Scheduled(1, true)))
  const S20 := S([false, true], [true, true], [1, 1], [0, 1], [0, 1], None, Lock(Scheduled(0, true)), Idle)
  const S21 := S([false, true], [true, true], [1, 1], [0, 1], [0, 1], None, Lock(Scheduled(0, true)), Block(1))
  const S22 := S([false, false], [true, true], [1, 1], [0, 1], [0, 1], None, Lock(Scheduled(0, true)), Fetch(1))
  const S23 := S([false, false], [true, true], [1, 1], [0, 1], [0, 0], None, Lock(Scheduled(0, true)), Count(1))
  const S24 := S([false, false], [true, true], [1, 2], [0, 1], [0, 0], None, Lock(Scheduled(0, true)), Lock(Scheduled(1, true)))

  lemma Step0()
    ensures Goes(S0, Queue(0, 2), S1)
  {
  }

  lemma Step1()
    ensures Tense(S1, Queue(1, 2), S2) && Tense(S2, Call(0, 0), S3)
  {
  }

  lemma Step3()
    ensures Tense(S3, Take(0), S4) && Tense(S4, Take(0), S5)
  {
  }

  lemma Step5()
    ensures Tense(S5, Call(1, 1), S6) && Tense(S6, Take(1), S7)
  {
  }

  lemma Step7()
    ensures Tense(S7, Take(1), S8) && Tense(S8, Take(1), S9)
  {
  }

  lemma Step9()
    ensures Tense(S9, Take(1), S10) && Tense(S10, Take(1), S11)
  {
  }

  lemma Step11()
    ensures Tense(S11, Take(0), S12) && Tense(S12, Queue(0, 0), S13)
  {
  }

  lemma Step13()
    ensures Tense(S13, Take(1), S14) && Tense(S14, Take(1), S15)
  {
  }

  lemma Step15()
    ensures Tense(S15, Take(1), S16) && Tense(S16, Take(1), S17)
  {
  }

  lemma Step17()
    ensures Tense(S17, Take(1), S18)
  {
  }

  lemma Step18()
    ensures Tense(S18, Take(1), S19)
  {
  }

  lemma Step19()
    ensures Tense(S19, Take(1), S20) && Tense(S20, Call(1, 1), S21)
  {
  }

  lemma Step21()
    ensures Tense(S21, Take(1), S22) && Tense(S22, Take(1), S23)
  {
  }

  lemma Step23()
    ensures Tense(S23, Take(1), S24)
  {
  }

  const A0 := [S0, S1]
  const B0 := [Queue(0, 2)]

  lemma Opening0()
    ensures Linked(Goes, A0, B0)
  {
    Step0();
  }

  const X0 := [S1, S2, S3, S4, S5]
  const Y0 := [Queue(1, 2), Call(0, 0), Take(0), Take(0)]

  lemma Stretch0()
    ensures Linked(Tense, X0, Y0) && StartsIn(X0, Y0, 0, 4) == 0
  {
    Step1();
    Step3();
    assert StartsIn(X0, Y0, 0, 1) == 0;
    assert StartsIn(X0, Y0, 0, 2) == 0;
    assert StartsIn(X0, Y0, 0, 3) == 0;
    assert StartsIn(X0, Y0, 0, 4) == 0;
  }

  const X1 := [S5, S6, S7, S8, S9]
  const Y1 := [Call(1, 1), Take(1), Take(1), Take(1)]

  lemma Stretch1()
    ensures Linked(Tense, X1, Y1) && StartsIn(X1, Y1, 0, 4) == 1
  {
    Step5();
    Step7();
    assert StartsIn(X1, Y1, 0, 1) == 0;
    assert StartsIn(X1, Y1, 0, 2) == 0;
    assert StartsIn(X1, Y1, 0, 3) == 0;
    assert StartsIn(X1, Y1, 0, 4) == 1;
  }

  const X2 := [S9, S10, S11, S12, S13]
  const Y2 := [Take(1), Take(1), Take(0), Queue(0, 0)]

  lemma Stretch2()
    ensures Linked(Tense, X2, Y2) && StartsIn(X2, Y2, 0, 4) == 0
  {
    Step9();
    Step11();
    assert StartsIn(X2, Y2, 0, 1) == 0;
    assert StartsIn(X2, Y2, 0, 2) == 0;
    assert StartsIn(X2, Y2, 0, 3) == 0;
    assert StartsIn(X2, Y2, 0, 4) == 0;
  }

  const X3 := [S13, S14, S15, S16, S17]
  const Y3 := [Take(1), Take(1), Take(1), Take(1)]

  lemma Stretch3()
    ensures Linked(Tense, X3, Y3) && StartsIn(X3, Y3, 0, 4) == 0
  {
    Step13();
    Step15();
    assert StartsIn(X3, Y3, 0, 1) == 0;
    assert StartsIn(X3, Y3, 0, 2) == 0;
    assert StartsIn(X3, Y3, 0, 3) == 0;
    assert StartsIn(X3, Y3, 0, 4) == 0;
  }

  const X4 := [S17, S18, S19, S20, S21]
  const Y4 := [Take(1), Take(1), Take(1), Call(1, 1)]

  lemma Stretch4()
    ensures Linked(Tense, X4, Y4) && StartsIn(X4, Y4, 0, 4) == 0
  {
    Step17();
    Step18();
    Step19();
    assert StartsIn(X4, Y4, 0, 1) == 0;
    assert StartsIn(X4, Y4, 0, 2) == 0;
    assert StartsIn(X4, Y4, 0, 3) == 0;
    assert StartsIn(X4, Y4, 0, 4) == 0;
  }

  const X5 := [S21, S22, S23, S24]
  const Y5 := [Take(1), Take(1), Take(1)]

  lemma Stretch5()
    ensures Linked(Tense, X5, Y5) && StartsIn(X5, Y5, 0, 3) == 1
  {
    Step21();
    Step23();
    assert StartsIn(X5, Y5, 0, 1) == 0;
    assert StartsIn(X5, Y5, 0, 2) == 0;
    assert StartsIn(X5, Y5, 0, 3) == 1;
  }

  const BEFORE := A0
  const BEGUN := B0

  lemma Opens()
    ensures Linked(Goes, BEFORE, BEGUN) && BEFORE[0] == Init([1, 2], {0, 1}) && |BEGUN| == 1 && BEFORE[1] == S1
  {
    Opening0();
    assert S0.pcs == Init([1, 2], {0, 1}).pcs;
  }

  const XS1 := X0 + X1[1..]
  const YS1 := Y0 + Y1

  lemma Upto1()
    ensures Linked(Tense, XS1, YS1) && |YS1| == 8 && StartsIn(XS1, YS1, 0, 8) == 1
    ensures XS1[0] == S1 && XS1[8] == S9
  {
    Stretch0();
    Stretch1();
    TenseJoined(X0, Y0, X1, Y1);
  }

  const XS2 := XS1 + X2[1..]
  const YS2 := YS1 + Y2

  lemma Upto2()
    ensures Linked(Tense, XS2, YS2) && |YS2| == 12 && StartsIn(XS2, YS2, 0, 12) == 1
    ensures XS2[0] == S1 && XS2[12] == S13
  {
    Upto1();
    Stretch2();
    TenseJoined(XS1, YS1, X2, Y2);
  }

  const XS3 := XS2 + X3[1..]
  const YS3 := YS2 + Y3

  lemma Upto3()
    ensures Linked(Tense, XS3, YS3) && |YS3| == 16 && StartsIn(XS3, YS3, 0, 16) == 1
    ensures XS3[0] == S1 && XS3[16] == S17
  {
    Upto2();
    Stretch3();
    TenseJoined(XS2, YS2, X3, Y3);
  }

  const XS4 := XS3 + X4[1..]
  const YS4 := YS3 + Y4

  lemma Upto4()
    ensures Linked(Tense, XS4, YS4) && |YS4| == 20 && StartsIn(XS4, YS4, 0, 20) == 1
    ensures XS4[0] == S1 && XS4[20] == S21
  {
    Upto3();
    Stretch4();
    TenseJoined(XS3, YS3, X4, Y4);
  }

  const STATES := XS4 + X5[1..]
  const ACTIONS := YS4 + Y5

  lemma Stretches()
    ensures Linked(Tense, STATES, ACTIONS) && |ACTIONS| == 23 && StartsIn(STATES, ACTIONS, 0, 23) == 2
    ensures STATES[0] == S1 && STATES[23] == S24
  {
    Upto4();
    Stretch5();
    TenseJoined(XS4, YS4, X5, Y5);
  }

  lemma Misled()
    ensures Possible(S12, Queue(0, 0)) && Misleads(S12, Queue(0, 0))
  {
  }

  lemma MisledAt()
    ensures |STATES| == 24 && |ACTIONS| == 23 && STATES[11] == S12 && ACTIONS[11] == Queue(0, 0)
  {
  }

  /** The run, from the constructor: primary work is at its target from step 1 on, one step misleads
      a decision, and two secondary jobs start. */
  lemma StartsTwice() returns (states: seq<State>, actions: seq<Action>)
    ensures Run(states, actions) && states[0] == Init([1, 2], {0, 1}) && |actions| == 24
    ensures forall i :: 1 <= i < 24 ==> StaysAtTarget(states[i], actions[i])
    ensures Possible(states[12], actions[12]) && Misleads(states[12], actions[12]) && actions[12] == Queue(0, 0)
    ensures StartsIn(states, actions, 1, 24) == 2
  {
    Opens();
    Stretches();
    states, actions := BEFORE + STATES[1..], BEGUN + ACTIONS;
    TenseRun(BEFORE, BEGUN, STATES, ACTIONS);
    TenseFacts(STATES, ACTIONS, states, actions, 1, 11);
    MisledAt();
    Misled();
  }
}
