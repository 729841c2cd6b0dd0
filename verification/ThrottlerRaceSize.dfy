/** The queue size read first: a job queued after the first read, and a job finished before the
    second, leave a decision with a load that never was.  Nothing is purged. */
module ThrottlerRaceSize {
  import opened Jobs
  import opened Runs
  import opened ThrottlerSteps
  import opened ThrottlerRuns
  import opened ThrottlerStarts

  /** Targets 2 and 2, two threads. */
  function S(open: seq<bool>, waiting: seq<bool>, count: seq<int>, handed: seq<nat>, queued: seq<nat>,
             lock: Option<Tid>, pc0: Pc, pc1: Pc): State
  {
    State([2, 2], open, waiting, count, handed, queued, lock, map[0 := pc0, 1 := pc1])
  }

  const S0 := S([true, true], [true, true], [0, 0], [0, 0], [0, 0], None, Idle, Idle)
  const S1 := S([true, true], [true, true], [0, 0], [0, 0], [1, 0], None, Idle, Idle)
  const S2 := S([true, true], [true, true], [0, 0], [0, 0], [1, 0], None, Block(0), Idle)
  const S3 := S([false, true], [true, true], [0, 0], [0, 0], [1, 0], None, Fetch(0), Idle)
  const S4 := S([false, true], [true, true], [0, 0], [0, 0], [0, 0], None, Count(0), Idle)
  const S5 := S([false, true], [true, true], [1, 0], [0, 0], [0, 0], None, Lock(Scheduled(0, true)), Idle)
  const S6 := S([false, true], [false, true], [1, 0], [0, 0], [0, 0], Some(0), Load(Scheduled(0, true)), Idle)
  const S7 := S([false, true], [false, true], [1, 0], [0, 0], [0, 0], Some(0), Size(Scheduled(0, true), 1), Idle)
  const S8 := S([false, true], [false, true], [1, 0], [0, 0], [0, 0], Some(0), Recount(Scheduled(0, true), 1), Idle)
  const S9 := S([false, true], [false, true], [1, 0], [0, 0], [0, 0], Some(0), Primary(Scheduled(0, true), 1, 1), Idle)
  const S10 := S([true, true], [true, true], [1, 0], [0, 0], [0, 0], Some(0), Secondary(Scheduled(0, true), 1, true), Idle)
  const S11 := S([true, true], [true, true], [1, 0], [0, 0], [0, 0], Some(0), Recount2(Scheduled(0, true), 1, true), Idle)
  const S12 := S([true, true], [true, true], [1, 0], [0, 0], [0, 0], Some(0), Permit2(Scheduled(0, true), 1, true, 0), Idle)
  const S13 := S([true, true], [true, true], [1, 0], [0, 0], [0, 0], Some(0), Unlock(Scheduled(0, true)), Idle)
  const S14 := S([true, true], [true, true], [1, 0], [1, 0], [0, 0], None, Idle, Idle)
  const S15 := S([true, true], [true, true], [1, 0], [1, 0], [1, 0], None, Idle, Idle)
  const S16 := S([true, true], [true, true], [1, 0], [1, 0], [1, 2], None, Idle, Idle)
  const S17 := S([true, true], [true, true], [1, 0], [1, 0], [1, 2], None, Idle, Block(1))
  const S18 := S([true, false], [true, true], [1, 0], [1, 0], [1, 2], None, Idle, Fetch(1))
  const S19 := S([true, false], [true, true], [1, 0], [1, 0], [1, 1], None, Idle, Count(1))
  const S20 := S([true, false], [true, true], [1, 1], [1, 0], [1, 1], None, Idle, Lock(Scheduled(1, true)))
  const S21 := S([true, false], [true, false], [1, 1], [1, 0], [1, 1], Some(1), Idle, Load(Scheduled(1, true)))
  const S22 := S([true, false], [true, false], [1, 1], [1, 0], [1, 1], Some(1), Idle, Tally(Scheduled(1, true), 1))
  const S23 := S([true, false], [true, false], [1, 1], [1, 0], [2, 1], Some(1), Idle, Tally(Scheduled(1, true), 1))
  const S24 := S([true, false], [true, false], [0, 1], [0, 0], [2, 1], Some(1), Lock(Completed), Tally(Scheduled(1, true), 1))
  const S25 := S([true, false], [true, false], [0, 1], [0, 0], [2, 1], Some(1), Lock(Completed), Recount(Scheduled(1, true), 1))
  const S26 := S([true, false], [true, false], [0, 1], [0, 0], [2, 1], Some(1), Lock(Completed), Primary(Scheduled(1, true), 1, 0))
  const S27 := S([true, false], [true, false], [0, 1], [0, 0], [2, 1], Some(1), Lock(Completed), Secondary(Scheduled(1, true), 1, false))
  const S28 := S([true, false], [true, false], [0, 1], [0, 0], [2, 1], Some(1), Lock(Completed), Recount2(Scheduled(1, true), 1, false))
  const S29 := S([true, false], [true, false], [0, 1], [0, 0], [2, 1], Some(1), Lock(Completed), Permit2(Scheduled(1, true), 1, false, 1))
  const S30 := S([true, true], [true, true], [0, 1], [0, 0], [2, 1], Some(1), Lock(Completed), Unlock(Scheduled(1, true)))
  const S31 := S([true, true], [true, true], [0, 1], [0, 1], [2, 1], None, Lock(Completed), Idle)
  const S32 := S([true, true], [true, true], [0, 1], [0, 1], [2, 1], None, Lock(Completed), Block(1))
  const S33 := S([true, false], [true, true], [0, 1], [0, 1], [2, 1], None, Lock(Completed), Fetch(1))
  const S34 := S([true, false], [true, true], [0, 1], [0, 1], [2, 0], None, Lock(Completed), Count(1))
  const S35 := S([true, false], [true, true], [0, 2], [0, 1], [2, 0], None, Lock(Completed), Lock(Scheduled(1, true)))

  lemma Step0()
    ensures Goes(S0, Queue(0, 1), S1) && Goes(S1, Call(0, 0), S2)
  {
  }

  lemma Step2()
    ensures Goes(S2, Take(0), S3) && Goes(S3, Take(0), S4)
  {
  }

  lemma Step4()
    ensures Goes(S4, Take(0), S5) && Goes(S5, Take(0), S6)
  {
  }

  lemma Step6()
    ensures Goes(S6, Take(0), S7) && Goes(S7, Take(0), S8)
  {
  }

  lemma Step8()
    ensures Goes(S8, Take(0), S9) && Goes(S9, Take(0), S10)
  {
  }

  lemma Step10()
    ensures Goes(S10, Take(0), S11) && Goes(S11, Take(0), S12)
  {
  }

  lemma Step12()
    ensures Goes(S12, Take(0), S13)
  {
  }

  lemma Step13()
    ensures Goes(S13, Take(0), S14) && Goes(S14, Queue(0, 1), S15)
  {
  }

  lemma Step15()
    ensures Tense(S15, Queue(1, 2), S16) && Tense(S16, Call(1, 1), S17)
  {
  }

  lemma Step17()
    ensures Tense(S17, Take(1), S18) && Tense(S18, Take(1), S19)
  {
  }

  lemma Step19()
    ensures Tense(S19, Take(1), S20) && Tense(S20, Take(1), S21)
  {
  }

  lemma Step21()
    ensures Tense(S21, Peek(1), S22) && Tense(S22, Queue(0, 2), S23)
  {
  }

  lemma Step23()
    ensures Tense(S23, Finish(0, 0), S24) && Tense(S24, Take(1), S25)
  {
  }

  lemma Step25()
    ensures Tense(S25, Take(1), S26) && Tense(S26, Take(1), S27)
  {
  }

  lemma Step27()
    ensures Tense(S27, Take(1), S28) && Tense(S28, Take(1), S29)
  {
  }

  lemma Step29()
    ensures Tense(S29, Take(1), S30)
  {
  }

  lemma Step30()
    ensures Tense(S30, Take(1), S31) && Tense(S31, Call(1, 1), S32)
  {
  }

  lemma Step32()
    ensures Tense(S32, Take(1), S33) && Tense(S33, Take(1), S34)
  {
  }

  lemma Step34()
    ensures Tense(S34, Take(1), S35)
  {
  }

  const A0 := [S0, S1, S2, S3, S4]
  const B0 := [Queue(0, 1), Call(0, 0), Take(0), Take(0)]

  lemma Opening0()
    ensures Linked(Goes, A0, B0)
  {
    Step0();
    Step2();
  }

  const A1 := [S4, S5, S6, S7, S8]
  const B1 := [Take(0), Take(0), Take(0), Take(0)]

  lemma Opening1()
    ensures Linked(Goes, A1, B1)
  {
    Step4();
    Step6();
  }

  const A2 := [S8, S9, S10, S11, S12]
  const B2 := [Take(0), Take(0), Take(0), Take(0)]

  lemma Opening2()
    ensures Linked(Goes, A2, B2)
  {
    Step8();
    Step10();
  }

  const A3 := [S12, S13, S14, S15]
  const B3 := [Take(0), Take(0), Queue(0, 1)]

  lemma Opening3()
    ensures Linked(Goes, A3, B3)
  {
    Step12();
    Step13();
  }

  const X0 := [S15, S16, S17, S18, S19]
  const Y0 := [Queue(1, 2), Call(1, 1), Take(1), Take(1)]

  lemma Stretch0()
    ensures Linked(Tense, X0, Y0) && StartsIn(X0, Y0, 0, 4) == 0
  {
    Step15();
    Step17();
    assert StartsIn(X0, Y0, 0, 1) == 0;
    assert StartsIn(X0, Y0, 0, 2) == 0;
    assert StartsIn(X0, Y0, 0, 3) == 0;
    assert StartsIn(X0, Y0, 0, 4) == 0;
  }

  const X1 := [S19, S20, S21, S22, S23]
  const Y1 := [Take(1), Take(1), Peek(1), Queue(0, 2)]

  lemma Stretch1()
    ensures Linked(Tense, X1, Y1) && StartsIn(X1, Y1, 0, 4) == 1
  {
    Step19();
    Step21();
    assert StartsIn(X1, Y1, 0, 1) == 1;
    assert StartsIn(X1, Y1, 0, 2) == 1;
    assert StartsIn(X1, Y1, 0, 3) == 1;
    assert StartsIn(X1, Y1, 0, 4) == 1;
  }

  const X2 := [S23, S24, S25, S26, S27]
  const Y2 := [Finish(0, 0), Take(1), Take(1), Take(1)]

  lemma Stretch2()
    ensures Linked(Tense, X2, Y2) && StartsIn(X2, Y2, 0, 4) == 0
  {
    Step23();
    Step25();
    assert StartsIn(X2, Y2, 0, 1) == 0;
    assert StartsIn(X2, Y2, 0, 2) == 0;
    assert StartsIn(X2, Y2, 0, 3) == 0;
    assert StartsIn(X2, Y2, 0, 4) == 0;
  }

  const X3 := [S27, S28, S29, S30, S31]
  const Y3 := [Take(1), Take(1), Take(1), Take(1)]

  lemma Stretch3()
    ensures Linked(Tense, X3, Y3) && StartsIn(X3, Y3, 0, 4) == 0
  {
    Step27();
    Step29();
    Step30();
    assert StartsIn(X3, Y3, 0, 1) == 0;
    assert StartsIn(X3, Y3, 0, 2) == 0;
    assert StartsIn(X3, Y3, 0, 3) == 0;
    assert StartsIn(X3, Y3, 0, 4) == 0;
  }

  const X4 := [S31, S32, S33, S34, S35]
  const Y4 := [Call(1, 1), Take(1), Take(1), Take(1)]

  lemma Stretch4()
    ensures Linked(Tense, X4, Y4) && StartsIn(X4, Y4, 0, 4) == 1
  {
    Step30();
    Step32();
    Step34();
    assert StartsIn(X4, Y4, 0, 1) == 0;
    assert StartsIn(X4, Y4, 0, 2) == 0;
    assert StartsIn(X4, Y4, 0, 3) == 0;
    assert StartsIn(X4, Y4, 0, 4) == 1;
  }

  const BEFORE := A0 + A1[1..] + A2[1..] + A3[1..]
  const BEGUN := B0 + B1 + B2 + B3

  lemma Opens()
    ensures Linked(Goes, BEFORE, BEGUN) && BEFORE[0] == Init([2, 2], {0, 1}) && |BEGUN| == 15 && BEFORE[15] == S15
  {
    Opening0();
    Opening1();
    Joined(Goes, A0, B0, A1, B1);
    Opening2();
    Joined(Goes, A0 + A1[1..], B0 + B1, A2, B2);
    Opening3();
    Joined(Goes, A0 + A1[1..] + A2[1..], B0 + B1 + B2, A3, B3);
    assert S0.pcs == Init([2, 2], {0, 1}).pcs;
  }

  const XS1 := X0 + X1[1..]
  const YS1 := Y0 + Y1

  lemma Upto1()
    ensures Linked(Tense, XS1, YS1) && |YS1| == 8 && StartsIn(XS1, YS1, 0, 8) == 1
    ensures XS1[0] == S15 && XS1[8] == S23
  {
    Stretch0();
    Stretch1();
    TenseJoined(X0, Y0, X1, Y1);
  }

  const XS2 := XS1 + X2[1..]
  const YS2 := YS1 + Y2

  lemma Upto2()
    ensures Linked(Tense, XS2, YS2) && |YS2| == 12 && StartsIn(XS2, YS2, 0, 12) == 1
    ensures XS2[0] == S15 && XS2[12] == S27
  {
    Upto1();
    Stretch2();
    TenseJoined(XS1, YS1, X2, Y2);
  }

  const XS3 := XS2 + X3[1..]
  const YS3 := YS2 + Y3

  lemma Upto3()
    ensures Linked(Tense, XS3, YS3) && |YS3| == 16 && StartsIn(XS3, YS3, 0, 16) == 1
    ensures XS3[0] == S15 && XS3[16] == S31
  {
    Upto2();
    Stretch3();
    TenseJoined(XS2, YS2, X3, Y3);
  }

  const STATES := XS3 + X4[1..]
  const ACTIONS := YS3 + Y4

  lemma Stretches()
    ensures Linked(Tense, STATES, ACTIONS) && |ACTIONS| == 20 && StartsIn(STATES, ACTIONS, 0, 20) == 2
    ensures STATES[0] == S15 && STATES[20] == S35
  {
    Upto3();
    Stretch4();
    TenseJoined(XS3, YS3, X4, Y4);
  }

  lemma Misled()
    ensures Possible(S23, Finish(0, 0)) && Misleads(S23, Finish(0, 0))
  {
  }

  lemma MisledAt()
    ensures |STATES| == 21 && |ACTIONS| == 20 && STATES[8] == S23 && ACTIONS[8] == Finish(0, 0)
  {
  }

  /** The run, from the constructor: primary work is at its target from step 15 on, one step misleads
      a decision, and two secondary jobs start. */
  lemma StartsTwice() returns (states: seq<State>, actions: seq<Action>)
    ensures Run(states, actions) && states[0] == Init([2, 2], {0, 1}) && |actions| == 35
    ensures forall i :: 15 <= i < 35 ==> StaysAtTarget(states[i], actions[i])
    ensures Possible(states[23], actions[23]) && Misleads(states[23], actions[23]) && actions[23] == Finish(0, 0)
    ensures StartsIn(states, actions, 15, 35) == 2
  {
    Opens();
    Stretches();
    states, actions := BEFORE + STATES[1..], BEGUN + ACTIONS;
    TenseRun(BEFORE, BEGUN, STATES, ACTIONS);
    TenseFacts(STATES, ACTIONS, states, actions, 15, 8);
    MisledAt();
    Misled();
  }
}
