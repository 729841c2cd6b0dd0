/** What a call of the MultiQueue does when its thread is left alone: from any reachable state whose
    locks it can get, the exact state its steps end in. */
module QueueCalls {
  import opened Jobs
  import opened QueueIndex
  import opened QueueRep
  import opened QueueSteps
  import opened QueueData
  import opened QueueRefinement
  import opened QueueRuns
  import opened QueueAlone

  // ----- ReleaseOne -----

  /** On an empty queue the flag is set and the gate opened; otherwise nothing. */
  function ReleasedOne(s: State, p: nat): State
    requires p < |s.queues| && |s.flags| == |s.queues| && |s.gates| == |s.queues|
  {
    if s.queues[p] == [] then s.(flags := s.flags[p := true], gates := s.gates[p := true]) else s
  }

  lemma ReleaseOneLocks(s: State, t: Tid, p: nat, b: bool)
    requires Outside(s, t) && p < |s.queues| && s.exclusive.None? && s.shared == {} && (b ==> s.stateLock.None?)
    ensures Walk([Frame(s, OLock(p, b)), Frame(s, OQueue(p, b))], t)
  {
    PutShape(s, t, OLock(p, b));
    OneStep(Frame(s, OLock(p, b)), t, Frame(s, OQueue(p, b)));
  }

  lemma ReleaseOneQueues(s: State, t: Tid, p: nat, b: bool)
    requires Outside(s, t) && p < |s.queues| && s.exclusive.None? && s.queueLocks[p].None? && (b ==> s.stateLock.None?)
    ensures Walk([Frame(s, OQueue(p, b)), Frame(s, OTest(p, b))], t)
  {
    PutShape(s, t, OQueue(p, b));
    OneStep(Frame(s, OQueue(p, b)), t, Frame(s, OTest(p, b)));
  }

  lemma ReleaseOneFlags(s: State, t: Tid, p: nat, b: bool)
    requires Outside(s, t) && p < |s.queues| && s.exclusive.None? && s.queueLocks[p].None? && (b ==> s.stateLock.None?) && s.queues[p] == []
    ensures Walk([Frame(s, OTest(p, b)), Frame(s.(flags := s.flags[p := true]), OGate(p, b))], t)
  {
    PutShape(s, t, OTest(p, b));
    OneStep(Frame(s, OTest(p, b)), t, Frame(s.(flags := s.flags[p := true]), OGate(p, b)));
  }

  lemma ReleaseOneSkips(s: State, t: Tid, p: nat, b: bool)
    requires Outside(s, t) && p < |s.queues| && s.exclusive.None? && s.queueLocks[p].None? && (b ==> s.stateLock.None?) && s.queues[p] != []
    ensures Walk([Frame(s, OTest(p, b)), Frame(s, if b then TDone else Idle)], t)
  {
    PutShape(s, t, OTest(p, b));
    OneStep(Frame(s, OTest(p, b)), t, Frame(s, if b then TDone else Idle));
  }

  lemma ReleaseOneOpens(s: State, t: Tid, p: nat, b: bool)
    requires Outside(s, t) && p < |s.queues| && s.exclusive.None? && s.queueLocks[p].None? && (b ==> s.stateLock.None?)
    ensures Walk([Frame(s, OGate(p, b)), Frame(s.(gates := s.gates[p := true]), if b then TDone else Idle)], t)
  {
    PutShape(s, t, OGate(p, b));
    OneStep(Frame(s, OGate(p, b)), t, Frame(s.(gates := s.gates[p := true]), if b then TDone else Idle));
  }

  lemma ReleaseOneTests(s: State, t: Tid, p: nat, b: bool, done: Pc) returns (fs: seq<Frame>)
    requires Outside(s, t) && p < |s.queues| && s.exclusive.None? && s.queueLocks[p].None? && (b ==> s.stateLock.None?)
    requires done == if b then TDone else Idle
    ensures Walk(fs, t) && |fs| > 1 && fs[0] == Frame(s, OTest(p, b)) && fs[|fs| - 1] == Frame(ReleasedOne(s, p), done)
  {
    if s.queues[p] == [] {
      var s1 := s.(flags := s.flags[p := true]);
      ReleaseOneFlags(s, t, p, b);
      WalkEnds([Frame(s, OTest(p, b)), Frame(s1, OGate(p, b))], t);
      ReleaseOneOpens(s1, t, p, b);
      Glued([Frame(s, OTest(p, b)), Frame(s1, OGate(p, b))], [Frame(s1, OGate(p, b)), Frame(ReleasedOne(s, p), done)], t);
      fs := [Frame(s, OTest(p, b)), Frame(s1, OGate(p, b))] + [Frame(s1, OGate(p, b)), Frame(ReleasedOne(s, p), done)][1..];
    } else {
      ReleaseOneSkips(s, t, p, b);
      fs := [Frame(s, OTest(p, b)), Frame(s, done)];
    }
  }

  lemma ReleaseOneWalk(s: State, t: Tid, p: nat, b: bool) returns (fs: seq<Frame>)
    requires Outside(s, t) && p < |s.queues| && s.exclusive.None? && s.shared == {} && s.queueLocks[p].None?
    requires b ==> s.stateLock.None?
    ensures Walk(fs, t) && |fs| > 1 && fs[0] == Frame(s, OLock(p, b))
    ensures fs[|fs| - 1] == Frame(ReleasedOne(s, p), if b then TDone else Idle)
  {
    ReleaseOneLocks(s, t, p, b);
    ReleaseOneQueues(s, t, p, b);
    var x, y := [Frame(s, OLock(p, b)), Frame(s, OQueue(p, b))], [Frame(s, OQueue(p, b)), Frame(s, OTest(p, b))];
    Glued(x, y, t);
    var z := ReleaseOneTests(s, t, p, b, if b then TDone else Idle);
    Glued(x + y[1..], z, t);
    fs := x + y[1..] + z[1..];
  }

  lemma ReleaseOneAlone(s: State, t: Tid, p: nat) returns (states: seq<State>, actions: seq<Action>)
    requires Inv(s) && t in s.pcs && s.pcs[t].Idle? && p < |s.queues|
    requires s.exclusive.None? && s.shared == {} && s.queueLocks[p].None?
    ensures Plays(s, t, ReleaseOne(p), states, actions) && states[|actions|] == ReleasedOne(s, p)
  {
    IdleIsOutside(s, t);
    var fs := ReleaseOneWalk(s, t, p, false);
    PlaysBack(s, t, ReleaseOne(p), fs);
    states, actions := Played(s, t, fs), Moves(t, ReleaseOne(p), |fs|);
  }

  // ----- a throttler decision -----

  lemma DecideLocks(s: State, t: Tid, release: bool)
    requires Outside(s, t) && s.stateLock.None? && (release ==> 1 < |s.queues|)
    ensures Walk([Frame(s, TLock(release)), Frame(s, TDecide(release))], t)
  {
    PutShape(s, t, TLock(release));
    OneStep(Frame(s, TLock(release)), t, Frame(s, TDecide(release)));
  }

  lemma DecideCalls(s: State, t: Tid, release: bool)
    requires Outside(s, t) && s.stateLock.None? && (release ==> 1 < |s.queues|)
    ensures Walk([Frame(s, TDecide(release)), Frame(s, if release then OLock(1, true) else TDone)], t)
  {
    PutShape(s, t, TDecide(release));
    OneStep(Frame(s, TDecide(release)), t, Frame(s, if release then OLock(1, true) else TDone));
  }

  lemma DecideUnlocks(s: State, t: Tid)
    requires Outside(s, t) && s.stateLock.None?
    ensures Walk([Frame(s, TDone), Frame(s, Idle)], t)
  {
    PutShape(s, t, TDone);
    OneStep(Frame(s, TDone), t, Frame(s, Idle));
  }

  /** A decision that releases does to the secondary queue what ReleaseOne does; one that does not
      leaves everything as it was. */
  lemma DecideAlone(s: State, t: Tid, release: bool) returns (states: seq<State>, actions: seq<Action>)
    requires Inv(s) && t in s.pcs && s.pcs[t].Idle? && s.stateLock.None?
    requires release ==> 1 < |s.queues| && s.exclusive.None? && s.shared == {} && s.queueLocks[1].None?
    ensures Plays(s, t, Decide(release), states, actions)
    ensures states[|actions|] == if release then ReleasedOne(s, 1) else s
  {
    IdleIsOutside(s, t);
    DecideLocks(s, t, release);
    DecideCalls(s, t, release);
    var next := if release then OLock(1, true) else TDone;
    Glued([Frame(s, TLock(release)), Frame(s, TDecide(release))], [Frame(s, TDecide(release)), Frame(s, next)], t);
    var fs := [Frame(s, TLock(release)), Frame(s, TDecide(release))] + [Frame(s, TDecide(release)), Frame(s, next)][1..];
    var last := s;
    if release {
      var gs := ReleaseOneWalk(s, t, 1, true);
      Glued(fs, gs, t);
      fs, last := fs + gs[1..], ReleasedOne(s, 1);
    }
    WalkEnds(fs, t);
    DecideUnlocks(last, t);
    Glued(fs, [Frame(last, TDone), Frame(last, Idle)], t);
    fs := fs + [Frame(last, TDone), Frame(last, Idle)][1..];
    PlaysBack(s, t, Decide(release), fs);
    states, actions := Played(s, t, fs), Moves(t, Decide(release), |fs|);
  }

  // ----- ReleaseQueues -----

  /** Released, with the gates of the empty queues below `n` opened. */
  function Opened(s: State, n: nat): State
    requires |s.gates| == |s.queues|
  {
    s.(released := true, gates := seq(|s.gates|, p requires 0 <= p < |s.gates| => s.gates[p] || (p < n && s.queues[p] == [])))
  }

  lemma ReleaseQueuesLocks(s: State, t: Tid)
    requires Outside(s, t) && s.exclusive.None? && s.shared == {}
    ensures Walk([Frame(s, QLock), Frame(s, QSet)], t)
  {
    PutShape(s, t, QLock);
    OneStep(Frame(s, QLock), t, Frame(s, QSet));
  }

  lemma ReleaseQueuesSets(s: State, t: Tid)
    requires Outside(s, t) && s.exclusive.None?
    ensures Walk([Frame(s, QSet), Frame(Opened(s, 0), QGates(0))], t)
  {
    PutShape(s, t, QSet);
    assert Opened(s, 0).gates == s.gates;
    OneStep(Frame(s, QSet), t, Frame(Opened(s, 0), QGates(0)));
  }

  lemma OpensGate(s: State, t: Tid, p: nat)
    requires Outside(s, t) && s.exclusive.None? && p < |s.queues|
    ensures Walk([Frame(Opened(s, p), QGates(p)), Frame(Opened(s, p + 1), QGates(p + 1))], t)
  {
    var e := Opened(s, p);
    PutShape(e, t, QGates(p));
    GateOpened(s, p);
    OneStep(Frame(e, QGates(p)), t, Frame(Opened(s, p + 1), QGates(p + 1)));
  }

  lemma GateOpened(s: State, p: nat)
    requires |s.gates| == |s.queues| && p < |s.queues|
    ensures Opened(s, p + 1).gates == if s.queues[p] == [] then Opened(s, p).gates[p := true] else Opened(s, p).gates
  {
  }

  lemma ReleaseQueuesReturns(s: State, t: Tid)
    requires Outside(s, t) && s.exclusive.None?
    ensures Walk([Frame(s, QGates(|s.queues|)), Frame(s, Idle)], t)
  {
    PutShape(s, t, QGates(|s.queues|));
    OneStep(Frame(s, QGates(|s.queues|)), t, Frame(s, Idle));
  }

  lemma {:induction false} OpensGates(s: State, t: Tid, p: nat) returns (fs: seq<Frame>)
    requires Outside(s, t) && s.exclusive.None? && p <= |s.queues|
    ensures Walk(fs, t) && |fs| > 1 && fs[0] == Frame(Opened(s, p), QGates(p))
    ensures fs[|fs| - 1] == Frame(Opened(s, |s.queues|), Idle)
    decreases |s.queues| - p
  {
    if p == |s.queues| {
      ReleaseQueuesReturns(Opened(s, p), t);
      fs := [Frame(Opened(s, p), QGates(p)), Frame(Opened(s, p), Idle)];
    } else {
      OpensGate(s, t, p);
      var rest := OpensGates(s, t, p + 1);
      var first := [Frame(Opened(s, p), QGates(p)), Frame(Opened(s, p + 1), QGates(p + 1))];
      Glued(first, rest, t);
      fs := first + rest[1..];
    }
  }

  /** The released flag is set and every empty queue has its gate open; nothing else changes. */
  lemma ReleaseQueuesAlone(s: State, t: Tid) returns (states: seq<State>, actions: seq<Action>)
    requires Inv(s) && t in s.pcs && s.pcs[t].Idle? && s.exclusive.None? && s.shared == {}
    ensures Plays(s, t, ReleaseQueues, states, actions)
    ensures states[|actions|] == s.(released := true, gates := states[|actions|].gates) && |states[|actions|].gates| == |s.gates|
    ensures forall p :: 0 <= p < |s.queues| ==> states[|actions|].gates[p] == (s.gates[p] || s.queues[p] == [])
  {
    IdleIsOutside(s, t);
    ReleaseQueuesLocks(s, t);
    ReleaseQueuesSets(s, t);
    var a, b := [Frame(s, QLock), Frame(s, QSet)], [Frame(s, QSet), Frame(Opened(s, 0), QGates(0))];
    Glued(a, b, t);
    var gs := OpensGates(s, t, 0);
    Glued(a + b[1..], gs, t);
    var fs := a + b[1..] + gs[1..];
    PlaysBack(s, t, ReleaseQueues, fs);
    states, actions := Played(s, t, fs), Moves(t, ReleaseQueues, |fs|);
  }

  // ----- Enqueue -----

  /** At the back of its queue and of its id's list, the gate opened if the queue was empty. */
  function Enqueued(s: State, j: Job): State
    requires j.prio < |s.queues| && |s.gates| == |s.queues|
  {
    var n := Node(|s.born|, j.id);
    s.(queues := s.queues[j.prio := s.queues[j.prio] + [n]], born := s.born + [j],
    gates := if s.queues[j.prio] == [] then s.gates[j.prio := true] else s.gates,
    index := Indexed(s.index, Entry(j, n)))
  }

  lemma EnqueueShares(s: State, t: Tid, j: Job)
    requires Outside(s, t) && j.prio < |s.queues| && s.exclusive.None?
    ensures Walk([Frame(s, EShared(j)), Frame(s, EQueue(j))], t)
  {
    PutShape(s, t, EShared(j));
    OneStep(Frame(s, EShared(j)), t, Frame(s, EQueue(j)));
  }

  lemma EnqueueLocks(s: State, t: Tid, j: Job)
    requires Outside(s, t) && j.prio < |s.queues| && s.queueLocks[j.prio].None?
    ensures Walk([Frame(s, EQueue(j)), Frame(s, EInsert(j))], t)
  {
    PutShape(s, t, EQueue(j));
    OneStep(Frame(s, EQueue(j)), t, Frame(s, EInsert(j)));
  }

  lemma EnqueueInserts(s: State, t: Tid, j: Job, n: Node)
    requires Outside(s, t) && j.prio < |s.queues| && s.queueLocks[j.prio].None? && n == Node(|s.born|, j.id)
    ensures Walk([Frame(s, EInsert(j)), Frame(s.(queues := s.queues[j.prio := s.queues[j.prio] + [n]], born := s.born + [j]), EGate(j, n))], t)
  {
    PutShape(s, t, EInsert(j));
    OneStep(Frame(s, EInsert(j)), t, Frame(s.(queues := s.queues[j.prio := s.queues[j.prio] + [n]], born := s.born + [j]), EGate(j, n)));
  }

  lemma EnqueueOpens(s: State, t: Tid, j: Job, n: Node)
    requires Outside(s, t) && j.prio < |s.queues| && s.queueLocks[j.prio].None?
    ensures Walk([Frame(s, EGate(j, n)), Frame(s.(gates := if |s.queues[j.prio]| == 1 then s.gates[j.prio := true] else s.gates), EIndexLock(j, n))], t)
  {
    PutShape(s, t, EGate(j, n));
    OneStep(Frame(s, EGate(j, n)), t, Frame(s.(gates := if |s.queues[j.prio]| == 1 then s.gates[j.prio := true] else s.gates), EIndexLock(j, n)));
  }

  lemma EnqueueHandsOver(s: State, t: Tid, j: Job, n: Node)
    requires Outside(s, t) && j.prio < |s.queues| && s.queueLocks[j.prio].None? && s.indexLock.None?
    ensures Walk([Frame(s, EIndexLock(j, n)), Frame(s, EIndex(j, n))], t)
  {
    PutShape(s, t, EIndexLock(j, n));
    OneStep(Frame(s, EIndexLock(j, n)), t, Frame(s, EIndex(j, n)));
  }

  lemma EnqueueIndexes(s: State, t: Tid, j: Job, n: Node)
    requires Outside(s, t) && j.prio < |s.queues| && s.indexLock.None?
    ensures Walk([Frame(s, EIndex(j, n)), Frame(s.(index := Indexed(s.index, Entry(j, n))), Idle)], t)
  {
    PutShape(s, t, EIndex(j, n));
    OneStep(Frame(s, EIndex(j, n)), t, Frame(s.(index := Indexed(s.index, Entry(j, n))), Idle));
  }

  lemma EnqueueFirst(s: State, t: Tid, j: Job, n: Node, s1: State) returns (fs: seq<Frame>)
    requires Outside(s, t) && j.prio < |s.queues| && s.exclusive.None? && s.queueLocks[j.prio].None? && n == Node(|s.born|, j.id)
    requires s1 == s.(queues := s.queues[j.prio := s.queues[j.prio] + [n]], born := s.born + [j])
    ensures Walk(fs, t) && |fs| > 1 && fs[0] == Frame(s, EShared(j)) && fs[|fs| - 1] == Frame(s1, EGate(j, n))
  {
    EnqueueShares(s, t, j);
    EnqueueLocks(s, t, j);
    EnqueueInserts(s, t, j, n);
    var a, b := [Frame(s, EShared(j)), Frame(s, EQueue(j))], [Frame(s, EQueue(j)), Frame(s, EInsert(j))];
    Glued(a, b, t);
    Glued(a + b[1..], [Frame(s, EInsert(j)), Frame(s1, EGate(j, n))], t);
    fs := a + b[1..] + [Frame(s, EInsert(j)), Frame(s1, EGate(j, n))][1..];
  }

  lemma EnqueueThen(s: State, t: Tid, j: Job, n: Node, s1: State, s2: State) returns (fs: seq<Frame>)
    requires Outside(s, t) && Outside(s1, t) && j.prio < |s.queues| && s.queueLocks[j.prio].None? && s.indexLock.None?
    requires s1 == s.(gates := if |s.queues[j.prio]| == 1 then s.gates[j.prio := true] else s.gates)
    requires s2 == s1.(index := Indexed(s.index, Entry(j, n)))
    ensures Walk(fs, t) && |fs| > 1 && fs[0] == Frame(s, EGate(j, n)) && fs[|fs| - 1] == Frame(s2, Idle)
  {
    EnqueueOpens(s, t, j, n);
    EnqueueHandsOver(s1, t, j, n);
    EnqueueIndexes(s1, t, j, n);
    var a, b := [Frame(s, EGate(j, n)), Frame(s1, EIndexLock(j, n))], [Frame(s1, EIndexLock(j, n)), Frame(s1, EIndex(j, n))];
    Glued(a, b, t);
    Glued(a + b[1..], [Frame(s1, EIndex(j, n)), Frame(s2, Idle)], t);
    fs := a + b[1..] + [Frame(s1, EIndex(j, n)), Frame(s2, Idle)][1..];
  }

  /** The job at the back of its priority. */
  lemma EnqueueAlone(s: State, t: Tid, j: Job) returns (states: seq<State>, actions: seq<Action>)
    requires Inv(s) && t in s.pcs && s.pcs[t].Idle? && j.prio < |s.queues|
    requires s.exclusive.None? && s.queueLocks[j.prio].None? && s.indexLock.None?
    ensures Plays(s, t, Enqueue(j), states, actions) && states[|actions|] == Enqueued(s, j)
    ensures Keyed(s) && Keyed(states[|actions|]) && Abs(states[|actions|]) == Append(Abs(s), j)
  {
    states, actions := EnqueueRuns(s, t, j);
    InvKeyed(s);
    ContentAppend(s.queues, s.born, j);
  }

  lemma EnqueueRuns(s: State, t: Tid, j: Job) returns (states: seq<State>, actions: seq<Action>)
    requires Inv(s) && t in s.pcs && s.pcs[t].Idle? && j.prio < |s.queues|
    requires s.exclusive.None? && s.queueLocks[j.prio].None? && s.indexLock.None?
    ensures Plays(s, t, Enqueue(j), states, actions) && states[|actions|] == Enqueued(s, j)
  {
    IdleIsOutside(s, t);
    var n := Node(|s.born|, j.id);
    var s1 := s.(queues := s.queues[j.prio := s.queues[j.prio] + [n]], born := s.born + [j]);
    var s2 := s1.(gates := if |s1.queues[j.prio]| == 1 then s.gates[j.prio := true] else s.gates);
    var a := EnqueueFirst(s, t, j, n, s1);
    var b := EnqueueThen(s1, t, j, n, s2, Enqueued(s, j));
    Glued(a, b, t);
    PlaysBack(s, t, Enqueue(j), a + b[1..]);
    states, actions := Played(s, t, a + b[1..]), Moves(t, Enqueue(j), |a + b[1..]|);
  }

  lemma WalkKeepsInv(s: State, t: Tid, c: Call, fs: seq<Frame>)
    requires Inv(s) && |fs| > 0 && Plays(s, t, c, Played(s, t, fs), Moves(t, c, |fs|))
    requires Whole(fs[|fs| - 1], t).fault == NoFault
    ensures Inv(Whole(fs[|fs| - 1], t))
  {
    var states, actions := Played(s, t, fs), Moves(t, c, |fs|);
    CleanInv(states, actions, |actions|);
  }

  // ----- Purge -----

  lemma PurgeLocks(s: State, t: Tid, id: JobId)
    requires Outside(s, t) && s.exclusive.None? && s.shared == {}
    ensures Walk([Frame(s, PLock(id)), Frame(s, PErase(id))], t)
  {
    PutShape(s, t, PLock(id));
    OneStep(Frame(s, PLock(id)), t, Frame(s, PErase(id)));
  }

  lemma PurgeErases(s: State, t: Tid, id: JobId)
    requires Outside(s, t) && s.exclusive.None? && forall e <- ListOf(s.index, id) :: e.job.prio < |s.queues|
    ensures Walk([Frame(s, PErase(id)), Frame(s.(queues := EraseAll(s.queues, ListOf(s.index, id)), index := s.index - {id}), PDone(id, |ListOf(s.index, id)|))], t)
  {
    PutShape(s, t, PErase(id));
    OneStep(Frame(s, PErase(id)), t, Frame(s.(queues := EraseAll(s.queues, ListOf(s.index, id)), index := s.index - {id}), PDone(id, |ListOf(s.index, id)|)));
  }

  lemma PurgeReturns(s: State, t: Tid, id: JobId, n: nat)
    requires Outside(s, t) && s.exclusive.None?
    ensures Walk([Frame(s, PDone(id, n)), Frame(s, Idle)], t)
  {
    PutShape(s, t, PDone(id, n));
    OneStep(Frame(s, PDone(id, n)), t, Frame(s, Idle));
  }

  /** With nobody inside, index and queues correspond. */
  lemma NobodyInside(s: State, t: Tid, id: JobId)
    requires Inv(s) && Outside(s, t) && s.exclusive.None? && s.shared == {}
    ensures Rep(s.queues, s.index, s.born)
  {
    PurgeLocks(s, t, id);
    var fs := [Frame(s, PLock(id)), Frame(s, PErase(id))];
    WalkPlays(s, t, Purge(id), fs);
    WalkKeepsInv(s, t, Purge(id), fs);
    AloneRep(Whole(fs[1], t));
  }

  lemma PurgeWalk(s: State, t: Tid, id: JobId, s1: State, n: nat) returns (fs: seq<Frame>)
    requires Outside(s, t) && Outside(s1, t) && s.exclusive.None? && s.shared == {}
    requires forall e <- ListOf(s.index, id) :: e.job.prio < |s.queues|
    requires s1 == s.(queues := EraseAll(s.queues, ListOf(s.index, id)), index := s.index - {id}) && n == |ListOf(s.index, id)|
    ensures Walk(fs, t) && |fs| == 4 && fs[0] == Frame(s, PLock(id)) && fs[2] == Frame(s1, PDone(id, n)) && fs[3] == Frame(s1, Idle)
  {
    PurgeLocks(s, t, id);
    PurgeErases(s, t, id);
    PurgeReturns(s1, t, id, n);
    var a, b := [Frame(s, PLock(id)), Frame(s, PErase(id))], [Frame(s, PErase(id)), Frame(s1, PDone(id, n))];
    Glued(a, b, t);
    Glued(a + b[1..], [Frame(s1, PDone(id, n)), Frame(s1, Idle)], t);
    fs := a + b[1..] + [Frame(s1, PDone(id, n)), Frame(s1, Idle)][1..];
  }

  /** Every queue filtered; the value about to be returned is the number of jobs taken out. */
  lemma PurgeAlone(s: State, t: Tid, id: JobId) returns (states: seq<State>, actions: seq<Action>)
    requires Inv(s) && t in s.pcs && s.pcs[t].Idle? && s.exclusive.None? && s.shared == {}
    ensures Plays(s, t, Purge(id), states, actions) && |actions| == 4
    ensures Keyed(s) && t in states[3].pcs && states[3].pcs[t] == PDone(id, Occurrences(Abs(s), id, |s.queues|))
    ensures Keyed(states[4]) && Abs(states[4]) == Filter(Abs(s), id)
    ensures states[4] == s.(queues := states[4].queues, index := s.index - {id})
  {
    IdleIsOutside(s, t);
    InvKeyed(s);
    NobodyInside(s, t, id);
    RepPurge(s.queues, s.index, s.born, id);
    var es := ListOf(s.index, id);
    var s1 := s.(queues := EraseAll(s.queues, es), index := s.index - {id});
    var fs := PurgeWalk(s, t, id, s1, |es|);
    PlaysBack(s, t, Purge(id), fs);
    states, actions := Played(s, t, fs), Moves(t, Purge(id), |fs|);
  }

  // ----- Dequeue -----

  lemma DequeuePasses(s: State, t: Tid, p: nat)
    requires Outside(s, t) && p < |s.queues| && s.gates[p]
    ensures Walk([Frame(s, DGate(p)), Frame(s.(gates := s.gates[p := false]), DFlag(p))], t)
  {
    PutShape(s, t, DGate(p));
    OneStep(Frame(s, DGate(p)), t, Frame(s.(gates := s.gates[p := false]), DFlag(p)));
  }

  lemma DequeueTakesFlag(s: State, t: Tid, p: nat)
    requires Outside(s, t) && p < |s.queues| && s.flags[p]
    ensures Walk([Frame(s, DFlag(p)), Frame(s.(flags := s.flags[p := false]), Idle)], t)
  {
    PutShape(s, t, DFlag(p));
    OneStep(Frame(s, DFlag(p)), t, Frame(s.(flags := s.flags[p := false]), Idle));
  }

  lemma DequeueNoFlag(s: State, t: Tid, p: nat)
    requires Outside(s, t) && p < |s.queues| && !s.flags[p]
    ensures Walk([Frame(s, DFlag(p)), Frame(s, DShared(p))], t)
  {
    PutShape(s, t, DFlag(p));
    assert s.flags[p := false] == s.flags;
    OneStep(Frame(s, DFlag(p)), t, Frame(s, DShared(p)));
  }

  lemma DequeueShares(s: State, t: Tid, p: nat)
    requires Outside(s, t) && p < |s.queues| && s.exclusive.None?
    ensures Walk([Frame(s, DShared(p)), Frame(s, DTest(p))], t)
  {
    PutShape(s, t, DShared(p));
    OneStep(Frame(s, DShared(p)), t, Frame(s, DTest(p)));
  }

  lemma DequeueTests(s: State, t: Tid, p: nat)
    requires Outside(s, t) && p < |s.queues|
    ensures Walk([Frame(s, DTest(p)), Frame(s, if s.queues[p] == [] && s.released then DRelease(p) else DRetest(p))], t)
  {
    PutShape(s, t, DTest(p));
    OneStep(Frame(s, DTest(p)), t, Frame(s, if s.queues[p] == [] && s.released then DRelease(p) else DRetest(p)));
  }

  lemma DequeueReopens(s: State, t: Tid, p: nat)
    requires Outside(s, t) && p < |s.queues|
    ensures Walk([Frame(s, DRelease(p)), Frame(s.(gates := s.gates[p := true]), Idle)], t)
  {
    PutShape(s, t, DRelease(p));
    OneStep(Frame(s, DRelease(p)), t, Frame(s.(gates := s.gates[p := true]), Idle));
  }

  lemma DequeueRetests(s: State, t: Tid, p: nat)
    requires Outside(s, t) && p < |s.queues|
    ensures Walk([Frame(s, DRetest(p)), Frame(s, if s.queues[p] == [] then DGate(p) else DQueue(p))], t)
  {
    PutShape(s, t, DRetest(p));
    OneStep(Frame(s, DRetest(p)), t, Frame(s, if s.queues[p] == [] then DGate(p) else DQueue(p)));
  }

  lemma DequeueLocks(s: State, t: Tid, p: nat)
    requires Outside(s, t) && p < |s.queues| && s.queueLocks[p].None?
    ensures Walk([Frame(s, DQueue(p)), Frame(s, DPop(p))], t)
  {
    PutShape(s, t, DQueue(p));
    OneStep(Frame(s, DQueue(p)), t, Frame(s, DPop(p)));
  }

  lemma DequeuePops(s: State, t: Tid, p: nat)
    requires Outside(s, t) && p < |s.queues| && s.queueLocks[p].None? && s.queues[p] != []
    ensures Walk([Frame(s, DPop(p)), Frame(s.(queues := s.queues[p := s.queues[p][1..]]), DPopGate(p, s.queues[p][0]))], t)
  {
    PutShape(s, t, DPop(p));
    OneStep(Frame(s, DPop(p)), t, Frame(s.(queues := s.queues[p := s.queues[p][1..]]), DPopGate(p, s.queues[p][0])));
  }

  lemma DequeueGoesOn(s: State, t: Tid, p: nat, n: Node)
    requires Outside(s, t) && p < |s.queues| && s.queueLocks[p].None?
    ensures Walk([Frame(s, DPopGate(p, n)), Frame(s.(gates := if s.queues[p] != [] then s.gates[p := true] else s.gates), DIndexLock(p, n))], t)
  {
    PutShape(s, t, DPopGate(p, n));
    OneStep(Frame(s, DPopGate(p, n)), t, Frame(s.(gates := if s.queues[p] != [] then s.gates[p := true] else s.gates), DIndexLock(p, n)));
  }

  lemma DequeueHandsOver(s: State, t: Tid, p: nat, n: Node)
    requires Outside(s, t) && p < |s.queues| && s.queueLocks[p].None? && s.indexLock.None?
    ensures Walk([Frame(s, DIndexLock(p, n)), Frame(s, DIndex(p, n))], t)
  {
    PutShape(s, t, DIndexLock(p, n));
    OneStep(Frame(s, DIndexLock(p, n)), t, Frame(s, DIndex(p, n)));
  }

  lemma DequeueLooksUp(s: State, t: Tid, p: nat, n: Node, i: nat)
    requires Outside(s, t) && p < |s.queues| && s.indexLock.None? && i == FirstAt(ListOf(s.index, n.id), p) < |ListOf(s.index, n.id)|
    ensures Walk([Frame(s, DIndex(p, n)), Frame(s.(index := Unindexed(s.index, n.id, i)), Idle)], t)
  {
    PutShape(s, t, DIndex(p, n));
    OneStep(Frame(s, DIndex(p, n)), t, Frame(s.(index := Unindexed(s.index, n.id, i)), Idle));
  }

  /** At a closed gate a dequeuer can do nothing. */
  lemma ClosedGateBlocks(s: State, t: Tid, p: nat)
    requires Inv(s) && t in s.pcs && s.pcs[t].Idle? && p < |s.queues| && !s.gates[p]
    ensures Possible(s, Begin(t, Dequeue(p))) && !Possible(Do(s, Begin(t, Dequeue(p))), Take(t))
  {
  }

  /** Past the gate with a release pending: null, the release consumed, the gate left closed. */
  lemma FlaggedDequeueAlone(s: State, t: Tid, p: nat) returns (states: seq<State>, actions: seq<Action>)
    requires Inv(s) && t in s.pcs && s.pcs[t].Idle? && p < |s.queues| && s.gates[p] && s.flags[p]
    ensures Plays(s, t, Dequeue(p), states, actions)
    ensures states[|actions|] == s.(gates := s.gates[p := false], flags := s.flags[p := false])
  {
    IdleIsOutside(s, t);
    var s1 := s.(gates := s.gates[p := false]);
    var s2 := s1.(flags := s.flags[p := false]);
    DequeuePasses(s, t, p);
    DequeueTakesFlag(s1, t, p);
    var a, b := [Frame(s, DGate(p)), Frame(s1, DFlag(p))], [Frame(s1, DFlag(p)), Frame(s2, Idle)];
    Glued(a, b, t);
    PlaysBack(s, t, Dequeue(p), a + b[1..]);
    states, actions := Played(s, t, a + b[1..]), Moves(t, Dequeue(p), |a + b[1..]|);
  }

  lemma GateOpens(s: State, t: Tid, p: nat, s1: State)
    requires Outside(s, t) && Outside(s1, t) && p < |s.queues| && s.exclusive.None? && s.gates[p] && !s.flags[p]
    requires s1 == s.(gates := s.gates[p := false])
    ensures Walk([Frame(s, DGate(p)), Frame(s1, DFlag(p)), Frame(s1, DShared(p))], t)
  {
    DequeuePasses(s, t, p);
    DequeueNoFlag(s1, t, p);
    var a, b := [Frame(s, DGate(p)), Frame(s1, DFlag(p))], [Frame(s1, DFlag(p)), Frame(s1, DShared(p))];
    Glued(a, b, t);
    assert a + b[1..] == [Frame(s, DGate(p)), Frame(s1, DFlag(p)), Frame(s1, DShared(p))];
  }

  lemma GateLooks(s: State, t: Tid, p: nat, next: Pc)
    requires Outside(s, t) && p < |s.queues| && s.exclusive.None?
    requires next == if s.queues[p] == [] && s.released then DRelease(p) else DRetest(p)
    ensures Walk([Frame(s, DShared(p)), Frame(s, DTest(p)), Frame(s, next)], t)
  {
    DequeueShares(s, t, p);
    DequeueTests(s, t, p);
    var a, b := [Frame(s, DShared(p)), Frame(s, DTest(p))], [Frame(s, DTest(p)), Frame(s, next)];
    Glued(a, b, t);
    assert a + b[1..] == [Frame(s, DShared(p)), Frame(s, DTest(p)), Frame(s, next)];
  }

  /** Past the gate and the flag, with the purge lock shared and the queue looked at. */
  lemma GateWalk(s: State, t: Tid, p: nat, s1: State) returns (fs: seq<Frame>)
    requires Outside(s, t) && Outside(s1, t) && p < |s.queues| && s.exclusive.None? && s.gates[p] && !s.flags[p]
    requires s1 == s.(gates := s.gates[p := false])
    ensures Walk(fs, t) && |fs| == 5 && fs[0] == Frame(s, DGate(p))
    ensures fs[4] == Frame(s1, if s.queues[p] == [] && s.released then DRelease(p) else DRetest(p))
    ensures forall i :: 0 <= i < 5 ==> !fs[i].pc.DPop?
  {
    var next := if s.queues[p] == [] && s.released then DRelease(p) else DRetest(p);
    GateOpens(s, t, p, s1);
    GateLooks(s1, t, p, next);
    var a := [Frame(s, DGate(p)), Frame(s1, DFlag(p)), Frame(s1, DShared(p))];
    var b := [Frame(s1, DShared(p)), Frame(s1, DTest(p)), Frame(s1, next)];
    Glued(a, b, t);
    fs := a + b[1..];
  }

  /** Past the gate of an empty queue that has been released: null, and everything as it was, so the
      next one returns too. */
  lemma ReleasedDequeueAlone(s: State, t: Tid, p: nat) returns (states: seq<State>, actions: seq<Action>)
    requires Inv(s) && t in s.pcs && s.pcs[t].Idle? && p < |s.queues| && s.exclusive.None?
    requires s.gates[p] && !s.flags[p] && s.queues[p] == [] && s.released
    ensures Plays(s, t, Dequeue(p), states, actions) && states[|actions|] == s
  {
    IdleIsOutside(s, t);
    var s1 := s.(gates := s.gates[p := false]);
    var fs := GateWalk(s, t, p, s1);
    DequeueReopens(s1, t, p);
    assert s1.(gates := s1.gates[p := true]) == s;
    Glued(fs, [Frame(s1, DRelease(p)), Frame(s, Idle)], t);
    fs := fs + [Frame(s1, DRelease(p)), Frame(s, Idle)][1..];
    PlaysBack(s, t, Dequeue(p), fs);
    states, actions := Played(s, t, fs), Moves(t, Dequeue(p), |fs|);
  }

  /** Past the gate of an empty queue that has not: back at the gate, closed behind it. */
  lemma EmptyDequeueAlone(s: State, t: Tid, p: nat) returns (states: seq<State>, actions: seq<Action>)
    requires Inv(s) && t in s.pcs && s.pcs[t].Idle? && p < |s.queues| && s.exclusive.None?
    requires s.gates[p] && !s.flags[p] && s.queues[p] == [] && !s.released
    ensures Plays(s, t, Dequeue(p), states, actions)
    ensures states[|actions|] == Move(s.(gates := s.gates[p := false]), t, DGate(p)) && !Possible(states[|actions|], Take(t))
  {
    IdleIsOutside(s, t);
    var s1 := s.(gates := s.gates[p := false]);
    var fs := GateWalk(s, t, p, s1);
    DequeueRetests(s1, t, p);
    Glued(fs, [Frame(s1, DRetest(p)), Frame(s1, DGate(p))], t);
    fs := fs + [Frame(s1, DRetest(p)), Frame(s1, DGate(p))][1..];
    WalkPlays(s, t, Dequeue(p), fs);
    states, actions := Played(s, t, fs), Moves(t, Dequeue(p), |fs|);
  }

  /** The queue popped and its gate reopened if jobs are left. */
  function Taken(s: State, p: nat): State
    requires p < |s.queues| && |s.gates| == |s.queues| && s.queues[p] != []
  {
    var rest := s.queues[p][1..];
    s.(queues := s.queues[p := rest], gates := s.gates[p := rest != []])
  }

  /** From the second look at the queue to the index. */
  lemma PopWalk(s: State, t: Tid, p: nat, s2: State, s3: State, n: Node) returns (fs: seq<Frame>)
    requires Outside(s, t) && Outside(s2, t) && p < |s.queues| && s.queueLocks[p].None? && s.indexLock.None?
    requires s.queues[p] != [] && n == s.queues[p][0] && s2 == s.(queues := s.queues[p := s.queues[p][1..]])
    requires s3 == s2.(gates := if s2.queues[p] != [] then s2.gates[p := true] else s2.gates)
    ensures Walk(fs, t) && |fs| == 6 && fs[0] == Frame(s, DRetest(p)) && fs[5] == Frame(s3, DIndex(p, n))
  {
    DequeueRetests(s, t, p);
    DequeueLocks(s, t, p);
    DequeuePops(s, t, p);
    DequeueGoesOn(s2, t, p, n);
    WalkEnds([Frame(s2, DPopGate(p, n)), Frame(s3, DIndexLock(p, n))], t);
    DequeueHandsOver(s3, t, p, n);
    var a, b := [Frame(s, DRetest(p)), Frame(s, DQueue(p))], [Frame(s, DQueue(p)), Frame(s, DPop(p))];
    Glued(a, b, t);
    var c := [Frame(s, DPop(p)), Frame(s2, DPopGate(p, n))];
    Glued(a + b[1..], c, t);
    var d := [Frame(s2, DPopGate(p, n)), Frame(s3, DIndexLock(p, n))];
    Glued(a + b[1..] + c[1..], d, t);
    var e := [Frame(s3, DIndexLock(p, n)), Frame(s3, DIndex(p, n))];
    Glued(a + b[1..] + c[1..] + d[1..], e, t);
    fs := a + b[1..] + c[1..] + d[1..] + e[1..];
  }

  lemma LookupWalk(s: State, t: Tid, p: nat) returns (fs: seq<Frame>)
    requires Outside(s, t) && p < |s.queues| && s.exclusive.None? && s.queueLocks[p].None? && s.indexLock.None?
    requires s.gates[p] && !s.flags[p] && s.queues[p] != []
    ensures Walk(fs, t) && |fs| == 10 && fs[0] == Frame(s, DGate(p)) && fs[9] == Frame(Taken(s, p), DIndex(p, s.queues[p][0]))
  {
    var s1, n := s.(gates := s.gates[p := false]), s.queues[p][0];
    var s2 := s1.(queues := s.queues[p := s.queues[p][1..]]);
    var a := GateWalk(s, t, p, s1);
    var s3 := Taken(s, p);
    assert s3 == s2.(gates := if s2.queues[p] != [] then s2.gates[p := true] else s2.gates);
    var b := PopWalk(s1, t, p, s2, s3, n);
    Glued(a, b, t);
    fs := a + b[1..];
  }

  /** Past the gate of a queue with jobs: the front job object, popped and taken out of the index. */
  lemma FullDequeueAlone(s: State, t: Tid, p: nat) returns (states: seq<State>, actions: seq<Action>)
    requires Inv(s) && t in s.pcs && s.pcs[t].Idle? && p < |s.queues|
    requires s.exclusive.None? && s.queueLocks[p].None? && s.indexLock.None?
    requires s.gates[p] && !s.flags[p] && s.queues[p] != []
    ensures Plays(s, t, Dequeue(p), states, actions) && |actions| == 11
    ensures Keyed(s) && t in states[10].pcs && states[10].pcs[t].DIndex? && Found(states[10], t) == Some(Abs(s)[p][0])
    ensures Keyed(states[11]) && Abs(states[11]) == PopFront(Abs(s), p)
    ensures states[11] == Taken(s, p).(index := states[11].index)
  {
    IdleIsOutside(s, t);
    InvKeyed(s);
    var fs := LookupWalk(s, t, p);
    var n, s3 := s.queues[p][0], Taken(s, p);
    WalkPlays(s, t, Dequeue(p), fs);
    WalkKeepsInv(s, t, Dequeue(p), fs);
    LookupFinds(Whole(fs[9], t), t, p, n);
    var i := FirstAt(ListOf(s3.index, n.id), p);
    WalkEnds(fs, t);
    DequeueLooksUp(s3, t, p, n, i);
    var last := [Frame(s3, DIndex(p, n)), Frame(s3.(index := Unindexed(s3.index, n.id, i)), Idle)];
    Glued(fs, last, t);
    var gs := fs + last[1..];
    PlaysBack(s, t, Dequeue(p), gs);
    states, actions := Played(s, t, gs), Moves(t, Dequeue(p), 11);
    assert states[10] == Whole(fs[9], t);
    ContentPop(s.queues, s.born, p);
  }
}
