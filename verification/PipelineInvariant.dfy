/** Copy conservation: in every state every copy is in exactly one place. */
module PipelineInvariant {
  import opened Jobs
  import opened PipelineSteps

  function JobOf(h: Hand): Option<Job> {
    match h
    case Free | Spreading(_, _, _, _) | Purging(_, _) => None
    case Checking(_, j) => Some(j)
    case Sending(_, j) => Some(j)
    case Reading(j) => Some(j)
    case Leaving(j, _) => Some(j)
    case Claimed(j) => Some(j)
    case Firing(_, j) => Some(j)
    case Passing(_, j) => Some(j)
  }

  /** How many hands hold `x`. */
  function InHands(hands: seq<Hand>, x: Job): nat {
    if hands == [] then 0 else One(JobOf(hands[0]) == Some(x)) + InHands(hands[1..], x)
  }

  ghost function InQueues(s: State, x: Job): nat
    requires |s.queues| == 3
  {
    JobsIn(s.queues[0])[x] + JobsIn(s.queues[1])[x] + JobsIn(s.queues[2])[x]
  }

  ghost function InPending(s: State, x: Job): nat
    requires |s.pending| == 3
  {
    s.pending[0][x] + s.pending[1][x] + s.pending[2][x]
  }

  /** In how many places the copy `x` is. */
  ghost function Places(s: State, x: Job): nat
    requires Shaped(s)
  {
    InQueues(s, x) + InPending(s, x) + InHands(s.hands, x) + s.dropped[x] + multiset(s.delivered)[x]
  }

  ghost predicate Conserved(s: State) {
    Shaped(s) && forall x :: Places(s, x) == One(Genuine(s, x))
  }

  // ----- counting under updates -----

  lemma {:induction false} InHandsSet(hands: seq<Hand>, t: nat, h: Hand, x: Job)
    requires t < |hands|
    ensures InHands(hands[t := h], x) + One(JobOf(hands[t]) == Some(x)) == InHands(hands, x) + One(JobOf(h) == Some(x))
  {
    if t == 0 {
      assert hands[t := h][1..] == hands[1..];
    } else {
      assert hands[t := h][1..] == hands[1..][t - 1 := h];
      InHandsSet(hands[1..], t - 1, h, x);
    }
  }

  lemma {:induction false} InHandsHas(hands: seq<Hand>, t: nat, x: Job)
    requires t < |hands| && JobOf(hands[t]) == Some(x)
    ensures InHands(hands, x) > 0
  {
    if t > 0 {
      InHandsHas(hands[1..], t - 1, x);
    }
  }

  lemma {:induction false} JobsInSet(a: Queues, p: nat, q: seq<Job>, x: Job)
    requires p < |a|
    ensures JobsIn(a[p := q])[x] + multiset(a[p])[x] == JobsIn(a)[x] + multiset(q)[x]
  {
    if p == 0 {
      assert a[p := q][1..] == a[1..];
    } else {
      assert a[p := q][1..] == a[1..][p - 1 := q];
      JobsInSet(a[1..], p - 1, q, x);
    }
  }

  lemma JobsInAppend(a: Queues, j: Job, x: Job)
    requires j.prio < |a|
    ensures JobsIn(Append(a, j))[x] == JobsIn(a)[x] + One(x == j)
  {
    JobsInSet(a, j.prio, a[j.prio] + [j], x);
  }

  lemma JobsInPop(a: Queues, p: nat, x: Job)
    requires p < |a| && a[p] != []
    ensures JobsIn(PopFront(a, p))[x] + One(x == a[p][0]) == JobsIn(a)[x]
  {
    JobsInSet(a, p, a[p][1..], x);
    assert a[p] == [a[p][0]] + a[p][1..];
  }

  lemma {:induction false} WithoutFewer(js: seq<Job>, id: JobId, x: Job)
    ensures multiset(Without(js, id))[x] == if x.id == id then 0 else multiset(js)[x]
  {
    if js != [] {
      WithoutFewer(js[1..], id, x);
      assert js == [js[0]] + js[1..];
    }
  }

  lemma {:induction false} JobsInFilter(a: Queues, id: JobId, x: Job)
    ensures JobsIn(Filter(a, id))[x] == if x.id == id then 0 else JobsIn(a)[x]
  {
    if a != [] {
      assert Filter(a, id)[1..] == Filter(a[1..], id);
      assert Filter(a, id)[0] == Without(a[0], id);
      WithoutFewer(a[0], id, x);
      JobsInFilter(a[1..], id, x);
    }
  }

  // ----- the initial state -----

  lemma {:induction false} JobsInEmpty(width: nat)
    ensures JobsIn(seq(width, _ => [])) == multiset{}
  {
    if width > 0 {
      var a: Queues := seq(width, _ => []);
      assert a[1..] == seq(width - 1, _ => []);
      JobsInEmpty(width - 1);
    }
  }

  lemma {:induction false} InHandsFree(n: nat, x: Job)
    ensures InHands(seq(n, _ => Free), x) == 0
  {
    if n > 0 {
      assert seq(n, _ => Free)[1..] == seq(n - 1, _ => Free);
      InHandsFree(n - 1, x);
    }
  }

  lemma ConservedInit(width: nat, threads: nat)
    ensures Conserved(Init(width, threads))
  {
    forall x
      ensures Places(Init(width, threads), x) == 0
    {
      JobsInEmpty(width);
      InHandsFree(threads, x);
    }
  }

  // ----- the shape -----

  /** Later than `s`, hands aside: copies, requests and purge marks only accumulate. */
  ghost predicate Extends(s: State, s': State) {
    && Shaped(s)
    && s'.width == s.width && |s'.queues| == 3 && |s'.pending| == 3
    && (forall k :: 0 <= k < 3 ==> |s'.queues[k]| == s.width)
    && s.made <= s'.made && |s'.table| == |s'.made|
    && (forall i :: 0 <= i < |s'.made| ==>
          s'.made[i].data == i && s'.made[i].prio < s.width && s'.table[i].request < |s'.purged|)
    && (forall i :: 0 <= i < |s.made| ==> s'.table[i].request == s.table[i].request)
    && |s.purged| <= |s'.purged|
    && (forall r :: 0 <= r < |s.purged| ==> s.purged[r] ==> s'.purged[r])
  }

  lemma HandOkKept(s: State, s': State, h: Hand)
    requires Extends(s, s') && HandOk(s, h)
    ensures HandOk(s', h)
  {
  }

  lemma StepExtends(s: State, h: Hand)
    requires Shaped(s) && HandOk(s, h)
    ensures Extends(s, StepEffect(s, h))
  {
  }

  lemma EffectExtends(s: State, a: Action)
    requires Possible(s, a)
    ensures Extends(s, Effect(s, a)) && Effect(s, a).hands == s.hands
  {
    if a.Step? {
      StepExtends(s, s.hands[a.t]);
    }
  }

  lemma TargetOk(s: State, a: Action)
    requires Possible(s, a) && Extends(s, Effect(s, a))
    ensures HandOk(Effect(s, a), Target(s, a))
  {
    if a.Step? {
      assert HandOk(s, s.hands[a.t]);
    }
  }

  lemma ShapedKept(s: State, a: Action)
    requires Possible(s, a)
    ensures Shaped(Do(s, a)) && Extends(s, Do(s, a))
  {
    EffectExtends(s, a);
    TargetOk(s, a);
    var e, h := Effect(s, a), Target(s, a);
    var s' := e.(hands := s.hands[a.t := h]);
    forall t | 0 <= t < |s'.hands|
      ensures HandOk(s', s'.hands[t])
    {
      if t != a.t {
        HandOkKept(s, e, s.hands[t]);
      }
    }
  }

  // ----- conservation -----

  /** Everywhere but in a hand. */
  ghost function Around(s: State, x: Job): nat
    requires |s.queues| == 3 && |s.pending| == 3
  {
    InQueues(s, x) + InPending(s, x) + s.dropped[x] + multiset(s.delivered)[x]
  }

  lemma QueueCount(s: State, k: nat, a: Queues, x: Job)
    requires |s.queues| == 3 && k < 3
    ensures InQueues(s.(queues := s.queues[k := a]), x) + JobsIn(s.queues[k])[x] == InQueues(s, x) + JobsIn(a)[x]
  {
  }

  lemma EnqueueCount(s: State, k: nat, j: Job, x: Job)
    requires |s.queues| == 3 && |s.pending| == 3 && k < 3 && j.prio < |s.queues[k]|
    ensures Around(EnqueueAt(s, k, j), x) == Around(s, x) + One(x == j)
  {
    QueueCount(s, k, Append(s.queues[k], j), x);
    JobsInAppend(s.queues[k], j, x);
  }

  lemma SameAround(s: State, e: State, x: Job)
    requires |s.queues| == 3 && |s.pending| == 3
    requires e.queues == s.queues && e.pending == s.pending && e.dropped == s.dropped && e.delivered == s.delivered
    ensures Around(e, x) == Around(s, x)
  {
  }

  lemma DropCount(s: State, j: Job, x: Job)
    requires |s.queues| == 3 && |s.pending| == 3
    ensures Around(Drop(s, j), x) == Around(s, x) + One(x == j)
  {
  }

  lemma DeliverCount(s: State, j: Job, x: Job)
    requires |s.queues| == 3 && |s.pending| == 3
    ensures Around(s.(delivered := s.delivered + [j]), x) == Around(s, x) + One(x == j)
  {
  }

  lemma RegisterCount(s: State, k: nat, j: Job, x: Job)
    requires |s.queues| == 3 && |s.pending| == 3 && k < 3
    ensures Around(Register(s, k, j), x) == Around(s, x) + One(x == j)
  {
  }

  lemma UnregisterCount(s: State, k: nat, j: Job, x: Job)
    requires |s.queues| == 3 && |s.pending| == 3 && k < 3 && j in s.pending[k]
    ensures Around(s.(pending := s.pending[k := s.pending[k] - multiset{j}]), x) + One(x == j) == Around(s, x)
  {
  }

  lemma ClearCount(s: State, k: nat, id: JobId, x: Job)
    requires |s.queues| == 3 && |s.pending| == 3 && k < 3
    ensures Around(Clear(s, k, id), x) == Around(s, x)
  {
    QueueCount(s, k, Filter(s.queues[k], id), x);
    JobsInFilter(s.queues[k], id, x);
  }

  /** A step of a thread moves the copy in its hand, makes a new one, or moves none. */
  ghost predicate Moved(s: State, e: State, from: Hand, to: Hand, x: Job)
    requires |s.queues| == 3 && |s.pending| == 3 && |e.queues| == 3 && |e.pending| == 3
  {
    Around(e, x) + One(JobOf(to) == Some(x)) + One(Genuine(s, x)) ==
    Around(s, x) + One(JobOf(from) == Some(x)) + One(Genuine(e, x))
  }

  lemma SpreadMoves(s: State, h: Hand, x: Job)
    requires Shaped(s) && HandOk(s, h) && h.Spreading?
    ensures Moved(s, StepEffect(s, h), h, StepTarget(s, h), x)
  {
    var j := NextCopy(s, h);
    var s1 := s.(table := s.table + [Copy(h.request, NoBody)], made := s.made + [j]);
    EnqueueCount(s1, CONNECT, j, x);
    assert Genuine(s1, x) <==> Genuine(s, x) || x == j;
  }

  lemma LeaveMoves(s: State, h: Hand, x: Job)
    requires Shaped(s) && HandOk(s, h) && h.Leaving?
    ensures Moved(s, StepEffect(s, h), h, StepTarget(s, h), x)
  {
    var j := h.job;
    if Full(BodyOf(s, j)) && !IsPurged(s, j) {
      SameAround(s, Claim(s, j), x);
    } else if Full(BodyOf(s, j)) || h.closed {
      DropCount(s, j, x);
    } else {
      RegisterCount(s, RESPONSE, j, x);
    }
  }

  lemma PassMoves(s: State, h: Hand, x: Job)
    requires Shaped(s) && HandOk(s, h) && (h.Passing? || h.Purging? || h.Sending?)
    ensures Moved(s, StepEffect(s, h), h, StepTarget(s, h), x)
  {
    match h
    case Passing(k, j) => EnqueueCount(s, if k == CONNECT then REQUEST else RESPONSE, j, x);
    case Purging(id, k) => ClearCount(s, k, id, x);
    case Sending(k, j) => RegisterCount(s, k, j, x);
  }

  lemma CheckMoves(s: State, h: Hand, x: Job)
    requires Shaped(s) && HandOk(s, h)
    requires h.Free? || h.Reading? || h.Checking? || h.Firing? || h.Claimed?
    ensures Moved(s, StepEffect(s, h), h, StepTarget(s, h), x)
  {
    if h.Claimed? {
      DeliverCount(s, h.job, x);
    } else if (h.Checking? || h.Firing?) && IsPurged(s, h.job) {
      DropCount(s, h.job, x);
    } else {
      assert StepEffect(s, h) == s;
    }
  }

  lemma DequeueMoves(s: State, a: Action, x: Job)
    requires Possible(s, a) && a.Dequeue?
    ensures Moved(s, Effect(s, a), s.hands[a.t], Target(s, a), x)
  {
    QueueCount(s, a.stage, PopFront(s.queues[a.stage], a.prio), x);
    JobsInPop(s.queues[a.stage], a.prio, x);
  }

  lemma FireMoves(s: State, a: Action, x: Job)
    requires Possible(s, a) && a.Fire?
    ensures Moved(s, Effect(s, a), s.hands[a.t], Target(s, a), x)
  {
    UnregisterCount(s, a.stage, a.job, x);
    var s1 := s.(pending := s.pending[a.stage := s.pending[a.stage] - multiset{a.job}]);
    DropCount(s1, a.job, x);
  }

  lemma OtherMoves(s: State, a: Action, x: Job)
    requires Possible(s, a) && (a.Dispatch? || a.Net? || a.Purge?)
    ensures Moved(s, Effect(s, a), s.hands[a.t], Target(s, a), x)
  {
    SameAround(s, Effect(s, a), x);
  }

  lemma StepMoves(s: State, h: Hand, x: Job)
    requires Shaped(s) && HandOk(s, h)
    ensures Moved(s, StepEffect(s, h), h, StepTarget(s, h), x)
  {
    if h.Spreading? {
      SpreadMoves(s, h, x);
    } else if h.Leaving? {
      LeaveMoves(s, h, x);
    } else if h.Passing? || h.Purging? || h.Sending? {
      PassMoves(s, h, x);
    } else {
      CheckMoves(s, h, x);
    }
  }

  lemma PlacesKept(s: State, a: Action, x: Job)
    requires Possible(s, a) && Shaped(Do(s, a))
    ensures Places(Do(s, a), x) + One(Genuine(s, x)) == Places(s, x) + One(Genuine(Do(s, a), x))
  {
    EffectExtends(s, a);
    InHandsSet(s.hands, a.t, Target(s, a), x);
    if a.Step? {
      StepMoves(s, s.hands[a.t], x);
    } else if a.Dequeue? {
      DequeueMoves(s, a, x);
    } else if a.Fire? {
      FireMoves(s, a, x);
    } else {
      OtherMoves(s, a, x);
    }
    assert Around(Do(s, a), x) == Around(Effect(s, a), x);
  }

  lemma ConservedKept(s: State, a: Action)
    requires Conserved(s) && Possible(s, a)
    ensures Conserved(Do(s, a))
  {
    ShapedKept(s, a);
    forall x
      ensures Places(Do(s, a), x) == One(Genuine(Do(s, a), x))
    {
      PlacesKept(s, a, x);
    }
  }

  /** So the tests a step makes on the jobs it meets never fail. */
  lemma EverywhereGenuine(s: State, j: Job)
    requires Conserved(s) && (InQueues(s, j) > 0 || InPending(s, j) > 0)
    ensures Genuine(s, j)
  {
    assert Places(s, j) == One(Genuine(s, j));
  }
}
