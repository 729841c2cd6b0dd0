/** Permit accounting and the throttle bound, for any number of threads. */
module ThrottlerInvariant {
  import opened Jobs
  import opened ThrottlerSteps

  /** The ways a thread can be counted at a priority. */
  datatype Kind =
    | Holding(prio: nat)   // took the permit, decision not yet begun
    | Unspent(prio: nat)   // of those, not (yet) turned into a job
    | Carrying(prio: nat)  // has a counted job it has not handed out yet
    | Uncounted(prio: nat) // has a job it has not counted yet

  predicate Is(k: Kind, pc: Pc) {
    match k
    case Holding(p) => pc == Fetch(p) || pc == Count(p) || (pc.Lock? && pc.role.Scheduled? && pc.role.prio == p)
    case Unspent(p) => pc == Fetch(p) || pc == Count(p) || pc == Lock(Scheduled(p, false))
    case Uncounted(p) => pc == Count(p)
    case Carrying(p) => (pc.Lock? || HoldsLock(pc)) && pc.role == Scheduled(p, true)
  }

  ghost function Where(pcs: map<Tid, Pc>, k: Kind): set<Tid> {
    set t | t in pcs && Is(k, pcs[t])
  }

  lemma WhereSplit(pcs: map<Tid, Pc>, t: Tid, k: Kind, others: set<Tid>)
    requires t in pcs && others == set u | u in pcs && u != t && Is(k, pcs[u])
    ensures |Where(pcs, k)| == |others| + One(Is(k, pcs[t]))
  {
    assert Where(pcs, k) == if Is(k, pcs[t]) then others + {t} else others;
  }

  lemma WhereMoved(pcs: map<Tid, Pc>, t: Tid, pc: Pc, k: Kind)
    requires t in pcs
    ensures |Where(pcs[t := pc], k)| == |Where(pcs, k)| - One(Is(k, pcs[t])) + One(Is(k, pc))
    ensures Is(k, pcs[t]) ==> |Where(pcs, k)| > 0
  {
    var others := set u | u in pcs && u != t && Is(k, pcs[u]);
    WhereSplit(pcs, t, k, others);
    WhereSplit(pcs[t := pc], t, k, others);
  }

  ghost predicate LockInv(s: State) {
    && (s.stateLock.Some? ==> s.stateLock.value in s.pcs)
    && forall t <- s.pcs :: HoldsLock(s.pcs[t]) <==> s.stateLock == Some(t)
  }

  /** Open permit plus holders is one while `waiting` is set, and zero otherwise. */
  ghost predicate Permits(s: State, p: nat)
    requires Shaped(s) && p < 2
  {
    One(s.open[p]) + |Where(s.pcs, Holding(p))| == One(s.waiting[p])
  }

  /** The counter counts the jobs that exist. */
  ghost predicate Counts(s: State, p: nat)
    requires Shaped(s) && p < 2
  {
    s.count[p] == s.handed[p] + |Where(s.pcs, Carrying(p))|
  }

  /** A permit issued and not yet turned into a job. */
  ghost function Reserved(s: State, p: nat): nat
    requires Shaped(s) && p < 2
  {
    One(s.open[p]) + |Where(s.pcs, Unspent(p))|
  }

  /** What the registers of a decision in progress still say about the counters. */
  ghost predicate Registers(s: State, pc: Pc)
    requires Shaped(s)
  {
    match pc
    case Size(_, c) => (!s.waiting[PRIMARY] ==> s.count[PRIMARY] <= c) && s.count[PRIMARY] + Reserved(s, PRIMARY) <= c + 1
    case Recount(_, high) => !s.waiting[PRIMARY] ==> s.count[PRIMARY] <= high
    case Primary(_, high, c) => !s.waiting[PRIMARY] ==> s.count[PRIMARY] <= c <= high
    case Secondary(_, high, tried) => high < s.targets[PRIMARY] && !tried ==> s.waiting[PRIMARY]
    case Recount2(_, high, tried) => high < s.targets[PRIMARY] && (!tried ==> s.waiting[PRIMARY])
    case Permit2(_, high, tried, c) =>
      && high < s.targets[PRIMARY] && (!tried ==> s.waiting[PRIMARY])
      && (!s.waiting[SECONDARY] ==> s.count[SECONDARY] <= c)
    case _ => true
  }

  ghost predicate Accounts(s: State) {
    && Shaped(s) && LockInv(s)
    && forall p :: 0 <= p < 2 ==> Permits(s, p) && Counts(s, p)
  }

  ghost predicate Inv(s: State) {
    Accounts(s) && forall t <- s.pcs :: Registers(s, s.pcs[t])
  }

  lemma WhereIdle(threads: set<Tid>, k: Kind)
    ensures Where(map t <- threads :: Idle, k) == {}
  {
  }

  lemma InvInit(targets: seq<int>, threads: set<Tid>)
    requires |targets| == 2
    ensures Inv(Init(targets, threads))
    ensures forall p :: 0 <= p < 2 ==> Reserved(Init(targets, threads), p) == One(targets[p] != 0)
  {
    forall p | 0 <= p < 2
      ensures Permits(Init(targets, threads), p) && Counts(Init(targets, threads), p)
      ensures Reserved(Init(targets, threads), p) == One(targets[p] != 0)
    {
      WhereIdle(threads, Holding(p));
      WhereIdle(threads, Unspent(p));
      WhereIdle(threads, Carrying(p));
    }
  }

  // ----- accounting -----

  lemma LockMoved(s: State, t: Tid, pc: Pc)
    requires LockInv(s) && t in s.pcs
    requires HoldsLock(pc) ==> s.stateLock.None? || s.stateLock == Some(t)
    ensures LockInv(Move(s, t, pc))
  {
  }

  lemma AccountsMove(s: State, e: State, t: Tid, pc: Pc, p: nat)
    requires Shaped(s) && Shaped(e) && p < 2 && t in s.pcs && e.pcs == s.pcs && PrioOk(pc)
    requires Permits(s, p) && Counts(s, p) && PermitsBalanced(s, e, t, pc, p) && JobsBalanced(s, e, t, pc, p)
    ensures Shaped(Move(e, t, pc)) && Permits(Move(e, t, pc), p) && Counts(Move(e, t, pc), p)
  {
    WhereMoved(s.pcs, t, pc, Holding(p));
    WhereMoved(s.pcs, t, pc, Carrying(p));
  }

  lemma HolderWaits(s: State, t: Tid, p: nat)
    requires Shaped(s) && p < 2 && t in s.pcs && Permits(s, p)
    ensures Is(Holding(p), s.pcs[t]) ==> s.waiting[p] && !s.open[p]
    ensures s.open[p] ==> s.waiting[p]
  {
    WhereMoved(s.pcs, t, s.pcs[t], Holding(p));
  }

  ghost predicate PermitsBalanced(s: State, e: State, t: Tid, pc: Pc, p: nat)
    requires Shaped(s) && Shaped(e) && t in s.pcs && p < 2
  {
    One(e.open[p]) + One(Is(Holding(p), pc)) + One(s.waiting[p]) ==
    One(s.open[p]) + One(Is(Holding(p), s.pcs[t])) + One(e.waiting[p])
  }

  ghost predicate JobsBalanced(s: State, e: State, t: Tid, pc: Pc, p: nat)
    requires Shaped(s) && Shaped(e) && t in s.pcs && p < 2
  {
    e.count[p] + s.handed[p] + One(Is(Carrying(p), s.pcs[t])) == s.count[p] + e.handed[p] + One(Is(Carrying(p), pc))
  }

  /** Each step of a thread moves permits without making or losing one ... */
  lemma TakePermits(s: State, t: Tid, p: nat)
    requires Shaped(s) && Possible(s, Take(t)) && p < 2 && Permits(s, p) && Shaped(Effect(s, t))
    ensures PermitsBalanced(s, Effect(s, t), t, Target(s, t), p)
  {
    HolderWaits(s, t, p);
  }

  /** ... and jobs too. */
  lemma TakeJobs(s: State, t: Tid, p: nat)
    requires Shaped(s) && Possible(s, Take(t)) && p < 2 && Shaped(Effect(s, t))
    ensures JobsBalanced(s, Effect(s, t), t, Target(s, t), p)
  {
  }

  lemma TakeShape(s: State, t: Tid)
    requires Shaped(s) && LockInv(s) && Possible(s, Take(t))
    ensures var e := Effect(s, t);
            Shaped(e) && e.pcs == s.pcs && e.stateLock == s.stateLock
    ensures PrioOk(Target(s, t))
    ensures HoldsLock(Target(s, t)) ==> s.stateLock.None? || s.stateLock == Some(t)
  {
  }

  lemma AccountsMoved(s: State, e: State, t: Tid, pc: Pc)
    requires Accounts(s) && Shaped(e) && t in s.pcs && e.pcs == s.pcs && e.stateLock == s.stateLock && PrioOk(pc)
    requires HoldsLock(pc) ==> s.stateLock.None? || s.stateLock == Some(t)
    requires PermitsBalanced(s, e, t, pc, 0) && PermitsBalanced(s, e, t, pc, 1)
    requires JobsBalanced(s, e, t, pc, 0) && JobsBalanced(s, e, t, pc, 1)
    ensures Accounts(Move(e, t, pc))
  {
    LockMoved(e, t, pc);
    forall p | 0 <= p < 2
      ensures Shaped(Move(e, t, pc)) && Permits(Move(e, t, pc), p) && Counts(Move(e, t, pc), p)
    {
      AccountsMove(s, e, t, pc, p);
    }
  }

  lemma AccountsTake(s: State, t: Tid)
    requires Accounts(s) && Possible(s, Take(t))
    ensures Accounts(Do(s, Take(t)))
  {
    TakeShape(s, t);
    assert Permits(s, 0) && Permits(s, 1);
    TakePermits(s, t, 0);
    TakePermits(s, t, 1);
    TakeJobs(s, t, 0);
    TakeJobs(s, t, 1);
    AccountsMoved(s, Effect(s, t), t, Target(s, t));
  }

  lemma AccountsSame(s: State, s': State)
    requires Accounts(s) && Shaped(s')
    requires s'.pcs == s.pcs && s'.stateLock == s.stateLock && s'.open == s.open && s'.waiting == s.waiting
    requires s'.count == s.count && s'.handed == s.handed
    ensures Accounts(s')
  {
    forall p | 0 <= p < 2
      ensures Permits(s', p) && Counts(s', p)
    {
      assert Permits(s, p) && Counts(s, p);
    }
  }

  lemma AccountsFinish(s: State, t: Tid, p: nat)
    requires Accounts(s) && Possible(s, Finish(t, p))
    ensures Accounts(Do(s, Finish(t, p)))
  {
    AccountsMoved(s, s.(count := s.count[p := s.count[p] - 1], handed := s.handed[p := s.handed[p] - 1]), t, Lock(Completed));
  }

  lemma AccountsOther(s: State, a: Action)
    requires Accounts(s) && Possible(s, a) && !a.Take?
    ensures Accounts(Do(s, a))
  {
    match a
    case Call(t, p) => AccountsMoved(s, s, t, Block(p));
    case Peek(t) => AccountsMoved(s, s, t, Tally(s.pcs[t].role, s.queued[PRIMARY]));
    case Null(t) => AccountsMoved(s, s, t, Lock(Scheduled(s.pcs[t].prio, false)));
    case Finish(t, p) => AccountsFinish(s, t, p);
    case SetThrottle(_, _) => AccountsSame(s, Do(s, a));
    case Queue(_, _) => AccountsSame(s, Do(s, a));
  }

  lemma AccountsKept(s: State, a: Action)
    requires Accounts(s) && Possible(s, a)
    ensures Accounts(Do(s, a))
  {
    if a.Take? {
      AccountsTake(s, a.t);
    } else {
      AccountsOther(s, a);
    }
  }

  // ----- the throttle bound, one step -----

  /** Jobs of a priority that run, plus the permit that may become one more. */
  ghost function Committed(s: State, p: nat): int
    requires Shaped(s) && p < 2
  {
    s.count[p] + Reserved(s, p)
  }

  /** The step issues the permit of `p`. */
  predicate Issues(s: State, a: Action, p: nat)
    requires Possible(s, a)
  {
    && a.Take?
    && match s.pcs[a.t]
       case Primary(_, _, c) => p == PRIMARY && c < s.targets[PRIMARY] && !s.waiting[PRIMARY]
       case Permit2(_, _, tried, c) => p == SECONDARY && c < s.targets[SECONDARY] && !s.waiting[SECONDARY] && !tried
       case _ => false
  }

  lemma CommittedTake(s: State, t: Tid, p: nat)
    requires Accounts(s) && Possible(s, Take(t)) && p < 2 && !Issues(s, Take(t), p)
    requires Shaped(Do(s, Take(t)))
    ensures Committed(Do(s, Take(t)), p) <= Committed(s, p)
  {
    WhereMoved(s.pcs, t, Target(s, t), Unspent(p));
  }

  lemma CommittedOther(s: State, a: Action, p: nat)
    requires Accounts(s) && Possible(s, a) && p < 2 && !a.Take?
    requires Shaped(Do(s, a))
    ensures Committed(Do(s, a), p) <= Committed(s, p)
  {
    if !a.SetThrottle? && !a.Queue? {
      WhereMoved(s.pcs, a.t, Do(s, a).pcs[a.t], Unspent(p));
    }
  }

  lemma UnspentHolds(pcs: map<Tid, Pc>, p: nat)
    ensures |Where(pcs, Unspent(p))| <= |Where(pcs, Holding(p))|
  {
    SubsetSize(Where(pcs, Unspent(p)), Where(pcs, Holding(p)));
  }

  lemma {:induction false} SubsetSize(a: set<Tid>, b: set<Tid>)
    requires a <= b
    ensures |a| <= |b|
  {
    if a != {} {
      var x :| x in a;
      SubsetSize(a - {x}, b - {x});
    }
  }

  /** A block is closed and nothing is reserved whenever its permit is issued, so a mutex is
      never unlocked while open, and the job count is still below the target. */
  lemma IssueIsSafe(s: State, a: Action, p: nat)
    requires Inv(s) && Possible(s, a) && p < 2 && Issues(s, a, p)
    ensures !s.open[p] && Where(s.pcs, Holding(p)) == {} && Reserved(s, p) == 0
    ensures Committed(s, p) < s.targets[p]
    ensures Shaped(Do(s, a)) && Committed(Do(s, a), p) == Committed(s, p) + 1
  {
    assert Permits(s, p);
    UnspentHolds(s.pcs, p);
    assert Registers(s, s.pcs[a.t]);
    AccountsKept(s, a);
    WhereMoved(s.pcs, a.t, Target(s, a.t), Unspent(p));
  }

  // ----- registers -----

  lemma RegistersFrame(s: State, s': State, pc: Pc)
    requires Shaped(s) && Shaped(s') && s'.waiting == s.waiting && s'.targets == s.targets
    requires forall p :: 0 <= p < 2 ==> (s'.count[p] <= s.count[p] || s.waiting[p]) && Committed(s', p) <= Committed(s, p)
    requires Registers(s, pc)
    ensures Registers(s', pc)
  {
    assert Committed(s', PRIMARY) <= Committed(s, PRIMARY);
    assert s'.count[PRIMARY] <= s.count[PRIMARY] || s.waiting[PRIMARY];
    assert s'.count[SECONDARY] <= s.count[SECONDARY] || s.waiting[SECONDARY];
  }

  /** While another thread decides, a step can only finish or count jobs. */
  lemma BesideDecision(s: State, a: Action, p: nat)
    requires Accounts(s) && Possible(s, a) && s.stateLock.Some? && p < 2
    requires a.SetThrottle? || a.Queue? || s.stateLock.value != a.t
    requires Accounts(Do(s, a))
    ensures Do(s, a).waiting == s.waiting && Do(s, a).targets == s.targets
    ensures Do(s, a).count[p] <= s.count[p] || s.waiting[p]
    ensures Committed(Do(s, a), p) <= Committed(s, p)
  {
    if a.Take? {
      assert Permits(s, p);
      HolderWaits(s, a.t, p);
      CommittedTake(s, a.t, p);
    } else {
      CommittedOther(s, a, p);
    }
  }

  lemma RegistersSelf(s: State, t: Tid)
    requires Inv(s) && Possible(s, Take(t)) && Accounts(Do(s, Take(t)))
    ensures Registers(Do(s, Take(t)), Target(s, t))
  {
    var s' := Do(s, Take(t));
    assert Registers(s, s.pcs[t]);
    if s.pcs[t].Load? {
      assert Permits(s, PRIMARY);
      UnspentHolds(s.pcs, PRIMARY);
      WhereMoved(s.pcs, t, Target(s, t), Unspent(PRIMARY));
    }
  }

  lemma InvKept(s: State, a: Action)
    requires Inv(s) && Possible(s, a)
    ensures Inv(Do(s, a))
  {
    AccountsKept(s, a);
    var s' := Do(s, a);
    forall u <- s'.pcs
      ensures Registers(s', s'.pcs[u])
    {
      if !a.SetThrottle? && !a.Queue? && u == a.t {
        if a.Take? {
          RegistersSelf(s, u);
        }
      } else if s.stateLock == Some(u) {
        assert Registers(s, s.pcs[u]);
        forall p | 0 <= p < 2
          ensures s'.waiting == s.waiting && s'.targets == s.targets
          ensures s'.count[p] <= s.count[p] || s.waiting[p]
          ensures Committed(s', p) <= Committed(s, p)
        {
          BesideDecision(s, a, p);
        }
        RegistersFrame(s, s', s.pcs[u]);
      }
    }
  }
}
