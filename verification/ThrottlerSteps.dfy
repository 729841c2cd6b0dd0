/** The throttler as a permit protocol.  Taking a permit, fetching a job, counting it,
    finishing it, and every single read inside a decision are separate steps, because the
    counters and the queue change while a decision holds the state lock.  The primary load is the
    sum of two calls whose order the language leaves open, so a decision may make either first. */
module ThrottlerSteps {
  import opened Jobs
  import opened Runs

  const PRIMARY: nat := 0
  const SECONDARY: nat := 1

  /** Who runs a decision: a dequeuer of priority `prio` that got a job or not, or a thread that
      has just finished a job. */
  datatype Role = Scheduled(prio: nat, got: bool) | Completed

  datatype Pc =
    | Idle
    | Block(prio: nat)      // lock the throttle block: take the permit
    | Fetch(prio: nat)      // inside MultiQueue::Dequeue
    | Count(prio: nat)      // has a job, about to increment the job count
    // A decision; everything after Lock holds the state lock.
    | Lock(role: Role)
    | Load(role: Role)                           // read the primary count, or the queue size first
    | Size(role: Role, c: int)                   // read the primary queue size
    | Tally(role: Role, q: nat)                  // the other order: read the primary count
    | Recount(role: Role, high: int)             // read the primary count again
    | Primary(role: Role, high: int, c: int)     // issue a primary permit or not
    | Secondary(role: Role, high: int, tried: bool)   // compare the primary load with its target
    | Recount2(role: Role, high: int, tried: bool)    // read the secondary count
    | Permit2(role: Role, high: int, tried: bool, c: int)  // issue a secondary permit or not
    | Unlock(role: Role)

  /** `open[p]` is an unlocked throttle block; `handed[p]` counts the jobs given to callers and
      not yet destroyed; `queued[p]` is the size of the MultiQueue at `p`. */
  datatype State = State(
    targets: seq<int>,
    open: seq<bool>,
    waiting: seq<bool>,
    count: seq<int>,
    handed: seq<nat>,
    queued: seq<nat>,
    stateLock: Option<Tid>,
    pcs: map<Tid, Pc>)

  predicate PrioOk(pc: Pc) {
    match pc
    case Block(p) => p < 2
    case Fetch(p) => p < 2
    case Count(p) => p < 2
    case Lock(r) => RoleOk(r)
    case Load(r) => RoleOk(r)
    case Size(r, _) => RoleOk(r)
    case Tally(r, _) => RoleOk(r)
    case Recount(r, _) => RoleOk(r)
    case Primary(r, _, _) => RoleOk(r)
    case Secondary(r, _, _) => RoleOk(r)
    case Recount2(r, _, _) => RoleOk(r)
    case Permit2(r, _, _, _) => RoleOk(r)
    case Unlock(r) => RoleOk(r)
    case Idle => true
  }

  predicate RoleOk(r: Role) {
    r.Scheduled? ==> r.prio < 2
  }

  predicate Shaped(s: State) {
    && |s.targets| == 2 && |s.open| == 2 && |s.waiting| == 2
    && |s.count| == 2 && |s.handed| == 2 && |s.queued| == 2
    && forall t <- s.pcs :: PrioOk(s.pcs[t])
  }

  predicate HoldsLock(pc: Pc) {
    !pc.Idle? && !pc.Block? && !pc.Fetch? && !pc.Count? && !pc.Lock?
  }

  /** The constructor: a priority with target 0 starts blocked, any other with its permit out. */
  function Init(targets: seq<int>, threads: set<Tid>): State
    requires |targets| == 2
  {
    var on := [targets[0] != 0, targets[1] != 0];
    State(targets, on, on, [0, 0], [0, 0], [0, 0], None, map t <- threads :: Idle)
  }

  datatype Action =
    | Call(t: Tid, prio: nat)        // Throttler::Dequeue
    | Take(t: Tid)                   // the next step of a thread
    | Peek(t: Tid)                   // the next step of a decision that reads the queue size first
    | Null(t: Tid)                   // MultiQueue::Dequeue returns null
    | Finish(t: Tid, prio: nat)      // a job handed out is destroyed
    | SetThrottle(prio: nat, threshold: int)
    | Queue(prio: nat, size: nat)    // jobs arrive at or are purged from the MultiQueue

  predicate Possible(s: State, a: Action) {
    && Shaped(s)
    && match a
       case Call(t, p) => t in s.pcs && s.pcs[t].Idle? && p < 2
       case Take(t) =>
         && t in s.pcs
         && (match s.pcs[t]
             case Idle => false
             case Block(p) => s.open[p]
             case Fetch(p) => s.queued[p] > 0
             case Lock(_) => s.stateLock.None?
             case _ => true)
       case Peek(t) => t in s.pcs && s.pcs[t].Load?
       case Null(t) => t in s.pcs && s.pcs[t].Fetch?
       case Finish(t, p) => t in s.pcs && s.pcs[t].Idle? && p < 2 && s.handed[p] > 0
       case SetThrottle(p, n) => p < 2 && s.stateLock.None? && !(s.targets[p := n] == [0, 0])
       case Queue(p, n) => p < 2
  }

  function Issue(s: State, p: nat): State
    requires p < |s.open| && p < |s.waiting|
  {
    s.(open := s.open[p := true], waiting := s.waiting[p := true])
  }

  function Effect(s: State, t: Tid): State
    requires Shaped(s) && t in s.pcs
  {
    match s.pcs[t]
    case Block(p) => s.(open := s.open[p := false])
    case Fetch(p) => s.(queued := s.queued[p := if s.queued[p] > 0 then s.queued[p] - 1 else 0])
    case Count(p) => s.(count := s.count[p := s.count[p] + 1])
    case Lock(r) => s.(waiting := if r.Scheduled? then s.waiting[r.prio := false] else s.waiting)
    case Primary(_, _, c) => if c < s.targets[PRIMARY] && !s.waiting[PRIMARY] then Issue(s, PRIMARY) else s
    case Permit2(_, _, tried, c) =>
      if c < s.targets[SECONDARY] && !s.waiting[SECONDARY] && !tried then Issue(s, SECONDARY) else s
    case Unlock(r) =>
      if r.Scheduled? && r.got then s.(handed := s.handed[r.prio := s.handed[r.prio] + 1]) else s
    case _ => s
  }

  /** When the primary load reaches its target, a scheduling decision also calls ReleaseOne on
      the secondary queue, which at most makes a fetch return null. */
  function Target(s: State, t: Tid): Pc
    requires Shaped(s) && t in s.pcs
  {
    match s.pcs[t]
    case Idle => Idle
    case Block(p) => Fetch(p)
    case Fetch(p) => Count(p)
    case Count(p) => Lock(Scheduled(p, true))
    case Lock(r) => Load(r)
    case Load(r) => Size(r, s.count[PRIMARY])
    case Size(r, c) => Recount(r, c + s.queued[PRIMARY])
    case Tally(r, q) => Recount(r, s.count[PRIMARY] + q)
    case Recount(r, high) => Primary(r, high, s.count[PRIMARY])
    case Primary(r, high, c) => Secondary(r, high, c < s.targets[PRIMARY] && !s.waiting[PRIMARY])
    case Secondary(r, high, tried) => if high >= s.targets[PRIMARY] then Unlock(r) else Recount2(r, high, tried)
    case Recount2(r, high, tried) => Permit2(r, high, tried, s.count[SECONDARY])
    case Permit2(r, _, _, _) => Unlock(r)
    case Unlock(_) => Idle
  }

  function Move(s: State, t: Tid, pc: Pc): State {
    s.(pcs := s.pcs[t := pc], stateLock := Owner(s.stateLock, t, HoldsLock(pc)))
  }

  function Do(s: State, a: Action): State
    requires Possible(s, a)
  {
    match a
    case Call(t, p) => Move(s, t, Block(p))
    case Take(t) => Move(Effect(s, t), t, Target(s, t))
    case Peek(t) => Move(s, t, Tally(s.pcs[t].role, s.queued[PRIMARY]))
    case Null(t) => Move(s, t, Lock(Scheduled(s.pcs[t].prio, false)))
    case Finish(t, p) =>
      Move(s.(count := s.count[p := s.count[p] - 1], handed := s.handed[p := s.handed[p] - 1]), t, Lock(Completed))
    case SetThrottle(p, n) => s.(targets := s.targets[p := n])
    case Queue(p, n) => s.(queued := s.queued[p := n])
  }

  ghost predicate Run(states: seq<State>, actions: seq<Action>) {
    && |states| == |actions| + 1
    && forall i :: 0 <= i < |actions| ==> Possible(states[i], actions[i]) && states[i + 1] == Do(states[i], actions[i])
  }

  ghost predicate Goes(s: State, a: Action, s': State) {
    Possible(s, a) && Do(s, a) == s'
  }

  lemma LinkedIsRun(states: seq<State>, actions: seq<Action>)
    requires Linked(Goes, states, actions)
    ensures Run(states, actions)
  {
    forall i | 0 <= i < |actions|
      ensures Possible(states[i], actions[i]) && states[i + 1] == Do(states[i], actions[i])
    {
      assert Goes(states[i], actions[i], states[i + 1]);
    }
  }
}
