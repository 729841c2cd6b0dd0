/** The duplicate pipeline: requests become copies that share one purge state and move through
    the Connect, Request and Response stages under an adversarial network. */
module PipelineSteps {
  import opened Jobs

  const CONNECT: nat := 0
  const REQUEST: nat := 1
  const RESPONSE: nat := 2

  /** The object a copy is receiving.  `stream` is what its server will ever send after the header,
      `pos` how much of that has been read; `buffer` is as long as the header announced, `start` the
      announced index and `index` where the next byte goes. */
  datatype Body = NoBody | Body(stream: seq<int>, pos: nat, start: nat, buffer: seq<int>, index: nat)

  /** What a job's payload number stands for: its request and its buffer. */
  datatype Copy = Copy(request: nat, body: Body)

  predicate Full(b: Body) {
    b.Body? && b.index == |b.buffer|
  }

  /** What a worker or reactor thread has in its hands. */
  datatype Hand =
    | Free
    | Spreading(request: nat, id: JobId, prio: nat, last: nat)  // DuplicateAndEnqueue, next copy
    | Checking(stage: nat, job: Job)   // dequeued; about to test the purge state
    | Sending(stage: nat, job: Job)    // not purged; about to register a callback
    | Reading(job: Job)                // not purged; in the read loop of the Response stage
    | Leaving(job: Job, closed: bool)  // out of the read loop
    | Claimed(job: Job)                // SetPurged returned true; about to call done
    | Purging(id: JobId, stage: nat)   // purging the stages from this one on
    | Firing(stage: nat, job: Job)     // callback without error; about to test the purge state
    | Passing(stage: nat, job: Job)    // not purged; about to dispatch to the next stage

  /** `made` lists every copy ever enqueued by a dispatch, `delivered` those whose done callback
      has run, `purged` the purge state of each request. */
  datatype State = State(
    width: nat,
    table: seq<Copy>,
    made: seq<Job>,
    purged: seq<bool>,
    queues: seq<Queues>,
    pending: seq<multiset<Job>>,
    hands: seq<Hand>,
    dropped: multiset<Job>,
    delivered: seq<Job>)

  /** What the network does to a thread in its read loop: bring the header, offer some bytes, or
      let a read fail, end or block. */
  datatype Event = Header(start: nat, size: nat, stream: seq<int>) | Offer(count: nat) | Stop(closed: bool)

  datatype Action =
    | Dispatch(t: nat, id: JobId, base: nat, last: nat)
    | Dequeue(t: nat, stage: nat, prio: nat)
    | Fire(t: nat, stage: nat, job: Job, ok: bool)
    | Net(t: nat, event: Event)
    | Purge(t: nat, id: JobId)
    | Step(t: nat)

  /** The stage a thread works for is one of the three, and its job was made by a dispatch. */
  predicate HandOk(s: State, h: Hand) {
    match h
    case Free => true
    case Spreading(r, _, p, last) => r < |s.purged| && p <= last < s.width
    case Checking(k, j) => k < 3 && Genuine(s, j)
    case Sending(k, j) => k < 2 && Genuine(s, j)
    case Reading(j) => Genuine(s, j)
    case Leaving(j, _) => Genuine(s, j)
    case Claimed(j) => Genuine(s, j)
    case Purging(_, k) => k < 3
    case Firing(k, j) => k < 3 && Genuine(s, j)
    case Passing(k, j) => k < 3 && Genuine(s, j)
  }

  predicate Genuine(s: State, j: Job) {
    j.data < |s.made| && s.made[j.data] == j
  }

  predicate Shaped(s: State) {
    && |s.queues| == 3 && |s.pending| == 3
    && (forall k :: 0 <= k < 3 ==> |s.queues[k]| == s.width)
    && |s.table| == |s.made|
    && (forall i :: 0 <= i < |s.made| ==> s.made[i].data == i && s.made[i].prio < s.width && s.table[i].request < |s.purged|)
    && (forall t :: 0 <= t < |s.hands| ==> HandOk(s, s.hands[t]))
  }

  function Init(width: nat, threads: nat): State {
    State(width, [], [], [], [seq(width, _ => []), seq(width, _ => []), seq(width, _ => [])],
          [multiset{}, multiset{}, multiset{}], seq(threads, _ => Free), multiset{}, [])
  }

  predicate IsPurged(s: State, j: Job)
    requires Shaped(s) && Genuine(s, j)
  {
    s.purged[s.table[j.data].request]
  }

  function BodyOf(s: State, j: Job): Body
    requires Shaped(s) && Genuine(s, j)
  {
    s.table[j.data].body
  }

  /** What the network may do next to a copy with this body: the header comes first, with a start
      index within the size. */
  predicate Allowed(b: Body, e: Event) {
    match e
    case Header(start, size, _) => b.NoBody? && start <= size && size > 0
    case Offer(_) => b.Body?
    case Stop(_) => b.Body?
  }

  /** What a read into the rest of the buffer gets of an offer. */
  function Got(b: Body, count: nat): seq<int>
    requires b.Body?
  {
    var room := if b.index <= |b.buffer| then |b.buffer| - b.index else 0;
    var left := if b.pos <= |b.stream| then b.stream[b.pos..] else [];
    var k := if count <= room then count else room;
    if k <= |left| then left[..k] else left
  }

  /** Writing into the buffer in place. */
  function Put(buffer: seq<int>, at: nat, bytes: seq<int>): seq<int> {
    seq(|buffer|, i requires 0 <= i < |buffer| => if at <= i < at + |bytes| then bytes[i - at] else buffer[i])
  }

  function Filled(b: Body, bytes: seq<int>): Body
    requires b.Body?
  {
    b.(buffer := Put(b.buffer, b.index, bytes), index := b.index + |bytes|, pos := b.pos + |bytes|)
  }

  predicate Possible(s: State, a: Action) {
    && Shaped(s) && a.t < |s.hands|
    && match a
       case Dispatch(t, _, base, last) => s.hands[t].Free? && base <= last < s.width
       case Dequeue(t, k, p) => s.hands[t].Free? && k < 3 && p < s.width && s.queues[k][p] != [] && Genuine(s, s.queues[k][p][0])
       case Fire(t, k, j, _) => s.hands[t].Free? && k < 3 && j in s.pending[k] && Genuine(s, j)
       case Net(t, e) => s.hands[t].Reading? && Allowed(BodyOf(s, s.hands[t].job), e)
       case Purge(t, _) => s.hands[t].Free?
       case Step(t) => !s.hands[t].Free? && !s.hands[t].Reading?
  }

  // ----- the steps -----

  function Drop(s: State, j: Job): State {
    s.(dropped := s.dropped + multiset{j})
  }

  function Register(s: State, k: nat, j: Job): State
    requires k < |s.pending|
  {
    s.(pending := s.pending[k := s.pending[k] + multiset{j}])
  }

  function EnqueueAt(s: State, k: nat, j: Job): State
    requires k < |s.queues| && j.prio < |s.queues[k]|
  {
    s.(queues := s.queues[k := Append(s.queues[k], j)])
  }

  function Claim(s: State, j: Job): State
    requires j.data < |s.table| && s.table[j.data].request < |s.purged|
  {
    s.(purged := s.purged[s.table[j.data].request := true])
  }

  function Fill(s: State, j: Job, b: Body): State
    requires j.data < |s.table|
  {
    s.(table := s.table[j.data := s.table[j.data].(body := b)])
  }

  /** All the jobs of a stage, whatever their priority. */
  ghost function JobsIn(a: Queues): multiset<Job> {
    if a == [] then multiset{} else multiset(a[0]) + JobsIn(a[1..])
  }

  /** The MultiQueue purge of one stage. */
  ghost function Clear(s: State, k: nat, id: JobId): State
    requires k < |s.queues|
  {
    var kept := Filter(s.queues[k], id);
    s.(queues := s.queues[k := kept], dropped := s.dropped + (JobsIn(s.queues[k]) - JobsIn(kept)))
  }

  /** The next copy a dispatch makes. */
  function NextCopy(s: State, h: Hand): Job
    requires h.Spreading?
  {
    Job(h.id, h.prio, |s.made|)
  }

  /** What the step of a thread does to everything but its own hand. */
  ghost function StepEffect(s: State, h: Hand): State
    requires Shaped(s) && HandOk(s, h)
  {
    match h
    case Free | Reading(_) => s
    case Spreading(r, _, _, _) =>
      var j := NextCopy(s, h);
      EnqueueAt(s.(table := s.table + [Copy(r, NoBody)], made := s.made + [j]), CONNECT, j)
    case Checking(_, j) => if IsPurged(s, j) then Drop(s, j) else s
    case Sending(k, j) => Register(s, k, j)
    case Leaving(j, closed) =>
      if Full(BodyOf(s, j)) then if IsPurged(s, j) then Drop(s, j) else Claim(s, j)
      else if closed then Drop(s, j)
      else Register(s, RESPONSE, j)
    case Claimed(j) => s.(delivered := s.delivered + [j])
    case Purging(id, k) => Clear(s, k, id)
    case Firing(_, j) => if IsPurged(s, j) then Drop(s, j) else s
    case Passing(k, j) => EnqueueAt(s, if k == CONNECT then REQUEST else RESPONSE, j)
  }

  /** And what it leaves in that hand. */
  function StepTarget(s: State, h: Hand): Hand
    requires Shaped(s) && HandOk(s, h)
  {
    match h
    case Free | Reading(_) => h
    case Spreading(_, _, p, last) => if p < last then h.(prio := p + 1) else Free
    case Checking(k, j) =>
      if IsPurged(s, j) then Free else if k == RESPONSE then Reading(j) else Sending(k, j)
    case Sending(_, _) => Free
    case Leaving(j, _) => if Full(BodyOf(s, j)) && !IsPurged(s, j) then Claimed(j) else Free
    case Claimed(j) => Purging(j.id, CONNECT)
    case Purging(id, k) => if k < 2 then Purging(id, k + 1) else Free
    case Firing(k, j) => if IsPurged(s, j) then Free else Passing(k, j)
    case Passing(_, _) => Free
  }

  ghost function Effect(s: State, a: Action): State
    requires Possible(s, a)
  {
    match a
    case Dispatch(_, _, _, _) => s.(purged := s.purged + [false])
    case Dequeue(_, k, p) => s.(queues := s.queues[k := PopFront(s.queues[k], p)])
    case Fire(_, k, j, ok) =>
      var s1 := s.(pending := s.pending[k := s.pending[k] - multiset{j}]);
      if ok then s1 else Drop(s1, j)
    case Net(t, Header(start, size, stream)) =>
      Fill(s, s.hands[t].job, Body(stream, 0, start, seq(size, _ => 0), start))
    case Net(t, Offer(count)) =>
      var b := BodyOf(s, s.hands[t].job);
      Fill(s, s.hands[t].job, Filled(b, Got(b, count)))
    case Net(_, Stop(_)) => s
    case Purge(_, _) => s
    case Step(t) => StepEffect(s, s.hands[t])
  }

  function Target(s: State, a: Action): Hand
    requires Possible(s, a)
  {
    match a
    case Dispatch(_, id, base, last) => Spreading(|s.purged|, id, base, last)
    case Dequeue(_, k, p) => Checking(k, s.queues[k][p][0])
    case Fire(_, k, j, ok) => if ok then Firing(k, j) else Free
    case Net(t, Stop(closed)) => Leaving(s.hands[t].job, closed || Full(BodyOf(s, s.hands[t].job)))
    case Net(t, Offer(count)) =>
      // A read of no bytes: the buffer is full, which reads as closed, or nothing has come yet.
      if Got(BodyOf(s, s.hands[t].job), count) == [] then Leaving(s.hands[t].job, Full(BodyOf(s, s.hands[t].job)))
      else s.hands[t]
    case Net(t, _) => s.hands[t]
    case Purge(_, id) => Purging(id, CONNECT)
    case Step(t) => StepTarget(s, s.hands[t])
  }

  ghost function Do(s: State, a: Action): State
    requires Possible(s, a)
  {
    Effect(s, a).(hands := s.hands[a.t := Target(s, a)])
  }

  ghost predicate Run(states: seq<State>, actions: seq<Action>) {
    && |states| == |actions| + 1
    && forall i :: 0 <= i < |actions| ==> Possible(states[i], actions[i]) && states[i + 1] == Do(states[i], actions[i])
  }
}
