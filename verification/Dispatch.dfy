/** Dispatching a request as several copies, and taking them all back. */
module Dispatching {
  import opened Jobs
  import opened MultiQueues

  const UINT := 0x1_0000_0000

  /** The lowest priority (highest number) a request may use, in 32-bit unsigned arithmetic. */
  function Clamp(base: nat, requested: nat, maxPrio: nat): nat {
    var sum := (base + requested) % UINT;
    if sum > maxPrio then maxPrio else sum
  }

  /** It is the smaller of the two exactly when the sum does not wrap; otherwise it lies below
      the base, and no copy is made. */
  lemma ClampIsMinimum(base: nat, requested: nat, maxPrio: nat)
    requires base <= maxPrio < UINT && requested < UINT
    ensures var least := if base + requested <= maxPrio then base + requested else maxPrio;
            && (Clamp(base, requested, maxPrio) == least <==> base + requested < UINT)
            && (Clamp(base, requested, maxPrio) < base <==> base + requested >= UINT)
  {
    if base + requested < UINT {
      assert (base + requested) % UINT == base + requested;
    } else {
      assert (base + requested) % UINT == base + requested - UINT;
    }
  }

  /** The source's check of the unsigned difference it passes on: there is an address for it. */
  predicate AddressCheck(base: nat, requested: nat, maxPrio: nat, addresses: nat) {
    (Clamp(base, requested, maxPrio) - base) % UINT < addresses
  }

  /** With an address per priority the check fails exactly for the requests that wrap and ask for
      more copies than there are priorities. */
  lemma AddressCheckExactly(base: nat, requested: nat, maxPrio: nat)
    requires base <= maxPrio < UINT && requested < UINT
    ensures AddressCheck(base, requested, maxPrio, maxPrio + 1) <==> base + requested < UINT || requested <= maxPrio
  {
    ClampIsMinimum(base, requested, maxPrio);
    if base + requested >= UINT {
      assert Clamp(base, requested, maxPrio) == base + requested - UINT;
      assert (requested - UINT) % UINT == requested;
    }
  }

  // ----- the copies on values -----

  /** The queues with one copy of `id` at each priority from `base` up to, not including, `end`;
      the copies go to the addresses in turn. */
  function WithCopies(a: Queues, id: JobId, base: nat, end: nat, addresses: seq<nat>): (r: Queues)
    requires |a| <= |addresses|
    ensures |r| == |a|
    ensures forall p :: 0 <= p < |a| ==> r[p] == a[p] + CopyAt(id, base, end, addresses, p)
  {
    seq(|a|, p requires 0 <= p < |a| => a[p] + CopyAt(id, base, end, addresses, p))
  }

  function CopyAt(id: JobId, base: nat, end: nat, addresses: seq<nat>, p: nat): seq<Job>
    requires p < |addresses|
  {
    if base <= p < end then [Job(id, p, addresses[p - base])] else []
  }

  /** No job of `js` carries `id`. */
  predicate Absent(js: seq<Job>, id: JobId) {
    forall j <- js :: j.id != id
  }

  lemma {:induction false} WithoutAbsent(js: seq<Job>, id: JobId, more: seq<Job>)
    requires Absent(js, id) && forall j <- more :: j.id == id
    ensures Without(js + more, id) == js && Matching(js + more, id) == |more|
  {
    if js == [] {
      assert js + more == more;
      WithoutAll(more, id);
    } else {
      assert (js + more)[1..] == js[1..] + more;
      WithoutAbsent(js[1..], id, more);
    }
  }

  lemma {:induction false} WithoutAll(js: seq<Job>, id: JobId)
    requires forall j <- js :: j.id == id
    ensures Without(js, id) == [] && Matching(js, id) == |js|
  {
    if js != [] {
      WithoutAll(js[1..], id);
    }
  }

  lemma {:induction false} CountCopies(all: Queues, id: JobId, base: nat, end: nat, n: nat)
    requires n <= |all| && base <= end
    requires forall p :: 0 <= p < |all| ==> Matching(all[p], id) == if base <= p < end then 1 else 0
    ensures Occurrences(all, id, n) == if n <= base then 0 else if n <= end then n - base else end - base
  {
    if n > 0 {
      CountCopies(all, id, base, end, n - 1);
      assert Matching(all[n - 1], id) == if base <= n - 1 < end then 1 else 0;
    }
  }

  /** Outright: one more job at the back of each priority from `base` on, and the k-th of them goes to
      the k-th address, so no address is skipped and none is used twice. */
  lemma CopiesUseAddressesInOrder(a: Queues, id: JobId, base: nat, end: nat, addresses: seq<nat>)
    requires base <= end <= |a| <= |addresses|
    ensures var all := WithCopies(a, id, base, end, addresses);
            && |all| == |a| && (forall p :: 0 <= p < base || end <= p < |a| ==> all[p] == a[p])
            && forall p :: base <= p < end ==> all[p] == a[p] + [Job(id, p, addresses[p - base])]
  {
    var all := WithCopies(a, id, base, end, addresses);
    forall p | 0 <= p < |a|
      ensures all[p] == a[p] + if base <= p < end then [Job(id, p, addresses[p - base])] else []
    {
      assert all[p] == a[p] + CopyAt(id, base, end, addresses, p);
    }
  }

  /** Purging the copies of an id that was not queued before counts them all and restores every
      queue. */
  lemma CopiesPurgeAway(a: Queues, id: JobId, base: nat, end: nat, addresses: seq<nat>)
    requires base <= end <= |a| <= |addresses| && forall q <- a :: Absent(q, id)
    ensures Filter(WithCopies(a, id, base, end, addresses), id) == a
    ensures Occurrences(WithCopies(a, id, base, end, addresses), id, |a|) == end - base
  {
    var all := WithCopies(a, id, base, end, addresses);
    forall p | 0 <= p < |a|
      ensures Without(all[p], id) == a[p] && Matching(all[p], id) == if base <= p < end then 1 else 0
    {
      WithoutAbsent(a[p], id, CopyAt(id, base, end, addresses, p));
    }
    CountCopies(all, id, base, end, |a|);
  }

  // ----- the dispatcher -----

  /** The source ends the process when a check fails. */
  datatype Outcome = Done | Aborted

  /** One copy per priority from `base` to `maxPrio`, each with the next address.  The source checks
      that there are more addresses than duplicates, and one per priority. */
  method DuplicateAndEnqueue(q: MultiQueue, id: JobId, base: nat, maxPrio: nat, duplication: nat, addresses: seq<nat>)
    returns (r: Outcome)
    requires q.Valid() && maxPrio <= q.maxPrio
    modifies q
    ensures q.Valid() && (r.Done? <==> duplication < |addresses| == q.maxPrio + 1)
    ensures q.Contents() == if r.Done? then WithCopies(old(q.Contents()), id, base, maxPrio + 1, addresses) else old(q.Contents())
  {
    if |addresses| <= duplication || |addresses| != q.maxPrio + 1 {
      return Aborted;
    }
    var prio, i := base, 0;
    NoCopies(q.Contents(), id, base, base, addresses);
    while prio <= maxPrio
      invariant base <= prio && i == prio - base && q.Valid()
      invariant prio <= maxPrio + 1 || prio == base
      invariant q.Contents() == WithCopies(old(q.Contents()), id, base, prio, addresses)
    {
      q.Enqueue(Job(id, prio, addresses[i]));
      CopiesGrow(old(q.Contents()), id, base, prio, addresses);
      prio, i := prio + 1, i + 1;
    }
    if maxPrio < base {
      NoCopies(old(q.Contents()), id, base, maxPrio + 1, addresses);
    }
    r := Done;
  }

  lemma NoCopies(a: Queues, id: JobId, base: nat, end: nat, addresses: seq<nat>)
    requires end <= base && |a| <= |addresses|
    ensures WithCopies(a, id, base, end, addresses) == a
  {
    assert forall p :: 0 <= p < |a| ==> a[p] + CopyAt(id, base, end, addresses, p) == a[p];
  }

  lemma CopiesGrow(a: Queues, id: JobId, base: nat, prio: nat, addresses: seq<nat>)
    requires base <= prio < |a| <= |addresses|
    ensures Append(WithCopies(a, id, base, prio, addresses), Job(id, prio, addresses[prio - base])) ==
            WithCopies(a, id, base, prio + 1, addresses)
  {
    var b := Append(WithCopies(a, id, base, prio, addresses), Job(id, prio, addresses[prio - base]));
    var c := WithCopies(a, id, base, prio + 1, addresses);
    forall p | 0 <= p < |a|
      ensures b[p] == c[p]
    {
      assert a[prio] + [] == a[prio];
    }
  }

  /** The priority after the last one a request uses. */
  function EndOf(base: nat, requested: nat, maxPrio: nat): nat {
    if base + requested >= UINT then base else if base + requested <= maxPrio then base + requested + 1 else maxPrio + 1
  }

  /** The requests that pass every check. */
  predicate Accepted(base: nat, requested: nat, maxPrio: nat, addresses: nat) {
    base <= maxPrio && addresses == maxPrio + 1 && (base + requested < UINT || requested <= maxPrio)
  }

  method Dispatch(q: MultiQueue, id: JobId, base: nat, requested: nat, addresses: seq<nat>) returns (r: Outcome)
    requires q.Valid() && q.maxPrio + 1 < UINT && base < UINT && requested < UINT
    modifies q
    ensures q.Valid() && (r.Done? <==> Accepted(base, requested, q.maxPrio, |addresses|))
    ensures q.Contents() ==
            if r.Done? then WithCopies(old(q.Contents()), id, base, EndOf(base, requested, q.maxPrio), addresses)
            else old(q.Contents())
  {
    if base > q.maxPrio {
      return Aborted;
    }
    ClampIsMinimum(base, requested, q.maxPrio);
    AddressCheckExactly(base, requested, q.maxPrio);
    var maxPrio := Clamp(base, requested, q.maxPrio);
    r := DuplicateAndEnqueue(q, id, base, maxPrio, (maxPrio - base) % UINT, addresses);
    if r.Done? && base + requested >= UINT {
      NoCopies(old(q.Contents()), id, base, maxPrio + 1, addresses);
      NoCopies(old(q.Contents()), id, base, base, addresses);
    }
  }

  /** Dispatch of an id not queued before, then Purge with nothing dequeued in between. */
  method DispatchThenPurge(q: MultiQueue, id: JobId, base: nat, requested: nat, addresses: seq<nat>)
    returns (r: Outcome, purged: nat)
    requires q.Valid() && q.maxPrio + 1 < UINT && base < UINT && requested < UINT
    requires forall js <- q.Contents() :: Absent(js, id)
    modifies q
    ensures q.Valid() && q.Contents() == old(q.Contents())
    ensures r.Done? <==> Accepted(base, requested, q.maxPrio, |addresses|)
    ensures r.Done? ==> purged == EndOf(base, requested, q.maxPrio) - base
  {
    ghost var a := q.Contents();
    r := Dispatch(q, id, base, requested, addresses);
    if r.Aborted? {
      return r, 0;
    }
    CopiesPurgeAway(a, id, base, EndOf(base, requested, q.maxPrio), addresses);
    purged := q.Purge(id);
  }

  // ----- a chain of stages -----

  ghost predicate Chain(stages: seq<MultiQueue>)
    reads set q | q in stages
  {
    && (forall q <- stages :: q.Valid())
    && forall i, j :: 0 <= i < j < |stages| ==> stages[i] != stages[j]
  }

  ghost function ChainContents(stages: seq<MultiQueue>): seq<Queues>
    requires Chain(stages)
    reads set q | q in stages
  {
    seq(|stages|, i requires 0 <= i < |stages| reads set q | q in stages requires Chain(stages) => stages[i].Contents())
  }

  /** How many jobs there are. */
  ghost function Total(a: Queues, n: nat): nat
    requires n <= |a|
  {
    if n == 0 then 0 else Total(a, n - 1) + |a[n - 1]|
  }

  ghost function InStages(contents: seq<Queues>): nat {
    if contents == [] then 0 else Total(contents[0], |contents[0]|) + InStages(contents[1..])
  }

  lemma {:induction false} WithoutLength(js: seq<Job>, id: JobId)
    ensures |Without(js, id)| + Matching(js, id) == |js|
  {
    if js != [] {
      WithoutLength(js[1..], id);
    }
  }

  lemma {:induction false} FilterCount(a: Queues, id: JobId, n: nat)
    requires n <= |a|
    ensures Total(Filter(a, id), n) + Occurrences(a, id, n) == Total(a, n)
  {
    if n > 0 {
      FilterCount(a, id, n - 1);
      WithoutLength(a[n - 1], id);
      assert Filter(a, id)[n - 1] == Without(a[n - 1], id);
    }
  }

  /** How many jobs of `id` the given stages hold together. */
  ghost function InChain(contents: seq<Queues>, id: JobId): nat {
    if contents == [] then 0
    else Occurrences(contents[0], id, |contents[0]|) + InChain(contents[1..], id)
  }

  lemma {:induction false} PurgedTotal(before: seq<Queues>, after: seq<Queues>, id: JobId)
    requires |after| == |before| && forall i :: 0 <= i < |before| ==> after[i] == Filter(before[i], id)
    ensures InStages(after) + InChain(before, id) == InStages(before)
  {
    if before != [] {
      FilterCount(before[0], id, |before[0]|);
      PurgedTotal(before[1..], after[1..], id);
    }
  }

  /** A stage purges its own queue and then the stage its scheduler feeds; the last feeds none. */
  method PurgeStages(stages: seq<MultiQueue>, id: JobId, k: nat) returns (purged: nat)
    requires Chain(stages) && k <= |stages|
    modifies set q | q in stages[k..]
    ensures Chain(stages) && purged == InChain(old(ChainContents(stages))[k..], id)
    ensures forall i :: k <= i < |stages| ==> stages[i].Contents() == Filter(old(stages[i].Contents()), id)
    decreases |stages| - k
  {
    if k == |stages| {
      return 0;
    }
    ghost var all := ChainContents(stages);
    purged := stages[k].Purge(id);
    assert ChainContents(stages)[k + 1..] == all[k..][1..];
    var downstream := PurgeStages(stages, id, k + 1);
    purged := purged + downstream;
  }

  /** Every stage from `k` on is filtered, and the number returned is how many jobs they have lost. */
  method PurgeFrom(stages: seq<MultiQueue>, id: JobId, k: nat) returns (purged: nat)
    requires Chain(stages) && k <= |stages|
    modifies set q | q in stages[k..]
    ensures Chain(stages)
    ensures InStages(ChainContents(stages)[k..]) + purged == InStages(old(ChainContents(stages))[k..])
    ensures forall i :: k <= i < |stages| ==> stages[i].Contents() == Filter(old(stages[i].Contents()), id)
  {
    ghost var before := ChainContents(stages)[k..];
    purged := PurgeStages(stages, id, k);
    PurgedTotal(before, ChainContents(stages)[k..], id);
  }
}
