/** The two structures a MultiQueue keeps: per-priority lists of nodes, and the index
    from a job id to the jobs queued under it with the list position saved for each. */
module QueueIndex {
  import opened Jobs

  /** A list node.  `key` is its identity (what an iterator names), `id` its content. */
  datatype Node = Node(key: nat, id: JobId)

  datatype Entry = Entry(job: Job, iter: Node)

  type Index = map<JobId, seq<Entry>>

  function ListOf(index: Index, id: JobId): seq<Entry> {
    if id in index then index[id] else []
  }

  /** The saved iterators of the entries at priority `p`, in list order. */
  function ItersAt(es: seq<Entry>, p: nat): seq<Node> {
    if es == [] then []
    else (if es[0].job.prio == p then [es[0].iter] else []) + ItersAt(es[1..], p)
  }

  /** The nodes of `q` that hold `id`, in order. */
  function WithId(q: seq<Node>, id: JobId): seq<Node> {
    if q == [] then []
    else (if q[0].id == id then [q[0]] else []) + WithId(q[1..], id)
  }

  function WithoutId(q: seq<Node>, id: JobId): seq<Node> {
    if q == [] then []
    else (if q[0].id == id then [] else [q[0]]) + WithoutId(q[1..], id)
  }

  /** Erasing the node an iterator names. */
  function Erase(q: seq<Node>, n: Node): seq<Node> {
    if q == [] then []
    else if q[0] == n then q[1..]
    else [q[0]] + Erase(q[1..], n)
  }

  /** The position of the first entry at priority `p`; the length when there is none. */
  function FirstAt(es: seq<Entry>, p: nat): (i: nat)
    ensures i <= |es|
  {
    if es == [] || es[0].job.prio == p then 0 else 1 + FirstAt(es[1..], p)
  }

  function RemoveAt(es: seq<Entry>, i: nat): seq<Entry>
    requires i < |es|
  {
    es[..i] + es[i + 1..]
  }

  function Indexed(index: Index, e: Entry): Index {
    index[e.job.id := ListOf(index, e.job.id) + [e]]
  }

  /** Dropping one entry of `id`, and the whole list once it is empty. */
  function Unindexed(index: Index, id: JobId, i: nat): Index
    requires i < |ListOf(index, id)|
  {
    var rest := RemoveAt(ListOf(index, id), i);
    if rest == [] then index - {id} else index[id := rest]
  }

  /** Erasing from the queues every node the entries name. */
  function EraseAll(queues: seq<seq<Node>>, es: seq<Entry>): (r: seq<seq<Node>>)
    requires forall e <- es :: e.job.prio < |queues|
    ensures |r| == |queues|
    decreases |es|
  {
    if es == [] then queues
    else EraseAll(queues[es[0].job.prio := Erase(queues[es[0].job.prio], es[0].iter)], es[1..])
  }

  /** The jobs a list of nodes stands for, given every job inserted so far. */
  function JobsOf(q: seq<Node>, born: seq<Job>): (r: seq<Job>)
    requires forall n <- q :: n.key < |born|
    ensures |r| == |q|
  {
    seq(|q|, i requires 0 <= i < |q| => born[q[i].key])
  }

  ghost predicate Increasing(q: seq<Node>) {
    forall i, j :: 0 <= i < j < |q| ==> q[i].key < q[j].key
  }

  /** Every node of `q` was made for a job of priority `p` and holds that job's id. */
  ghost predicate Genuine(q: seq<Node>, p: nat, born: seq<Job>) {
    forall n <- q :: n.key < |born| && born[n.key].id == n.id && born[n.key].prio == p
  }

  ghost predicate EntryOk(e: Entry, id: JobId, born: seq<Job>, width: nat) {
    && e.job.id == id && e.iter.id == id
    && e.job.prio < width
    && e.iter.key < |born| && born[e.iter.key] == e.job
  }

  ghost predicate IndexOk(index: Index, born: seq<Job>, width: nat) {
    forall id <- index :: index[id] != [] && forall e <- index[id] :: EntryOk(e, id, born, width)
  }

  /** Node by node, the index lists exactly `q` for priority `p`. */
  ghost predicate Agree(index: Index, q: seq<Node>, p: nat) {
    forall id: JobId :: ItersAt(ListOf(index, id), p) == WithId(q, id)
  }

  // ----- lists under concatenation -----

  lemma {:induction false} ItersAtConcat(a: seq<Entry>, b: seq<Entry>, p: nat)
    ensures ItersAt(a + b, p) == ItersAt(a, p) + ItersAt(b, p)
  {
    if a == [] {
      assert a + b == b;
    } else {
      assert (a + b)[1..] == a[1..] + b;
      ItersAtConcat(a[1..], b, p);
      assert ItersAt(a + b, p) == (if a[0].job.prio == p then [a[0].iter] else []) + ItersAt(a[1..] + b, p);
    }
  }

  lemma {:induction false} WithIdConcat(a: seq<Node>, b: seq<Node>, id: JobId)
    ensures WithId(a + b, id) == WithId(a, id) + WithId(b, id)
  {
    if a == [] {
      assert a + b == b;
    } else {
      assert (a + b)[1..] == a[1..] + b;
      WithIdConcat(a[1..], b, id);
    }
  }

  lemma WithIdMembers(q: seq<Node>, id: JobId)
    ensures forall n :: n in WithId(q, id) <==> n in q && n.id == id
  {
  }

  lemma ItersAtMembers(es: seq<Entry>, p: nat)
    ensures forall n :: n in ItersAt(es, p) <==> exists e :: e in es && e.job.prio == p && e.iter == n
  {
    if es != [] {
      ItersAtMembers(es[1..], p);
      assert es == [es[0]] + es[1..];
    }
  }

  // ----- the first entry of a priority -----

  /** The search of a Dequeue stops at the entry whose iterator comes first. */
  lemma {:induction false} FirstAtIsFront(es: seq<Entry>, p: nat)
    requires ItersAt(es, p) != []
    ensures FirstAt(es, p) < |es|
    ensures es[FirstAt(es, p)].job.prio == p
    ensures es[FirstAt(es, p)].iter == ItersAt(es, p)[0]
  {
    if es[0].job.prio != p {
      FirstAtIsFront(es[1..], p);
    }
  }

  /** Removing it takes the front off that priority and touches no other. */
  lemma {:induction false} RemoveFirstAt(es: seq<Entry>, p: nat, r: nat)
    requires FirstAt(es, p) < |es|
    ensures ItersAt(es, p) != []
    ensures ItersAt(RemoveAt(es, FirstAt(es, p)), r) ==
            if r == p then ItersAt(es, p)[1..] else ItersAt(es, r)
  {
    var i := FirstAt(es, p);
    if es[0].job.prio == p {
      assert RemoveAt(es, i) == es[1..];
    } else {
      RemoveFirstAt(es[1..], p, r);
      assert RemoveAt(es, i) == [es[0]] + RemoveAt(es[1..], i - 1);
    }
  }

  // ----- the index under its two updates -----

  lemma IndexedAgrees(index: Index, e: Entry, q: seq<Node>, p: nat)
    requires Agree(index, q, p)
    requires e.iter.id == e.job.id
    ensures Agree(Indexed(index, e), if e.job.prio == p then q + [e.iter] else q, p)
  {
    forall id: JobId
      ensures ItersAt(ListOf(Indexed(index, e), id), p) ==
              WithId(if e.job.prio == p then q + [e.iter] else q, id)
    {
      WithIdConcat(q, [e.iter], id);
      ItersAtConcat(ListOf(index, id), [e], p);
    }
  }

  lemma IndexedOk(index: Index, e: Entry, born: seq<Job>, width: nat)
    requires IndexOk(index, born, width)
    requires EntryOk(e, e.job.id, born, width)
    ensures IndexOk(Indexed(index, e), born, width)
  {
  }

  lemma UnindexedAgrees(index: Index, n: Node, p: nat, q: seq<Node>, r: nat)
    requires Agree(index, q, r)
    requires FirstAt(ListOf(index, n.id), p) < |ListOf(index, n.id)|
    requires r == p ==> q != [] && q[0] == n
    ensures Agree(Unindexed(index, n.id, FirstAt(ListOf(index, n.id), p)), if r == p then q[1..] else q, r)
  {
    var es := ListOf(index, n.id);
    var i := FirstAt(es, p);
    var index' := Unindexed(index, n.id, i);
    var q' := if r == p then q[1..] else q;
    forall id: JobId
      ensures ItersAt(ListOf(index', id), r) == WithId(q', id)
    {
      if id == n.id {
        RemoveFirstAt(es, p, r);
        assert ListOf(index', id) == RemoveAt(es, i);
      } else {
        assert ListOf(index', id) == ListOf(index, id);
      }
    }
  }

  lemma UnindexedOk(index: Index, id: JobId, i: nat, born: seq<Job>, width: nat)
    requires IndexOk(index, born, width)
    requires i < |ListOf(index, id)|
    ensures IndexOk(Unindexed(index, id, i), born, width)
  {
    var rest := RemoveAt(index[id], i);
    forall e <- rest
      ensures e in index[id]
    {
    }
  }

  // ----- purging -----

  lemma EraseFirstWithId(q: seq<Node>, n: Node)
    requires Increasing(q) && WithId(q, n.id) != [] && WithId(q, n.id)[0] == n
    ensures WithId(Erase(q, n), n.id) == WithId(q, n.id)[1..]
    ensures WithoutId(Erase(q, n), n.id) == WithoutId(q, n.id)
    ensures Increasing(Erase(q, n)) && (forall m <- Erase(q, n) :: m in q)
  {
    if q[0] == n {
    } else {
      assert q[0].id != n.id;
      EraseFirstWithId(q[1..], n);
      var rest := Erase(q[1..], n);
      assert Erase(q, n) == [q[0]] + rest;
      assert ([q[0]] + rest)[1..] == rest;
    }
  }

  lemma NoneWithId(q: seq<Node>, id: JobId)
    requires WithId(q, id) == []
    ensures WithoutId(q, id) == q
  {
  }

  /** Erasing the entries of one id, iterator by iterator, is filtering every queue. */
  lemma {:induction false} EraseAllFilters(queues: seq<seq<Node>>, es: seq<Entry>, id: JobId)
    requires forall e <- es :: e.job.prio < |queues| && e.iter.id == id
    requires forall p :: 0 <= p < |queues| ==> Increasing(queues[p]) && ItersAt(es, p) == WithId(queues[p], id)
    ensures forall p :: 0 <= p < |queues| ==> EraseAll(queues, es)[p] == WithoutId(queues[p], id)
    decreases |es|
  {
    if es == [] {
      forall p | 0 <= p < |queues|
        ensures queues[p] == WithoutId(queues[p], id)
      {
        assert ItersAt(es, p) == WithId(queues[p], id);
        NoneWithId(queues[p], id);
      }
    } else {
      var p0, n := es[0].job.prio, es[0].iter;
      assert ItersAt(es, p0) == WithId(queues[p0], id);
      EraseFirstWithId(queues[p0], n);
      var queues' := queues[p0 := Erase(queues[p0], n)];
      forall p | 0 <= p < |queues'|
        ensures Increasing(queues'[p]) && ItersAt(es[1..], p) == WithId(queues'[p], id)
        ensures WithoutId(queues'[p], id) == WithoutId(queues[p], id)
      {
        assert ItersAt(es, p) == WithId(queues[p], id);
      }
      EraseAllFilters(queues', es[1..], id);
    }
  }

  /** On job sequences this is the filter of the specification. */
  lemma {:induction false} WithoutIdIsWithout(q: seq<Node>, id: JobId, born: seq<Job>)
    requires forall n <- q :: n.key < |born| && born[n.key].id == n.id
    ensures forall n <- WithoutId(q, id) :: n in q && n.id != id
    ensures JobsOf(WithoutId(q, id), born) == Without(JobsOf(q, born), id)
    ensures |WithId(q, id)| == Matching(JobsOf(q, born), id)
  {
    if q != [] {
      assert JobsOf(q, born)[1..] == JobsOf(q[1..], born);
      WithoutIdIsWithout(q[1..], id, born);
    }
  }

  lemma WithoutIdMembers(q: seq<Node>, id: JobId)
    ensures forall n :: n in WithoutId(q, id) <==> n in q && n.id != id
  {
  }

  lemma {:induction false} WithoutIdIncreasing(q: seq<Node>, id: JobId)
    requires Increasing(q)
    ensures Increasing(WithoutId(q, id))
  {
    if q != [] {
      WithoutIdIncreasing(q[1..], id);
      WithoutIdMembers(q[1..], id);
      forall n <- WithoutId(q[1..], id)
        ensures q[0].key < n.key
      {
        assert n in q[1..];
      }
    }
  }

  lemma {:induction false} WithoutIdOthers(q: seq<Node>, id: JobId, other: JobId)
    ensures WithId(WithoutId(q, id), other) == if other == id then [] else WithId(q, other)
  {
    if q != [] {
      WithoutIdOthers(q[1..], id, other);
      WithIdConcat(if q[0].id == id then [] else [q[0]], WithoutId(q[1..], id), other);
    }
  }

  /** The entries at the first `n` priorities, counted priority by priority. */
  function TotalAt(es: seq<Entry>, n: nat): nat {
    if n == 0 then 0 else TotalAt(es, n - 1) + |ItersAt(es, n - 1)|
  }

  lemma {:induction false} TotalAtCons(es: seq<Entry>, n: nat)
    requires es != []
    ensures TotalAt(es, n) == (if es[0].job.prio < n then 1 else 0) + TotalAt(es[1..], n)
  {
    if n != 0 {
      TotalAtCons(es, n - 1);
    }
  }

  lemma {:induction false} TotalAtIsLength(es: seq<Entry>, n: nat)
    requires forall e <- es :: e.job.prio < n
    ensures TotalAt(es, n) == |es|
  {
    if es == [] {
      TotalAtEmpty(n);
    } else {
      TotalAtCons(es, n);
      TotalAtIsLength(es[1..], n);
    }
  }

  lemma TotalAtEmpty(n: nat)
    ensures TotalAt([], n) == 0
  {
  }
}
