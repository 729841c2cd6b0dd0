/** The MultiQueue as an object, one call at a time, proved against one job sequence per
    priority. */
module MultiQueues {
  import opened Jobs
  import opened QueueIndex
  import opened QueueRep

  /** What a call of Dequeue does: return a job, return null, or block at the gate. */
  datatype Outcome = Got(job: Job) | Null | Blocked

  class MultiQueue {
    const maxPrio: nat
    var queues: seq<seq<Node>>
    var index: Index
    var gates: seq<bool>     // the "not empty" mutexes: true is unlocked
    var flags: seq<bool>     // release one
    var released: bool
    var nextKey: nat         // the identity the next list node gets
    ghost var born: seq<Job> // every job ever enqueued

    ghost predicate Valid()
      reads this
    {
      && |queues| == maxPrio + 1 && |gates| == |queues| && |flags| == |queues|
      && nextKey == |born| && Rep(queues, index, born)
    }

    /** The jobs at each priority, front first. */
    ghost function Contents(): Queues
      requires Valid()
      reads this
    {
      Content(queues, born)
    }

    /** Every gate is locked but the last. */
    constructor (maxPriority: nat)
      ensures Valid() && maxPrio == maxPriority
      ensures Contents() == seq(maxPriority + 1, _ => [])
      ensures gates == seq(maxPriority + 1, p => p == maxPriority)
      ensures flags == seq(maxPriority + 1, _ => false) && !released
    {
      maxPrio := maxPriority;
      queues := seq(maxPriority + 1, _ => []);
      index := map[];
      flags := seq(maxPriority + 1, _ => false);
      released := false;
      nextKey := 0;
      born := [];
      var unlocked := seq(maxPriority + 1, _ => true);
      for i := 0 to maxPriority
        invariant |unlocked| == maxPriority + 1
        invariant forall p :: 0 <= p <= maxPriority ==> unlocked[p] == (i <= p)
      {
        unlocked := unlocked[i := false];
      }
      gates := unlocked;
      new;
      assert Contents() == seq(maxPriority + 1, _ => []);
    }

    method Enqueue(job: Job)
      requires Valid() && job.prio <= maxPrio
      modifies this
      ensures Valid() && Contents() == Append(old(Contents()), job)
      ensures gates == if old(Contents())[job.prio] == [] then old(gates)[job.prio := true] else old(gates)
      ensures flags == old(flags) && released == old(released)
    {
      RepAppend(queues, index, born, job);
      var node := Node(nextKey, job.id);
      queues := queues[job.prio := queues[job.prio] + [node]];
      nextKey, born := nextKey + 1, born + [job];
      if |queues[job.prio]| == 1 {
        gates := gates[job.prio := true];
      }
      if job.id !in index {
        index := index[job.id := [Entry(job, node)]];
      } else {
        index := index[job.id := index[job.id] + [Entry(job, node)]];
      }
      assert [] + [Entry(job, node)] == [Entry(job, node)];
      assert index == Indexed(old(index), Entry(job, node));
    }

    /** The loop of the source, without another thread to wait for: a closed gate blocks. */
    method Dequeue(p: nat) returns (r: Outcome)
      requires Valid() && p <= maxPrio
      modifies this
      ensures Valid() && released == old(released)
      ensures r.Blocked? <==> !old(gates[p]) || (!old(flags[p]) && old(Contents())[p] == [] && !old(released))
      ensures r.Null? <==> old(gates[p]) && (old(flags[p]) || (old(Contents())[p] == [] && old(released)))
      ensures r.Got? <==> old(gates[p]) && !old(flags[p]) && old(Contents())[p] != []
      ensures !r.Got? ==> Contents() == old(Contents())
      ensures r.Got? ==> r.job == old(Contents())[p][0] && Contents() == PopFront(old(Contents()), p)
      ensures flags == if r.Null? then old(flags)[p := false] else old(flags)
      ensures gates == old(gates)[p := (r.Null? && !old(flags[p])) || (r.Got? && Contents()[p] != [])]
    {
      while true
        invariant Valid() && queues == old(queues) && index == old(index) && born == old(born)
        invariant flags == old(flags) && released == old(released)
        invariant gates == old(gates) || (old(gates[p]) && gates == old(gates)[p := false] && !flags[p] && queues[p] == [] && !released)
        decreases gates[p]
      {
        if !gates[p] {
          return Blocked;
        }
        gates := gates[p := false];
        if flags[p] {
          flags := flags[p := false];
          return Null;
        }
        if queues[p] == [] && released {
          gates := gates[p := true];
          return Null;
        } else if queues[p] != [] {
          break;
        }
      }
      RepPop(queues, index, born, p);
      var node := queues[p][0];
      queues := queues[p := queues[p][1..]];
      if queues[p] != [] {
        gates := gates[p := true];
      }
      var es := index[node.id];
      var i := Search(es, p);
      r := Got(es[i].job);
      es := RemoveAt(es, i);
      if es == [] {
        index := index - {node.id};
      } else {
        index := index[node.id := es];
      }
    }

    /** The search loop of Dequeue: the first entry at this priority. */
    static method Search(es: seq<Entry>, p: nat) returns (i: nat)
      ensures i <= |es| && forall k :: 0 <= k < i ==> es[k].job.prio != p
      ensures i < |es| ==> es[i].job.prio == p
      ensures i == FirstAt(es, p)
    {
      i := 0;
      while i < |es| && es[i].job.prio != p
        invariant i <= |es| && FirstAt(es, p) == i + FirstAt(es[i..], p)
        invariant forall k :: 0 <= k < i ==> es[k].job.prio != p
      {
        assert es[i..][1..] == es[i + 1..];
        i := i + 1;
      }
    }

    method Purge(id: JobId) returns (purged: nat)
      requires Valid()
      modifies this
      ensures Valid() && Contents() == Filter(old(Contents()), id)
      ensures purged == Occurrences(old(Contents()), id, maxPrio + 1)
      ensures gates == old(gates) && flags == old(flags) && released == old(released)
    {
      if id !in index {
        RepPurgeAbsent(queues, index, born, id);
        return 0;
      }
      RepPurge(queues, index, born, id);
      purged := EraseEach(index[id]);
      index := index - {id};
    }

    /** The erase loop of Purge: one list erase per saved iterator. */
    method EraseEach(es: seq<Entry>) returns (n: nat)
      requires forall e <- es :: e.job.prio < |queues|
      modifies this`queues
      ensures queues == EraseAll(old(queues), es) && n == |es|
    {
      n := 0;
      while n < |es|
        invariant n <= |es| && |queues| == |old(queues)|
        invariant EraseAll(queues, es[n..]) == EraseAll(old(queues), es)
      {
        var e := es[n];
        assert es[n..][1..] == es[n + 1..];
        queues := queues[e.job.prio := Erase(queues[e.job.prio], e.iter)];
        n := n + 1;
      }
    }

    method ReleaseQueues()
      requires Valid()
      modifies this
      ensures Valid() && released && Contents() == old(Contents()) && flags == old(flags)
      ensures forall p :: 0 <= p <= maxPrio ==> gates[p] == (old(gates[p]) || Contents()[p] == [])
    {
      released := true;
      for p := 0 to maxPrio + 1
        invariant Valid() && queues == old(queues) && index == old(index) && born == old(born) && flags == old(flags) && released
        invariant forall r :: 0 <= r <= maxPrio ==> gates[r] == (old(gates[r]) || (r < p && queues[r] == []))
      {
        if queues[p] == [] {
          gates := gates[p := true];
        }
      }
    }

    method ReleaseOne(p: nat)
      requires Valid() && p <= maxPrio
      modifies this
      ensures Valid() && Contents() == old(Contents()) && released == old(released)
      ensures flags == if Contents()[p] == [] then old(flags)[p := true] else old(flags)
      ensures gates == if Contents()[p] == [] then old(gates)[p := true] else old(gates)
    {
      if queues[p] == [] {
        flags := flags[p := true];
        gates := gates[p := true];
      }
    }

    method Size(p: nat) returns (n: nat)
      requires Valid() && p <= maxPrio
      ensures n == |Contents()[p]|
    {
      n := |queues[p]|;
    }
  }
}
