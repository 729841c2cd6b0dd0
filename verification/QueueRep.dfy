/** A MultiQueue at rest: index and queues agree exactly.  The three updates on values. */
module QueueRep {
  import opened Jobs
  import opened QueueIndex

  /** Index and queues list the same nodes, each made for the job it is listed under. */
  ghost predicate Rep(queues: seq<seq<Node>>, index: Index, born: seq<Job>) {
    && IndexOk(index, born, |queues|)
    && AllGenuine(queues, born)
    && forall p :: 0 <= p < |queues| ==> Increasing(queues[p]) && Agree(index, queues[p], p)
  }

  ghost predicate AllGenuine(queues: seq<seq<Node>>, born: seq<Job>) {
    forall p :: 0 <= p < |queues| ==> Genuine(queues[p], p, born)
  }

  ghost function Content(queues: seq<seq<Node>>, born: seq<Job>): Queues
    requires AllGenuine(queues, born)
  {
    seq(|queues|, p requires 0 <= p < |queues| => JobsOf(queues[p], born))
  }

  // ----- the three updates, on values -----

  lemma ContentAppend(queues: seq<seq<Node>>, born: seq<Job>, j: Job)
    requires AllGenuine(queues, born) && j.prio < |queues|
    ensures var queues' := queues[j.prio := queues[j.prio] + [Node(|born|, j.id)]];
            AllGenuine(queues', born + [j]) && Content(queues', born + [j]) == Append(Content(queues, born), j)
  {
    var queues' := queues[j.prio := queues[j.prio] + [Node(|born|, j.id)]];
    forall p | 0 <= p < |queues'|
      ensures Genuine(queues'[p], p, born + [j])
    {
      assert Genuine(queues[p], p, born);
    }
    var c, c' := Content(queues, born), Content(queues', born + [j]);
    forall p | 0 <= p < |queues'|
      ensures c'[p] == Append(c, j)[p]
    {
      assert Genuine(queues[p], p, born);
    }
  }

  lemma ContentPop(queues: seq<seq<Node>>, born: seq<Job>, p: nat)
    requires AllGenuine(queues, born) && p < |queues| && queues[p] != []
    ensures var queues' := queues[p := queues[p][1..]];
            AllGenuine(queues', born) && Content(queues', born) == PopFront(Content(queues, born), p)
  {
    var queues' := queues[p := queues[p][1..]];
    assert Genuine(queues[p], p, born);
    assert AllGenuine(queues', born);
    assert Content(queues', born)[p] == Content(queues, born)[p][1..];
  }

  lemma RepAppend(queues: seq<seq<Node>>, index: Index, born: seq<Job>, j: Job)
    requires Rep(queues, index, born) && j.prio < |queues|
    ensures var n := Node(|born|, j.id); var queues' := queues[j.prio := queues[j.prio] + [n]];
            && Rep(queues', Indexed(index, Entry(j, n)), born + [j])
            && Content(queues', born + [j]) == Append(Content(queues, born), j)
  {
    var n := Node(|born|, j.id);
    var queues' := queues[j.prio := queues[j.prio] + [n]];
    IndexOkGrows(index, born, j, |queues|);
    IndexedOk(index, Entry(j, n), born + [j], |queues|);
    ContentAppend(queues, born, j);
    forall p | 0 <= p < |queues'|
      ensures Increasing(queues'[p]) && Agree(Indexed(index, Entry(j, n)), queues'[p], p)
    {
      IndexedAgrees(index, Entry(j, n), queues[p], p);
      IncreasingAppend(queues[p], p, born, n);
    }
  }

  lemma IndexOkGrows(index: Index, born: seq<Job>, j: Job, width: nat)
    requires IndexOk(index, born, width)
    ensures IndexOk(index, born + [j], width)
  {
    forall id, e | id in index && e in index[id]
      ensures EntryOk(e, id, born + [j], width)
    {
      assert EntryOk(e, id, born, width);
    }
  }

  lemma IncreasingAppend(q: seq<Node>, p: nat, born: seq<Job>, n: Node)
    requires Increasing(q) && Genuine(q, p, born) && n.key == |born|
    ensures Increasing(q + [n])
  {
    assert forall m <- q :: m.key < |born|;
  }

  lemma RepPop(queues: seq<seq<Node>>, index: Index, born: seq<Job>, p: nat)
    requires Rep(queues, index, born) && p < |queues| && queues[p] != []
    ensures var n := queues[p][0]; var es := ListOf(index, n.id); var i := FirstAt(es, p);
            && i < |es| && es[i].iter == n && es[i].job == Content(queues, born)[p][0]
            && Rep(queues[p := queues[p][1..]], Unindexed(index, n.id, i), born)
            && Content(queues[p := queues[p][1..]], born) == PopFront(Content(queues, born), p)
  {
    var n := queues[p][0];
    var es := ListOf(index, n.id);
    assert Agree(index, queues[p], p);
    assert ItersAt(es, p) == WithId(queues[p], n.id);
    FirstAtIsFront(es, p);
    var i := FirstAt(es, p);
    assert EntryOk(es[i], n.id, born, |queues|);
    var queues' := queues[p := queues[p][1..]];
    UnindexedOk(index, n.id, i, born, |queues|);
    forall r | 0 <= r < |queues'|
      ensures Increasing(queues'[r]) && Agree(Unindexed(index, n.id, i), queues'[r], r)
    {
      UnindexedAgrees(index, n, p, queues[r], r);
    }
    ContentPop(queues, born, p);
  }

  lemma MatchingListed(queues: seq<seq<Node>>, index: Index, born: seq<Job>, id: JobId, p: nat)
    requires Rep(queues, index, born) && p < |queues|
    ensures Matching(Content(queues, born)[p], id) == |ItersAt(ListOf(index, id), p)|
  {
    assert Genuine(queues[p], p, born) && Agree(index, queues[p], p);
    WithoutIdIsWithout(queues[p], id, born);
  }

  lemma {:induction false} SameTotals(a: Queues, id: JobId, es: seq<Entry>, n: nat)
    requires n <= |a| && forall p :: 0 <= p < n ==> Matching(a[p], id) == |ItersAt(es, p)|
    ensures Occurrences(a, id, n) == TotalAt(es, n)
  {
    if n != 0 {
      SameTotals(a, id, es, n - 1);
      assert Matching(a[n - 1], id) == |ItersAt(es, n - 1)|;
    }
  }

  lemma OccurrencesListed(queues: seq<seq<Node>>, index: Index, born: seq<Job>, id: JobId, n: nat)
    requires Rep(queues, index, born) && n <= |queues|
    ensures Occurrences(Content(queues, born), id, n) == TotalAt(ListOf(index, id), n)
  {
    var a, es := Content(queues, born), ListOf(index, id);
    forall p | 0 <= p < n
      ensures Matching(a[p], id) == |ItersAt(es, p)|
    {
      MatchingListed(queues, index, born, id, p);
    }
    SameTotals(a, id, es, n);
  }

  /** Filtering one id out of a queue, and its list out of the index. */
  lemma FilteredAgrees(q: seq<Node>, index: Index, p: nat, born: seq<Job>, id: JobId)
    requires Increasing(q) && Genuine(q, p, born) && Agree(index, q, p)
    ensures var q' := WithoutId(q, id);
            Increasing(q') && Genuine(q', p, born) && Agree(index - {id}, q', p)
  {
    WithoutIdIncreasing(q, id);
    WithoutIdMembers(q, id);
    forall other: JobId
      ensures ItersAt(ListOf(index - {id}, other), p) == WithId(WithoutId(q, id), other)
    {
      WithoutIdOthers(q, id, other);
    }
  }

  lemma PurgedQueue(queues: seq<seq<Node>>, index: Index, born: seq<Job>, id: JobId, p: nat)
    requires Rep(queues, index, born) && p < |queues|
    ensures forall e <- ListOf(index, id) :: e.job.prio < |queues|
    ensures var q := EraseAll(queues, ListOf(index, id))[p];
            && q == WithoutId(queues[p], id)
            && Increasing(q) && Genuine(q, p, born) && Agree(index - {id}, q, p)
            && JobsOf(q, born) == Without(JobsOf(queues[p], born), id)
  {
    var es := ListOf(index, id);
    assert forall e <- es :: EntryOk(e, id, born, |queues|);
    forall r | 0 <= r < |queues|
      ensures Increasing(queues[r]) && ItersAt(es, r) == WithId(queues[r], id)
    {
      assert Agree(index, queues[r], r);
    }
    EraseAllFilters(queues, es, id);
    FilteredAgrees(queues[p], index, p, born, id);
    WithoutIdIsWithout(queues[p], id, born);
  }

  lemma RepPurge(queues: seq<seq<Node>>, index: Index, born: seq<Job>, id: JobId)
    requires Rep(queues, index, born)
    ensures var es := ListOf(index, id);
            && (forall e <- es :: e.job.prio < |queues|)
            && Rep(EraseAll(queues, es), index - {id}, born)
            && Content(EraseAll(queues, es), born) == Filter(Content(queues, born), id)
            && |es| == Occurrences(Content(queues, born), id, |queues|)
  {
    var es := ListOf(index, id);
    assert forall e <- es :: EntryOk(e, id, born, |queues|);
    forall p | 0 <= p < |queues|
      ensures var q := EraseAll(queues, es)[p];
              && Increasing(q) && Genuine(q, p, born) && Agree(index - {id}, q, p)
              && JobsOf(q, born) == Without(JobsOf(queues[p], born), id)
    {
      PurgedQueue(queues, index, born, id, p);
    }
    assert Content(EraseAll(queues, es), born) == Filter(Content(queues, born), id);
    OccurrencesListed(queues, index, born, id, |queues|);
    TotalAtIsLength(es, |queues|);
  }

  lemma RepPurgeAbsent(queues: seq<seq<Node>>, index: Index, born: seq<Job>, id: JobId)
    requires Rep(queues, index, born) && id !in index
    ensures Filter(Content(queues, born), id) == Content(queues, born)
    ensures Occurrences(Content(queues, born), id, |queues|) == 0
  {
    RepPurge(queues, index, born, id);
  }
}
