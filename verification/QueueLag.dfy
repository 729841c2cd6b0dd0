/** How far the index may lag behind one queue, as plain sequence facts.  `popped` are the
    nodes already taken off the queue but not out of the index, `added` the nodes already in
    the queue (or popped again) but not in the index, oldest first. */
module QueueLag {
  import opened Jobs
  import opened QueueIndex

  function Listed(popped: seq<Node>, q: seq<Node>, added: seq<Node>): seq<Node>
    requires |added| <= |popped + q|
  {
    (popped + q)[..|popped + q| - |added|]
  }

  ghost predicate Lag(popped: seq<Node>, q: seq<Node>, added: seq<Node>, index: Index, p: nat, born: seq<Job>) {
    && Increasing(popped + q) && Genuine(popped + q, p, born)
    && |added| <= |popped + q|
    && (popped + q)[|popped + q| - |added|..] == added
    && Agree(index, Listed(popped, q, added), p)
  }

  lemma LagInsert(popped: seq<Node>, q: seq<Node>, added: seq<Node>, index: Index, p: nat, born: seq<Job>, j: Job)
    requires Lag(popped, q, added, index, p, born) && j.prio == p
    ensures var n := Node(|born|, j.id);
            Lag(popped, q + [n], added + [n], index, p, born + [j])
  {
    var n := Node(|born|, j.id);
    assert popped + (q + [n]) == (popped + q) + [n];
    assert Listed(popped, q + [n], added + [n]) == Listed(popped, q, added);
    forall m <- popped + q + [n]
      ensures m.key < |born + [j]| && (born + [j])[m.key].id == m.id && (born + [j])[m.key].prio == p
    {
      assert m == n || m in popped + q;
    }
  }

  lemma LagBorn(popped: seq<Node>, q: seq<Node>, added: seq<Node>, index: Index, p: nat, born: seq<Job>, j: Job)
    requires Lag(popped, q, added, index, p, born)
    ensures Lag(popped, q, added, index, p, born + [j])
  {
  }

  lemma LagPop(popped: seq<Node>, q: seq<Node>, added: seq<Node>, index: Index, p: nat, born: seq<Job>)
    requires Lag(popped, q, added, index, p, born) && q != []
    ensures Lag(popped + [q[0]], q[1..], added, index, p, born)
  {
    assert (popped + [q[0]]) + q[1..] == popped + q;
  }

  /** Indexing the oldest added node. */
  lemma LagIndexed(popped: seq<Node>, q: seq<Node>, added: seq<Node>, index: Index, p: nat, born: seq<Job>, e: Entry)
    requires Lag(popped, q, added, index, p, born)
    requires e.iter.id == e.job.id && (e.job.prio == p ==> added != [] && added[0] == e.iter)
    ensures Lag(popped, q, if e.job.prio == p then added[1..] else added, Indexed(index, e), p, born)
  {
    IndexedAgrees(index, e, Listed(popped, q, added), p);
    if e.job.prio == p {
      var all, k := popped + q, |popped + q| - |added|;
      assert all[k] == all[k..][0] == e.iter;
      assert all[..k + 1] == all[..k] + [all[k]];
    }
  }

  /** The lookup of the oldest popped node succeeds, and finds that very node. */
  lemma LagLookup(popped: seq<Node>, q: seq<Node>, added: seq<Node>, index: Index, p: nat, born: seq<Job>)
    requires Lag(popped, q, added, index, p, born)
    requires popped != [] && |added| < |popped + q|
    ensures var es := ListOf(index, popped[0].id);
            FirstAt(es, p) < |es| && es[FirstAt(es, p)].iter == popped[0]
  {
    var n := popped[0];
    assert ItersAt(ListOf(index, n.id), p) == WithId(Listed(popped, q, added), n.id);
    assert Listed(popped, q, added)[0] == n;
    FirstAtIsFront(ListOf(index, n.id), p);
  }

  /** Taking the oldest popped node out of the index. */
  lemma LagUnindexed(popped: seq<Node>, q: seq<Node>, added: seq<Node>, index: Index, p: nat, born: seq<Job>, n: Node, r: nat)
    requires Lag(popped, q, added, index, p, born)
    requires FirstAt(ListOf(index, n.id), r) < |ListOf(index, n.id)|
    requires r == p ==> popped != [] && popped[0] == n && |added| < |popped + q|
    ensures Lag(if r == p then popped[1..] else popped, q, added,
                Unindexed(index, n.id, FirstAt(ListOf(index, n.id), r)), p, born)
  {
    UnindexedAgrees(index, n, r, Listed(popped, q, added), p);
    if r == p {
      var all := popped + q;
      assert popped[1..] + q == all[1..];
      assert Listed(popped[1..], q, added) == Listed(popped, q, added)[1..];
    }
  }

  /** A node of the queue that no entry names has just been added. */
  lemma LagUnlisted(popped: seq<Node>, q: seq<Node>, added: seq<Node>, index: Index, p: nat, born: seq<Job>, n: Node)
    requires Lag(popped, q, added, index, p, born) && n in q
    requires !exists e :: e in ListOf(index, n.id) && e.job.prio == p && e.iter == n
    ensures n in added
  {
    var all, listed := popped + q, Listed(popped, q, added);
    InListing(index, listed, p, n);
    assert n in all && all == listed + added;
  }

  /** An entry names a node of the queue, or one just popped. */
  lemma LagDangling(popped: seq<Node>, q: seq<Node>, added: seq<Node>, index: Index, p: nat, born: seq<Job>, e: Entry)
    requires Lag(popped, q, added, index, p, born)
    requires e in ListOf(index, e.iter.id) && e.job.prio == p
    ensures e.iter in popped || e.iter in q
  {
    var listed := Listed(popped, q, added);
    InListing(index, listed, p, e.iter);
    assert popped + q == listed + (popped + q)[|listed|..];
    assert e.iter in popped + q;
  }

  /** Nothing pending: the index agrees with the queue. */
  lemma NoLag(q: seq<Node>, index: Index, p: nat, born: seq<Job>)
    ensures Lag([], q, [], index, p, born) <==> Increasing(q) && Genuine(q, p, born) && Agree(index, q, p)
  {
    assert [] + q == q && Listed([], q, []) == q;
  }

  lemma InListing(index: Index, q: seq<Node>, p: nat, n: Node)
    requires Agree(index, q, p)
    ensures n in q <==> exists e :: e in ListOf(index, n.id) && e.job.prio == p && e.iter == n
  {
    WithIdMembers(q, n.id);
    ItersAtMembers(ListOf(index, n.id), p);
    assert ItersAt(ListOf(index, n.id), p) == WithId(q, n.id);
  }
}
