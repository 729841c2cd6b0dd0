/** The Throttler as an object, one call at a time, over a MultiQueue object. */
module Throttlers {
  import opened Jobs
  import opened MultiQueues
  import opened ThrottlerSteps
  import opened ThrottlerDecision

  /** Whether a dequeuer's decision releases the secondary queue: primary work is at its target, a
      secondary dequeuer is waiting, and there is nothing for it. */
  ghost predicate Releases(l: Ledger, a: Queues)
    requires Sound(l) && |a| == 2
  {
    l.count[PRIMARY] + |a[PRIMARY]| >= l.targets[PRIMARY] && l.waiting[SECONDARY] && a[SECONDARY] == []
  }

  /** A flag or gate list after such a release. */
  ghost function Raised(bits: seq<bool>, release: bool): seq<bool>
    requires |bits| == 2
  {
    if release then bits[SECONDARY := true] else bits
  }

  class Throttler {
    const queue: MultiQueue
    var targets: seq<int>
    var open: seq<bool>  // the throttle blocks: true is unlocked
    var counts: seq<int>
    var primaryWaiting: bool
    var secondaryWaiting: bool

    ghost function Books(): Ledger
      reads this
    {
      Ledger(targets, open, [primaryWaiting, secondaryWaiting], counts)
    }

    ghost predicate Valid()
      reads this, queue
    {
      queue.Valid() && queue.maxPrio == 1 && Sound(Books())
    }

    constructor (q: MultiQueue, goals: seq<int>)
      requires q.Valid() && q.maxPrio == 1 && |goals| == 2 && goals != [0, 0]
      ensures Valid() && queue == q && targets == goals && counts == [0, 0]
      ensures forall p :: 0 <= p < 2 ==> open[p] == Books().waiting[p] == (goals[p] != 0)
      ensures (forall p :: 0 <= p < 2 ==> goals[p] >= 0) ==> Bounded(Books())
    {
      queue, targets := q, goals;
      var zeros: seq<int>, blocks, primary, secondary := [], [true, true], false, false;
      for i := 0 to 2
        invariant zeros == seq(i, _ => 0)
      {
        zeros := zeros + [0];
      }
      for p := 0 to 2
        invariant |blocks| == 2 && forall r :: 0 <= r < 2 ==> blocks[r] == (r >= p || goals[r] != 0)
        invariant primary == (p > 0 && goals[0] != 0) && secondary == (p > 1 && goals[1] != 0)
      {
        if goals[p] == 0 {
          blocks := blocks[p := false];
        } else if p == 0 {
          primary := true;
        } else {
          secondary := true;
        }
      }
      counts, open, primaryWaiting, secondaryWaiting := zeros, blocks, primary, secondary;
    }

    /** The decision of a dequeuer, which has its permit when it gets here. */
    method DecideAfterScheduling(p: nat)
      requires Valid() && p < 2 && !open[p]
      modifies this, queue
      ensures Valid() && queue.Contents() == old(queue.Contents()) && queue.released == old(queue.released)
      ensures var l := old(Books()).(waiting := old(Books()).waiting[p := false]);
              && Books() == Decided(l, |queue.Contents()[PRIMARY]|)
              && queue.flags == Raised(old(queue.flags), Releases(l, queue.Contents()))
              && queue.gates == Raised(old(queue.gates), Releases(l, queue.Contents()))
    {
      if p == 0 {
        primaryWaiting := false;
      } else {
        secondaryWaiting := false;
      }
      var size := queue.Size(PRIMARY);
      var load := counts[PRIMARY] + size;
      var attempted := false;
      if counts[PRIMARY] < targets[PRIMARY] && !primaryWaiting {
        primaryWaiting := true;
        open := open[PRIMARY := true];
        attempted := true;
      }
      if load >= targets[PRIMARY] {
        if secondaryWaiting {
          queue.ReleaseOne(SECONDARY);
        }
      } else if counts[SECONDARY] < targets[SECONDARY] && !secondaryWaiting && !attempted {
        secondaryWaiting := true;
        open := open[SECONDARY := true];
      }
    }

    method DecideCompleting()
      requires Valid()
      modifies this
      ensures Valid() && Books() == Decided(old(Books()), |queue.Contents()[PRIMARY]|)
    {
      var size := queue.Size(PRIMARY);
      var load := counts[PRIMARY] + size;
      var attempted := false;
      if counts[PRIMARY] < targets[PRIMARY] && !primaryWaiting {
        primaryWaiting := true;
        open := open[PRIMARY := true];
        attempted := true;
      }
      if load < targets[PRIMARY] && counts[SECONDARY] < targets[SECONDARY] && !secondaryWaiting && !attempted {
        secondaryWaiting := true;
        open := open[SECONDARY := true];
      }
    }

    /** The destructor of a job: one job less, then a decision. */
    method DecrementJobCount(p: nat)
      requires Valid() && p < 2
      modifies this
      ensures Valid() && Books() == Decided(old(Books()).(count := old(counts)[p := old(counts)[p] - 1]), |queue.Contents()[PRIMARY]|)
      ensures old(Bounded(Books())) ==> Bounded(Books())
      ensures !Lacks(Books(), PRIMARY)
    {
      counts := counts[p := counts[p] - 1];
      DecidedIsSafe(Books(), |queue.Contents()[PRIMARY]|);
      DecideCompleting();
    }

    /** What follows the fetch: the constructor of the job counts it, then a decision. */
    method Settle(p: nat, got: bool)
      requires Valid() && p < 2 && !open[p]
      modifies this, queue
      ensures Valid() && targets == old(targets) && queue.Contents() == old(queue.Contents()) && queue.released == old(queue.released)
      ensures counts == if got then old(counts)[p := old(counts)[p] + 1] else old(counts)
      ensures var l := old(Books()).(waiting := old(Books()).waiting[p := false], count := counts);
              && Books() == Decided(l, |queue.Contents()[PRIMARY]|)
              && queue.flags == Raised(old(queue.flags), Releases(l, queue.Contents()))
              && queue.gates == Raised(old(queue.gates), Releases(l, queue.Contents()))
      ensures old(Books()).waiting[p] && old(Bounded(Books())) ==> Bounded(Books())
      ensures !Lacks(Books(), PRIMARY)
    {
      if got {
        counts := counts[p := counts[p] + 1];
      }
      ghost var l := Books().(waiting := Books().waiting[p := false]);
      assert old(Books()).waiting[p] && old(Bounded(Books())) ==> Bounded(l);
      DecidedIsSafe(l, |queue.Contents()[PRIMARY]|);
      DecideAfterScheduling(p);
    }

    /** Dequeue blocks at a locked throttle block without effect, or inside the queue with its permit
        spent; when it returns, it has counted the job it got and decided. */
    method Dequeue(p: nat) returns (r: Outcome)
      requires Valid() && p < 2
      modifies this, queue
      ensures Valid() && targets == old(targets) && queue.released == old(queue.released)
      ensures r.Got? <==> old(open[p]) && old(queue.gates[p]) && !old(queue.flags[p]) && old(queue.Contents())[p] != []
      ensures r.Null? <==> old(open[p]) && old(queue.gates[p]) && (old(queue.flags[p]) || (old(queue.Contents())[p] == [] && old(queue.released)))
      ensures r.Got? ==> r.job == old(queue.Contents())[p][0]
      ensures queue.Contents() == if r.Got? then PopFront(old(queue.Contents()), p) else old(queue.Contents())
      ensures counts == if r.Got? then old(counts)[p := old(counts)[p] + 1] else old(counts)
      ensures var was := old(Books());
              if r.Blocked? then Books() == was.(open := was.open[p := false])
              else
                var l := Ledger(targets, was.open[p := false], was.waiting[p := false], counts);
                Books() == Decided(l, |queue.Contents()[PRIMARY]|) && !Lacks(Books(), PRIMARY)
      ensures var was := old(Books());
              var release := !r.Blocked? && Releases(Ledger(targets, was.open[p := false], was.waiting[p := false], counts), queue.Contents());
              var passed := if old(open[p]) then old(queue.gates)[p := (r.Null? && !old(queue.flags[p])) || (r.Got? && queue.Contents()[p] != [])] else old(queue.gates);
              var taken := if r.Null? then old(queue.flags)[p := false] else old(queue.flags);
              queue.gates == Raised(passed, release) && queue.flags == Raised(taken, release)
      ensures old(Bounded(Books())) ==> Bounded(Books())
    {
      if !open[p] {
        assert open == open[p := false];
        return Blocked;
      }
      open := open[p := false];
      r := queue.Dequeue(p);
      if r.Blocked? {
        return;
      }
      Settle(p, r.Got?);
    }

    method SetThrottle(p: nat, threshold: int)
      requires Valid() && p < 2 && targets[p := threshold] != [0, 0]
      modifies this`targets
      ensures Valid() && targets == old(targets)[p := threshold]
      ensures old(Bounded(Books())) && threshold >= old(targets)[p] ==> Bounded(Books())
    {
      targets := targets[p := threshold];
    }
  }

  /** A secondary dequeuer parked in its empty queue, then a primary dequeue that returns.  If primary
      work is then at its target the parked one is let go: the next to pass its gate returns null.  If
      it is below, the secondary queue is left as it was. */
  method ParkThenPrimary(th: Throttler) returns (parked: Outcome, primary: Outcome, next: Outcome)
    requires th.Valid() && th.open[SECONDARY] && th.queue.Contents()[SECONDARY] == []
    requires !th.queue.flags[SECONDARY] && !th.queue.released
    modifies th, th.queue
    ensures th.Valid() && parked.Blocked?
    ensures !primary.Blocked? ==>
              var load := th.counts[PRIMARY] + |th.queue.Contents()[PRIMARY]|;
              if load >= th.targets[PRIMARY] then next.Null?
              else next.Blocked? && !th.queue.gates[SECONDARY] && !th.queue.flags[SECONDARY]
    ensures primary.Blocked? ==> next.Blocked?
    ensures th.queue.Contents()[SECONDARY] == []
  {
    parked := th.Dequeue(SECONDARY);
    primary := th.Dequeue(PRIMARY);
    next := th.queue.Dequeue(SECONDARY);
  }
}
