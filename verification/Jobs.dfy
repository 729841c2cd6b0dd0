/** The simple thing a MultiQueue stands for: one sequence of jobs per priority.
    Enqueue appends, Dequeue takes the front, Purge filters one id out everywhere. */
module Jobs {

  type JobId = nat

  /** A job object.  `data` stands for the payload the job owns; two different
      objects may carry the same id and the same priority. */
  datatype Job = Job(id: JobId, prio: nat, data: nat)

  datatype Option<+T> = None | Some(value: T)

  type Tid = nat

  /** The owner of a lock once thread `t` holds it, or not. */
  function Owner(x: Option<Tid>, t: Tid, holds: bool): Option<Tid> {
    if holds then Some(t) else if x == Some(t) then None else x
  }

  function One(b: bool): nat {
    if b then 1 else 0
  }

  type Queues = seq<seq<Job>>

  function Append(a: Queues, j: Job): Queues
    requires j.prio < |a|
  {
    a[j.prio := a[j.prio] + [j]]
  }

  function PopFront(a: Queues, p: nat): Queues
    requires p < |a| && a[p] != []
  {
    a[p := a[p][1..]]
  }

  /** The jobs of `js` that do not carry `id`, in order. */
  function Without(js: seq<Job>, id: JobId): seq<Job> {
    if js == [] then []
    else (if js[0].id == id then [] else [js[0]]) + Without(js[1..], id)
  }

  function Filter(a: Queues, id: JobId): Queues {
    seq(|a|, p requires 0 <= p < |a| => Without(a[p], id))
  }

  /** How many jobs of `js` carry `id`. */
  function Matching(js: seq<Job>, id: JobId): nat {
    if js == [] then 0
    else (if js[0].id == id then 1 else 0) + Matching(js[1..], id)
  }

  /** How many jobs of the first `n` queues carry `id`. */
  function Occurrences(a: Queues, id: JobId, n: nat): nat
    requires n <= |a|
  {
    if n == 0 then 0 else Occurrences(a, id, n - 1) + Matching(a[n - 1], id)
  }
}
