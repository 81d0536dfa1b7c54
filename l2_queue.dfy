/** The L2 job queue (diagnostic_l2/l2_queue.py): a bounded FIFO with a
    non-blocking `enqueue` that drops a job when full, a worker started at
    most once, a stop flag, and the worker loop that takes jobs in order and
    survives a failing worker function. The worker thread is modelled as
    steps run in sequence by the caller. */
module JobQueue {
  import opened Features

  /** What one pass of the worker loop `_run` did. */
  datatype LoopPass<Job> =
    | StopSeen                          // the stop flag ended the loop
    | Empty                             // `get(timeout=1)` raised `queue.Empty`
    | Handled(job: Job, failed: bool)   // `worker_fn(job)` ran; `failed` when it raised

  /** `queue.Queue(maxsize)` holds at most `maxsize` items, or any number when
      `maxsize <= 0`. */
  predicate HasRoom(maxsize: int, size: nat) {
    maxsize <= 0 || size < maxsize
  }

  class L2JobQueue<Job> {
    const maxsize: int
    /** The jobs waiting in `self.queue`, oldest first. */
    var items: seq<Job>
    /** `self._worker`: set once `start` ran, holding its `worker_fn`, seen
        only through whether it raises on a job. */
    var worker: Option<Job -> bool>
    /** `self._stop_event` is set. */
    var stopped: bool
    /** `unfinished_tasks` of `self.queue`: one per put, minus one per `task_done`. */
    var unfinishedTasks: nat
    /** Every job accepted by `enqueue` and every job taken by the worker, in order. */
    ghost var accepted: seq<Job>
    ghost var taken: seq<Job>

    /** The queue never exceeds its bound; it holds the accepted jobs not yet
        taken, in order; every taken job was marked done. */
    ghost predicate Valid()
      reads this
    {
      && (maxsize > 0 ==> |items| <= maxsize)
      && accepted == taken + items
      && unfinishedTasks == |items|
    }

    constructor (maxsize: int)
      ensures Valid() && this.maxsize == maxsize
      ensures items == [] && worker == None && !stopped && accepted == [] && taken == []
    {
      this.maxsize := maxsize;
      items := [];
      worker := None;
      stopped := false;
      unfinishedTasks := 0;
      accepted := [];
      taken := [];
    }

    /** `start`: installs the worker function unless one is already there. */
    method Start(workerRaises: Job -> bool)
      requires Valid()
      modifies this
      ensures Valid()
      ensures worker == if old(worker).Some? then old(worker) else Some(workerRaises)
      ensures items == old(items) && stopped == old(stopped) && accepted == old(accepted) && taken == old(taken)
    {
      if worker.Some? {
        return;
      }
      worker := Some(workerRaises);
    }

    /** `stop`: sets the stop flag. */
    method Stop()
      requires Valid()
      modifies this
      ensures Valid() && stopped
      ensures items == old(items) && worker == old(worker) && accepted == old(accepted) && taken == old(taken)
    {
      stopped := true;
    }

    /** `enqueue`: `put_nowait` appends at the tail when there is room and
        reports `True`; on `queue.Full` the job is dropped and `False` returned. */
    method Enqueue(job: Job) returns (ok: bool)
      requires Valid()
      modifies this
      ensures Valid()
      ensures ok <==> HasRoom(maxsize, |old(items)|)
      ensures items == if ok then old(items) + [job] else old(items)
      ensures accepted == if ok then old(accepted) + [job] else old(accepted)
      ensures taken == old(taken) && worker == old(worker) && stopped == old(stopped)
    {
      if maxsize > 0 && |items| >= maxsize {
        return false;
      }
      items := items + [job];
      unfinishedTasks := unfinishedTasks + 1;
      accepted := accepted + [job];
      ok := true;
    }

    /** One pass of `_run`'s loop: stop when the flag is set; otherwise take
        the oldest job, run the worker on it (an exception it raises is
        caught), and mark it done either way. */
    method Pass() returns (p: LoopPass<Job>)
      requires Valid() && worker.Some?
      modifies this
      ensures Valid()
      ensures accepted == old(accepted) && worker == old(worker) && stopped == old(stopped)
      ensures old(stopped) ==> p == StopSeen && items == old(items) && taken == old(taken)
      ensures !old(stopped) && old(items) == [] ==> p == Empty && items == [] && taken == old(taken)
      ensures !old(stopped) && old(items) != [] ==>
        && p == Handled(old(items)[0], worker.value(old(items)[0]))
        && items == old(items)[1..]
        && taken == old(taken) + [old(items)[0]]
    {
      if stopped {
        return StopSeen;
      }
      if items == [] {
        return Empty;
      }
      var job := items[0];
      items := items[1..];
      taken := taken + [job];
      var failed := worker.value(job);
      unfinishedTasks := unfinishedTasks - 1;
      p := Handled(job, failed);
    }

    /** `_run` for `passes` passes of its loop, or until the stop flag is seen:
        the jobs handled are the oldest waiting ones, in order, and a failing
        job does not end the loop. */
    method Run(passes: nat) returns (handled: seq<Job>)
      requires Valid() && worker.Some?
      modifies this
      ensures Valid()
      ensures old(stopped) ==> handled == [] && items == old(items)
      ensures !old(stopped) ==>
        var n := if passes < |old(items)| then passes else |old(items)|;
        handled == old(items)[..n] && items == old(items)[n..]
      ensures taken == old(taken) + handled && accepted == old(accepted)
    {
      handled := [];
      var i := 0;
      while i < passes
        invariant Valid() && worker.Some? && stopped == old(stopped)
        invariant 0 <= i <= passes
        invariant old(stopped) ==> handled == [] && items == old(items)
        invariant !old(stopped) ==>
          var n := if i < |old(items)| then i else |old(items)|;
          handled == old(items)[..n] && items == old(items)[n..]
        invariant taken == old(taken) + handled && accepted == old(accepted)
      {
        var p := Pass();
        if p.StopSeen? {
          break;
        }
        if p.Handled? {
          handled := handled + [p.job];
        }
        i := i + 1;
      }
    }
  }
}
