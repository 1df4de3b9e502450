/**
 * Construction of the worker pool. The registry of idle workers is a
 * channel of worker inboxes (`chan chan Job`) whose capacity is the pool
 * size. `Run` creates one worker per pool slot, numbered from 0, each with
 * its own unbuffered inbox and quit channel and all sharing that registry.
 * Starting the workers and the dispatch loop are goroutines and are not
 * part of this model.
 */
module Dispatch {
  import opened Jobs
  import opened Channels

  /** A worker as `NewWorker` builds it; Go never updates these fields. */
  datatype Worker = Worker(id: int, inbox: Channel<Job>, pool: Channel<Channel<Job>>, quit: Channel<bool>)

  /** `NewWorker(id, workerPool)`: fresh unbuffered inbox and quit channels, and the shared registry. */
  method NewWorker(id: int, pool: Channel<Channel<Job>>) returns (w: Worker)
    ensures w.id == id && w.pool == pool
    ensures fresh(w.inbox) && w.inbox.capacity == 0 && w.inbox.buffer == []
    ensures fresh(w.quit) && w.quit.capacity == 0 && w.quit.buffer == []
  {
    var inbox := new Channel<Job>(0);
    var quit := new Channel<bool>(0);
    w := Worker(id, inbox, pool, quit);
  }

  class Dispatcher {
    const pool: Channel<Channel<Job>>
    const maxWorkers: int
    const jobQueue: Channel<Job>

    /**
     * `NewDispatcher(jobQueue, maxWorkers)`: a new empty registry with room
     * for every worker, and the caller's job queue. Go's `make` panics on a
     * negative capacity, so the pool size is required to be non-negative.
     */
    constructor NewDispatcher(jobQueue: Channel<Job>, maxWorkers: int)
      requires 0 <= maxWorkers
      ensures this.jobQueue == jobQueue && this.maxWorkers == maxWorkers
      ensures fresh(pool) && pool.Valid() && pool.capacity == maxWorkers && pool.buffer == []
    {
      pool := new Channel<Channel<Job>>(maxWorkers);
      this.maxWorkers := maxWorkers;
      this.jobQueue := jobQueue;
    }

    /**
     * The worker-creation loop of `Run`: workers 0 to maxWorkers - 1, in
     * order, each pointing at this dispatcher's registry, none sharing an
     * inbox or a quit channel with another or with the job queue. Nothing
     * that existed before is changed; in particular the registry stays as it
     * was, since workers only register once started.
     */
    method Run() returns (workers: seq<Worker>)
      ensures |workers| == if maxWorkers < 0 then 0 else maxWorkers
      ensures forall i :: 0 <= i < |workers| ==> workers[i].id == i && workers[i].pool == pool
      ensures forall i :: 0 <= i < |workers| ==>
                workers[i].inbox.capacity == 0 && workers[i].inbox.buffer == []
                && workers[i].quit.capacity == 0 && workers[i].quit.buffer == []
      ensures forall i :: 0 <= i < |workers| ==> workers[i].inbox != jobQueue
      ensures forall i, j :: 0 <= i < j < |workers| ==>
                workers[i].inbox != workers[j].inbox && workers[i].quit != workers[j].quit
    {
      workers := [];
      var i := 0;
      while i < maxWorkers
        invariant 0 <= i && |workers| == i
        invariant maxWorkers < 0 ==> i == 0
        invariant 0 <= maxWorkers ==> i <= maxWorkers
        invariant forall k :: 0 <= k < i ==> workers[k].id == k && workers[k].pool == pool
        invariant forall k :: 0 <= k < i ==>
                    fresh(workers[k].inbox) && workers[k].inbox.capacity == 0 && workers[k].inbox.buffer == []
                    && fresh(workers[k].quit) && workers[k].quit.capacity == 0 && workers[k].quit.buffer == []
        invariant forall k, l :: 0 <= k < l < i ==>
                    workers[k].inbox != workers[l].inbox && workers[k].quit != workers[l].quit
      {
        var worker := NewWorker(i, pool);
        workers := workers + [worker];
        i := i + 1;
      }
    }
  }

  /**
   * `NewDispatcher` followed by the loop of `Run`: the registry has exactly
   * one slot per worker built, so every worker can advertise itself idle at
   * once without blocking, and all of them share that one registry.
   */
  method BuildPool(jobQueue: Channel<Job>, maxWorkers: nat) returns (d: Dispatcher, workers: seq<Worker>)
    ensures d.jobQueue == jobQueue && d.maxWorkers == maxWorkers
    ensures d.pool.capacity == |workers| == maxWorkers && d.pool.buffer == []
    ensures forall i :: 0 <= i < |workers| ==> workers[i].id == i && workers[i].pool == d.pool
    ensures forall i, j :: 0 <= i < j < |workers| ==> workers[i].inbox != workers[j].inbox
  {
    d := new Dispatcher.NewDispatcher(jobQueue, maxWorkers);
    workers := d.Run();
  }
}
