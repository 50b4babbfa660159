/**
 * The job queue (`ClangBackEnd::JobQueue`): holds pending requests and, on each
 * `processQueue`, drops the out-of-date ones, orders the rest by priority and hands back the
 * requests that may run now, at most one per document.
 */
module ClangJobQueue {
  import opened RegistryStates
  import opened TranslationUnits
  import opened JobRequests
  import opened JobQueueSpec

  class JobQueue {
    const registry: Registry
    var queue: seq<JobRequest>
    /** The injected oracle telling whether a job for a document is executing. */
    var isJobRunning: DocumentId -> bool

    /** A new queue is empty and, until a handler is set, believes no job is running. */
    constructor (registry: Registry)
      ensures this.registry == registry && queue == []
      ensures forall id :: !isJobRunning(id)
    {
      this.registry := registry;
      queue := [];
      isJobRunning := (id: DocumentId) => false;
    }

    function Size(): nat
      reads this
    {
      |queue|
    }

    /** Appends the request unconditionally. */
    method Add(jobRequest: JobRequest)
      modifies this`queue
      ensures queue == old(queue) + [jobRequest]
      ensures Size() == old(Size()) + 1
    {
      queue := queue + [jobRequest];
    }

    method SetIsJobRunningHandler(isJobRunning: DocumentId -> bool)
      modifies this`isJobRunning
      ensures this.isJobRunning == isJobRunning
    {
      this.isJobRunning := isJobRunning;
    }

    /** Keeps the requests that are still current, in order. */
    method RemoveOutDatedRequests()
      modifies this`queue
      ensures queue == Pruned(registry.State(), old(queue))
    {
      var st := registry.State();
      var cleaned := [];
      for i := 0 to |queue|
        invariant cleaned == Pruned(st, queue[..i])
      {
        assert queue[..i + 1][..i] == queue[..i];
        if !IsOutdated(st, queue[i]) {
          cleaned := cleaned + [queue[i]];
        }
      }
      assert queue[..|queue|] == queue;
      queue := cleaned;
    }

    /**
     * Stable reordering by priority: current-editor requests, then visible ones, then the
     * rest, each group in its queued order.
     */
    method PrioritizeRequests()
      modifies this`queue
      ensures queue == Prioritized(registry.State(), old(queue))
      ensures multiset(queue) == multiset(old(queue))
    {
      var st := registry.State();
      var current, visible, others := [], [], [];
      for i := 0 to |queue|
        invariant current == WithRank(st, queue[..i], 2)
        invariant visible == WithRank(st, queue[..i], 1)
        invariant others == WithRank(st, queue[..i], 0)
      {
        assert queue[..i + 1][..i] == queue[..i];
        var rank := Rank(st, queue[i]);
        if rank == 2 {
          current := current + [queue[i]];
        } else if rank == 1 {
          visible := visible + [queue[i]];
        } else {
          others := others + [queue[i]];
        }
      }
      assert queue[..|queue|] == queue;
      PrioritizedIsPermutation(st, queue);
      queue := current + visible + others;
    }

    /**
     * Walks the queue front to back and takes every runnable request whose document has not
     * been scheduled yet in this pass; the others stay queued in order.
     */
    method TakeJobRequestsToRunNow() returns (jobsToRun: seq<JobRequest>)
      modifies this`queue
      ensures var s := Select(registry.State(), isJobRunning, old(queue));
        jobsToRun == s.batch && queue == s.rest
    {
      var st, running, q := registry.State(), isJobRunning, queue;
      var kept, scheduled := [], {};
      jobsToRun := [];
      for i := 0 to |q|
        invariant Select(st, running, q[..i]) == Selection(jobsToRun, kept, scheduled)
      {
        SelectPrefix(st, running, q, i);
        var jobRequest := q[i];
        if Runnable(st, running, jobRequest) && jobRequest.Document() !in scheduled {
          scheduled := scheduled + {jobRequest.Document()};
          jobsToRun := jobsToRun + [jobRequest];
        } else {
          kept := kept + [jobRequest];
        }
      }
      assert q[..|q|] == q;
      queue := kept;
    }

    /** Prune, prioritize, then take the batch to run now. */
    method ProcessQueue() returns (jobsToRun: seq<JobRequest>)
      modifies this`queue
      ensures var s := Process(registry.State(), isJobRunning, old(queue));
        jobsToRun == s.batch && queue == s.rest
    {
      RemoveOutDatedRequests();
      PrioritizeRequests();
      jobsToRun := TakeJobRequestsToRunNow();
    }
  }
}
