/** The loops of optimum-texo/session_manager.py over the shared queue and the
 *  reply futures, each proved equal to its function in SessionLedger.dfy.
 */
module SessionQueues {
  import opened SessionLedger

  class SessionQueue {
    var queue: seq<JobId>
    var unfinished: int
    var futures: seq<Future>
    var fault: bool

    function View(): Ledger
      reads this
    {
      Ledger(queue, unfinished, futures, fault)
    }

    /** `job.future.done()`. */
    predicate Done(job: JobId)
      reads this
    {
      View().Finished(job)
    }

    constructor ()
      ensures View() == Ledger([], 0, [], false)
    {
      queue, unfinished, futures, fault := [], 0, [], false;
    }

    /** `set_result` and `set_exception` raise on a finished future. */
    method SetReply(job: JobId, reply: Reply)
      modifies this
      ensures View() == old(View()).Finish(job, reply)
    {
      if job < |futures| && futures[job].Pending? {
        futures := futures[job := Future.Done(reply)];
      } else {
        fault := true;
      }
    }

    method TaskDone()
      modifies this
      ensures View() == old(View()).TaskDone()
    {
      if unfinished <= 0 {
        fault := true;
      } else {
        unfinished := unfinished - 1;
      }
    }

    method GetNowait() returns (job: JobId)
      requires queue != []
      modifies this
      ensures job == old(queue[0]) && View() == old(View()).Pop()
    {
      job := queue[0];
      queue := queue[1..];
    }

    /** Fills the batch of one consumer without waiting, skipping abandoned jobs. */
    method GatherReady(first: seq<JobId>, limit: nat) returns (jobs: seq<JobId>)
      modifies this
      ensures (View(), jobs) == old(View()).Gather(first, limit)
    {
      jobs := first;
      while |jobs| < limit && queue != []
        invariant View().Gather(jobs, limit) == old(View()).Gather(first, limit)
        decreases |queue|
      {
        var job := GetNowait();
        if Done(job) {
          TaskDone();
        } else {
          jobs := jobs + [job];
        }
      }
    }

    /** Groups the jobs whose callers still wait by their token budgets. */
    method GroupReady(jobs: seq<JobId>, budgets: seq<nat>) returns (groups: seq<Group>)
      requires forall k :: 0 <= k < |jobs| ==> jobs[k] < |budgets|
      ensures groups == View().Groups(jobs, budgets)
    {
      groups := [];
      for n := 0 to |jobs|
        invariant groups == View().Groups(jobs[..n], budgets)
      {
        assert jobs[..n + 1][..n] == jobs[..n];
        if !Done(jobs[n]) {
          groups := AddToGroup(groups, budgets[jobs[n]], jobs[n]);
        }
      }
      assert jobs[..|jobs|] == jobs;
    }

    /** Hands every waiting member of a group its own reply. */
    method Reply(group: seq<JobId>, replies: seq<SessionLedger.Reply>)
      requires |group| == |replies|
      modifies this
      ensures View() == old(View()).Settle(group, replies)
    {
      for n := 0 to |group|
        invariant View() == old(View()).Settle(group[..n], replies[..n])
      {
        assert group[..n + 1][..n] == group[..n] && replies[..n + 1][..n] == replies[..n];
        if !Done(group[n]) {
          SetReply(group[n], replies[n]);
        }
      }
      assert group[..|group|] == group && replies[..|group|] == replies;
    }

    /** The `finally` clause of one batch. */
    method ReleaseBatch(jobs: seq<JobId>)
      modifies this
      ensures View() == old(View()).Release(jobs)
    {
      for n := 0 to |jobs|
        invariant View() == old(View()).Release(jobs[..n])
      {
        assert jobs[..n + 1][..n] == jobs[..n];
        if !Done(jobs[n]) {
          SetReply(jobs[n], Stopped);
        }
        TaskDone();
      }
      assert jobs[..|jobs|] == jobs;
    }

    /** The last loop of `close`. */
    method DrainQueue()
      modifies this
      ensures View() == old(View()).DrainAll()
    {
      while queue != []
        invariant View().DrainAll() == old(View()).DrainAll()
        decreases |queue|
      {
        var job := GetNowait();
        if !Done(job) {
          SetReply(job, Stopped);
        }
        TaskDone();
      }
    }
  }
}
