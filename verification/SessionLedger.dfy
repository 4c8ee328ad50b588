/** The bookkeeping that optimum-texo/session_manager.py shares between callers,
 *  consumers and `close`: the queue, its unfinished-task counter and the reply
 *  futures. The loops of `_consume_batch` and `close` are given here twice: as
 *  functions, on which the protocol in SessionProtocol.dfy is built, and as the
 *  loops of class `SessionQueue`, proved equal to those functions.
 */
module SessionLedger {
  import opened TexoRuntime

  /** Calls of `submit` are numbered; a job and its future carry that number. */
  type JobId = nat

  datatype Reply = Answer(outcome: Outcome) | InferenceFailed | Stopped

  datatype Future = Pending | Cancelled | Done(reply: Reply)

  /** Jobs that share one token budget, in admission order. */
  datatype Group = Group(budget: nat, jobs: seq<JobId>)

  /** `fault` records an InvalidStateError (a reply to a finished future) or the
   *  ValueError of one `task_done` too many. Neither is caught by the source.
   */
  datatype Ledger = Ledger(queue: seq<JobId>, unfinished: int, futures: seq<Future>, fault: bool)
  {
    predicate Finished(job: JobId) {
      job < |futures| && !futures[job].Pending?
    }

    /** `future.set_result` or `future.set_exception`. */
    function Finish(job: JobId, reply: Reply): Ledger {
      if job < |futures| && futures[job].Pending?
      then this.(futures := futures[job := Done(reply)])
      else this.(fault := true)
    }

    /** `future.cancel()`, which leaves a finished future alone. */
    function Cancel(job: JobId): Ledger {
      if job < |futures| && futures[job].Pending?
      then this.(futures := futures[job := Cancelled])
      else this
    }

    function TaskDone(): Ledger {
      if unfinished <= 0 then this.(fault := true) else this.(unfinished := unfinished - 1)
    }

    function Put(job: JobId): Ledger {
      this.(queue := queue + [job], unfinished := unfinished + 1)
    }

    function Pop(): Ledger
      requires queue != []
    {
      this.(queue := queue[1..])
    }

    function SettleOne(job: JobId, reply: Reply): Ledger {
      if Finished(job) then this else Finish(job, reply)
    }

    function ReleaseOne(job: JobId): Ledger {
      SettleOne(job, Stopped).TaskDone()
    }

    /** Replies to every member of a group that is still waiting. */
    function Settle(group: seq<JobId>, replies: seq<Reply>): Ledger
      requires |group| == |replies|
    {
      if group == [] then this
      else
        var n := |group| - 1;
        Settle(group[..n], replies[..n]).SettleOne(group[n], replies[n])
    }

    /** The `finally` loop of one batch. */
    function Release(batch: seq<JobId>): Ledger {
      if batch == [] then this
      else Release(batch[..|batch| - 1]).ReleaseOne(batch[|batch| - 1])
    }

    /** The `get_nowait` loop that fills a batch up to `limit`. */
    function Gather(batch: seq<JobId>, limit: nat): (r: (Ledger, seq<JobId>))
      decreases |queue|
    {
      if |batch| >= limit || queue == [] then (this, batch)
      else if Finished(queue[0]) then Pop().TaskDone().Gather(batch, limit)
      else Pop().Gather(batch + [queue[0]], limit)
    }

    /** The final drain of `close`. */
    function DrainAll(): Ledger
      decreases |queue|
    {
      if queue == [] then this else Pop().ReleaseOne(queue[0]).DrainAll()
    }

    /** The `defaultdict` of unfinished jobs keyed by token budget, in insertion order. */
    function Groups(jobs: seq<JobId>, budgets: seq<nat>): seq<Group> {
      if jobs == [] then []
      else
        var n := |jobs| - 1;
        var rest := Groups(jobs[..n], budgets);
        if Finished(jobs[n]) || jobs[n] >= |budgets| then rest
        else AddToGroup(rest, budgets[jobs[n]], jobs[n])
    }

    /** The members of a group whose callers are still waiting. */
    function Waiting(jobs: seq<JobId>): (r: seq<JobId>)
      ensures forall j :: j in r ==> j in jobs && !Finished(j)
      ensures forall j :: j in jobs && !Finished(j) ==> j in r
      ensures |r| <= |jobs|
    {
      if jobs == [] then []
      else
        var n := |jobs| - 1;
        assert jobs == jobs[..n] + [jobs[n]];
        Waiting(jobs[..n]) + if Finished(jobs[n]) then [] else [jobs[n]]
    }
  }

  function AddToGroup(groups: seq<Group>, budget: nat, job: JobId): seq<Group> {
    if groups == [] then [Group(budget, [job])]
    else if groups[0].budget == budget
    then [Group(budget, groups[0].jobs + [job])] + groups[1..]
    else [groups[0]] + AddToGroup(groups[1..], budget, job)
  }

  /** `places` lists every job that was enqueued and not yet reported with
   *  `task_done`: each is there once, and the counter counts exactly them.
   */
  ghost predicate Books(l: Ledger, places: multiset<JobId>) {
    && !l.fault
    && l.unfinished == |places|
    && multiset(l.queue) <= places
    && forall j :: j in places ==> places[j] == 1 && j < |l.futures|
  }

  /** `later` differs from `earlier` only in futures that were pending. */
  ghost predicate OnlyFinishes(earlier: Ledger, later: Ledger) {
    && |earlier.futures| == |later.futures|
    && forall j :: 0 <= j < |earlier.futures| && !earlier.futures[j].Pending? ==>
         later.futures[j] == earlier.futures[j]
  }

  /** The only replies given between the two are "service stopped". */
  ghost predicate OnlyStops(earlier: Ledger, later: Ledger) {
    && OnlyFinishes(earlier, later)
    && forall j :: 0 <= j < |earlier.futures| && later.futures[j] != earlier.futures[j] ==>
         later.futures[j] == Done(Stopped)
  }

  /** What removing the last element means for membership and for counting. */
  lemma SplitLast(s: seq<JobId>)
    requires s != []
    ensures s[|s| - 1] in s && forall j :: j in s[..|s| - 1] ==> j in s
    ensures forall j :: j in s ==> j in s[..|s| - 1] || j == s[|s| - 1]
    ensures multiset(s) == multiset(s[..|s| - 1]) + multiset{s[|s| - 1]}
  {
    assert s == s[..|s| - 1] + [s[|s| - 1]];
  }

  /** What removing the first element means for membership and for counting. */
  lemma SplitFirst<T>(s: seq<T>)
    requires s != []
    ensures s[0] in s && forall x :: x in s[1..] ==> x in s
    ensures forall x :: x in s ==> x == s[0] || x in s[1..]
    ensures multiset(s) == multiset{s[0]} + multiset(s[1..])
  {
    assert s == [s[0]] + s[1..];
  }

  /** Replying to a group completes its waiting members, never a finished
   *  future, and touches nothing else. */
  lemma {:induction false} SettleRepliesOnce(l: Ledger, group: seq<JobId>, replies: seq<Reply>)
    requires |group| == |replies|
    requires forall k :: 0 <= k < |group| ==> group[k] < |l.futures|
    ensures var r := l.Settle(group, replies);
            && r.queue == l.queue && r.unfinished == l.unfinished && r.fault == l.fault
            && OnlyFinishes(l, r)
            && (forall j :: j in group ==> r.Finished(j))
            && (forall j :: 0 <= j < |l.futures| && r.futures[j] != l.futures[j] ==>
                  exists k :: 0 <= k < |group| && group[k] == j && r.futures[j] == Done(replies[k]))
  {
    if group != [] {
      var n := |group| - 1;
      SplitLast(group);
      SettleRepliesOnce(l, group[..n], replies[..n]);
      var p := l.Settle(group[..n], replies[..n]);
      var r := l.Settle(group, replies);
      forall j | 0 <= j < |l.futures| && r.futures[j] != l.futures[j]
        ensures exists k :: 0 <= k < |group| && group[k] == j && r.futures[j] == Done(replies[k])
      {
        if p.futures[j] != l.futures[j] {
          var k :| 0 <= k < n && group[..n][k] == j && p.futures[j] == Done(replies[..n][k]);
          assert group[k] == j && r.futures[j] == Done(replies[k]);
        } else {
          assert group[n] == j && r.futures[j] == Done(replies[n]);
        }
      }
    }
  }

  lemma ReleaseOneBalances(l: Ledger, job: JobId, rest: multiset<JobId>)
    requires Books(l, rest + multiset{job}) && multiset(l.queue) <= rest
    ensures Books(l.ReleaseOne(job), rest)
    ensures l.ReleaseOne(job).queue == l.queue
    ensures OnlyStops(l, l.ReleaseOne(job)) && l.ReleaseOne(job).Finished(job)
  {
    assert job in rest + multiset{job};
    assert forall j :: j in rest ==> j in rest + multiset{job};
  }

  /** Releasing a batch calls `task_done` once for each of its jobs and leaves
   *  none of their callers waiting. */
  lemma {:induction false} ReleaseBalances(l: Ledger, batch: seq<JobId>, rest: multiset<JobId>)
    requires Books(l, rest + multiset(batch)) && multiset(l.queue) <= rest
    ensures var r := l.Release(batch);
            && Books(r, rest)
            && r.queue == l.queue
            && OnlyStops(l, r)
            && (forall j :: j in batch ==> r.Finished(j))
  {
    if batch == [] {
      assert rest + multiset(batch) == rest;
    } else {
      var n := |batch| - 1;
      SplitLast(batch);
      assert rest + multiset(batch) == rest + multiset{batch[n]} + multiset(batch[..n]);
      ReleaseBalances(l, batch[..n], rest + multiset{batch[n]});
      ReleaseOneBalances(l.Release(batch[..n]), batch[n], rest);
    }
  }

  lemma PutBalances(l: Ledger, job: JobId, places: multiset<JobId>)
    requires Books(l, places) && job !in places && job < |l.futures|
    ensures Books(l.Put(job), places + multiset{job})
  {
    assert multiset(l.queue + [job]) == multiset(l.queue) + multiset{job};
  }

  lemma SkipBalances(l: Ledger, job: JobId, rest: multiset<JobId>)
    requires l.queue != [] && l.queue[0] == job
    requires Books(l, multiset{job} + rest) && multiset(l.queue[1..]) <= rest
    ensures Books(l.Pop().TaskDone(), rest)
  {
    assert forall j :: j in rest ==> j in multiset{job} + rest;
  }

  /** Filling a batch moves jobs from the queue into it and settles the account
   *  of the finished jobs it skips. */
  lemma {:induction false} GatherBalances(l: Ledger, batch: seq<JobId>, limit: nat,
                                          others: multiset<JobId>)
    requires Books(l, multiset(l.queue) + multiset(batch) + others)
    decreases |l.queue|
    ensures var (r, filled) := l.Gather(batch, limit);
            Books(r, multiset(r.queue) + multiset(filled) + others)
  {
    if |batch| < limit && l.queue != [] {
      var j := l.queue[0];
      SplitFirst(l.queue);
      var rest := multiset(l.queue[1..]) + multiset(batch) + others;
      assert multiset(l.queue) + multiset(batch) + others == multiset{j} + rest;
      if l.Finished(j) {
        SkipBalances(l, j, rest);
        GatherBalances(l.Pop().TaskDone(), batch, limit, others);
      } else {
        assert multiset(l.queue[1..]) + multiset(batch + [j]) + others == multiset{j} + rest;
        GatherBalances(l.Pop(), batch + [j], limit, others);
      }
    }
  }

  /** Filling a batch loses only finished jobs and never overfills it. */
  lemma {:induction false} GatherKeeps(l: Ledger, batch: seq<JobId>, limit: nat)
    decreases |l.queue|
    ensures var (r, filled) := l.Gather(batch, limit);
            && r.futures == l.futures
            && |r.queue| <= |l.queue|
            && (|batch| <= limit ==> |filled| <= limit)
            && (forall j :: j in r.queue ==> j in l.queue)
            && (forall j :: j in filled ==> j in batch || j in l.queue)
            && (forall j :: j in l.queue || j in batch ==>
                  j in r.queue || j in filled || l.Finished(j))
  {
    if |batch| < limit && l.queue != [] {
      var j := l.queue[0];
      SplitFirst(l.queue);
      if l.Finished(j) {
        GatherKeeps(l.Pop().TaskDone(), batch, limit);
      } else {
        GatherKeeps(l.Pop(), batch + [j], limit);
      }
    }
  }

  /** From `l` and `batch`, the first `n` jobs of the queue were taken, in their order, and
   *  those that still wait were kept. */
  ghost predicate TakenFromFront(l: Ledger, batch: seq<JobId>, r: Ledger, filled: seq<JobId>, n: nat) {
    n <= |l.queue| && r.queue == l.queue[n..] && filled == batch + l.Waiting(l.queue[..n])
  }

  lemma TakeOneMore(l: Ledger, batch: seq<JobId>, next: Ledger, r: Ledger, filled: seq<JobId>, m: nat)
    requires l.queue != [] && next.queue == l.queue[1..] && next.futures == l.futures
    requires TakenFromFront(next, batch + if l.Finished(l.queue[0]) then [] else [l.queue[0]], r, filled, m)
    ensures TakenFromFront(l, batch, r, filled, m + 1)
  {
    var j, taken := l.queue[0], next.queue[..m];
    var head := if l.Finished(j) then [] else [j];
    WaitingSame(next, l, taken);
    FrontAndRest(l.queue, m);
    WaitingFirst(l, j, taken);
    Regroup(batch, head, l.Waiting(taken));
  }

  lemma FrontAndRest<T>(s: seq<T>, m: nat)
    requires m < |s|
    ensures s[..m + 1] == [s[0]] + s[1..][..m] && s[m + 1..] == s[1..][m..]
  {
  }

  lemma Regroup<T>(a: seq<T>, b: seq<T>, c: seq<T>)
    ensures (a + b) + c == a + (b + c)
  {
  }

  /** A batch is filled from the front of the queue and ends up full, unless the queue is
   *  empty. */
  lemma {:induction false} GatherFills(l: Ledger, batch: seq<JobId>, limit: nat) returns (n: nat)
    ensures var (r, filled) := l.Gather(batch, limit);
            TakenFromFront(l, batch, r, filled, n) && (|filled| >= limit || r.queue == [])
    decreases |l.queue|
  {
    var (r, filled) := l.Gather(batch, limit);
    if |batch| >= limit || l.queue == [] {
      n := 0;
      assert l.queue[..0] == [];
    } else if l.Finished(l.queue[0]) {
      var m := GatherFills(l.Pop().TaskDone(), batch, limit);
      assert batch + [] == batch;
      TakeOneMore(l, batch, l.Pop().TaskDone(), r, filled, m);
      n := m + 1;
    } else {
      var m := GatherFills(l.Pop(), batch + [l.queue[0]], limit);
      TakeOneMore(l, batch, l.Pop(), r, filled, m);
      n := m + 1;
    }
  }

  lemma {:induction false} WaitingSame(a: Ledger, b: Ledger, jobs: seq<JobId>)
    requires a.futures == b.futures
    ensures a.Waiting(jobs) == b.Waiting(jobs)
  {
    if jobs != [] { WaitingSame(a, b, jobs[..|jobs| - 1]); }
  }

  lemma {:induction false} WaitingFirst(l: Ledger, j: JobId, jobs: seq<JobId>)
    ensures l.Waiting([j] + jobs) == (if l.Finished(j) then [] else [j]) + l.Waiting(jobs)
  {
    if jobs == [] {
      assert [j] + jobs == [j] && [j][..0] == [];
    } else {
      var n := |jobs| - 1;
      assert ([j] + jobs)[..n + 1] == [j] + jobs[..n];
      WaitingFirst(l, j, jobs[..n]);
    }
  }

  /** The drain of `close` empties the queue and leaves no queued caller waiting. */
  lemma {:induction false} DrainBalances(l: Ledger)
    requires Books(l, multiset(l.queue))
    decreases |l.queue|
    ensures var r := l.DrainAll();
            && Books(r, multiset{})
            && r.queue == []
            && OnlyStops(l, r)
            && (forall j :: j in l.queue ==> r.Finished(j))
  {
    if l.queue != [] {
      var j := l.queue[0];
      SplitFirst(l.queue);
      assert multiset(l.queue) == multiset(l.queue[1..]) + multiset{j};
      ReleaseOneBalances(l.Pop(), j, multiset(l.queue[1..]));
      DrainBalances(l.Pop().ReleaseOne(j));
    }
  }

  /** Grouping partitions the waiting jobs by budget: every group is homogeneous,
   *  its members are waiting members of the batch, and no waiting job is lost. */
  lemma {:induction false} GroupsPartition(l: Ledger, jobs: seq<JobId>, budgets: seq<nat>)
    requires forall k :: 0 <= k < |jobs| ==> jobs[k] < |budgets|
    ensures var gs := l.Groups(jobs, budgets);
            && (forall b: nat, j: JobId :: Member(gs, b, j) <==>
                  j in jobs && !l.Finished(j) && budgets[j] == b)
            && DistinctBudgets(gs)
  {
    if jobs != [] {
      var n := |jobs| - 1;
      SplitLast(jobs);
      GroupsPartition(l, jobs[..n], budgets);
      if !l.Finished(jobs[n]) {
        var rest := l.Groups(jobs[..n], budgets);
        AddToGroupMembers(rest, budgets[jobs[n]], jobs[n]);
        AddToGroupDistinct(rest, budgets[jobs[n]], jobs[n]);
      }
    }
  }

  /** One group per budget, as in a dictionary. */
  ghost predicate DistinctBudgets(groups: seq<Group>) {
    forall a, b :: 0 <= a < b < |groups| ==> groups[a].budget != groups[b].budget
  }

  ghost predicate Member(groups: seq<Group>, budget: nat, job: JobId) {
    exists g :: g in groups && g.budget == budget && job in g.jobs
  }

  lemma {:induction false} AddToGroupMembers(groups: seq<Group>, budget: nat, job: JobId)
    ensures forall b: nat, j: JobId :: Member(AddToGroup(groups, budget, job), b, j)
              <==> Member(groups, b, j) || (b == budget && j == job)
  {
    var r := AddToGroup(groups, budget, job);
    if groups == [] {
      assert r[0] in r;
    } else {
      SplitFirst(groups);
      SplitFirst(r);
      assert r[0] in r && groups[0] in groups;
      if groups[0].budget == budget {
        assert r[1..] == groups[1..];
        forall b: nat, j: JobId ensures Member(r, b, j) <==> Member(groups, b, j) || (b == budget && j == job) {
        }
      } else {
        AddToGroupMembers(groups[1..], budget, job);
        assert r[1..] == AddToGroup(groups[1..], budget, job);
        forall b: nat, j: JobId ensures Member(r, b, j) <==> Member(groups, b, j) || (b == budget && j == job) {
          assert Member(r, b, j) <==> (r[0].budget == b && j in r[0].jobs) || Member(r[1..], b, j);
          assert Member(groups, b, j) <==>
                 (groups[0].budget == b && j in groups[0].jobs) || Member(groups[1..], b, j);
        }
      }
    }
  }

  lemma {:induction false} AddToGroupDistinct(groups: seq<Group>, budget: nat, job: JobId)
    requires DistinctBudgets(groups)
    ensures var r := AddToGroup(groups, budget, job);
            && DistinctBudgets(r)
            && |groups| <= |r|
            && (forall k :: 0 <= k < |groups| ==> r[k].budget == groups[k].budget)
            && (forall k :: |groups| <= k < |r| ==> r[k].budget == budget)
  {
    if groups != [] && groups[0].budget != budget {
      AddToGroupDistinct(groups[1..], budget, job);
      var r, tail := AddToGroup(groups, budget, job), AddToGroup(groups[1..], budget, job);
      assert forall k :: 0 < k < |r| ==> r[k] == tail[k - 1];
    }
  }

  /** All jobs of the groups, group by group. */
  ghost function AllJobs(groups: seq<Group>): multiset<JobId> {
    if groups == [] then multiset{} else multiset(groups[0].jobs) + AllJobs(groups[1..])
  }

  lemma {:induction false} AddToGroupAddsOne(groups: seq<Group>, budget: nat, job: JobId)
    ensures AllJobs(AddToGroup(groups, budget, job)) == AllJobs(groups) + multiset{job}
  {
    var r := AddToGroup(groups, budget, job);
    if groups == [] {
      assert multiset([job]) == multiset{job};
      assert r[1..] == [];
    } else if groups[0].budget == budget {
      assert multiset(groups[0].jobs + [job]) == multiset(groups[0].jobs) + multiset{job};
      assert r[1..] == groups[1..];
    } else {
      AddToGroupAddsOne(groups[1..], budget, job);
      assert r[1..] == AddToGroup(groups[1..], budget, job);
    }
  }

  /** Grouping runs no crop twice: together the groups hold each waiting job as often as
   *  the batch does. */
  lemma {:induction false} GroupsConserve(l: Ledger, jobs: seq<JobId>, budgets: seq<nat>)
    requires forall k :: 0 <= k < |jobs| ==> jobs[k] < |budgets|
    ensures AllJobs(l.Groups(jobs, budgets)) == multiset(l.Waiting(jobs))
  {
    if jobs != [] {
      var n := |jobs| - 1;
      GroupsConserve(l, jobs[..n], budgets);
      if !l.Finished(jobs[n]) {
        AddToGroupAddsOne(l.Groups(jobs[..n], budgets), budgets[jobs[n]], jobs[n]);
        assert multiset(l.Waiting(jobs[..n]) + [jobs[n]]) == multiset(l.Waiting(jobs[..n])) + multiset{jobs[n]};
      }
    }
  }
}
