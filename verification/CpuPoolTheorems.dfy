/** What the CPU pool promises over whole runs. */
module CpuPoolTheorems {
  import opened Wrappers
  import opened Leases
  import opened CpuPools
  import opened CpuPoolSafety

  ghost predicate Ready(p: Pool, a: Action) {
    Enabled(p, a) && WellFormed(p.leases, p.free) && (a.DropNext? ==> LiveLease(p, Dropped(p.jobs[a.j])))
  }

  /** The actions lead from `p` to `q`. */
  ghost predicate Leads(p: Pool, acts: seq<Action>, q: Pool)
    decreases |acts|
  {
    if acts == [] then p == q else Ready(p, acts[0]) && Leads(Apply(p, acts[0]), acts[1..], q)
  }

  /** The books are kept over every run. */
  lemma {:induction false} RunKeeps(p: Pool, capacity: seq<nat>, acts: seq<Action>, q: Pool)
    requires Inv(p, capacity) && Leads(p, acts, q)
    ensures Inv(q, capacity) && q.threads == p.threads
    decreases |acts|
  {
    if acts != [] {
      StepKeeps(p, capacity, acts[0]);
      ThreadsFixed(p, acts[0]);
      RunKeeps(Apply(p, acts[0]), capacity, acts[1..], q);
    }
  }

  lemma ThreadsFixed(p: Pool, a: Action)
    requires Ready(p, a)
    ensures Apply(p, a).threads == p.threads
  {
  }

  // ----- admission -----

  lemma {:induction false} TotalBelow<T>(s: seq<T>, low: T -> nat, high: T -> nat, i: nat)
    requires forall k :: 0 <= k < |s| ==> low(s[k]) <= high(s[k])
    ensures Total(s, low) <= Total(s, high)
    ensures i < |s| && low(s[i]) < high(s[i]) ==> Total(s, low) < Total(s, high)
  {
    if s != [] {
      TotalBelow(s[..|s| - 1], low, high, i);
    }
  }

  /** Operations that run or unwind never exceed the threads, and an admitted submission
   *  always finds a free thread: it never queues behind anything. */
  lemma AdmittedStartsAtOnce(p: Pool, capacity: seq<nat>, j: nat)
    requires Inv(p, capacity)
    ensures Total(p.jobs, OnThread()) <= p.threads
    ensures At(p, j, Queued) ==> Enabled(p, Start(j))
  {
    TotalBelow(p.jobs, OnThread(), Permits(), j);
  }

  // ----- what a live input or output keeps -----

  /** While an input or output is alive, its drain token, its leases with everything that
   *  encloses them, and after admission its permit, are all still held. */
  lemma PayloadIsCovered(p: Pool, capacity: seq<nat>, j: nat)
    requires Inv(p, capacity) && j < |p.jobs| && HoldsPayload(p.jobs[j])
    ensures p.tokens > 0
    ensures Admitted(p.jobs[j]) || p.jobs[j].stage.CleanOutput? ==> p.permits < p.threads
    ensures p.jobs[j].page.Some? ==> Covered(p, capacity, p.jobs[j].page.value)
    ensures p.jobs[j].resources.Some? ==> Covered(p, capacity, p.jobs[j].resources.value)
  {
    var job := p.jobs[j];
    assert JobOk(p, job);
    TotalAtLeast(p.jobs, Tokens(), j);
    TotalAtLeast(p.jobs, Permits(), j);
    if job.page.Some? { HandleCovers(p, capacity, j, job.page.value); }
    if job.resources.Some? { HandleCovers(p, capacity, j, job.resources.value); }
  }

  /** The lease and everything that encloses it is live and takes a permit of its budget. */
  ghost predicate Covered(p: Pool, capacity: seq<nat>, i: nat) {
    && WellFormed(p.leases, p.free) && i < |p.leases| && |capacity| == |p.free|
    && forall a: nat :: Encloses(p.leases, p.free, a, i) ==>
         && a < |p.leases| && p.leases[a].count > 0
         && p.free[p.leases[a].budget] < capacity[p.leases[a].budget]
  }

  lemma HandleCovers(p: Pool, capacity: seq<nat>, j: nat, i: nat)
    requires Inv(p, capacity) && j < |p.jobs| && i < |p.leases| && Handles(i)(p.jobs[j]) > 0
    ensures Covered(p, capacity, i)
  {
    TotalAtLeast(p.jobs, Handles(i), j);
    assert Owned(p)[i] > 0;
    forall a: nat | Encloses(p.leases, p.free, a, i)
      ensures a < |p.leases| && p.leases[a].count > 0
      ensures p.free[p.leases[a].budget] < capacity[p.leases[a].budget]
    {
      EnclosingAreLive(p.leases, p.free, Owned(p), a, i);
      TotalAtLeast(p.leases, Uses(p.leases[a].budget), a);
    }
  }

  // ----- the drain barrier -----

  /** Past the token: finished, or returning its last owners on a caller or a panicking
   *  thread. */
  predicate PastToken(j: Job) {
    j.stage.Done? || ((j.stage.Collecting? || j.stage.Unwinding?) && j.stage.phase > 0)
  }

  /** The barrier opens exactly when every submission is past its token, and then no input
   *  and no output is left. */
  lemma BarrierIff(p: Pool, capacity: seq<nat>)
    requires Inv(p, capacity)
    ensures p.tokens == 0 <==> forall j :: 0 <= j < |p.jobs| ==> PastToken(p.jobs[j])
    ensures p.tokens == 0 ==>
              forall j :: 0 <= j < |p.jobs| ==> !HoldsPayload(p.jobs[j]) && !p.jobs[j].stage.Running?
  {
    if p.tokens == 0 {
      forall j | 0 <= j < |p.jobs| ensures PastToken(p.jobs[j]) {
        TotalAtLeast(p.jobs, Tokens(), j);
      }
    } else if forall j :: 0 <= j < |p.jobs| ==> PastToken(p.jobs[j]) {
      TotalZero(p.jobs, Tokens());
    }
  }

  /** Past the token, with the permit still to go. */
  predicate PermitLate(s: Stage) {
    s == Collecting(1) || (s.Unwinding? && s.phase > 0)
  }

  predicate PageLate(s: Stage) {
    (s.Collecting? && s.phase > 0) || s == Unwinding(1) || s == Unwinding(2)
  }

  predicate ResourcesLate(s: Stage) {
    s == Collecting(1) || s == Collecting(2) || s == Unwinding(1)
  }

  /** When the barrier opens, all permits are back exactly when no submission is still
   *  between its token and its permit: a caller that has just collected, or a panicking
   *  thread, returns its token first. */
  lemma BarrierAndPermits(p: Pool, capacity: seq<nat>)
    requires Inv(p, capacity) && p.tokens == 0
    ensures p.permits == p.threads <==> forall j :: 0 <= j < |p.jobs| ==> !PermitLate(p.jobs[j].stage)
  {
    BarrierIff(p, capacity);
    if p.permits == p.threads {
      forall j | 0 <= j < |p.jobs| ensures !PermitLate(p.jobs[j].stage) {
        TotalAtLeast(p.jobs, Permits(), j);
      }
    } else if forall j :: 0 <= j < |p.jobs| ==> !PermitLate(p.jobs[j].stage) {
      TotalZero(p.jobs, Permits());
    }
  }

  /** And no submission has a handle left on a lease exactly when none is in one of the
   *  few phases between its token and that lease. */
  lemma BarrierAndLeases(p: Pool, capacity: seq<nat>, i: nat)
    requires Inv(p, capacity) && p.tokens == 0 && i < |p.leases|
    ensures p.leases[i].count == p.outside[i] + Total(p.leases, ChildOf(i))
       <==> forall j :: 0 <= j < |p.jobs| ==>
              && (p.jobs[j].page == Some(i) ==> !PageLate(p.jobs[j].stage))
              && (p.jobs[j].resources == Some(i) ==> !ResourcesLate(p.jobs[j].stage))
  {
    BarrierIff(p, capacity);
    assert Owned(p)[i] == p.outside[i] + Total(p.jobs, Handles(i));
    forall j | 0 <= j < |p.jobs|
      ensures Handles(i)(p.jobs[j]) == One(p.jobs[j].page == Some(i) && PageLate(p.jobs[j].stage))
                                     + One(p.jobs[j].resources == Some(i) && ResourcesLate(p.jobs[j].stage))
    {
      assert PastToken(p.jobs[j]) && JobOk(p, p.jobs[j]);
    }
    if Total(p.jobs, Handles(i)) == 0 {
      forall j | 0 <= j < |p.jobs| ensures Handles(i)(p.jobs[j]) == 0 {
        TotalAtLeast(p.jobs, Handles(i), j);
      }
    } else if forall j :: 0 <= j < |p.jobs| ==> Handles(i)(p.jobs[j]) == 0 {
      TotalZero(p.jobs, Handles(i));
    }
  }

  /** A pool of one thread with one submission. */
  function Solo(s: Stage, permits: nat, tokens: nat): Pool {
    Pool(1, permits, tokens, [Job(s, true, None, None)], [], [], [])
  }

  lemma SoloMoves(s: Stage, t: Stage, permits: nat, a: Action)
    requires (s, t, a) in {(Queued, Running, Start(0)), (Running, Produced, Finish(0)),
                           (Produced, Collecting(0), Collect(0))}
    ensures Ready(Solo(s, permits, 1), a) && Apply(Solo(s, permits, 1), a) == Solo(t, permits, 1)
  {
    var p := Solo(s, permits, 1);
    if s != Running { TotalZero(p.jobs, OnThread()); }
    assert p.jobs[0 := Job(t, true, None, None)] == [Job(t, true, None, None)];
  }

  lemma SoloSubmits()
    ensures Ready(Initial(1, []), Submit(None, None))
    ensures Apply(Initial(1, []), Submit(None, None)) == Solo(Waiting, 1, 1)
  {
    var none: seq<Job> := [];
    assert none + [Job(Waiting, true, None, None)] == [Job(Waiting, true, None, None)];
  }

  lemma SoloAdmits()
    ensures Ready(Solo(Waiting, 1, 1), Admit(0)) && Apply(Solo(Waiting, 1, 1), Admit(0)) == Solo(Queued, 0, 1)
  {
    assert [Job(Waiting, true, None, None)][0 := Job(Queued, true, None, None)] == [Job(Queued, true, None, None)];
  }

  lemma SoloDropsToken()
    ensures Ready(Solo(Collecting(0), 0, 1), DropNext(0))
    ensures Apply(Solo(Collecting(0), 0, 1), DropNext(0)) == Solo(Collecting(1), 0, 0)
  {
    var before, after := [Job(Collecting(0), true, None, None)], [Job(Collecting(1), true, None, None)];
    assert before[0 := after[0]] == after;
  }

  /** The barrier can open while the only permit is still out: one submission on one
   *  thread, collected, with its token just dropped. */
  lemma BarrierBeforePermit() returns (acts: seq<Action>, q: Pool)
    ensures Leads(Initial(1, []), acts, q) && |acts| == 6
    ensures q == Solo(Collecting(1), 0, 0)
  {
    q := Solo(Collecting(1), 0, 0);
    SoloSubmits();
    SoloAdmits();
    SoloDropsToken();
    SoloMoves(Queued, Running, 0, Start(0));
    SoloMoves(Running, Produced, 0, Finish(0));
    SoloMoves(Produced, Collecting(0), 0, Collect(0));
    acts := [];
    LeadsBack(Solo(Collecting(0), 0, 1), DropNext(0), acts, q);
    acts := [DropNext(0)] + acts;
    LeadsBack(Solo(Produced, 0, 1), Collect(0), acts, q);
    acts := [Collect(0)] + acts;
    LeadsBack(Solo(Running, 0, 1), Finish(0), acts, q);
    acts := [Finish(0)] + acts;
    LeadsBack(Solo(Queued, 0, 1), Start(0), acts, q);
    acts := [Start(0)] + acts;
    LeadsBack(Solo(Waiting, 1, 1), Admit(0), acts, q);
    acts := [Admit(0)] + acts;
    LeadsBack(Initial(1, []), Submit(None, None), acts, q);
    acts := [Submit(None, None)] + acts;
  }

  lemma LeadsBack(p: Pool, a: Action, rest: seq<Action>, q: Pool)
    requires Ready(p, a) && Leads(Apply(p, a), rest, q)
    ensures Leads(p, [a] + rest, q)
  {
    assert ([a] + rest)[1..] == rest;
  }

  /** A pool of one thread and one lease. */
  function Leased(jobs: seq<Job>, permits: nat, tokens: nat, count: nat, outside: nat): Pool {
    Pool(1, permits, tokens, jobs, [Lease(None, 0, count)], [0], [outside])
  }

  function Holder(s: Stage): Job {
    Job(s, true, Some(0), Some(0))
  }

  lemma LeasedBegins()
    ensures Ready(Initial(1, [1]), Reserve(0, None))
    ensures Apply(Initial(1, [1]), Reserve(0, None)) == Leased([], 1, 0, 1, 1)
  {
    var none: seq<nat> := [];
    assert none + [1] == [1];
  }

  lemma LeasedSubmits()
    ensures Ready(Leased([], 1, 0, 1, 1), Submit(Some(0), Some(0)))
    ensures Apply(Leased([], 1, 0, 1, 1), Submit(Some(0), Some(0))) == Leased([Holder(Waiting)], 1, 1, 3, 1)
  {
    var p := Leased([], 1, 0, 1, 1);
    assert p.jobs + [Holder(Waiting)] == [Holder(Waiting)];
    assert Share(Share(p.leases, 0), 0) == [Lease(None, 0, 3)];
  }

  lemma LeasedLetsGo()
    ensures Ready(Leased([Holder(Waiting)], 1, 1, 3, 1), DropLease(0))
    ensures Apply(Leased([Holder(Waiting)], 1, 1, 3, 1), DropLease(0)) == Leased([Holder(Waiting)], 1, 1, 2, 0)
  {
    var p := Leased([Holder(Waiting)], 1, 1, 3, 1);
    assert p.outside[0 := 0] == [0];
    assert p.leases[0 := p.leases[0].(count := 2)] == [Lease(None, 0, 2)];
  }

  lemma LeasedAdmits()
    ensures Ready(Leased([Holder(Waiting)], 1, 1, 2, 0), Admit(0))
    ensures Apply(Leased([Holder(Waiting)], 1, 1, 2, 0), Admit(0)) == Leased([Holder(Queued)], 0, 1, 2, 0)
  {
    assert [Holder(Waiting)][0 := Holder(Queued)] == [Holder(Queued)];
  }

  lemma LeasedMoves(s: Stage, t: Stage, a: Action)
    requires (s, t, a) in {(Queued, Running, Start(0)), (Running, Unwinding(0), Panic(0))}
    ensures Ready(Leased([Holder(s)], 0, 1, 2, 0), a)
    ensures Apply(Leased([Holder(s)], 0, 1, 2, 0), a) == Leased([Holder(t)], 0, 1, 2, 0)
  {
    var p := Leased([Holder(s)], 0, 1, 2, 0);
    if s == Queued { TotalZero(p.jobs, OnThread()); }
    assert p.jobs[0 := Holder(t)] == [Holder(t)];
  }

  lemma LeasedDropsToken()
    ensures Ready(Leased([Holder(Unwinding(0))], 0, 1, 2, 0), DropNext(0))
    ensures Apply(Leased([Holder(Unwinding(0))], 0, 1, 2, 0), DropNext(0)) == Leased([Holder(Unwinding(1))], 0, 0, 2, 0)
  {
    assert [Holder(Unwinding(0))][0 := Holder(Unwinding(1))] == [Holder(Unwinding(1))];
  }

  /** After a panic the barrier can open while the only permit is out, and with it the
   *  only unit of a budget whose lease nobody but the panicking thread holds. */
  lemma BarrierBeforeLeases() returns (acts: seq<Action>, q: Pool)
    ensures Leads(Initial(1, [1]), acts, q) && Panic(0) in acts
    ensures q.tokens == 0 && q.permits == 0 && q.free == [0] && q.outside == [0]
    ensures q.jobs == [Holder(Unwinding(1))]
  {
    q := Leased([Holder(Unwinding(1))], 0, 0, 2, 0);
    LeasedDropsToken();
    LeadsBack(Leased([Holder(Unwinding(0))], 0, 1, 2, 0), DropNext(0), [], q);
    acts := [DropNext(0)] + [];
    LeasedMoves(Running, Unwinding(0), Panic(0));
    LeadsBack(Leased([Holder(Running)], 0, 1, 2, 0), Panic(0), acts, q);
    acts := [Panic(0)] + acts;
    assert acts[0] == Panic(0);
    acts := LeasedStart(acts, q);
  }

  lemma LeasedStart(rest: seq<Action>, q: Pool) returns (acts: seq<Action>)
    requires Leads(Leased([Holder(Running)], 0, 1, 2, 0), rest, q)
    ensures Leads(Initial(1, [1]), acts, q) && forall a :: a in rest ==> a in acts
  {
    LeasedMoves(Queued, Running, Start(0));
    LeadsBack(Leased([Holder(Queued)], 0, 1, 2, 0), Start(0), rest, q);
    acts := [Start(0)] + rest;
    LeasedAdmits();
    LeadsBack(Leased([Holder(Waiting)], 1, 1, 2, 0), Admit(0), acts, q);
    acts := [Admit(0)] + acts;
    LeasedLetsGo();
    LeadsBack(Leased([Holder(Waiting)], 1, 1, 3, 1), DropLease(0), acts, q);
    acts := [DropLease(0)] + acts;
    LeasedSubmits();
    LeadsBack(Leased([], 1, 0, 1, 1), Submit(Some(0), Some(0)), acts, q);
    acts := [Submit(Some(0), Some(0))] + acts;
    LeasedBegins();
    LeadsBack(Initial(1, [1]), Reserve(0, None), acts, q);
    acts := [Reserve(0, None)] + acts;
  }

  // ----- each owner is returned once -----

  /** The permit has been returned, or was never taken and will never be. */
  predicate WithoutPermit(j: Job) {
    !HoldsPermit(j) && !j.stage.Waiting?
  }

  /** What a submission no longer owns it never owns again. */
  ghost predicate OnlyGivesUp(a: Job, b: Job) {
    && (!HoldsPayload(a) ==> !HoldsPayload(b)) && (!HoldsToken(a) ==> !HoldsToken(b))
    && (!HoldsPage(a) ==> !HoldsPage(b)) && (!HoldsResources(a) ==> !HoldsResources(b))
    && (WithoutPermit(a) ==> WithoutPermit(b))
    && (HoldsPermit(a) && HoldsPayload(b) ==> HoldsPermit(b))
  }

  lemma StepGivesUp(p: Pool, capacity: seq<nat>, a: Action, j: nat)
    requires Inv(p, capacity) && Ready(p, a) && j < |p.jobs|
    ensures j < |Apply(p, a).jobs| && OnlyGivesUp(p.jobs[j], Apply(p, a).jobs[j])
  {
    assert JobOk(p, p.jobs[j]);
  }

  /** Over every run a submission's permit, token and leases are returned at most once, and
   *  none is taken back after its input or output is gone. */
  lemma {:induction false} OwnersNeverReturn(p: Pool, capacity: seq<nat>, acts: seq<Action>, q: Pool, j: nat)
    requires Inv(p, capacity) && Leads(p, acts, q) && j < |p.jobs|
    ensures j < |q.jobs| && OnlyGivesUp(p.jobs[j], q.jobs[j])
    decreases |acts|
  {
    if acts != [] {
      StepKeeps(p, capacity, acts[0]);
      StepGivesUp(p, capacity, acts[0], j);
      OwnersNeverReturn(Apply(p, acts[0]), capacity, acts[1..], q, j);
    }
  }

  // ----- draining -----

  /** How many steps a submission still has ahead of it at most. */
  function Ahead(s: Stage): nat {
    match s
    case Waiting => 9
    case Queued => 8
    case Running => 7
    case Produced => 6
    case Done => 0
    case Collecting(k) => if k > 3 then 1 else 4 - k
    case Unwinding(k) => if k > 3 then 1 else 4 - k
    case CleanInput(k) => if k > 3 then 1 else 4 - k
    case CleanOutput(k) => if k > 4 then 1 else 5 - k
  }

  function Steps(): Job -> nat {
    (j: Job) => Ahead(j.stage)
  }

  /** Submitting stops; every step is one the pool or an awaiting caller takes. */
  predicate Internal(a: Action) {
    a.Admit? || a.Start? || a.Finish? || a.Collect? || a.DropNext?
  }

  function NextOf(s: Stage, j: nat): Action {
    match s
    case Waiting => Admit(j)
    case Queued => Start(j)
    case Running => Finish(j)
    case Produced => Collect(j)
    case _ => DropNext(j)
  }

  lemma InternalCounts(p: Pool, capacity: seq<nat>, j: nat)
    requires Inv(p, capacity) && j < |p.jobs| && p.jobs[j].stage != Done
    requires Ready(p, NextOf(p.jobs[j].stage, j))
    ensures Total(Apply(p, NextOf(p.jobs[j].stage, j)).jobs, Steps()) < Total(p.jobs, Steps())
  {
    var q := Apply(p, NextOf(p.jobs[j].stage, j));
    assert JobOk(p, p.jobs[j]);
    assert q.jobs == p.jobs[j := q.jobs[j]];
    TotalUpdate(p.jobs, Steps(), j, q.jobs[j]);
  }

  /** Some submission can always move: one past admission at once, and if there is none a
   *  permit is free. */
  lemma NeverStuck(p: Pool, capacity: seq<nat>) returns (j: nat)
    requires Inv(p, capacity) && exists k :: 0 <= k < |p.jobs| && p.jobs[k].stage != Done
    ensures j < |p.jobs| && p.jobs[j].stage != Done && Ready(p, NextOf(p.jobs[j].stage, j))
  {
    if k :| 0 <= k < |p.jobs| && p.jobs[k].stage != Done && p.jobs[k].stage != Waiting {
      j := k;
      assert JobOk(p, p.jobs[j]);
      AdmittedStartsAtOnce(p, capacity, j);
      if Dropping(p.jobs[j].stage) { DroppedIsLive(p, capacity, j); }
    } else {
      j :| 0 <= j < |p.jobs| && p.jobs[j].stage != Done;
      assert JobOk(p, p.jobs[j]);
      TotalZero(p.jobs, Permits());
    }
  }

  /** Once producers stop, the pool can always be drained: all submissions done, all
   *  permits back, the barrier open. */
  lemma {:induction false} Drains(p: Pool, capacity: seq<nat>) returns (acts: seq<Action>, q: Pool)
    requires Inv(p, capacity)
    ensures Leads(p, acts, q) && forall k :: 0 <= k < |acts| ==> Internal(acts[k])
    ensures q.tokens == 0 && q.permits == q.threads && forall j :: 0 <= j < |q.jobs| ==> q.jobs[j].stage == Done
    decreases Total(p.jobs, Steps())
  {
    if exists k :: 0 <= k < |p.jobs| && p.jobs[k].stage != Done {
      var j := NeverStuck(p, capacity);
      var a := NextOf(p.jobs[j].stage, j);
      InternalCounts(p, capacity, j);
      StepKeeps(p, capacity, a);
      var rest;
      rest, q := Drains(Apply(p, a), capacity);
      acts := [a] + rest;
      LeadsBack(p, a, rest, q);
    } else {
      acts, q := [], p;
      TotalZero(p.jobs, Tokens());
      TotalZero(p.jobs, Permits());
    }
  }
}
