/** What becomes of one submission to the CPU pool: in which order it lets go of what it
 *  holds, and what its caller gets. */
module CpuPoolRuns {
  import opened Wrappers
  import opened Leases
  import opened CpuPools
  import opened CpuPoolSafety
  import opened CpuPoolTheorems

  // ----- the order of the drops -----

  datatype Owner = Payload | Permit | Token | Page | Resources

  function OwnersOf(j: Job): set<Owner> {
    (if HoldsPayload(j) then {Payload} else {}) + (if HoldsPermit(j) then {Permit} else {})
    + (if HoldsToken(j) then {Token} else {}) + (if HoldsPage(j) then {Page} else {})
    + (if HoldsResources(j) then {Resources} else {})
  }

  /** What each drop from here on gives up. */
  function DropsFrom(j: Job): seq<set<Owner>>
    requires StageOk(j.stage)
    decreases Ahead(j.stage)
  {
    if !Dropping(j.stage) then []
    else
      var next := j.(stage := Next(j.stage));
      [OwnersOf(j) - OwnersOf(next)] + DropsFrom(next)
  }

  /** The last drop leaves nothing. */
  lemma DropsLast(j: Job, owners: set<Owner>)
    requires StageOk(j.stage) && Dropping(j.stage) && j.stage.phase == LastPhase(j.stage) && OwnersOf(j) == owners
    ensures DropsFrom(j) == [owners]
  {
    var next := j.(stage := Next(j.stage));
    assert OwnersOf(next) == {} && DropsFrom(next) == [];
    assert OwnersOf(j) - {} == owners;
  }

  lemma DropsThen(j: Job, owners: set<Owner>, rest: seq<set<Owner>>)
    requires StageOk(j.stage) && Dropping(j.stage) && j.stage.phase < LastPhase(j.stage)
    requires OwnersOf(j) - OwnersOf(j.(stage := Next(j.stage))) == owners
    requires DropsFrom(j.(stage := Next(j.stage))) == rest
    ensures DropsFrom(j) == [owners] + rest
  {
  }

  lemma CollectingOrder(j: Job)
    ensures DropsFrom(j.(stage := Collecting(0))) == [{Token}, {Permit}, {Resources}, {Page}]
  {
    DropsLast(j.(stage := Collecting(3)), {Page});
    DropsThen(j.(stage := Collecting(2)), {Resources}, [{Page}]);
    DropsThen(j.(stage := Collecting(1)), {Permit}, [{Resources}, {Page}]);
    DropsThen(j.(stage := Collecting(0)), {Token}, [{Permit}, {Resources}, {Page}]);
  }

  lemma UnwindingOrder(j: Job)
    ensures DropsFrom(j.(stage := Unwinding(0))) == [{Token}, {Resources}, {Page}, {Permit}]
  {
    DropsLast(j.(stage := Unwinding(3)), {Permit});
    DropsThen(j.(stage := Unwinding(2)), {Page}, [{Permit}]);
    DropsThen(j.(stage := Unwinding(1)), {Resources}, [{Page}, {Permit}]);
    DropsThen(j.(stage := Unwinding(0)), {Token}, [{Resources}, {Page}, {Permit}]);
  }

  lemma InputOrder(j: Job)
    ensures DropsFrom(j.(stage := CleanInput(0))) == [{Payload}, {Page}, {Resources}, {Token}]
  {
    DropsLast(j.(stage := CleanInput(3)), {Token});
    DropsThen(j.(stage := CleanInput(2)), {Resources}, [{Token}]);
    DropsThen(j.(stage := CleanInput(1)), {Page}, [{Resources}, {Token}]);
    DropsThen(j.(stage := CleanInput(0)), {Payload}, [{Page}, {Resources}, {Token}]);
  }

  lemma OutputOrder(j: Job)
    ensures DropsFrom(j.(stage := CleanOutput(0))) == [{Payload}, {Page}, {Resources}, {Permit}, {Token}]
  {
    DropsLast(j.(stage := CleanOutput(4)), {Token});
    DropsThen(j.(stage := CleanOutput(3)), {Permit}, [{Token}]);
    DropsThen(j.(stage := CleanOutput(2)), {Resources}, [{Permit}, {Token}]);
    DropsThen(j.(stage := CleanOutput(1)), {Page}, [{Resources}, {Permit}, {Token}]);
    DropsThen(j.(stage := CleanOutput(0)), {Payload}, [{Page}, {Resources}, {Permit}, {Token}]);
  }

  /** A caller that takes its output lets the drain token go first and the page lease last.
   *  A panic lets the token go first and the permit last. A submission that is destroyed
   *  lets its input or output go first and the token last, so the barrier waits for it. */
  lemma DropOrder(j: Job)
    ensures DropsFrom(j.(stage := Collecting(0))) == [{Token}, {Permit}, {Resources}, {Page}]
    ensures DropsFrom(j.(stage := Unwinding(0))) == [{Token}, {Resources}, {Page}, {Permit}]
    ensures DropsFrom(j.(stage := CleanInput(0))) == [{Payload}, {Page}, {Resources}, {Token}]
    ensures DropsFrom(j.(stage := CleanOutput(0))) == [{Payload}, {Page}, {Resources}, {Permit}, {Token}]
  {
    CollectingOrder(j);
    UnwindingOrder(j);
    InputOrder(j);
    OutputOrder(j);
  }

  /** While it waits a submission holds everything but the permit, and afterwards
   *  everything, until its operation has ended; a finished one holds nothing. */
  lemma HeldUntilTheEnd(j: Job)
    ensures j.stage.Waiting? ==> OwnersOf(j) == {Payload, Token, Page, Resources}
    ensures j.stage.Queued? || j.stage.Running? || j.stage.Produced? ==>
              OwnersOf(j) == {Payload, Permit, Token, Page, Resources}
    ensures j.stage.Done? ==> OwnersOf(j) == {}
  {
  }

  // ----- the threads -----

  /** The submissions that occupy a pool thread: the operation runs or unwinds. */
  function Busy(jobs: seq<Job>): set<nat> {
    set k: nat | k < |jobs| && (jobs[k].stage.Running? || jobs[k].stage.Unwinding?)
  }

  lemma {:induction false} BusyIsCounted(jobs: seq<Job>)
    ensures Total(jobs, OnThread()) == |Busy(jobs)|
  {
    if jobs != [] {
      var n := |jobs| - 1;
      BusyIsCounted(jobs[..n]);
      assert Busy(jobs) == Busy(jobs[..n]) + if jobs[n].stage.Running? || jobs[n].stage.Unwinding? then {n} else {};
    }
  }

  /** At most as many operations run or unwind at once as there are threads, and an
   *  admitted submission starts as soon as fewer do, which in every reachable state is
   *  at once. */
  lemma ThreadsSuffice(p: Pool, capacity: seq<nat>, j: nat)
    requires Inv(p, capacity)
    ensures |Busy(p.jobs)| <= p.threads
    ensures Enabled(p, Start(j)) <==> At(p, j, Queued) && |Busy(p.jobs)| < p.threads
    ensures At(p, j, Queued) ==> Enabled(p, Start(j))
  {
    BusyIsCounted(p.jobs);
    AdmittedStartsAtOnce(p, capacity, j);
  }

  // ----- what the caller gets -----

  /** On its way to a caller that waits. */
  predicate Underway(j: Job) {
    j.attached && (j.stage.Waiting? || j.stage.Queued? || j.stage.Running? || j.stage.Produced?)
  }

  /** The caller has the output. */
  predicate Served(j: Job) {
    j.attached && (j.stage.Collecting? || j.stage.Done?)
  }

  lemma StayingStep(p: Pool, a: Action, j: nat)
    requires Ready(p, a) && j < |p.jobs| && a != Cancel(j) && a != Panic(j)
    ensures j < |Apply(p, a).jobs|
    ensures Underway(p.jobs[j]) ==>
              if a == Collect(j) then Served(Apply(p, a).jobs[j]) else Underway(Apply(p, a).jobs[j])
    ensures Served(p.jobs[j]) ==> Served(Apply(p, a).jobs[j])
  {
  }

  /** As long as its caller stays and its operation does not panic, a submission is neither
   *  destroyed nor unwound, whatever the other submissions do: it is on its way, until the
   *  caller collects its output, and from then on only lets go of what it held. */
  lemma {:induction false} StayingCallerIsServed(p: Pool, acts: seq<Action>, q: Pool, j: nat)
    requires Leads(p, acts, q) && j < |p.jobs| && Cancel(j) !in acts && Panic(j) !in acts
    ensures j < |q.jobs|
    ensures Served(p.jobs[j]) ==> Served(q.jobs[j])
    ensures Underway(p.jobs[j]) ==> if Collect(j) in acts then Served(q.jobs[j]) else Underway(q.jobs[j])
    decreases |acts|
  {
    if acts != [] {
      assert acts[0] in acts && forall a :: a in acts[1..] ==> a in acts;
      StayingStep(p, acts[0], j);
      StayingCallerIsServed(Apply(p, acts[0]), acts[1..], q, j);
      assert Collect(j) in acts <==> acts[0] == Collect(j) || Collect(j) in acts[1..];
    }
  }

  /** Its caller left: the input or the output goes to a cleanup thread. */
  predicate Abandoned(j: Job) {
    !j.attached && (j.stage.Queued? || j.stage.Running? || j.stage.CleanInput? || j.stage.CleanOutput? || j.stage.Done?)
  }

  /** Destroyed before it ran. */
  predicate Unrun(j: Job) {
    !j.attached && (j.stage.CleanInput? || j.stage.Done?)
  }

  /** Its output is destroyed. */
  predicate Discarded(j: Job) {
    !j.attached && (j.stage.CleanOutput? || j.stage.Done?)
  }

  /** What a caller that leaves does to its submission. */
  lemma LeavingStep(p: Pool, capacity: seq<nat>, j: nat)
    requires Inv(p, capacity) && Ready(p, Cancel(j))
    ensures j < |Apply(p, Cancel(j)).jobs| && Abandoned(Apply(p, Cancel(j)).jobs[j])
    ensures p.jobs[j].stage.Waiting? ==> Unrun(Apply(p, Cancel(j)).jobs[j])
    ensures p.jobs[j].stage.Produced? ==> Discarded(Apply(p, Cancel(j)).jobs[j])
    ensures p.jobs[j].stage.Queued? || p.jobs[j].stage.Running? ==>
              Apply(p, Cancel(j)).jobs[j].stage == p.jobs[j].stage
  {
  }

  lemma AbandonedStep(p: Pool, a: Action, j: nat)
    requires Ready(p, a) && j < |p.jobs| && Abandoned(p.jobs[j]) && a != Panic(j)
    ensures j < |Apply(p, a).jobs| && Abandoned(Apply(p, a).jobs[j]) && a != Collect(j)
    ensures Unrun(p.jobs[j]) ==> Unrun(Apply(p, a).jobs[j]) && a != Start(j)
    ensures Discarded(p.jobs[j]) ==> Discarded(Apply(p, a).jobs[j]) && a != Finish(j)
    ensures p.jobs[j].stage.Running? ==>
              if a == Finish(j) then Discarded(Apply(p, a).jobs[j]) else Apply(p, a).jobs[j].stage == Running
  {
  }

  lemma {:induction false} UnrunStays(p: Pool, acts: seq<Action>, q: Pool, j: nat)
    requires Leads(p, acts, q) && j < |p.jobs| && Unrun(p.jobs[j]) && Panic(j) !in acts
    ensures j < |q.jobs| && Unrun(q.jobs[j]) && Start(j) !in acts
    decreases |acts|
  {
    if acts != [] {
      assert acts == [acts[0]] + acts[1..];
      AbandonedStep(p, acts[0], j);
      UnrunStays(Apply(p, acts[0]), acts[1..], q, j);
    }
  }

  lemma {:induction false} DiscardedStays(p: Pool, acts: seq<Action>, q: Pool, j: nat)
    requires Leads(p, acts, q) && j < |p.jobs| && Discarded(p.jobs[j]) && Panic(j) !in acts
    ensures j < |q.jobs| && Discarded(q.jobs[j]) && Finish(j) !in acts
    decreases |acts|
  {
    if acts != [] {
      assert acts == [acts[0]] + acts[1..];
      AbandonedStep(p, acts[0], j);
      DiscardedStays(Apply(p, acts[0]), acts[1..], q, j);
    }
  }

  lemma {:induction false} RunsToItsEnd(p: Pool, acts: seq<Action>, q: Pool, j: nat)
    requires Leads(p, acts, q) && j < |p.jobs| && !p.jobs[j].attached && p.jobs[j].stage.Running? && Panic(j) !in acts
    ensures j < |q.jobs|
    ensures if Finish(j) in acts then Discarded(q.jobs[j]) else q.jobs[j].stage == Running
    decreases |acts|
  {
    if acts != [] {
      assert acts == [acts[0]] + acts[1..];
      AbandonedStep(p, acts[0], j);
      if acts[0] == Finish(j) {
        DiscardedStays(Apply(p, acts[0]), acts[1..], q, j);
      } else {
        RunsToItsEnd(Apply(p, acts[0]), acts[1..], q, j);
      }
    }
  }

  lemma {:induction false} AbandonedStays(p: Pool, acts: seq<Action>, q: Pool, j: nat)
    requires Leads(p, acts, q) && j < |p.jobs| && Abandoned(p.jobs[j]) && Panic(j) !in acts
    ensures j < |q.jobs| && Abandoned(q.jobs[j]) && Collect(j) !in acts
    decreases |acts|
  {
    if acts != [] {
      assert acts == [acts[0]] + acts[1..];
      AbandonedStep(p, acts[0], j);
      AbandonedStays(Apply(p, acts[0]), acts[1..], q, j);
    }
  }

  /** Once a caller leaves, its output is never collected. Work that was not admitted is
   *  destroyed unrun; work that runs and does not panic runs to its end, and then its
   *  output is destroyed; a finished output is destroyed. */
  lemma LeavingCaller(p: Pool, capacity: seq<nat>, acts: seq<Action>, q: Pool, j: nat)
    requires Inv(p, capacity) && Ready(p, Cancel(j)) && Leads(Apply(p, Cancel(j)), acts, q) && Panic(j) !in acts
    ensures Collect(j) !in acts && j < |q.jobs| && !q.jobs[j].attached
    ensures p.jobs[j].stage.Waiting? ==> Start(j) !in acts && Unrun(q.jobs[j])
    ensures p.jobs[j].stage.Running? ==>
              if Finish(j) in acts then Discarded(q.jobs[j]) else q.jobs[j].stage == Running
    ensures p.jobs[j].stage.Produced? ==> Discarded(q.jobs[j])
  {
    var after := Apply(p, Cancel(j));
    LeavingStep(p, capacity, j);
    AbandonedStays(after, acts, q, j);
    if p.jobs[j].stage.Waiting? { UnrunStays(after, acts, q, j); }
    if p.jobs[j].stage.Running? { RunsToItsEnd(after, acts, q, j); }
    if p.jobs[j].stage.Produced? { DiscardedStays(after, acts, q, j); }
  }

  /** Every caller that stays can be served: from every reachable state the pool and the
   *  callers have a run, without a cancellation or a panic, in which the caller of `j`
   *  collects its output. */
  lemma EveryCallerCanBeServed(p: Pool, capacity: seq<nat>, j: nat) returns (acts: seq<Action>, q: Pool)
    requires Inv(p, capacity) && j < |p.jobs| && Underway(p.jobs[j])
    ensures Leads(p, acts, q) && forall k :: 0 <= k < |acts| ==> Internal(acts[k])
    ensures Collect(j) in acts && j < |q.jobs| && q.jobs[j].stage == Done && q.jobs[j].attached
  {
    acts, q := Drains(p, capacity);
    StayingCallerIsServed(p, acts, q, j);
  }
}
