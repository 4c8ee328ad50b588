/** What every step of the CPU pool keeps, and what it means for its callers. */
module CpuPoolSafety {
  import opened Wrappers
  import opened Leases
  import opened CpuPools

  /** All handles on every lease: those outside, and those of the submissions. */
  ghost function Owned(p: Pool): (s: seq<nat>)
    ensures |s| == |p.outside|
  {
    seq(|p.outside|, i requires 0 <= i < |p.outside| => p.outside[i] + Total(p.jobs, Handles(i)))
  }

  predicate JobOk(p: Pool, j: Job) {
    && StageOk(j.stage) && (j.stage.Waiting? || j.stage.Produced? ==> j.attached)
    && (j.page.Some? ==> j.page.value < |p.leases|) && (j.resources.Some? ==> j.resources.value < |p.leases|)
  }

  ghost predicate Inv(p: Pool, capacity: seq<nat>) {
    p.threads > 0 && JobsOk(p) && SlotsOk(p) && LeasesOk(p, Owned(p), capacity)
  }

  predicate JobsOk(p: Pool) {
    forall j :: 0 <= j < |p.jobs| ==> JobOk(p, p.jobs[j])
  }

  /** Permits and drain tokens are either free or held by exactly one submission. */
  ghost predicate SlotsOk(p: Pool) {
    p.permits + Total(p.jobs, Permits()) == p.threads && p.tokens == Total(p.jobs, Tokens())
  }

  ghost predicate LeasesOk(p: Pool, owned: seq<nat>, capacity: seq<nat>) {
    WellFormed(p.leases, p.free) && Counted(p.leases, owned) && Budgeted(p.leases, p.free, capacity)
  }

  function Initial(threads: nat, capacity: seq<nat>): Pool {
    Pool(threads, threads, 0, [], [], capacity, [])
  }

  lemma InitialInv(threads: nat, capacity: seq<nat>)
    requires threads > 0
    ensures Inv(Initial(threads, capacity), capacity)
  {
  }

  // ----- single jobs -----

  predicate SameOwners(a: Job, b: Job) {
    && HoldsPermit(a) == HoldsPermit(b) && HoldsToken(a) == HoldsToken(b)
    && HoldsPage(a) == HoldsPage(b) && HoldsResources(a) == HoldsResources(b)
    && a.page == b.page && a.resources == b.resources
  }

  /** Steps that move a submission along without returning anything. */
  lemma MoveKeeps(p: Pool, capacity: seq<nat>, j: nat, x: Job)
    requires Inv(p, capacity) && j < |p.jobs| && SameOwners(p.jobs[j], x) && JobOk(p, x)
    ensures Inv(p.(jobs := p.jobs[j := x]), capacity)
  {
    var q := p.(jobs := p.jobs[j := x]);
    TotalUpdate(p.jobs, Permits(), j, x);
    TotalUpdate(p.jobs, Tokens(), j, x);
    forall i | 0 <= i < |p.outside| ensures Owned(q)[i] == Owned(p)[i] {
      TotalUpdate(p.jobs, Handles(i), j, x);
    }
    assert Owned(q) == Owned(p);
  }

  lemma AdmitKeeps(p: Pool, capacity: seq<nat>, j: nat)
    requires Inv(p, capacity) && Enabled(p, Admit(j))
    ensures Inv(Apply(p, Admit(j)), capacity)
  {
    var x := p.jobs[j].(stage := Queued);
    var q := Apply(p, Admit(j));
    TotalUpdate(p.jobs, Permits(), j, x);
    TotalUpdate(p.jobs, Tokens(), j, x);
    forall i | 0 <= i < |p.outside| ensures Owned(q)[i] == Owned(p)[i] {
      TotalUpdate(p.jobs, Handles(i), j, x);
    }
    assert Owned(q) == Owned(p);
  }

  /** A drop gives up at most one owner. */
  lemma DropsOne(j: Job)
    requires StageOk(j.stage) && Dropping(j.stage)
    ensures var n := j.(stage := Next(j.stage));
            && (HoldsPermit(n) ==> HoldsPermit(j)) && (HoldsToken(n) ==> HoldsToken(j))
            && (HoldsPage(n) ==> HoldsPage(j)) && (HoldsResources(n) ==> HoldsResources(j))
            && One(HoldsPermit(j) && !HoldsPermit(n)) + One(HoldsToken(j) && !HoldsToken(n))
               + One(HoldsPage(j) && !HoldsPage(n)) + One(HoldsResources(j) && !HoldsResources(n)) <= 1
            && forall i: nat :: Handles(i)(j) == Handles(i)(n) + One(Dropped(j) == Some(i))
  {
  }

  /** The lease a drop gives up is still live. */
  lemma DroppedIsLive(p: Pool, capacity: seq<nat>, j: nat)
    requires Inv(p, capacity) && j < |p.jobs| && Dropping(p.jobs[j].stage)
    ensures LiveLease(p, Dropped(p.jobs[j]))
  {
    var lease := Dropped(p.jobs[j]);
    DropsOne(p.jobs[j]);
    assert JobOk(p, p.jobs[j]);
    if lease.Some? {
      TotalAtLeast(p.jobs, Handles(lease.value), j);
      assert Owned(p)[lease.value] > 0;
    }
  }

  lemma DropSlots(p: Pool, j: nat)
    requires SlotsOk(p) && WellFormed(p.leases, p.free)
    requires Enabled(p, DropNext(j)) && LiveLease(p, Dropped(p.jobs[j])) && StageOk(p.jobs[j].stage)
    ensures SlotsOk(DropOne(p, j))
  {
    var job := p.jobs[j];
    var x := job.(stage := Next(job.stage));
    DropsOne(job);
    TotalUpdate(p.jobs, Permits(), j, x);
    TotalUpdate(p.jobs, Tokens(), j, x);
    TotalAtLeast(p.jobs, Tokens(), j);
  }

  /** After a drop the submissions own one handle less on the lease given up. */
  lemma DropOwned(p: Pool, j: nat, q: Pool)
    requires Enabled(p, DropNext(j)) && StageOk(p.jobs[j].stage) && q.outside == p.outside
    requires q.jobs == p.jobs[j := p.jobs[j].(stage := Next(p.jobs[j].stage))]
    ensures forall i: nat :: i < |p.outside| ==> Owned(p)[i] == Owned(q)[i] + One(Dropped(p.jobs[j]) == Some(i))
  {
    var job := p.jobs[j];
    DropsOne(job);
    forall i: nat | i < |p.outside| ensures Owned(p)[i] == Owned(q)[i] + One(Dropped(job) == Some(i)) {
      TotalUpdate(p.jobs, Handles(i), j, job.(stage := Next(job.stage)));
    }
  }

  lemma DropKeeps(p: Pool, capacity: seq<nat>, j: nat)
    requires Inv(p, capacity) && Enabled(p, DropNext(j)) && LiveLease(p, Dropped(p.jobs[j]))
    ensures Inv(DropOne(p, j), capacity)
  {
    var lease := Dropped(p.jobs[j]);
    var q := DropOne(p, j);
    assert JobOk(p, p.jobs[j]);
    DropSlots(p, j);
    DropOwned(p, j, q);
    DropLeases(p, capacity, lease, Owned(q));
    assert forall k :: 0 <= k < |q.jobs| && k != j ==> q.jobs[k] == p.jobs[k];
    assert JobsOk(q);
  }

  lemma DropLeases(p: Pool, capacity: seq<nat>, lease: Option<nat>, owned: seq<nat>)
    requires LeasesOk(p, Owned(p), capacity) && LiveLease(p, lease) && |owned| == |p.outside|
    requires forall i: nat :: i < |p.outside| ==> Owned(p)[i] == owned[i] + One(lease == Some(i))
    ensures var (leases, free) := if lease.Some? then Release(p.leases, p.free, lease.value) else (p.leases, p.free);
            Counted(leases, owned) && Budgeted(leases, free, capacity)
  {
    if lease.Some? {
      assert OneTooHigh(p.leases, owned, lease.value);
      ReleaseKeeps(p.leases, p.free, capacity, owned, lease.value);
    } else {
      assert owned == Owned(p);
    }
  }

  lemma ShareSomeKeeps(ls: seq<Lease>, free: seq<nat>, capacity: seq<nat>, handles: seq<nat>, i: Option<nat>)
    requires WellFormed(ls, free) && Counted(ls, handles) && Budgeted(ls, free, capacity)
    requires i.Some? ==> i.value < |ls| && ls[i.value].count > 0
    ensures Counted(ShareSome(ls, i), Bumped(handles, i)) && Budgeted(ShareSome(ls, i), free, capacity)
    ensures WellFormed(ShareSome(ls, i), free)
    ensures forall k :: 0 <= k < |ls| && ls[k].count > 0 ==> ShareSome(ls, i)[k].count > 0
  {
    if i.Some? { ShareKeeps(ls, free, capacity, handles, i.value); }
  }

  function Bumped(s: seq<nat>, i: Option<nat>): (r: seq<nat>)
    requires i.Some? ==> i.value < |s|
    ensures |r| == |s|
  {
    if i.Some? then s[i.value := s[i.value] + 1] else s
  }

  lemma SubmitOwned(p: Pool, job: Job, q: Pool)
    requires q.jobs == p.jobs + [job] && q.outside == p.outside && job.stage == Waiting
    requires job.page.Some? ==> job.page.value < |p.outside|
    requires job.resources.Some? ==> job.resources.value < |p.outside|
    ensures Owned(q) == Bumped(Bumped(Owned(p), job.page), job.resources)
  {
    forall i: nat | i < |p.outside| ensures Owned(q)[i] == Bumped(Bumped(Owned(p), job.page), job.resources)[i] {
      TotalAppend(p.jobs, Handles(i), job);
    }
  }

  lemma SubmitLeases(ls: seq<Lease>, free: seq<nat>, capacity: seq<nat>, handles: seq<nat>, page: Option<nat>,
                     resources: Option<nat>)
    requires WellFormed(ls, free) && Counted(ls, handles) && Budgeted(ls, free, capacity)
    requires page.Some? ==> page.value < |ls| && ls[page.value].count > 0
    requires resources.Some? ==> resources.value < |ls| && ls[resources.value].count > 0
    ensures var after := ShareSome(ShareSome(ls, page), resources);
            && WellFormed(after, free) && Counted(after, Bumped(Bumped(handles, page), resources))
            && Budgeted(after, free, capacity)
  {
    ShareSomeKeeps(ls, free, capacity, handles, page);
    ShareSomeKeeps(ShareSome(ls, page), free, capacity, Bumped(handles, page), resources);
  }

  lemma SubmitSlots(p: Pool, page: Option<nat>, resources: Option<nat>)
    requires SlotsOk(p) && Enabled(p, Submit(page, resources))
    ensures SlotsOk(SubmitJob(p, page, resources))
  {
    TotalAppend(p.jobs, Permits(), Job(Waiting, true, page, resources));
    TotalAppend(p.jobs, Tokens(), Job(Waiting, true, page, resources));
  }

  lemma SubmitKeeps(p: Pool, capacity: seq<nat>, page: Option<nat>, resources: Option<nat>)
    requires Inv(p, capacity) && Enabled(p, Submit(page, resources))
    ensures Inv(SubmitJob(p, page, resources), capacity)
  {
    var q := SubmitJob(p, page, resources);
    SubmitSlots(p, page, resources);
    SubmitLeases(p.leases, p.free, capacity, Owned(p), page, resources);
    SubmitOwned(p, Job(Waiting, true, page, resources), q);
    assert JobsOk(q);
  }

  lemma NoHandleAhead(p: Pool, capacity: seq<nat>, i: nat)
    requires Inv(p, capacity) && i >= |p.leases|
    ensures Total(p.jobs, Handles(i)) == 0
  {
    forall j | 0 <= j < |p.jobs| ensures Handles(i)(p.jobs[j]) == 0 { assert JobOk(p, p.jobs[j]); }
    TotalZero(p.jobs, Handles(i));
  }

  lemma ReserveOwned(p: Pool, q: Pool)
    requires q.jobs == p.jobs && q.outside == p.outside + [1] && Total(p.jobs, Handles(|p.outside|)) == 0
    ensures Owned(q) == Owned(p) + [1]
  {
  }

  lemma ReserveKeeps(p: Pool, capacity: seq<nat>, budget: nat, parent: Option<nat>)
    requires Inv(p, capacity) && Enabled(p, Reserve(budget, parent))
    ensures Inv(Apply(p, Reserve(budget, parent)), capacity)
  {
    var (leases, free) := Acquire(p.leases, p.free, budget, parent);
    var q := p.(leases := leases, free := free, outside := p.outside + [1]);
    AcquireKeeps(p.leases, p.free, capacity, Owned(p), budget, parent);
    NoHandleAhead(p, capacity, |p.leases|);
    ReserveOwned(p, q);
    assert JobsOk(q) by { assert forall k :: 0 <= k < |q.jobs| ==> JobOk(p, q.jobs[k]); }
  }

  lemma CloneKeeps(p: Pool, capacity: seq<nat>, i: nat)
    requires Inv(p, capacity) && Enabled(p, CloneLease(i))
    ensures Inv(Apply(p, CloneLease(i)), capacity)
  {
    var q := Apply(p, CloneLease(i));
    ShareKeeps(p.leases, p.free, capacity, Owned(p), i);
    assert Owned(q) == Owned(p)[i := Owned(p)[i] + 1];
    assert forall k :: 0 <= k < |q.jobs| ==> JobOk(p, q.jobs[k]) && JobOk(q, q.jobs[k]);
  }

  lemma DropLeaseKeeps(p: Pool, capacity: seq<nat>, i: nat)
    requires Inv(p, capacity) && Enabled(p, DropLease(i))
    ensures Inv(Apply(p, DropLease(i)), capacity)
  {
    var q := Apply(p, DropLease(i));
    assert Owned(q) == Owned(p)[i := Owned(p)[i] - 1];
    assert OneTooHigh(p.leases, Owned(q), i);
    ReleaseKeeps(p.leases, p.free, capacity, Owned(q), i);
    assert forall k :: 0 <= k < |q.jobs| ==> JobOk(p, q.jobs[k]) && JobOk(q, q.jobs[k]);
  }

  /** Every step keeps the books of permits, drain tokens and leases. */
  lemma StepKeeps(p: Pool, capacity: seq<nat>, a: Action)
    requires Inv(p, capacity) && Enabled(p, a)
    ensures a.DropNext? ==> LiveLease(p, Dropped(p.jobs[a.j]))
    ensures Inv(Apply(p, a), capacity)
  {
    match a
    case Submit(page, resources) => SubmitKeeps(p, capacity, page, resources);
    case Admit(j) => AdmitKeeps(p, capacity, j);
    case Start(j) => assert JobOk(p, p.jobs[j]); MoveKeeps(p, capacity, j, p.jobs[j].(stage := Running));
    case Finish(j) =>
      assert JobOk(p, p.jobs[j]);
      MoveKeeps(p, capacity, j, p.jobs[j].(stage := if p.jobs[j].attached then Produced else CleanOutput(0)));
    case Panic(j) => assert JobOk(p, p.jobs[j]); MoveKeeps(p, capacity, j, p.jobs[j].(stage := Unwinding(0)));
    case Cancel(j) => assert JobOk(p, p.jobs[j]); MoveKeeps(p, capacity, j, CancelJob(p, j).jobs[j]);
    case Collect(j) => assert JobOk(p, p.jobs[j]); MoveKeeps(p, capacity, j, p.jobs[j].(stage := Collecting(0)));
    case DropNext(j) => DroppedIsLive(p, capacity, j); DropKeeps(p, capacity, j);
    case Reserve(budget, parent) => ReserveKeeps(p, capacity, budget, parent);
    case CloneLease(i) => CloneKeeps(p, capacity, i);
    case DropLease(i) => DropLeaseKeeps(p, capacity, i);
  }
}
