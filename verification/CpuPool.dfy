/** One finite CPU pool of crates/common/src/runtime.rs, as the steps its submissions
 *  take on the caller, on a pool thread and on a cleanup thread. */
module CpuPools {
  import opened Wrappers
  import opened Leases

  /** Where a submission is. The numbered phases are the drops of a tuple or of local
   *  variables, one owner at a time. */
  datatype Stage =
    | Waiting               // the caller's future awaits a permit
    | Queued                // spawned with its permit, not yet on a thread
    | Running               // the operation runs on a pool thread
    | Produced              // the output waits in the join handle
    | Collecting(phase: nat)  // the caller took the output; the other owners go
    | Unwinding(phase: nat)   // the operation panicked; the other owners go
    | CleanInput(phase: nat)  // an unadmitted submission is destroyed
    | CleanOutput(phase: nat) // an uncollected output is destroyed
    | Done

  /** `attached` while the caller still awaits; the leases are the page's and the
   *  resource's. */
  datatype Job = Job(stage: Stage, attached: bool, page: Option<nat>, resources: Option<nat>)

  // ----- who still owns what -----

  /** The input or the output is still owned by the pool. */
  predicate HoldsPayload(j: Job) {
    match j.stage
    case Waiting => true
    case Queued => true
    case Running => true
    case Produced => true
    case CleanInput(k) => k == 0
    case CleanOutput(k) => k == 0
    case _ => false
  }

  predicate Admitted(j: Job) {
    j.stage.Queued? || j.stage.Running? || j.stage.Produced?
  }

  predicate HoldsToken(j: Job) {
    match j.stage
    case Done => false
    case Collecting(k) => k == 0
    case Unwinding(k) => k == 0
    case _ => true
  }

  predicate HoldsPermit(j: Job) {
    match j.stage
    case Collecting(k) => k <= 1
    case Unwinding(k) => true
    case CleanOutput(k) => k <= 3
    case _ => Admitted(j)
  }

  predicate HoldsPage(j: Job) {
    match j.stage
    case Done => false
    case Collecting(k) => true
    case Unwinding(k) => k <= 2
    case CleanInput(k) => k <= 1
    case CleanOutput(k) => k <= 1
    case _ => true
  }

  predicate HoldsResources(j: Job) {
    match j.stage
    case Done => false
    case Collecting(k) => k <= 2
    case Unwinding(k) => k <= 1
    case CleanInput(k) => k <= 2
    case CleanOutput(k) => k <= 2
    case _ => true
  }

  /** The last drop of each sequence. */
  function LastPhase(s: Stage): nat {
    if s.CleanOutput? then 4 else 3
  }

  predicate Dropping(s: Stage) {
    s.Collecting? || s.Unwinding? || s.CleanInput? || s.CleanOutput?
  }

  predicate StageOk(s: Stage) {
    Dropping(s) ==> s.phase <= LastPhase(s)
  }

  function Next(s: Stage): Stage
    requires Dropping(s)
  {
    if s.phase >= LastPhase(s) then Done
    else
      match s
      case Collecting(k) => Collecting(k + 1)
      case Unwinding(k) => Unwinding(k + 1)
      case CleanInput(k) => CleanInput(k + 1)
      case CleanOutput(k) => CleanOutput(k + 1)
      case _ => s
  }

  // ----- the state -----

  /** `outside` counts the lease handles that belong to nobody in the pool. */
  datatype Pool = Pool(threads: nat, permits: nat, tokens: nat, jobs: seq<Job>,
                       leases: seq<Lease>, free: seq<nat>, outside: seq<nat>)

  datatype Action =
    | Submit(page: Option<nat>, resources: Option<nat>)
    | Admit(j: nat)
    | Start(j: nat)
    | Finish(j: nat)
    | Panic(j: nat)
    | Cancel(j: nat)
    | Collect(j: nat)
    | DropNext(j: nat)
    | Reserve(budget: nat, parent: Option<nat>)
    | CloneLease(i: nat)
    | DropLease(i: nat)

  function One(b: bool): nat {
    if b then 1 else 0
  }

  /** Whether a submission occupies a pool thread: it runs, or it unwinds a panic. */
  function OnThread(): Job -> nat {
    (j: Job) => One(j.stage.Running? || j.stage.Unwinding?)
  }

  function Permits(): Job -> nat {
    (j: Job) => One(HoldsPermit(j))
  }

  function Tokens(): Job -> nat {
    (j: Job) => One(HoldsToken(j))
  }

  /** How many handles on lease `i` a submission owns. */
  function Handles(i: nat): Job -> nat {
    (j: Job) => One(HoldsPage(j) && j.page == Some(i)) + One(HoldsResources(j) && j.resources == Some(i))
  }

  predicate LiveLease(p: Pool, i: Option<nat>) {
    i.Some? ==> i.value < |p.leases| && p.leases[i.value].count > 0
  }

  predicate At(p: Pool, j: nat, s: Stage) {
    j < |p.jobs| && p.jobs[j].stage == s
  }

  predicate Enabled(p: Pool, a: Action) {
    match a
    case Submit(page, resources) => LiveLease(p, page) && LiveLease(p, resources)
    case Admit(j) => At(p, j, Waiting) && p.jobs[j].attached && p.permits > 0
    case Start(j) => At(p, j, Queued) && Total(p.jobs, OnThread()) < p.threads
    case Finish(j) => At(p, j, Running)
    case Panic(j) => At(p, j, Running)
    case Cancel(j) => j < |p.jobs| && p.jobs[j].attached && (p.jobs[j].stage.Waiting? || Admitted(p.jobs[j]))
    case Collect(j) => At(p, j, Produced) && p.jobs[j].attached
    case DropNext(j) => j < |p.jobs| && Dropping(p.jobs[j].stage)
    case Reserve(budget, parent) => budget < |p.free| && p.free[budget] > 0 && LiveLease(p, parent)
    case CloneLease(i) => LiveLease(p, Some(i))
    case DropLease(i) => i < |p.leases| && i < |p.outside| && p.outside[i] > 0 && p.leases[i].count > 0
  }

  function Move(p: Pool, j: nat, s: Stage): Pool
    requires j < |p.jobs|
  {
    p.(jobs := p.jobs[j := p.jobs[j].(stage := s)])
  }

  function ShareSome(ls: seq<Lease>, i: Option<nat>): (r: seq<Lease>)
    requires i.Some? ==> i.value < |ls|
    ensures |r| == |ls|
  {
    if i.Some? then Share(ls, i.value) else ls
  }

  /** The lease a drop phase gives up. */
  function Dropped(j: Job): Option<nat>
    requires Dropping(j.stage)
  {
    var next := j.(stage := Next(j.stage));
    if HoldsPage(j) && !HoldsPage(next) then j.page
    else if HoldsResources(j) && !HoldsResources(next) then j.resources
    else None
  }

  /** One drop: the owner that goes returns what it holds. */
  function DropOne(p: Pool, j: nat): Pool
    requires WellFormed(p.leases, p.free)
    requires j < |p.jobs| && Dropping(p.jobs[j].stage) && LiveLease(p, Dropped(p.jobs[j]))
  {
    var job := p.jobs[j];
    var next := job.(stage := Next(job.stage));
    var lease := Dropped(job);
    var (leases, free) := if lease.Some? then Release(p.leases, p.free, lease.value) else (p.leases, p.free);
    p.(jobs := p.jobs[j := next],
       permits := p.permits + One(HoldsPermit(job) && !HoldsPermit(next)),
       tokens := if HoldsToken(job) && !HoldsToken(next) && p.tokens > 0 then p.tokens - 1 else p.tokens,
       leases := leases, free := free)
  }

  /** A caller that goes away leaves running work to finish on its own. */
  function CancelJob(p: Pool, j: nat): Pool
    requires j < |p.jobs|
  {
    var job := p.jobs[j].(attached := false);
    var stage :=
      if job.stage.Waiting? then CleanInput(0)
      else if job.stage.Produced? then CleanOutput(0)
      else job.stage;
    p.(jobs := p.jobs[j := job.(stage := stage)])
  }

  function SubmitJob(p: Pool, page: Option<nat>, resources: Option<nat>): Pool
    requires LiveLease(p, page) && LiveLease(p, resources)
  {
    p.(jobs := p.jobs + [Job(Waiting, true, page, resources)],
       tokens := p.tokens + 1,
       leases := ShareSome(ShareSome(p.leases, page), resources))
  }

  function Apply(p: Pool, a: Action): Pool
    requires Enabled(p, a) && WellFormed(p.leases, p.free)
    requires a.DropNext? ==> LiveLease(p, Dropped(p.jobs[a.j]))
  {
    match a
    case Submit(page, resources) => SubmitJob(p, page, resources)
    case Admit(j) => Move(p, j, Queued).(permits := p.permits - 1)
    case Start(j) => Move(p, j, Running)
    case Finish(j) => Move(p, j, if p.jobs[j].attached then Produced else CleanOutput(0))
    case Panic(j) => Move(p, j, Unwinding(0))
    case Cancel(j) => CancelJob(p, j)
    case Collect(j) => Move(p, j, Collecting(0))
    case DropNext(j) => DropOne(p, j)
    case Reserve(budget, parent) =>
      var (leases, free) := Acquire(p.leases, p.free, budget, parent);
      p.(leases := leases, free := free, outside := p.outside + [1])
    case CloneLease(i) =>
      if i < |p.outside| then p.(leases := Share(p.leases, i), outside := p.outside[i := p.outside[i] + 1]) else p
    case DropLease(i) =>
      var (leases, free) := Release(p.leases, p.free, i);
      p.(leases := leases, free := free, outside := p.outside[i := p.outside[i] - 1])
  }

  // ----- the owner of one input or output -----

  /** The values handed to the cleanup threads. */
  class Cleanup<T> {
    var scheduled: seq<T>

    constructor ()
      ensures scheduled == []
    {
      scheduled := [];
    }
  }

  class CpuOwned<T> {
    var value: Option<T>
    const cleanup: Cleanup<T>

    constructor (v: T, c: Cleanup<T>)
      ensures value == Some(v) && cleanup == c
    {
      value, cleanup := Some(v), c;
    }

    /** Transfers a normally consumed value. */
    method IntoInner() returns (v: T)
      requires value.Some?
      modifies this, cleanup
      ensures old(value) == Some(v) && value == None
      ensures cleanup.scheduled == old(cleanup.scheduled)
    {
      v := value.value;
      value := None;
      Drop();
    }

    /** Destroys what was not consumed, off the dropping thread. */
    method Drop()
      modifies this, cleanup
      ensures value == None
      ensures cleanup.scheduled == old(cleanup.scheduled) + if old(value).Some? then [old(value).value] else []
    {
      if value.Some? {
        cleanup.scheduled := cleanup.scheduled + [value.value];
        value := None;
      }
    }
  }
}
