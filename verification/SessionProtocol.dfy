/** The concurrent protocol of optimum-texo/session_manager.py.
 *
 *  asyncio tasks interleave only where they await, so a run is a sequence of
 *  actions, each the code between two awaits. `Enabled` over-approximates the
 *  scheduler: any admission may use free capacity and any waiting consumer any
 *  queued job. `task.cancel()` only requests cancellation; the request is a
 *  flag and its delivery a later action, as in asyncio.
 *
 *  Cancelling a consumer does not stop the native call it awaits: the call goes
 *  on in the consumer's executor until `NativeDone`, and `close` joins it.
 */
module SessionProtocol {
  import opened TexoRuntime
  import opened SessionLedger
  import opened Wrappers

  datatype Config = Config(sessions: nat, queueSize: nat, batchSize: nat)
  {
    predicate Valid() {
      sessions >= 1 && queueSize >= 1 && batchSize >= 1
    }
  }

  /** The task that runs `queue.put` for one call of `submit`. */
  datatype Admission = Waiting | Placed | Withdrawn

  datatype CallResult = Replied(reply: Reply) | RaisedCancelled | RaisedStopped

  datatype Caller = AwaitAdmission | AwaitReply | Returned(result: CallResult)

  /** One accepted call of `submit`. `withdraw` and `interrupted` are pending
   *  cancellation requests on its admission task and on its own task. */
  datatype Call = Call(image: Image, budget: nat, admission: Admission, withdraw: bool,
                       caller: Caller, interrupted: bool)

  /** Where one consumer task awaits. */
  datatype Phase =
    | Idle
    | Sleeping(batch: seq<JobId>)
    | Running(batch: seq<JobId>, group: Group, rest: seq<Group>)
    | Exited
  {
    function Batch(): seq<JobId> {
      match this
      case Sleeping(jobs) => jobs
      case Running(jobs, _, _) => jobs
      case _ => []
    }
  }

  /** A consumer task and the single-threaded executor that owns its model. */
  datatype Worker = Worker(phase: Phase, cancelled: bool, executor: nat)

  datatype Starting = Unstarted | Loading(loaded: nat, executor: nat) | Started

  /** Where `close` awaits, with what `gather` was given. */
  datatype Closing =
    | Open
    | JoiningAdmissions(gathered: set<JobId>)
    | JoiningWorkers(count: nat)
    | JoiningExecutors(executors: set<nat>)
    | Closed

  /** `executors` are the registered ones of the `created` so far, and `busy` are
   *  those whose thread is inside a native call. */
  datatype State = State(
    config: Config, ledger: Ledger, calls: seq<Call>, admissions: set<JobId>,
    workers: seq<Worker>, accepting: bool, starting: Starting,
    created: nat, executors: set<nat>, busy: set<nat>, closing: Closing)

  datatype Action =
    | StartBegin | Loaded | LoadFailed
    | Submit(image: Image, budget: nat) | Place(job: JobId) | Withdraw(job: JobId)
    | Interrupt(job: JobId) | Admitted(job: JobId) | Return(job: JobId)
    | Take(worker: nat) | Wake(worker: nat)
    | Answered(worker: nat, outcomes: seq<Outcome>) | Failed(worker: nat) | Stop(worker: nat)
    | NativeDone(executor: nat)
    | CloseBegin | AdmissionsJoined | WorkersJoined | ExecutorsJoined

  predicate IsCall(s: State, job: JobId) {
    job < |s.calls| && job < |s.ledger.futures|
  }

  predicate Runs(s: State, worker: nat) {
    worker < |s.workers| && !s.workers[worker].cancelled && !s.workers[worker].phase.Exited?
  }

  /** Somebody still awaits the native call that runs in this executor. */
  predicate Awaited(s: State, executor: nat) {
    || (s.starting.Loading? && s.starting.executor == executor)
    || exists w: nat :: w < |s.workers| && s.workers[w].executor == executor && s.workers[w].phase.Running?
  }

  predicate Enabled(s: State, a: Action) {
    match a
    case StartBegin => s.executors == {} && !s.starting.Loading?
    case Loaded => s.starting.Loading?
    case LoadFailed => s.starting.Loading? && (s.closing.Open? || s.closing.Closed?)
    case Submit(_, _) => s.accepting && |s.calls| == |s.ledger.futures|
    case Place(j) =>
      && IsCall(s, j) && s.calls[j].admission.Waiting? && !s.calls[j].withdraw
      && |s.ledger.queue| < s.config.queueSize
    case Withdraw(j) => IsCall(s, j) && s.calls[j].admission.Waiting? && s.calls[j].withdraw
    case Interrupt(j) => IsCall(s, j) && !s.calls[j].caller.Returned?
    case Admitted(j) =>
      IsCall(s, j) && s.calls[j].caller.AwaitAdmission? && !s.calls[j].admission.Waiting?
    case Return(j) =>
      && IsCall(s, j) && s.calls[j].caller.AwaitReply?
      && (s.calls[j].interrupted || s.ledger.Finished(j))
    case Take(w) => Runs(s, w) && s.workers[w].phase.Idle? && s.ledger.queue != []
    case Wake(w) => Runs(s, w) && s.workers[w].phase.Sleeping?
    case Answered(w, _) => Runs(s, w) && s.workers[w].phase.Running?
    case Failed(w) => Runs(s, w) && s.workers[w].phase.Running?
    case Stop(w) => w < |s.workers| && s.workers[w].cancelled && !s.workers[w].phase.Exited?
    case NativeDone(e) => e in s.busy && !Awaited(s, e)
    case CloseBegin => s.closing.Open? || s.closing.Closed?
    case AdmissionsJoined =>
      && s.closing.JoiningAdmissions?
      && forall j :: j in s.closing.gathered ==> j < |s.calls| && !s.calls[j].admission.Waiting?
    case WorkersJoined =>
      && s.closing.JoiningWorkers? && s.closing.count <= |s.workers|
      && forall w :: 0 <= w < s.closing.count ==> s.workers[w].phase.Exited?
    case ExecutorsJoined => s.closing.JoiningExecutors? && s.closing.executors !! s.busy
  }

  function SetCall(s: State, job: JobId, c: Call): State
    requires job < |s.calls|
  {
    s.(calls := s.calls[job := c])
  }

  /** A consumer goes to its next await. Its executor is inside a native call when
   *  that await is one; a consumer that exits leaves its call behind. */
  function SetPhase(s: State, worker: nat, l: Ledger, p: Phase): State
    requires worker < |s.workers|
  {
    var w := s.workers[worker];
    s.(ledger := l, workers := s.workers[worker := w.(phase := p)],
       busy := if p.Running? then s.busy + {w.executor}
               else if p.Exited? then s.busy else s.busy - {w.executor})
  }

  function Budgets(s: State): (r: seq<nat>)
    ensures |r| == |s.calls|
    ensures forall j :: 0 <= j < |r| ==> r[j] == s.calls[j].budget
  {
    seq(|s.calls|, j requires 0 <= j < |s.calls| => s.calls[j].budget)
  }

  /** The loop over budget groups up to its next await: run the first group that
   *  still has a waiting caller, or release the batch and go idle. */
  function NextGroup(l: Ledger, batch: seq<JobId>, groups: seq<Group>): (Ledger, Phase) {
    if groups == [] then (l.Release(batch), Idle)
    else
      var group := l.Waiting(groups[0].jobs);
      if group == [] then NextGroup(l, batch, groups[1..])
      else (l, Running(batch, Group(groups[0].budget, group), groups[1..]))
  }

  /** From a first job to the next await: gather ready peers, then run groups. */
  function Dispatch(s: State, l: Ledger, first: seq<JobId>): (Ledger, Phase) {
    var (l', batch) := l.Gather(first, s.config.batchSize);
    NextGroup(l', batch, l'.Groups(batch, Budgets(s)))
  }

  function ApplyTake(s: State, w: nat): State
    requires w < |s.workers| && s.ledger.queue != []
  {
    var job, l := s.ledger.queue[0], s.ledger.Pop();
    if l.Finished(job) then SetPhase(s, w, l.Release([job]), Idle)
    else if |l.queue| < s.config.batchSize - 1 then SetPhase(s, w, l, Sleeping([job]))
    else
      var (l', p) := Dispatch(s, l, [job]);
      SetPhase(s, w, l', p)
  }

  /** What one native call means for the members of its group. A wrong number of
   *  results is a failure of the whole group. */
  function Replies(group: Group, outcomes: Option<seq<Outcome>>): (r: seq<Reply>)
    ensures |r| == |group.jobs|
  {
    if outcomes.Some? && |outcomes.value| == |group.jobs|
    then seq(|group.jobs|, k requires 0 <= k < |group.jobs| => Answer(outcomes.value[k]))
    else seq(|group.jobs|, _ => InferenceFailed)
  }

  /** After the native call: reply to the group, then continue with the next one. */
  function ApplyRun(s: State, w: nat, outcomes: Option<seq<Outcome>>): State
    requires w < |s.workers| && s.workers[w].phase.Running?
  {
    var Running(batch, group, rest) := s.workers[w].phase;
    var settled := s.ledger.Settle(group.jobs, Replies(group, outcomes));
    var (l, p) := NextGroup(settled, batch, rest);
    SetPhase(s, w, l, p)
  }

  /** A new executor is registered and begins to load a model. */
  function BeginLoad(s: State, loaded: nat): State {
    s.(starting := Loading(loaded, s.created), created := s.created + 1,
       executors := s.executors + {s.created}, busy := s.busy + {s.created})
  }

  /** One model is loaded: its consumer starts, then the next load or acceptance. */
  function ApplyLoaded(s: State): State
    requires s.starting.Loading?
  {
    var Loading(loaded, executor) := s.starting;
    var t := s.(workers := s.workers + [Worker(Idle, false, executor)], busy := s.busy - {executor});
    if loaded + 1 < s.config.sessions
    then BeginLoad(t, loaded + 1)
    else t.(starting := Started, accepting := true)
  }

  /** The synchronous head of `close`. */
  function BeginClose(s: State): State {
    s.(accepting := false,
       calls := seq(|s.calls|, j requires 0 <= j < |s.calls| =>
         if j in s.admissions && s.calls[j].admission.Waiting?
         then s.calls[j].(withdraw := true) else s.calls[j]),
       closing := JoiningAdmissions(s.admissions))
  }

  function ApplyAdmitted(s: State, j: JobId): State
    requires IsCall(s, j)
  {
    var c := s.calls[j];
    var t := s.(admissions := s.admissions - {j});
    if c.admission.Placed? && !c.interrupted
    then SetCall(t, j, c.(caller := AwaitReply))
    else
      var result := if s.accepting then RaisedCancelled else RaisedStopped;
      SetCall(t, j, c.(caller := Returned(result))).(ledger := s.ledger.Cancel(j))
  }

  function ApplyReturn(s: State, j: JobId): State
    requires IsCall(s, j)
  {
    var c, future := s.calls[j], s.ledger.futures[j];
    var result := if c.interrupted || !future.Done? then RaisedCancelled else Replied(future.reply);
    SetCall(s, j, c.(caller := Returned(result))).(ledger := s.ledger.Cancel(j))
  }

  /** `caller.cancel()` goes to whatever the caller awaits, if that is unfinished. */
  function ApplyInterrupt(s: State, j: JobId): State
    requires IsCall(s, j)
  {
    var c := s.calls[j];
    if c.caller.AwaitAdmission? && c.admission.Waiting?
    then SetCall(s, j, c.(withdraw := true))
    else if c.caller.AwaitAdmission?
    then SetCall(s, j, c.(interrupted := true))
    else SetCall(s, j, c.(interrupted := true)).(ledger := s.ledger.Cancel(j))
  }

  function Apply(s: State, a: Action): State
    requires Enabled(s, a)
  {
    match a
    case StartBegin =>
      BeginLoad(s.(closing := if s.closing.Closed? then Open else s.closing), 0)
    case Loaded => ApplyLoaded(s)
    case LoadFailed => BeginClose(s.(starting := Unstarted))
    case Submit(image, budget) =>
      s.(calls := s.calls + [Call(image, budget, Waiting, false, AwaitAdmission, false)],
         ledger := s.ledger.(futures := s.ledger.futures + [Pending]),
         admissions := s.admissions + {|s.calls|})
    case Place(j) =>
      SetCall(s, j, s.calls[j].(admission := Placed)).(ledger := s.ledger.Put(j))
    case Withdraw(j) => SetCall(s, j, s.calls[j].(admission := Withdrawn))
    case Interrupt(j) => ApplyInterrupt(s, j)
    case Admitted(j) => ApplyAdmitted(s, j)
    case Return(j) => ApplyReturn(s, j)
    case Take(w) => ApplyTake(s, w)
    case Wake(w) =>
      var (l, p) := Dispatch(s, s.ledger, s.workers[w].phase.batch);
      SetPhase(s, w, l, p)
    case Answered(w, outcomes) => ApplyRun(s, w, Some(outcomes))
    case Failed(w) => ApplyRun(s, w, None)
    case Stop(w) => SetPhase(s, w, s.ledger.Release(s.workers[w].phase.Batch()), Exited)
    case NativeDone(e) => s.(busy := s.busy - {e})
    case CloseBegin => BeginClose(s)
    case AdmissionsJoined =>
      s.(workers := seq(|s.workers|, w requires 0 <= w < |s.workers| =>
           s.workers[w].(cancelled := s.workers[w].cancelled || !s.workers[w].phase.Exited?)),
         closing := JoiningWorkers(|s.workers|))
    case WorkersJoined =>
      s.(workers := [], ledger := s.ledger.DrainAll(), closing := JoiningExecutors(s.executors))
    case ExecutorsJoined =>
      s.(executors := {}, closing := Closed,
         starting := if s.starting.Loading? then s.starting else Unstarted)
  }

  /** A manager that was constructed and not yet started. */
  function Initial(config: Config): State {
    State(config, Ledger([], 0, [], false), [], {}, [], false, Unstarted, 0, {}, {}, Open)
  }

  /** `start` and `close` do not overlap, as in the service's lifespan. */
  predicate Orderly(s: State, a: Action) {
    && (a.CloseBegin? ==> !s.starting.Loading?)
    && (a.StartBegin? ==> s.closing.Open? || s.closing.Closed?)
  }
}
