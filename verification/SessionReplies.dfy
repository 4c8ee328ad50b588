/** What a caller of the session manager gets back, and that the consumers always get
 *  there: statements about futures and callers, not about the code that sets them. */
module SessionReplies {
  import opened TexoRuntime
  import opened SessionLedger
  import opened SessionProtocol
  import opened SessionSafety
  import opened SessionRuns
  import opened SessionTheorems
  import opened Wrappers

  /** The members of the group that the consumer runs. */
  function RunningJobs(s: State, w: nat): seq<JobId>
    requires Runs(s, w) && s.workers[w].phase.Running?
  {
    s.workers[w].phase.group.jobs
  }

  lemma MembersAreCalls(s: State, w: nat)
    requires Inv(s) && Runs(s, w) && s.workers[w].phase.Running?
    ensures forall k :: 0 <= k < |RunningJobs(s, w)| ==>
              RunningJobs(s, w)[k] < |s.calls| == |s.ledger.futures|
  {
    var Running(batch, group, rest) := s.workers[w].phase;
    assert WorkerOk(s, s.workers[w]);
    assert GroupOk(s, batch, ([group] + rest)[0]);
  }

  /** A native call that returns one outcome for each crop gives every member that still
   *  waits the outcome at its own position. */
  lemma AnswersAreDelivered(s: State, w: nat, outcomes: seq<Outcome>, j: JobId)
    requires Inv(s) && Enabled(s, Answered(w, outcomes)) && |outcomes| == |RunningJobs(s, w)|
    requires j in RunningJobs(s, w) && j < |s.ledger.futures| && s.ledger.futures[j].Pending?
    ensures var t := Apply(s, Answered(w, outcomes));
            && j < |t.ledger.futures|
            && exists k :: 0 <= k < |outcomes| && RunningJobs(s, w)[k] == j
                           && t.ledger.futures[j] == Done(Answer(outcomes[k]))
  {
    RunTouchesOnlyItsGroup(s, w, Some(outcomes));
  }

  /** A native call that raises, or returns too many or too few outcomes, fails every
   *  member that still waits. */
  lemma FailuresAreDelivered(s: State, w: nat, a: Action, j: JobId)
    requires Inv(s) && Enabled(s, a)
    requires a == Failed(w) || (a.Answered? && a.worker == w && |a.outcomes| != |RunningJobs(s, w)|)
    requires j in RunningJobs(s, w) && j < |s.ledger.futures| && s.ledger.futures[j].Pending?
    ensures var t := Apply(s, a);
            j < |t.ledger.futures| && t.ledger.futures[j] == Done(InferenceFailed)
  {
    RunTouchesOnlyItsGroup(s, w, if a.Failed? then None else Some(a.outcomes));
  }

  /** What `generate` promises of its outcomes reaches the futures: each waiting member has
   *  the answer of its own crop at its own budget. */
  lemma SoloAnswersAreDelivered(m: Model, s: State, w: nat, outcomes: seq<Outcome>, j: JobId)
    requires Inv(s) && Enabled(s, Answered(w, outcomes)) && |outcomes| == |RunningJobs(s, w)|
    requires Truthful(m, s, Answered(w, outcomes))
    requires j in RunningJobs(s, w) && j < |s.ledger.futures| && s.ledger.futures[j].Pending?
    ensures j < |s.calls| && j < |Apply(s, Answered(w, outcomes)).ledger.futures|
    ensures Apply(s, Answered(w, outcomes)).ledger.futures[j]
         == Done(Answer(m.Solo(s.calls[j].image, s.calls[j].budget)))
  {
    AnswersAreDelivered(s, w, outcomes, j);
    MembersAreCalls(s, w);
    var Running(batch, group, rest) := s.workers[w].phase;
    assert WorkerOk(s, s.workers[w]);
    assert GroupOk(s, batch, ([group] + rest)[0]);
  }

  /** And from there the caller: unless it was cancelled it can return at once, with
   *  exactly that answer. */
  lemma AnswerReachesCaller(m: Model, s: State, w: nat, outcomes: seq<Outcome>, j: JobId)
    requires Inv(s) && Enabled(s, Answered(w, outcomes)) && |outcomes| == |RunningJobs(s, w)|
    requires Truthful(m, s, Answered(w, outcomes))
    requires j in RunningJobs(s, w) && j < |s.ledger.futures| && s.ledger.futures[j].Pending?
    requires j < |s.calls| && s.calls[j].caller.AwaitReply? && !s.calls[j].interrupted
    ensures var t := Apply(s, Answered(w, outcomes));
            && Enabled(t, Return(j))
            && j < |Apply(t, Return(j)).calls|
            && Apply(t, Return(j)).calls[j].caller
               == Returned(Replied(Answer(m.Solo(s.calls[j].image, s.calls[j].budget))))
  {
    SoloAnswersAreDelivered(m, s, w, outcomes, j);
  }

  /** A caller that is cancelled while it waits for its reply can return at once, gets no
   *  reply, and its future stays cancelled over every run: nothing is computed for it
   *  that anybody would see. */
  lemma CancelledCallerReturns(s: State, j: JobId)
    requires Inv(s) && Enabled(s, Interrupt(j)) && s.calls[j].caller.AwaitReply?
    requires s.ledger.futures[j].Pending?
    ensures var t := Apply(s, Interrupt(j));
            && Inv(t) && t.ledger.futures[j] == Cancelled && Enabled(t, Return(j))
            && Apply(t, Return(j)).calls[j].caller == Returned(RaisedCancelled)
  {
    CallActionKeeps(s, Interrupt(j));
  }

  lemma {:induction false} CancelledStays(s: State, run: seq<Action>, t: State, j: JobId)
    requires Inv(s) && OrderlyPath(s, run, t) && j < |s.ledger.futures| && s.ledger.futures[j] == Cancelled
    ensures j < |t.ledger.futures| && t.ledger.futures[j] == Cancelled
  {
    SessionRuns.RunKeeps(s, run, t);
    assert s.ledger.Finished(j);
  }

  /** A caller that is cancelled while its admission waits for space is never enqueued and
   *  can return in two more steps; it is told that the service stopped exactly when it no
   *  longer accepts requests. */
  lemma CancelledAdmissionReturns(s: State, j: JobId)
    requires Inv(s) && Enabled(s, Interrupt(j)) && s.calls[j].admission.Waiting?
    ensures var a := Apply(s, Interrupt(j));
            && Enabled(a, Withdraw(j))
            && var b := Apply(a, Withdraw(j));
               && Enabled(b, Admitted(j))
               && var t := Apply(b, Admitted(j));
                  && t.calls[j].admission.Withdrawn? && t.ledger.queue == s.ledger.queue
                  && !t.ledger.futures[j].Pending?
                  && t.calls[j].caller == Returned(if s.accepting then RaisedCancelled else RaisedStopped)
  {
    assert CallOk(s, j);
  }

  /** A caller that is cancelled after its job was enqueued, but before it noticed, returns
   *  at its next step, and its job is passed over from then on. */
  lemma CancelledAfterAdmission(s: State, j: JobId)
    requires Inv(s) && Enabled(s, Interrupt(j)) && s.calls[j].caller.AwaitAdmission?
    requires s.calls[j].admission.Placed? && s.ledger.futures[j].Pending?
    ensures var a := Apply(s, Interrupt(j));
            && Enabled(a, Admitted(j))
            && var t := Apply(a, Admitted(j));
               && t.ledger.futures[j] == Cancelled
               && t.calls[j].caller == Returned(if s.accepting then RaisedCancelled else RaisedStopped)
  {
  }

  // ----- every admitted call is answered -----

  /** While nothing is closing, every loaded model has a live consumer. */
  ghost predicate Staffed(s: State) {
    s.closing.Open? ==>
      && (forall w :: 0 <= w < |s.workers| ==> !s.workers[w].cancelled && !s.workers[w].phase.Exited?)
      && (s.starting.Loading? ==> |s.workers| == s.starting.loaded < s.config.sessions)
      && (s.starting.Started? ==> |s.workers| == s.config.sessions)
  }

  lemma StaffedWorker(s: State, a: Action)
    requires Staffed(s) && Enabled(s, a) && (a.Take? || a.Wake? || a.Answered? || a.Failed?)
    ensures Staffed(Apply(s, a))
  {
    var t := Apply(s, a);
    assert t == SetPhase(s, a.worker, t.ledger, t.workers[a.worker].phase);
    NotExited(s, a);
  }

  lemma StaffedCaller(s: State, a: Action)
    requires Staffed(s) && Enabled(s, a)
    requires a.Submit? || a.Place? || a.Withdraw? || a.Interrupt? || a.Admitted? || a.Return? || a.NativeDone?
    ensures Staffed(Apply(s, a))
  {
    var t := Apply(s, a);
    assert t.workers == s.workers && t.closing == s.closing && t.starting == s.starting && t.config == s.config;
  }

  lemma StaffedLife(s: State, a: Action)
    requires Inv(s) && Staffed(s) && Enabled(s, a) && Orderly(s, a)
    requires a.StartBegin? || a.Loaded? || a.LoadFailed? || a.CloseBegin?
          || a.AdmissionsJoined? || a.WorkersJoined? || a.ExecutorsJoined?
    ensures Staffed(Apply(s, a))
  {
  }

  lemma StaffedStep(s: State, a: Action)
    requires Inv(s) && Staffed(s) && Enabled(s, a) && Orderly(s, a)
    ensures Staffed(Apply(s, a))
  {
    if a.Take? || a.Wake? || a.Answered? || a.Failed? {
      StaffedWorker(s, a);
    } else if a.Submit? || a.Place? || a.Withdraw? || a.Interrupt? || a.Admitted? || a.Return? || a.NativeDone? {
      StaffedCaller(s, a);
    } else if a.Stop? {
      assert !s.closing.Open?;
    } else {
      StaffedLife(s, a);
    }
  }

  lemma NotExited(s: State, a: Action)
    requires Enabled(s, a) && (a.Take? || a.Wake? || a.Answered? || a.Failed?)
    ensures !Apply(s, a).workers[a.worker].phase.Exited?
  {
    if a.Answered? || a.Failed? {
      var Running(batch, group, rest) := s.workers[a.worker].phase;
      var outcomes := if a.Failed? then None else Some(a.outcomes);
      NextGroupGoesOn(s.ledger.Settle(group.jobs, Replies(group, outcomes)), batch, rest);
    } else {
      var l := if a.Take? then s.ledger.Pop() else s.ledger;
      var first := if a.Take? then [s.ledger.queue[0]] else s.workers[a.worker].phase.batch;
      var (g, batch) := l.Gather(first, s.config.batchSize);
      NextGroupGoesOn(g, batch, g.Groups(batch, Budgets(s)));
    }
  }

  /** How many more awaits a consumer has ahead of it before it is idle. */
  function Rank(limit: nat, p: Phase): nat {
    match p
    case Sleeping(_) => limit + 1
    case Running(_, _, rest) => 1 + |rest|
    case _ => 0
  }

  lemma {:induction false} NextGroupGoesOn(l: Ledger, batch: seq<JobId>, groups: seq<Group>)
    ensures var (r, p) := NextGroup(l, batch, groups);
            && (p.Idle? || p.Running?) && Rank(0, p) <= |groups| && r.queue == l.queue
  {
    if groups == [] {
      ReleaseQueue(l, batch);
    } else {
      NextGroupGoesOn(l, batch, groups[1..]);
    }
  }

  lemma {:induction false} ReleaseQueue(l: Ledger, batch: seq<JobId>)
    ensures l.Release(batch).queue == l.queue
  {
    if batch != [] { ReleaseQueue(l, batch[..|batch| - 1]); }
  }

  lemma {:induction false} FewGroups(l: Ledger, jobs: seq<JobId>, budgets: seq<nat>)
    ensures |l.Groups(jobs, budgets)| <= |jobs|
  {
    if jobs != [] {
      var n := |jobs| - 1;
      FewGroups(l, jobs[..n], budgets);
      if !(l.Finished(jobs[n]) || jobs[n] >= |budgets|) {
        OneMoreGroup(l.Groups(jobs[..n], budgets), budgets[jobs[n]], jobs[n]);
      }
    }
  }

  lemma {:induction false} OneMoreGroup(groups: seq<Group>, budget: nat, job: JobId)
    ensures |AddToGroup(groups, budget, job)| <= |groups| + 1
  {
    if groups != [] { OneMoreGroup(groups[1..], budget, job); }
  }

  ghost function RankSum(limit: nat, workers: seq<Worker>): nat {
    if workers == [] then 0
    else RankSum(limit, workers[..|workers| - 1]) + Rank(limit, workers[|workers| - 1].phase)
  }

  lemma {:induction false} RankDrops(limit: nat, workers: seq<Worker>, w: nat, x: Worker)
    requires w < |workers| && Rank(limit, x.phase) < Rank(limit, workers[w].phase)
    ensures RankSum(limit, workers[w := x]) < RankSum(limit, workers)
  {
    var n := |workers| - 1;
    if w == n {
      assert workers[w := x][..n] == workers[..n];
    } else {
      assert workers[w := x][..n] == workers[..n][w := x];
      RankDrops(limit, workers[..n], w, x);
    }
  }

  /** The outcomes that `generate` promises for the group that runs. */
  function TrueOutcomes(m: Model, s: State, w: nat): (r: seq<Outcome>)
    requires Runs(s, w) && s.workers[w].phase.Running?
    ensures |r| == |RunningJobs(s, w)| && Truthful(m, s, Answered(w, r))
  {
    var group := s.workers[w].phase.group;
    seq(|group.jobs|, k requires 0 <= k < |group.jobs| =>
      if group.jobs[k] < |s.calls| then m.Solo(s.calls[group.jobs[k]].image, group.budget) else Rejected(""))
  }

  ghost predicate IsIdle(s: State) {
    s.ledger.queue == [] && forall w :: 0 <= w < |s.workers| ==> s.workers[w].phase.Idle?
  }

  /** Open for requests, with consumers at work. */
  ghost predicate Serving(s: State) {
    Inv(s) && Staffed(s) && s.closing.Open? && s.starting.Started?
  }

  /** A step that brings the consumers closer to being idle: one that is at work goes on,
   *  and if there is none the first takes a job. */
  ghost function WorkStep(m: Model, s: State): Action
    requires Serving(s) && !IsIdle(s)
  {
    if exists w: nat :: w < |s.workers| && !s.workers[w].phase.Idle? then
      var w: nat :| w < |s.workers| && !s.workers[w].phase.Idle?;
      if s.workers[w].phase.Sleeping? then Wake(w) else Answered(w, TrueOutcomes(m, s, w))
    else Take(0)
  }

  /** A job that was waiting and is not waiting any more has its own answer. */
  ghost predicate OnlyAnswers(m: Model, s: State, t: State) {
    && |s.calls| == |s.ledger.futures| && t.calls == s.calls && |t.ledger.futures| == |s.ledger.futures|
    && forall j :: 0 <= j < |s.calls| && t.ledger.futures[j] != s.ledger.futures[j] ==>
         && s.ledger.futures[j].Pending?
         && t.ledger.futures[j] == Done(Answer(m.Solo(s.calls[j].image, s.calls[j].budget)))
  }

  lemma WakeAdvances(s: State, w: nat)
    requires Inv(s) && Enabled(s, Wake(w))
    ensures var t := Apply(s, Wake(w));
            && |t.ledger.queue| <= |s.ledger.queue|
            && RankSum(s.config.batchSize, t.workers) < RankSum(s.config.batchSize, s.workers)
  {
    var t, first := Apply(s, Wake(w)), s.workers[w].phase.batch;
    assert WorkerOk(s, s.workers[w]);
    GatherKeeps(s.ledger, first, s.config.batchSize);
    var (g, batch) := s.ledger.Gather(first, s.config.batchSize);
    FewGroups(g, batch, Budgets(s));
    NextGroupGoesOn(g, batch, g.Groups(batch, Budgets(s)));
    RankDrops(s.config.batchSize, s.workers, w, t.workers[w]);
  }

  lemma TakeAdvances(s: State, w: nat)
    requires Inv(s) && Enabled(s, Take(w))
    ensures |Apply(s, Take(w)).ledger.queue| < |s.ledger.queue|
  {
    var job, l := s.ledger.queue[0], s.ledger.Pop();
    ReleaseQueue(l, [job]);
    GatherKeeps(l, [job], s.config.batchSize);
    var (g, batch) := l.Gather([job], s.config.batchSize);
    NextGroupGoesOn(g, batch, g.Groups(batch, Budgets(s)));
  }

  lemma AnsweredAdvances(m: Model, s: State, w: nat)
    requires Inv(s) && Runs(s, w) && s.workers[w].phase.Running?
    ensures var t := Apply(s, Answered(w, TrueOutcomes(m, s, w)));
            && |t.ledger.queue| <= |s.ledger.queue|
            && RankSum(s.config.batchSize, t.workers) < RankSum(s.config.batchSize, s.workers)
  {
    var Running(batch, group, rest) := s.workers[w].phase;
    var outcomes := TrueOutcomes(m, s, w);
    var t := Apply(s, Answered(w, outcomes));
    MembersAreCalls(s, w);
    SettleRepliesOnce(s.ledger, group.jobs, Replies(group, Some(outcomes)));
    NextGroupGoesOn(s.ledger.Settle(group.jobs, Replies(group, Some(outcomes))), batch, rest);
    RankDrops(s.config.batchSize, s.workers, w, t.workers[w]);
  }

  lemma AnsweredOnlyAnswers(m: Model, s: State, w: nat)
    requires Inv(s) && Runs(s, w) && s.workers[w].phase.Running?
    ensures OnlyAnswers(m, s, Apply(s, Answered(w, TrueOutcomes(m, s, w))))
  {
    var outcomes := TrueOutcomes(m, s, w);
    var t := Apply(s, Answered(w, outcomes));
    RunTouchesOnlyItsGroup(s, w, Some(outcomes));
    forall j | 0 <= j < |s.calls| && t.ledger.futures[j] != s.ledger.futures[j]
      ensures s.ledger.futures[j].Pending?
      ensures t.ledger.futures[j] == Done(Answer(m.Solo(s.calls[j].image, s.calls[j].budget)))
    {
      SoloAnswersAreDelivered(m, s, w, outcomes, j);
    }
  }

  lemma WorkIsEnabled(m: Model, s: State)
    requires Serving(s) && !IsIdle(s)
    ensures var a := WorkStep(m, s);
            Enabled(s, a) && Orderly(s, a) && Truthful(m, s, a) && (a.Take? || a.Wake? || a.Answered?)
    ensures WorkStep(m, s).Answered? ==>
              WorkStep(m, s) == Answered(WorkStep(m, s).worker, TrueOutcomes(m, s, WorkStep(m, s).worker))
  {
  }

  lemma WorkAdvances(m: Model, s: State)
    requires Serving(s) && !IsIdle(s)
    ensures Enabled(s, WorkStep(m, s))
    ensures var t := Apply(s, WorkStep(m, s));
            && OnlyAnswers(m, s, t)
            && (|| |t.ledger.queue| < |s.ledger.queue|
                || (|t.ledger.queue| <= |s.ledger.queue|
                    && RankSum(s.config.batchSize, t.workers) < RankSum(s.config.batchSize, s.workers)))
  {
    var a := WorkStep(m, s);
    WorkIsEnabled(m, s);
    if a.Wake? {
      WakeOnlyAnswers(m, s, a.worker);
      WakeAdvances(s, a.worker);
    } else if a.Answered? {
      AnsweredAdvances(m, s, a.worker);
      AnsweredOnlyAnswers(m, s, a.worker);
    } else {
      TakeOnlyAnswers(m, s, a.worker);
      TakeAdvances(s, a.worker);
    }
  }

  lemma WakeOnlyAnswers(m: Model, s: State, w: nat)
    requires Inv(s) && Enabled(s, Wake(w))
    ensures OnlyAnswers(m, s, Apply(s, Wake(w)))
  {
    WakeKeeps(s, w);
  }

  lemma TakeOnlyAnswers(m: Model, s: State, w: nat)
    requires Inv(s) && Enabled(s, Take(w))
    ensures OnlyAnswers(m, s, Apply(s, Take(w)))
  {
    TakeKeeps(s, w);
  }

  lemma WorkKeepsServing(s: State, a: Action)
    requires Serving(s) && Enabled(s, a) && (a.Take? || a.Wake? || a.Answered?)
    ensures Serving(Apply(s, a)) && Apply(s, a).config == s.config
  {
    StepKeeps(s, a);
    StaffedStep(s, a);
  }

  /** Every admitted call that was waiting has its own answer. */
  ghost predicate AllAnswered(m: Model, s: State, t: State) {
    && |s.calls| == |s.ledger.futures| == |t.ledger.futures|
    && forall j :: 0 <= j < |s.calls| && s.calls[j].admission.Placed? && s.ledger.futures[j].Pending? ==>
         t.ledger.futures[j] == Done(Answer(m.Solo(s.calls[j].image, s.calls[j].budget)))
  }

  lemma AnsweredByThen(m: Model, s: State, u: State, t: State)
    requires OnlyAnswers(m, s, u) && OnlyAnswers(m, u, t) && AllAnswered(m, u, t)
    ensures OnlyAnswers(m, s, t) && AllAnswered(m, s, t)
  {
    forall j | 0 <= j < |s.calls| && s.calls[j].admission.Placed? && s.ledger.futures[j].Pending?
      ensures t.ledger.futures[j] == Done(Answer(m.Solo(s.calls[j].image, s.calls[j].budget)))
    {
      if u.ledger.futures[j] != s.ledger.futures[j] { assert !u.ledger.futures[j].Pending?; }
    }
  }

  lemma IdleIsAnswered(m: Model, s: State)
    requires Inv(s) && IsIdle(s)
    ensures OnlyAnswers(m, s, s) && AllAnswered(m, s, s)
  {
    HeldNothing(s.workers);
    assert Places(s) == multiset{};
    forall j | 0 <= j < |s.calls| && s.calls[j].admission.Placed? ensures !s.ledger.futures[j].Pending? {
      assert CallOk(s, j);
    }
  }

  lemma OneStepFirst(m: Model, s: State, a: Action, run: seq<Action>, t: State)
    requires Enabled(s, a) && Orderly(s, a) && Truthful(m, s, a)
    requires OrderlyPath(Apply(s, a), run, t) && TruthfulPath(m, Apply(s, a), run)
    ensures OrderlyPath(s, [a] + run, t) && TruthfulPath(m, s, [a] + run)
  {
    assert ([a] + run)[1..] == run;
  }

  /** Whatever is queued or in the consumers' hands, they can finish all of it by
   *  themselves: after finitely many of their steps every admitted call that was still
   *  waiting has the answer of its own crop at its own budget. */
  lemma {:induction false} AdmittedCallsAreAnswered(m: Model, s: State) returns (run: seq<Action>, t: State)
    requires Serving(s)
    ensures OrderlyPath(s, run, t) && TruthfulPath(m, s, run)
    ensures forall a :: a in run ==> a.Take? || a.Wake? || a.Answered?
    ensures OnlyAnswers(m, s, t) && AllAnswered(m, s, t)
    decreases |s.ledger.queue|, RankSum(s.config.batchSize, s.workers)
  {
    if IsIdle(s) {
      run, t := [], s;
      IdleIsAnswered(m, s);
    } else {
      var a := WorkStep(m, s);
      WorkIsEnabled(m, s);
      WorkAdvances(m, s);
      WorkKeepsServing(s, a);
      var tail;
      tail, t := AdmittedCallsAreAnswered(m, Apply(s, a));
      run := [a] + tail;
      OneStepFirst(m, s, a, tail, t);
      AnsweredByThen(m, s, Apply(s, a), t);
    }
  }

  /** The manager serves in every state in which it accepts requests. */
  lemma AcceptingServes(config: Config, run: seq<Action>, s: State)
    requires Reachable(config, run, s) && s.accepting
    ensures Serving(s) && |s.workers| == config.sessions
  {
    StaffedPath(Initial(config), run, s);
    SessionRuns.RunKeeps(Initial(config), run, s);
  }

  lemma {:induction false} StaffedPath(s: State, run: seq<Action>, t: State)
    requires Inv(s) && Staffed(s) && OrderlyPath(s, run, t)
    ensures Staffed(t)
    decreases |run|
  {
    if run != [] {
      StepKeeps(s, run[0]);
      StaffedStep(s, run[0]);
      StaffedPath(Apply(s, run[0]), run[1..], t);
    }
  }

  /** A call from its submission to its place in the queue. */
  lemma Enqueued(s: State, image: Image, budget: nat) returns (t: State)
    requires Inv(s) && s.accepting && |s.ledger.queue| < s.config.queueSize
    ensures OrderlyPath(s, [Submit(image, budget), Place(|s.calls|), Admitted(|s.calls|)], t)
    ensures |t.calls| == |s.calls| + 1 && |t.ledger.futures| == |t.calls|
    ensures t.calls[|s.calls|] == Call(image, budget, Placed, false, AwaitReply, false)
    ensures t.ledger.futures[|s.calls|].Pending? && t.closing == s.closing && t.starting == s.starting
    ensures t.workers == s.workers && t.config == s.config
  {
    var j := |s.calls|;
    var a := Apply(s, Submit(image, budget));
    var b := Apply(a, Place(j));
    t := Apply(b, Admitted(j));
    assert IsCall(a, j) && IsCall(b, j);
    var run := [Submit(image, budget), Place(j), Admitted(j)];
    assert run[1..] == [Place(j), Admitted(j)] && run[1..][1..] == [Admitted(j)] && run[1..][1..][1..] == [];
    assert OrderlyPath(t, [], t);
    assert OrderlyPath(b, [Admitted(j)], t);
    assert OrderlyPath(a, [Place(j), Admitted(j)], t);
  }

  lemma {:induction false} OrderlyJoin(s: State, run: seq<Action>, m: State, tail: seq<Action>, t: State)
    requires OrderlyPath(s, run, m) && OrderlyPath(m, tail, t)
    ensures OrderlyPath(s, run + tail, t)
    decreases |run|
  {
    if run == [] {
      assert run + tail == tail;
    } else {
      OrderlyJoin(Apply(s, run[0]), run[1..], m, tail, t);
      assert (run + tail)[1..] == run[1..] + tail;
    }
  }

  lemma OrderlyLast(s: State, a: Action)
    requires Enabled(s, a) && Orderly(s, a)
    ensures OrderlyPath(s, [a], Apply(s, a))
  {
    assert [a][1..] == [];
  }

  /** What the service is for: whenever it accepts requests and there is room, a request can
   *  be submitted, and the consumers' own steps lead to its return with exactly the answer
   *  its crop gets alone at its budget. */
  lemma RequestIsServed(m: Model, s: State, image: Image, budget: nat) returns (work: seq<Action>, t: State)
    requires Serving(s) && s.accepting && |s.ledger.queue| < s.config.queueSize
    ensures forall a :: a in work ==> a.Take? || a.Wake? || a.Answered?
    ensures OrderlyPath(s, [Submit(image, budget), Place(|s.calls|), Admitted(|s.calls|)] + work
                           + [Return(|s.calls|)], t)
    ensures |s.calls| < |t.calls|
    ensures t.calls[|s.calls|].caller == Returned(Replied(Answer(m.Solo(image, budget))))
  {
    var j := |s.calls|;
    var queued := Enqueued(s, image, budget);
    var begin := [Submit(image, budget), Place(j), Admitted(j)];
    SessionRuns.RunKeeps(s, begin, queued);
    var served;
    work, served := AdmittedCallsAreAnswered(m, queued);
    t := Apply(served, Return(j));
    OrderlyLast(served, Return(j));
    OrderlyJoin(s, begin, queued, work, served);
    OrderlyJoin(s, begin + work, served, [Return(j)], t);
  }
}
