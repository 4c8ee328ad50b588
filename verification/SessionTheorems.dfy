/** What callers may rely on: batching is invisible, nobody is dropped, shutdown
 *  completes, and exactly when it is final. */
module SessionTheorems {
  import opened TexoRuntime
  import opened SessionLedger
  import opened SessionProtocol
  import opened SessionSafety
  import opened SessionRuns
  import opened Wrappers

  /** The native call behind `a` returned what `TexoRuntime.Generate` ensures. */
  ghost predicate Truthful(m: Model, s: State, a: Action) {
    a.Answered? && a.worker < |s.workers| && s.workers[a.worker].phase.Running? ==>
      var group := s.workers[a.worker].phase.group;
      |a.outcomes| == |group.jobs| ==>
        forall k :: 0 <= k < |group.jobs| && group.jobs[k] < |s.calls| ==>
          a.outcomes[k] == m.Solo(s.calls[group.jobs[k]].image, group.budget)
  }

  ghost predicate TruthfulPath(m: Model, s: State, run: seq<Action>)
    decreases |run|
  {
    run == [] || (Truthful(m, s, run[0]) && (Enabled(s, run[0]) ==> TruthfulPath(m, Apply(s, run[0]), run[1..])))
  }

  /** Every answer is the answer its crop gets alone, at its own token budget. */
  ghost predicate AnswersSolo(m: Model, s: State) {
    && |s.calls| == |s.ledger.futures|
    && forall j :: 0 <= j < |s.calls| && s.ledger.futures[j].Done?
                   && s.ledger.futures[j].reply.Answer? ==>
         s.ledger.futures[j].reply.outcome == m.Solo(s.calls[j].image, s.calls[j].budget)
  }

  /** One native call replies to the members of its group and to nobody else. */
  lemma RunTouchesOnlyItsGroup(s: State, w: nat, outcomes: Option<seq<Outcome>>)
    requires Inv(s) && Runs(s, w) && s.workers[w].phase.Running?
    ensures var group, t := s.workers[w].phase.group, ApplyRun(s, w, outcomes);
            && |t.ledger.futures| == |s.ledger.futures|
            && (forall j :: j in group.jobs ==> t.ledger.Finished(j))
            && forall j :: 0 <= j < |s.ledger.futures| && t.ledger.futures[j] != s.ledger.futures[j] ==>
                 exists k :: 0 <= k < |group.jobs| && group.jobs[k] == j
                   && s.ledger.futures[j].Pending?
                   && t.ledger.futures[j] == Done(Replies(group, outcomes)[k])
  {
    SessionSafety.RunKeeps(s, w, outcomes);
    var Running(batch, group, rest) := s.workers[w].phase;
    assert WorkerOk(s, s.workers[w]);
    assert GroupOk(s, batch, ([group] + rest)[0]);
    SettleRepliesOnce(s.ledger, group.jobs, Replies(group, outcomes));
  }

  /** Actions other than native replies and shutdown give nobody a reply. */
  ghost predicate Gentle(s: State, t: State) {
    && |s.ledger.futures| <= |t.ledger.futures|
    && (forall j :: 0 <= j < |s.ledger.futures| ==>
          t.ledger.futures[j] == s.ledger.futures[j] || t.ledger.futures[j] == Cancelled)
    && (forall j :: |s.ledger.futures| <= j < |t.ledger.futures| ==> t.ledger.futures[j].Pending?)
  }

  lemma GentleStep(s: State, a: Action)
    requires Inv(s) && Enabled(s, a)
    requires !a.Answered? && !a.Failed? && !a.Stop? && !a.WorkersJoined?
    ensures Gentle(s, Apply(s, a))
  {
    match a
    case Take(w) => TakeKeeps(s, w);
    case Wake(w) => WakeKeeps(s, w);
    case _ =>
  }

  lemma RunAnswersSolo(m: Model, s: State, w: nat, outcomes: Option<seq<Outcome>>)
    requires Inv(s) && AnswersSolo(m, s)
    requires Runs(s, w) && s.workers[w].phase.Running?
    requires outcomes.Some? ==> Truthful(m, s, Answered(w, outcomes.value))
    ensures AnswersSolo(m, ApplyRun(s, w, outcomes))
  {
    RunTouchesOnlyItsGroup(s, w, outcomes);
    var Running(batch, group, rest) := s.workers[w].phase;
    assert WorkerOk(s, s.workers[w]);
    assert GroupOk(s, batch, ([group] + rest)[0]);
  }

  lemma GentleAnswersSolo(m: Model, s: State, t: State)
    requires AnswersSolo(m, s) && Later(s, t)
    requires Gentle(s, t) || OnlyStops(s.ledger, t.ledger)
    ensures AnswersSolo(m, t)
  {
  }

  lemma AnswersStep(m: Model, s: State, a: Action)
    requires Inv(s) && AnswersSolo(m, s)
    requires Enabled(s, a) && Orderly(s, a) && Truthful(m, s, a)
    ensures AnswersSolo(m, Apply(s, a))
  {
    if a.Answered? {
      RunAnswersSolo(m, s, a.worker, Some(a.outcomes));
    } else if a.Failed? {
      RunAnswersSolo(m, s, a.worker, None);
    } else {
      assert Later(s, Apply(s, a)) by { StepKeeps(s, a); }
      if a.Stop? {
        assert OnlyStops(s.ledger, Apply(s, a).ledger) by { StopKeeps(s, a.worker); }
      } else if a.WorkersJoined? {
        assert OnlyStops(s.ledger, Apply(s, a).ledger) by { WorkersJoinedKeeps(s); }
      } else {
        GentleStep(s, a);
      }
      GentleAnswersSolo(m, s, Apply(s, a));
    }
  }

  /** Batching is invisible to callers: whatever peers share a batch, cancel or
   *  fail, an answer is what a batch of just that crop would have given. */
  lemma {:induction false} BatchingIsInvisible(m: Model, s: State, run: seq<Action>, t: State)
    requires Inv(s) && AnswersSolo(m, s) && OrderlyPath(s, run, t) && TruthfulPath(m, s, run)
    ensures AnswersSolo(m, t)
    decreases |run|
  {
    if run != [] {
      StepKeeps(s, run[0]);
      AnswersStep(m, s, run[0]);
      BatchingIsInvisible(m, Apply(s, run[0]), run[1..], t);
    }
  }

  /** `close` was not called, and nobody was told that it was. */
  ghost predicate Undisturbed(s: State) {
    && s.closing.Open?
    && (forall w :: 0 <= w < |s.workers| ==> !s.workers[w].cancelled)
    && forall j :: 0 <= j < |s.ledger.futures| ==> s.ledger.futures[j] != Done(Stopped)
  }

  lemma StaysOpen(s: State, a: Action)
    requires s.closing.Open? && Enabled(s, a) && !a.CloseBegin? && !a.LoadFailed?
    requires forall w :: 0 <= w < |s.workers| ==> !s.workers[w].cancelled
    ensures var t := Apply(s, a);
            && t.closing.Open?
            && forall w :: 0 <= w < |t.workers| ==> !t.workers[w].cancelled
  {
  }

  lemma UndisturbedStep(s: State, a: Action)
    requires Inv(s) && Undisturbed(s) && Enabled(s, a)
    requires !a.CloseBegin? && !a.LoadFailed?
    ensures Undisturbed(Apply(s, a))
  {
    StaysOpen(s, a);
    if a.Failed? {
      RunTouchesOnlyItsGroup(s, a.worker, None);
    } else if a.Answered? {
      RunTouchesOnlyItsGroup(s, a.worker, Some(a.outcomes));
    } else {
      GentleStep(s, a);
    }
  }

  /** Batching and grouping drop nobody: as long as neither `close` nor a failed
   *  `start` intervenes, no job is ever released with "service stopped". */
  lemma {:induction false} NobodyIsDropped(config: Config, run: seq<Action>, t: State)
    requires Reachable(config, run, t)
    requires forall a :: a in run ==> !a.CloseBegin? && !a.LoadFailed?
    ensures Undisturbed(t)
  {
    UndisturbedPath(Initial(config), run, t);
  }

  lemma {:induction false} UndisturbedPath(s: State, run: seq<Action>, t: State)
    requires Inv(s) && Undisturbed(s) && OrderlyPath(s, run, t)
    requires forall a :: a in run ==> !a.CloseBegin? && !a.LoadFailed?
    ensures Undisturbed(t)
    decreases |run|
  {
    if run != [] {
      assert run[0] in run;
      StepKeeps(s, run[0]);
      UndisturbedStep(s, run[0]);
      UndisturbedPath(Apply(s, run[0]), run[1..], t);
    }
  }

  // ----- exactly when `close` is final -----

  lemma {:induction false} NotAcceptingStays(s: State, run: seq<Action>, t: State)
    requires !s.accepting && !s.starting.Loading? && Path(s, run, t)
    requires NoRestart(run)
    ensures !t.accepting
    decreases |run|
  {
    if run != [] {
      assert run[0] in run;
      NotAcceptingStays(Apply(s, run[0]), run[1..], t);
    }
  }

  /** Nothing stops a `start` that still loads models from opening admission. */
  lemma LoadingOpens(s: State) returns (run: seq<Action>, t: State)
    requires s.starting.Loading?
    ensures Path(s, run, t) && t.accepting
    ensures forall a :: a in run ==> a == Loaded
    decreases s.config.sessions - s.starting.loaded
  {
    var m := Apply(s, Loaded);
    if m.accepting {
      run, t := [Loaded], m;
      assert run[1..] == [];
      assert Path(m, run[1..], t);
    } else {
      var tail;
      tail, t := LoadingOpens(m);
      run := [Loaded] + tail;
      assert run[1..] == tail;
    }
  }

  /** The source lets `close` run while `start` is still loading, and then the
   *  unfinished `start` reopens admission. `close` is final, that is, no later
   *  step accepts a request until `start` is called again, if and only if no
   *  `start` is loading when `close` is called. */
  lemma CloseIsFinalIff(s: State)
    requires Enabled(s, CloseBegin)
    ensures (forall run: seq<Action>, t: State ::
                 Path(Apply(s, CloseBegin), run, t) && NoRestart(run) ==> !t.accepting)
            <==> !s.starting.Loading?
  {
    var m := Apply(s, CloseBegin);
    if s.starting.Loading? {
      var run, t := LoadingOpens(m);
      assert Path(m, run, t) && NoRestart(run);
    } else {
      forall run: seq<Action>, t: State | Path(m, run, t) && NoRestart(run) ensures !t.accepting {
        NotAcceptingStays(m, run, t);
      }
    }
  }

  // ----- shutdown completes -----

  ghost function CountWaiting(calls: seq<Call>): nat {
    if calls == [] then 0
    else CountWaiting(calls[..|calls| - 1]) + if calls[|calls| - 1].admission.Waiting? then 1 else 0
  }

  ghost function CountLive(workers: seq<Worker>): nat {
    if workers == [] then 0
    else CountLive(workers[..|workers| - 1]) + if workers[|workers| - 1].phase.Exited? then 0 else 1
  }

  lemma {:induction false} WithdrawCounts(calls: seq<Call>, j: nat, c: Call)
    requires j < |calls| && calls[j].admission.Waiting? && !c.admission.Waiting?
    ensures CountWaiting(calls[j := c]) < CountWaiting(calls)
  {
    var n := |calls| - 1;
    if j == n {
      assert calls[j := c][..n] == calls[..n];
    } else {
      assert calls[j := c][..n] == calls[..n][j := c];
      WithdrawCounts(calls[..n], j, c);
    }
  }

  lemma {:induction false} StopCounts(workers: seq<Worker>, w: nat, p: Worker)
    requires w < |workers| && !workers[w].phase.Exited? && p.phase.Exited?
    ensures CountLive(workers[w := p]) < CountLive(workers)
  {
    var n := |workers| - 1;
    if w == n {
      assert workers[w := p][..n] == workers[..n];
    } else {
      assert workers[w := p][..n] == workers[..n][w := p];
      StopCounts(workers[..n], w, p);
    }
  }

  ghost function Remaining(c: Closing): nat {
    match c
    case Open => 4
    case JoiningAdmissions(_) => 3
    case JoiningWorkers(_) => 2
    case JoiningExecutors(_) => 1
    case Closed => 0
  }

  /** The step of the shutting-down manager that delivers a requested cancellation
   *  or lets a native call return, or moves `close` on when there is none left. */
  ghost function ShutdownStep(s: State): Action
    requires !s.closing.Open? && !s.closing.Closed?
  {
    match s.closing
    case JoiningAdmissions(_) =>
      if exists j: nat :: j < |s.calls| && s.calls[j].admission.Waiting?
      then var j: nat :| j < |s.calls| && s.calls[j].admission.Waiting?; Withdraw(j)
      else AdmissionsJoined
    case JoiningWorkers(_) =>
      if exists w: nat :: w < |s.workers| && !s.workers[w].phase.Exited?
      then var w: nat :| w < |s.workers| && !s.workers[w].phase.Exited?; Stop(w)
      else WorkersJoined
    case JoiningExecutors(gathered) =>
      if exists e :: e in gathered && e in s.busy
      then var e :| e in gathered && e in s.busy; NativeDone(e)
      else ExecutorsJoined
  }

  /** What happens while the manager shuts down on its own. */
  ghost predicate OwnStep(a: Action) {
    || a.Withdraw? || a.Stop? || a.NativeDone?
    || a.AdmissionsJoined? || a.WorkersJoined? || a.ExecutorsJoined?
  }

  lemma ShutdownEnabled(s: State)
    requires Inv(s) && !s.closing.Open? && !s.closing.Closed?
    ensures var a := ShutdownStep(s);
            OwnStep(a) && Enabled(s, a) && Orderly(s, a) && !Apply(s, a).closing.Open?
  {
  }

  lemma WithdrawAdvances(s: State, j: JobId)
    requires Enabled(s, Withdraw(j))
    ensures var m := Apply(s, Withdraw(j));
            m.closing == s.closing && CountWaiting(m.calls) < CountWaiting(s.calls)
  {
    var m := Apply(s, Withdraw(j));
    WithdrawCounts(s.calls, j, m.calls[j]);
  }

  lemma StopAdvances(s: State, w: nat)
    requires Enabled(s, Stop(w))
    ensures var m := Apply(s, Stop(w));
            m.closing == s.closing && m.calls == s.calls && CountLive(m.workers) < CountLive(s.workers)
  {
    var m := Apply(s, Stop(w));
    StopCounts(s.workers, w, m.workers[w]);
  }

  lemma SmallerSet(a: set<nat>, b: set<nat>)
    requires a < b
    ensures |a| < |b|
  {
    assert b == a + (b - a);
  }

  lemma ShutdownAdvances(s: State)
    requires Inv(s) && !s.closing.Open? && !s.closing.Closed?
    requires Enabled(s, ShutdownStep(s))
    ensures var m := Apply(s, ShutdownStep(s));
            || Remaining(m.closing) < Remaining(s.closing)
            || (Remaining(m.closing) == Remaining(s.closing)
                && (|| CountWaiting(m.calls) < CountWaiting(s.calls)
                    || (CountWaiting(m.calls) == CountWaiting(s.calls)
                        && (|| CountLive(m.workers) < CountLive(s.workers)
                            || (CountLive(m.workers) == CountLive(s.workers) && |m.busy| < |s.busy|)))))
  {
    var a := ShutdownStep(s);
    if a.Withdraw? {
      WithdrawAdvances(s, a.job);
    } else if a.Stop? {
      StopAdvances(s, a.worker);
    } else if a.NativeDone? {
      assert Apply(s, a).busy < s.busy;
      SmallerSet(Apply(s, a).busy, s.busy);
    }
  }

  /** A `close` that has begun is never stuck, as long as native calls return: the
   *  requested cancellations and those returns lead to its own return, without any
   *  further help from callers. */
  lemma ShutdownCompletes(s: State) returns (run: seq<Action>, t: State)
    requires Inv(s) && !s.closing.Open?
    ensures OrderlyPath(s, run, t) && t.closing.Closed?
    ensures forall a :: a in run ==> OwnStep(a)
    decreases Remaining(s.closing), CountWaiting(s.calls), CountLive(s.workers), |s.busy|
  {
    if s.closing.Closed? {
      run, t := [], s;
    } else {
      var a := ShutdownStep(s);
      ShutdownEnabled(s);
      ShutdownAdvances(s);
      StepKeeps(s, a);
      var tail;
      tail, t := ShutdownCompletes(Apply(s, a));
      run := [a] + tail;
      assert run[1..] == tail;
    }
  }

  // ----- native calls -----

  /** No executor ever has two native calls: live consumers have executors of their
   *  own, one that does not await a call finds its executor free, and an executor
   *  that is loading belongs to no consumer yet. */
  lemma OneCallPerExecutor(config: Config, run: seq<Action>, s: State)
    requires Reachable(config, run, s)
    ensures forall v, w :: 0 <= v < w < |s.workers| ==> s.workers[v].executor != s.workers[w].executor
    ensures forall w :: 0 <= w < |s.workers| && !s.workers[w].phase.Exited? ==>
              (s.workers[w].phase.Running? <==> s.workers[w].executor in s.busy)
    ensures s.starting.Loading? ==> forall w :: 0 <= w < |s.workers| ==>
              s.workers[w].executor != s.starting.executor
  {
    SessionRuns.RunKeeps(Initial(config), run, s);
  }

  /** When `close` has returned, no native call is running and no executor is left,
   *  even though cancelling the consumers stopped none of their calls. */
  lemma NativeCallsAreJoined(config: Config, run: seq<Action>, s: State)
    requires Reachable(config, run, s) && s.closing.Closed?
    ensures s.busy == {} && s.executors == {}
  {
    SessionRuns.RunKeeps(Initial(config), run, s);
  }

  lemma AbandonedByOthers(s: State, w: nat, l: Ledger, p: Phase, e: nat)
    requires NativeOk(s) && w < |s.workers| && !s.workers[w].phase.Exited?
    requires e in s.busy && !Awaited(s, e)
    ensures var t := SetPhase(s, w, l, p); e in t.busy && !Awaited(t, e)
  {
    assert s.workers[w].executor != e;
  }

  /** A native call that nobody awaits any more goes on until it returns. */
  lemma AbandonedStays(s: State, a: Action, e: nat)
    requires NativeOk(s) && Enabled(s, a) && Orderly(s, a) && a != NativeDone(e)
    requires e in s.busy && !Awaited(s, e)
    ensures e in Apply(s, a).busy && !Awaited(Apply(s, a), e)
  {
    if a.Take? || a.Wake? || a.Answered? || a.Failed? || a.Stop? {
      var t := Apply(s, a);
      AbandonedByOthers(s, a.worker, t.ledger, t.workers[a.worker].phase, e);
      assert t == SetPhase(s, a.worker, t.ledger, t.workers[a.worker].phase);
    } else {
    }
  }

  /** A native call that was left behind and never returns holds up `close` for ever. */
  lemma {:induction false} HungCallHoldsClose(s: State, run: seq<Action>, t: State, e: nat)
    requires Inv(s) && OrderlyPath(s, run, t) && e in s.busy && !Awaited(s, e)
    requires NativeDone(e) !in run
    ensures e in t.busy && !t.closing.Closed?
    decreases |run|
  {
    if run != [] {
      assert run[0] in run;
      StepKeeps(s, run[0]);
      AbandonedStays(s, run[0], e);
      HungCallHoldsClose(Apply(s, run[0]), run[1..], t, e);
    }
  }

  // ----- `close` during `start` -----

  lemma PathStep(s: State, a: Action, run: seq<Action>, t: State)
    requires Enabled(s, a) && Path(Apply(s, a), run, t)
    ensures Path(s, [a] + run, t)
  {
    assert ([a] + run)[1..] == run;
  }

  /** `close` waits for the thread that loads the only model. When the model is
   *  loaded, `start` resumes first and opens admission; then `close` returns. */
  ghost const OVERLAP: seq<Action> :=
    [StartBegin, CloseBegin, AdmissionsJoined, WorkersJoined, Loaded, ExecutorsJoined, Submit(0, 2), Place(0)]

  /** The manager while its only model is loading. */
  ghost function LoadingOnly(closing: Closing): State {
    State(Config(1, 1, 1), Ledger([], 0, [], false), [], {}, [], false, Loading(0, 0), 1, {0}, {0}, closing)
  }

  lemma OverlapBegins()
    ensures Apply(Initial(Config(1, 1, 1)), StartBegin) == LoadingOnly(Open)
    ensures Apply(LoadingOnly(Open), CloseBegin) == LoadingOnly(JoiningAdmissions({}))
  {
    assert {} + {0} == {0};
  }

  lemma OverlapJoins()
    ensures Apply(LoadingOnly(JoiningAdmissions({})), AdmissionsJoined) == LoadingOnly(JoiningWorkers(0))
    ensures Apply(LoadingOnly(JoiningWorkers(0)), WorkersJoined) == LoadingOnly(JoiningExecutors({0}))
  {
    var m := Apply(LoadingOnly(JoiningAdmissions({})), AdmissionsJoined);
    assert m.workers == [];
  }

  lemma OverlapHalf()
    ensures Path(Initial(Config(1, 1, 1)), OVERLAP[..4], LoadingOnly(JoiningExecutors({0})))
  {
    var m := LoadingOnly(JoiningExecutors({0}));
    OverlapBegins();
    OverlapJoins();
    PathStep(LoadingOnly(JoiningWorkers(0)), WorkersJoined, [], m);
    PathStep(LoadingOnly(JoiningAdmissions({})), AdmissionsJoined, [WorkersJoined] + [], m);
    PathStep(LoadingOnly(Open), CloseBegin, [AdmissionsJoined] + ([WorkersJoined] + []), m);
    PathStep(Initial(Config(1, 1, 1)), StartBegin, [CloseBegin] + ([AdmissionsJoined] + ([WorkersJoined] + [])), m);
    assert OVERLAP[..4] == [StartBegin] + ([CloseBegin] + ([AdmissionsJoined] + ([WorkersJoined] + [])));
  }

  /** The second half: the load ends, `close` returns, and a request comes in. */
  lemma OverlapRest() returns (t: State)
    ensures Path(LoadingOnly(JoiningExecutors({0})), OVERLAP[4..], t)
    ensures t.closing.Closed? && t.ledger.queue == [0] && !t.ledger.Finished(0)
  {
    var m := LoadingOnly(JoiningExecutors({0}));
    var a := Apply(m, Loaded);
    var b := Apply(a, ExecutorsJoined);
    var c := Apply(b, Submit(0, 2));
    t := Apply(c, Place(0));
    PathStep(c, Place(0), [], t);
    PathStep(b, Submit(0, 2), [Place(0)] + [], t);
    PathStep(a, ExecutorsJoined, [Submit(0, 2)] + ([Place(0)] + []), t);
    PathStep(m, Loaded, [ExecutorsJoined] + ([Submit(0, 2)] + ([Place(0)] + [])), t);
    assert OVERLAP[4..] == [Loaded] + ([ExecutorsJoined] + ([Submit(0, 2)] + ([Place(0)] + [])));
  }

  lemma {:induction false} PathJoin(s: State, run: seq<Action>, m: State, tail: seq<Action>, t: State)
    requires Path(s, run, m) && Path(m, tail, t)
    ensures Path(s, run + tail, t)
    decreases |run|
  {
    if run == [] {
      assert run + tail == tail;
    } else {
      PathJoin(Apply(s, run[0]), run[1..], m, tail, t);
      PathStep(s, run[0], run[1..] + tail, t);
      assert run + tail == [run[0]] + (run[1..] + tail);
    }
  }

  /** A run from the beginning in which `close` has returned and a job is enqueued
   *  all the same. */
  lemma OverlapReopens() returns (t: State)
    ensures Path(Initial(Config(1, 1, 1)), OVERLAP, t)
    ensures t.closing.Closed? && t.ledger.queue == [0] && !t.ledger.Finished(0)
  {
    OverlapHalf();
    t := OverlapRest();
    PathJoin(Initial(Config(1, 1, 1)), OVERLAP[..4], LoadingOnly(JoiningExecutors({0})), OVERLAP[4..], t);
    assert OVERLAP == OVERLAP[..4] + OVERLAP[4..];
  }
}
