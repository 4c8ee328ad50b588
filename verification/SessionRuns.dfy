/** Safety of whole runs of the session manager. */
module SessionRuns {
  import opened TexoRuntime
  import opened SessionLedger
  import opened SessionProtocol
  import opened SessionSafety

  /** `run` leads from `s` to `t`. */
  ghost predicate Path(s: State, run: seq<Action>, t: State)
    decreases |run|
  {
    if run == [] then s == t else Enabled(s, run[0]) && Path(Apply(s, run[0]), run[1..], t)
  }

  /** A run in which `start` and `close` never overlap. */
  ghost predicate OrderlyPath(s: State, run: seq<Action>, t: State)
    decreases |run|
  {
    if run == [] then s == t
    else Enabled(s, run[0]) && Orderly(s, run[0]) && OrderlyPath(Apply(s, run[0]), run[1..], t)
  }

  ghost predicate Reachable(config: Config, run: seq<Action>, s: State) {
    config.Valid() && OrderlyPath(Initial(config), run, s)
  }

  lemma {:induction false} RunKeeps(s: State, run: seq<Action>, t: State)
    requires Inv(s) && OrderlyPath(s, run, t)
    ensures Inv(t) && Later(s, t)
    decreases |run|
  {
    if run != [] {
      var m := Apply(s, run[0]);
      StepKeeps(s, run[0]);
      RunKeeps(m, run[1..], t);
    }
  }

  /** Every enqueued job that is not yet reported with `task_done` is in exactly
   *  one place, the queue or one consumer's batch; all others have their reply.
   *  Capacities hold, the unfinished counter counts those places, and neither
   *  `set_result` nor `task_done` was ever called once too often. */
  lemma JobsAreConserved(config: Config, run: seq<Action>, s: State)
    requires Reachable(config, run, s)
    ensures !s.ledger.fault
    ensures s.ledger.unfinished == |Places(s)|
    ensures |s.ledger.queue| <= config.queueSize
    ensures forall w :: 0 <= w < |s.workers| ==> |s.workers[w].phase.Batch()| <= config.batchSize
    ensures forall j :: 0 <= j < |s.calls| ==>
              (j in Places(s) ==> s.calls[j].admission.Placed? && Places(s)[j] == 1)
              && (s.calls[j].admission.Placed? && j !in Places(s) ==> s.ledger.Finished(j))
  {
    assert Inv(Initial(config));
    RunKeeps(Initial(config), run, s);
    forall w | 0 <= w < |s.workers| ensures |s.workers[w].phase.Batch()| <= config.batchSize {
      assert WorkerOk(s, s.workers[w]);
    }
    forall j | 0 <= j < |s.calls|
      ensures (j in Places(s) ==> s.calls[j].admission.Placed? && Places(s)[j] == 1)
              && (s.calls[j].admission.Placed? && j !in Places(s) ==> s.ledger.Finished(j))
    {
      assert CallOk(s, j);
    }
  }

  /** A reply, once given, and a returned call are final; a caller that got a
   *  reply got the one of its own future. */
  lemma AnswersAreFinal(config: Config, before: seq<Action>, s: State, run: seq<Action>, t: State)
    requires Reachable(config, before, s) && OrderlyPath(s, run, t)
    ensures |s.calls| == |s.ledger.futures| && |s.calls| <= |t.calls| == |t.ledger.futures|
    ensures forall j :: 0 <= j < |s.calls| && s.ledger.Finished(j) ==>
              t.ledger.futures[j] == s.ledger.futures[j]
    ensures forall j :: 0 <= j < |s.calls| && s.calls[j].caller.Returned? ==>
              t.calls[j].caller == s.calls[j].caller
    ensures forall j :: 0 <= j < |s.calls| && s.calls[j].caller.Returned?
                        && s.calls[j].caller.result.Replied? ==>
              s.ledger.futures[j] == Done(s.calls[j].caller.result.reply)
  {
    RunKeeps(Initial(config), before, s);
    RunKeeps(s, run, t);
    forall j | 0 <= j < |s.calls| && s.calls[j].caller.Returned? && s.calls[j].caller.result.Replied?
      ensures s.ledger.futures[j] == Done(s.calls[j].caller.result.reply)
    {
      assert CallOk(s, j);
    }
  }

  /** `start` is not called in this run. */
  ghost predicate NoRestart(run: seq<Action>) {
    forall a :: a in run ==> !a.StartBegin?
  }

  /** Nothing can be enqueued and nothing is left. */
  ghost predicate Shut(s: State) {
    !s.accepting && Quiet(s) && s.workers == [] && s.ledger.queue == []
  }

  /** When `close` has returned, the queue is empty, no job is unfinished, every
   *  job ever enqueued has its reply, and every caller that has not returned yet
   *  can do so without waiting for anybody. */
  lemma CloseFinishesEverything(config: Config, run: seq<Action>, s: State)
    requires Reachable(config, run, s) && s.closing.Closed?
    ensures Shut(s) && s.ledger.unfinished == 0
    ensures forall j :: 0 <= j < |s.calls| && s.calls[j].admission.Placed? ==> s.ledger.Finished(j)
    ensures forall j :: 0 <= j < |s.calls| && !s.calls[j].caller.Returned? ==>
              Enabled(s, Admitted(j)) || Enabled(s, Return(j))
  {
    RunKeeps(Initial(config), run, s);
    assert Places(s) == multiset{};
    forall j | 0 <= j < |s.calls|
      ensures s.calls[j].admission.Placed? ==> s.ledger.Finished(j)
      ensures !s.calls[j].caller.Returned? ==> Enabled(s, Admitted(j)) || Enabled(s, Return(j))
    {
      assert CallOk(s, j);
    }
  }

  /** After `close` has returned, no step enqueues a job until `start` is called. */
  lemma {:induction false} ClosedStaysShut(s: State, run: seq<Action>, t: State)
    requires Inv(s) && s.closing.Closed? && OrderlyPath(s, run, t)
    requires NoRestart(run)
    ensures Shut(t) && t.ledger.unfinished == 0
    ensures |t.calls| == |s.calls|
    ensures forall j :: 0 <= j < |t.calls| && t.calls[j].admission.Placed? ==>
              s.calls[j].admission.Placed?
  {
    ShutPath(s, run, t);
    RunKeeps(s, run, t);
    assert Places(t) == multiset{};
  }

  lemma {:induction false} ShutPath(s: State, run: seq<Action>, t: State)
    requires Inv(s) && Shut(s) && s.starting.Unstarted? && OrderlyPath(s, run, t)
    requires NoRestart(run)
    ensures Shut(t)
    ensures |t.calls| == |s.calls|
    ensures forall j :: 0 <= j < |t.calls| && t.calls[j].admission.Placed? ==>
              s.calls[j].admission.Placed?
    decreases |run|
  {
    if run != [] {
      var m := Apply(s, run[0]);
      assert run[0] in run;
      StepKeeps(s, run[0]);
      ShutStep(s, run[0]);
      ShutPath(m, run[1..], t);
    }
  }

  lemma ShutStep(s: State, a: Action)
    requires Inv(s) && Shut(s) && s.starting.Unstarted? && Enabled(s, a) && !a.StartBegin?
    ensures Shut(Apply(s, a)) && Apply(s, a).starting.Unstarted?
    ensures |Apply(s, a).calls| == |s.calls|
    ensures forall j :: 0 <= j < |s.calls| && Apply(s, a).calls[j].admission.Placed? ==>
              s.calls[j].admission.Placed?
  {
  }
}
