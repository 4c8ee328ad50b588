/** What every action of SessionProtocol.dfy keeps, and what holds of whole runs. */
module SessionSafety {
  import opened TexoRuntime
  import opened SessionLedger
  import opened SessionProtocol
  import opened Wrappers

  /** All jobs in consumer hands. */
  ghost function Held(workers: seq<Worker>): multiset<JobId> {
    if workers == [] then multiset{}
    else Held(workers[..|workers| - 1]) + multiset(workers[|workers| - 1].phase.Batch())
  }

  /** Where the enqueued jobs are that have not been reported with `task_done`. */
  ghost function Places(s: State): multiset<JobId> {
    multiset(s.ledger.queue) + Held(s.workers)
  }

  ghost predicate GroupOk(s: State, batch: seq<JobId>, g: Group) {
    forall k :: 0 <= k < |g.jobs| ==>
      g.jobs[k] in batch && g.jobs[k] < |s.calls| && s.calls[g.jobs[k]].budget == g.budget
  }

  ghost predicate InSome(groups: seq<Group>, j: JobId) {
    exists i :: 0 <= i < |groups| && j in groups[i].jobs
  }

  /** The groups still to run are homogeneous, and cover the waiting part of the batch. */
  ghost predicate Plan(s: State, batch: seq<JobId>, groups: seq<Group>) {
    && (forall i :: 0 <= i < |groups| ==> GroupOk(s, batch, groups[i]))
    && (forall k :: 0 <= k < |batch| ==> s.ledger.Finished(batch[k]) || InSome(groups, batch[k]))
  }

  ghost predicate WorkerOk(s: State, w: Worker) {
    && |w.phase.Batch()| <= s.config.batchSize
    && (w.phase.Running? ==> Plan(s, w.phase.batch, [w.phase.group] + w.phase.rest))
  }

  /** What one action may do to earlier calls and futures. */
  ghost predicate Later(s: State, t: State) {
    && t.config == s.config
    && |s.calls| == |s.ledger.futures| && |t.calls| == |t.ledger.futures|
    && |s.calls| <= |t.calls|
    && (forall j :: 0 <= j < |s.calls| ==>
          && t.calls[j].image == s.calls[j].image && t.calls[j].budget == s.calls[j].budget
          && (s.calls[j].admission.Placed? ==> t.calls[j].admission.Placed?)
          && (s.calls[j].caller.Returned? ==> t.calls[j].caller == s.calls[j].caller)
          && (s.ledger.Finished(j) ==> t.ledger.futures[j] == s.ledger.futures[j]))
  }

  lemma WorkerStays(s: State, t: State, w: Worker)
    requires Later(s, t) && WorkerOk(s, w)
    ensures WorkerOk(t, w)
  {
    if w.phase.Running? {
      var batch, groups := w.phase.batch, [w.phase.group] + w.phase.rest;
      forall i | 0 <= i < |groups| ensures GroupOk(t, batch, groups[i]) {
        assert GroupOk(s, batch, groups[i]);
      }
    }
  }

  /** The same consumers in a later state. */
  lemma WorkersStay(s: State, t: State)
    requires Later(s, t) && t.workers == s.workers
    requires forall v :: 0 <= v < |s.workers| ==> WorkerOk(s, s.workers[v])
    ensures forall v :: 0 <= v < |t.workers| ==> WorkerOk(t, t.workers[v])
  {
    forall v | 0 <= v < |t.workers| ensures WorkerOk(t, t.workers[v]) {
      WorkerStays(s, t, s.workers[v]);
    }
  }

  ghost predicate CallOk(s: State, j: JobId)
    requires j < |s.calls| == |s.ledger.futures|
  {
    var c, future := s.calls[j], s.ledger.futures[j];
    && (j in s.admissions <==> c.caller.AwaitAdmission?)
    && (c.admission.Waiting? ==> c.caller.AwaitAdmission?)
    && (c.caller.AwaitReply? ==> c.admission.Placed?)
    && (c.caller.Returned? ==> !future.Pending?)
    && (c.caller.Returned? && c.caller.result.Replied? ==> future == Done(c.caller.result.reply))
    && (j in Places(s) ==> c.admission.Placed?)
    && (c.admission.Placed? && j !in Places(s) ==> !future.Pending?)
  }

  /** No admission task can still enqueue. */
  ghost predicate Quiet(s: State) {
    forall j :: 0 <= j < |s.calls| ==> !s.calls[j].admission.Waiting?
  }

  ghost predicate LifeOk(s: State) {
    && (s.accepting ==> s.starting.Started? && s.closing.Open?)
    && (!s.closing.Open? ==> !s.starting.Loading?)
    && (s.executors == {} ==> s.closing.Closed? || s.starting.Unstarted?)
    && (s.closing.Open? && !s.accepting ==>
          Quiet(s) && s.ledger.queue == [] && forall w :: 0 <= w < |s.workers| ==> s.workers[w].phase.Batch() == [])
    && (s.closing.Open? && s.starting.Unstarted? ==> s.workers == [])
    && match s.closing
       case Open => true
       case JoiningAdmissions(gathered) =>
         && (forall j :: j in gathered ==> j < |s.calls|)
         && forall j :: 0 <= j < |s.calls| && s.calls[j].admission.Waiting? ==>
           j in gathered && s.calls[j].withdraw
       case JoiningWorkers(count) =>
         && Quiet(s) && count == |s.workers|
         && forall w :: 0 <= w < |s.workers| ==>
              s.workers[w].cancelled || s.workers[w].phase.Exited?
       case JoiningExecutors(_) => Quiet(s) && s.workers == [] && s.ledger.queue == []
       case Closed =>
         Quiet(s) && s.workers == [] && s.ledger.queue == [] && s.executors == {}
         && s.starting.Unstarted?
  }

  /** Executors and consumers belong together one to one, and the executor of a
   *  live consumer is inside a native call exactly while the consumer awaits it. */
  ghost predicate NativeOk(s: State) {
    && s.busy <= s.executors
    && (forall e :: e in s.executors ==> e < s.created)
    && (forall w :: 0 <= w < |s.workers| ==>
          && s.workers[w].executor in s.executors
          && (!s.workers[w].phase.Exited? ==> (s.workers[w].phase.Running? <==> s.workers[w].executor in s.busy)))
    && (forall v, w :: 0 <= v < w < |s.workers| ==> s.workers[v].executor != s.workers[w].executor)
    && (s.starting.Loading? ==>
          && s.starting.executor in s.busy
          && forall w :: 0 <= w < |s.workers| ==> s.workers[w].executor != s.starting.executor)
    && (s.closing.JoiningExecutors? ==> s.closing.executors == s.executors)
  }

  ghost predicate Inv(s: State) {
    && s.config.Valid()
    && |s.calls| == |s.ledger.futures|
    && |s.ledger.queue| <= s.config.queueSize
    && Books(s.ledger, Places(s))
    && (forall w :: 0 <= w < |s.workers| ==> WorkerOk(s, s.workers[w]))
    && (forall j :: 0 <= j < |s.calls| ==> CallOk(s, j))
    && (forall j :: j in s.admissions ==> j < |s.calls|)
    && LifeOk(s)
    && NativeOk(s)
  }

  /** The jobs in the hands of every consumer but one. */
  ghost function Others(workers: seq<Worker>, w: nat): multiset<JobId>
    requires w < |workers|
  {
    Held(workers[w := Worker(Idle, false, 0)])
  }

  lemma {:induction false} SnocHeld(workers: seq<Worker>, w: Worker)
    ensures Held(workers + [w]) == Held(workers) + multiset(w.phase.Batch())
  {
    assert (workers + [w])[..|workers|] == workers;
  }

  lemma AddInOrder(a: multiset<JobId>, b: multiset<JobId>, c: multiset<JobId>)
    ensures a + b + c == a + c + b
  {
  }

  lemma {:induction false} HeldUpdate(workers: seq<Worker>, w: nat, p: Worker)
    requires w < |workers|
    ensures Held(workers[w := p]) == Others(workers, w) + multiset(p.phase.Batch())
  {
    var n, idle := |workers| - 1, Worker(Idle, false, 0);
    var front, last := workers[..n], workers[n];
    if w == n {
      assert workers[w := p] == front + [p] && workers[w := idle] == front + [idle];
      SnocHeld(front, p);
      SnocHeld(front, idle);
    } else {
      HeldUpdate(front, w, p);
      assert workers[w := p] == front[w := p] + [last] && workers[w := idle] == front[w := idle] + [last];
      SnocHeld(front[w := p], last);
      SnocHeld(front[w := idle], last);
      AddInOrder(Others(front, w), multiset(p.phase.Batch()), multiset(last.phase.Batch()));
    }
  }

  lemma {:induction false} HeldSame(a: seq<Worker>, b: seq<Worker>)
    requires |a| == |b|
    requires forall w :: 0 <= w < |a| ==> a[w].phase.Batch() == b[w].phase.Batch()
    ensures Held(a) == Held(b)
  {
    if a != [] { HeldSame(a[..|a| - 1], b[..|b| - 1]); }
  }

  lemma {:induction false} HeldNothing(a: seq<Worker>)
    requires forall w :: 0 <= w < |a| ==> a[w].phase.Batch() == []
    ensures Held(a) == multiset{}
  {
    if a != [] { HeldNothing(a[..|a| - 1]); }
  }

  /** Places around one consumer. */
  lemma PlacesAround(s: State, w: nat)
    requires w < |s.workers|
    ensures Places(s) == multiset(s.ledger.queue) + Others(s.workers, w)
                         + multiset(s.workers[w].phase.Batch())
  {
    HeldUpdate(s.workers, w, s.workers[w]);
    assert s.workers[w := s.workers[w]] == s.workers;
  }

  /** The part of a consumer's step that is about the ledger and its own batch. */
  ghost predicate Moves(s: State, w: nat, l: Ledger, p: Phase)
    requires w < |s.workers|
  {
    var queue, batch := s.ledger.queue, s.workers[w].phase.Batch();
    && Books(l, multiset(l.queue) + Others(s.workers, w) + multiset(p.Batch()))
    && OnlyFinishes(s.ledger, l)
    && |l.queue| <= |queue|
    && (forall j: JobId :: j in l.queue || j in p.Batch() ==> j in queue || j in batch)
    && (forall j: JobId :: j in queue || j in batch ==> j in l.queue || j in p.Batch() || l.Finished(j))
  }

  lemma WorkerStepPlaces(s: State, w: nat, l: Ledger, p: Phase)
    requires w < |s.workers|
    ensures Places(SetPhase(s, w, l, p))
         == multiset(l.queue) + Others(s.workers, w) + multiset(p.Batch())
  {
    HeldUpdate(s.workers, w, s.workers[w].(phase := p));
  }

  lemma WorkerStepCalls(s: State, w: nat, l: Ledger, p: Phase, j: JobId)
    requires Inv(s) && w < |s.workers| && Moves(s, w, l, p) && j < |s.calls|
    ensures CallOk(SetPhase(s, w, l, p), j)
  {
    PlacesAround(s, w);
    WorkerStepPlaces(s, w, l, p);
    assert CallOk(s, j);
    var queue, batch, others := s.ledger.queue, s.workers[w].phase.Batch(), Others(s.workers, w);
    assert j in Places(s) <==> j in queue || j in batch || j in others;
    assert j in Places(SetPhase(s, w, l, p)) <==> j in l.queue || j in p.Batch() || j in others;
  }

  lemma WorkerStepLife(s: State, w: nat, l: Ledger, p: Phase)
    requires LifeOk(s) && w < |s.workers| && !s.workers[w].phase.Exited?
    requires |l.queue| <= |s.ledger.queue|
    requires s.ledger.queue == [] && s.workers[w].phase.Batch() == [] ==> p.Batch() == []
    ensures LifeOk(SetPhase(s, w, l, p))
  {
  }

  /** The part of a state that `NativeOk` speaks about. */
  lemma NativeSame(s: State, t: State)
    requires NativeOk(s) && t.workers == s.workers && t.starting == s.starting && t.closing == s.closing
    requires t.created == s.created && t.executors == s.executors && t.busy == s.busy
    ensures NativeOk(t)
  {
  }

  lemma WorkerStepNative(s: State, w: nat, l: Ledger, p: Phase)
    requires NativeOk(s) && w < |s.workers| && !s.workers[w].phase.Exited?
    ensures NativeOk(SetPhase(s, w, l, p))
  {
    var t := SetPhase(s, w, l, p);
    forall v | 0 <= v < |t.workers| && v != w
      ensures t.workers[v] == s.workers[v] && t.workers[v].executor != t.workers[w].executor
    {
      assert s.workers[v].executor != s.workers[w].executor;
    }
  }

  lemma WorkerStep(s: State, w: nat, l: Ledger, p: Phase)
    requires Inv(s) && w < |s.workers| && !s.workers[w].phase.Exited?
    requires Moves(s, w, l, p)
    requires WorkerOk(s.(ledger := l), s.workers[w].(phase := p))
    ensures Inv(SetPhase(s, w, l, p))
    ensures Later(s, SetPhase(s, w, l, p))
  {
    var t := SetPhase(s, w, l, p);
    WorkerStepPlaces(s, w, l, p);
    assert p.Batch() != [] ==> p.Batch()[0] in p.Batch();
    WorkerStepLife(s, w, l, p);
    WorkerStepNative(s, w, l, p);
    forall v | 0 <= v < |t.workers| ensures WorkerOk(t, t.workers[v]) {
      if v != w { WorkerStays(s, t, s.workers[v]); }
      else { WorkerStays(s.(ledger := l), t, t.workers[w]); }
    }
    forall j | 0 <= j < |t.calls| ensures CallOk(t, j) {
      WorkerStepCalls(s, w, l, p, j);
    }
  }

  /** Going to the next budget group keeps the books: either the batch stays in
   *  this consumer's hands, or all of it is released with every reply given. */
  lemma {:induction false} NextGroupBalances(s: State, batch: seq<JobId>, groups: seq<Group>,
                                            rest: multiset<JobId>)
    requires Books(s.ledger, rest + multiset(batch)) && multiset(s.ledger.queue) <= rest
    requires |s.calls| == |s.ledger.futures| && Plan(s, batch, groups)
    ensures var (r, p) := NextGroup(s.ledger, batch, groups);
            && Books(r, rest + multiset(p.Batch()))
            && r.queue == s.ledger.queue && r.futures == s.ledger.futures
            && (p == Idle || (p.Running? && p.batch == batch && r == s.ledger))
            && (p == Idle ==> forall j :: j in batch ==> r.Finished(j))
            && (|batch| <= s.config.batchSize ==> WorkerOk(s.(ledger := r), Worker(p, false, 0)))
  {
    var l := s.ledger;
    if groups == [] {
      ReleaseBalances(l, batch, rest);
      assert rest + multiset(Idle.Batch()) == rest;
      ReleaseFinished(l, batch);
    } else {
      var group := l.Waiting(groups[0].jobs);
      NextPlan(s, batch, groups);
      if group == [] {
        NextGroupBalances(s, batch, groups[1..], rest);
      } else {
        assert [Group(groups[0].budget, group)] + groups[1..]
            == groups[0 := Group(groups[0].budget, group)];
      }
    }
  }

  /** Releasing jobs whose replies are given changes no future. */
  lemma {:induction false} ReleaseFinished(l: Ledger, batch: seq<JobId>)
    requires forall k :: 0 <= k < |batch| ==> l.Finished(batch[k])
    ensures l.Release(batch).futures == l.futures
  {
    if batch != [] { ReleaseFinished(l, batch[..|batch| - 1]); }
  }

  /** Restricting the next group to its waiting members keeps the plan. */
  lemma NextPlan(s: State, batch: seq<JobId>, groups: seq<Group>)
    requires groups != [] && Plan(s, batch, groups)
    ensures var group := s.ledger.Waiting(groups[0].jobs);
            && Plan(s, batch, groups[0 := Group(groups[0].budget, group)])
            && (group == [] ==> Plan(s, batch, groups[1..]))
  {
    var group := s.ledger.Waiting(groups[0].jobs);
    var next := groups[0 := Group(groups[0].budget, group)];
    assert GroupOk(s, batch, groups[0]);
    assert GroupOk(s, batch, next[0]) by {
      forall k | 0 <= k < |group|
        ensures group[k] in batch && group[k] < |s.calls| && s.calls[group[k]].budget == groups[0].budget
      {
        assert group[k] in groups[0].jobs;
        var i :| 0 <= i < |groups[0].jobs| && groups[0].jobs[i] == group[k];
      }
    }
    forall k | 0 <= k < |batch| && !s.ledger.Finished(batch[k])
      ensures InSome(next, batch[k]) && (group == [] ==> InSome(groups[1..], batch[k]))
    {
      var i :| 0 <= i < |groups| && batch[k] in groups[i].jobs;
      assert batch[k] in next[i].jobs;
      if group == [] { assert groups[1..][i - 1] == groups[i]; }
    }
  }

  /** The groups of a gathered batch are a plan for it. */
  lemma GatheredGroups(s: State, batch: seq<JobId>)
    requires forall k :: 0 <= k < |batch| ==> batch[k] < |s.calls|
    ensures Plan(s, batch, s.ledger.Groups(batch, Budgets(s)))
  {
    GroupsPartition(s.ledger, batch, Budgets(s));
    var groups := s.ledger.Groups(batch, Budgets(s));
    forall k | 0 <= k < |groups| ensures GroupOk(s, batch, groups[k]) {
      forall i | 0 <= i < |groups[k].jobs|
        ensures var j := groups[k].jobs[i];
                j in batch && j < |s.calls| && s.calls[j].budget == groups[k].budget
      {
        assert Member(groups, groups[k].budget, groups[k].jobs[i]);
      }
    }
    forall k | 0 <= k < |batch| && !s.ledger.Finished(batch[k]) ensures InSome(groups, batch[k]) {
      assert Member(groups, Budgets(s)[batch[k]], batch[k]);
      var g :| g in groups && batch[k] in g.jobs;
    }
  }

  /** Gathering keeps the books, and only takes jobs that were submitted. */
  lemma GatherMoves(s: State, l: Ledger, others: multiset<JobId>, first: seq<JobId>)
    requires s.config.Valid() && |first| <= s.config.batchSize && |l.futures| == |s.calls|
    requires Books(l, multiset(l.queue) + multiset(first) + others)
    ensures var (g, batch) := l.Gather(first, s.config.batchSize);
            && Books(g, multiset(g.queue) + others + multiset(batch))
            && g.futures == l.futures && |batch| <= s.config.batchSize
            && |g.queue| <= |l.queue|
            && (forall k :: 0 <= k < |batch| ==> batch[k] < |s.calls|)
            && (forall j: JobId :: j in g.queue || j in batch ==> j in l.queue || j in first)
            && (forall j: JobId :: j in l.queue || j in first ==> j in g.queue || j in batch || g.Finished(j))
  {
    var (g, batch) := l.Gather(first, s.config.batchSize);
    GatherBalances(l, first, s.config.batchSize, others);
    GatherKeeps(l, first, s.config.batchSize);
    assert multiset(g.queue) + multiset(batch) + others == multiset(g.queue) + others + multiset(batch);
    forall k | 0 <= k < |batch| ensures batch[k] < |s.calls| {
      assert batch[k] in multiset(g.queue) + others + multiset(batch);
    }
  }

  /** Running the groups of a gathered batch keeps the books. */
  lemma GroupMoves(s: State, g: Ledger, others: multiset<JobId>, batch: seq<JobId>)
    requires |s.calls| == |g.futures| && |batch| <= s.config.batchSize
    requires Books(g, multiset(g.queue) + others + multiset(batch))
    requires forall k :: 0 <= k < |batch| ==> batch[k] < |s.calls|
    ensures var (r, p) := NextGroup(g, batch, g.Groups(batch, Budgets(s)));
            && Books(r, multiset(r.queue) + others + multiset(p.Batch()))
            && r.queue == g.queue && r.futures == g.futures
            && (p == Idle || (p.Running? && p.batch == batch))
            && (p == Idle ==> forall j :: j in batch ==> r.Finished(j))
            && WorkerOk(s.(ledger := r), Worker(p, false, 0))
  {
    var t := s.(ledger := g);
    assert Budgets(t) == Budgets(s);
    GatheredGroups(t, batch);
    NextGroupBalances(t, batch, g.Groups(batch, Budgets(s)), multiset(g.queue) + others);
    var (r, p) := NextGroup(g, batch, g.Groups(batch, Budgets(s)));
    assert t.(ledger := r) == s.(ledger := r);
  }

  /** Gathering and grouping keep the books. */
  lemma DispatchMoves(s: State, l: Ledger, w: nat, first: seq<JobId>)
    requires Inv(s) && w < |s.workers| && |first| <= s.config.batchSize
    requires l.futures == s.ledger.futures && |l.queue| <= |s.ledger.queue|
    requires Books(l, multiset(l.queue) + multiset(first) + Others(s.workers, w))
    requires forall j :: j in l.queue || j in first <==>
               j in s.ledger.queue || j in s.workers[w].phase.Batch()
    ensures var (r, p) := Dispatch(s, l, first);
            && Moves(s, w, r, p)
            && r.futures == s.ledger.futures
            && WorkerOk(s.(ledger := r), s.workers[w].(phase := p))
  {
    var others := Others(s.workers, w);
    GatherMoves(s, l, others, first);
    var (g, batch) := l.Gather(first, s.config.batchSize);
    GroupMoves(s, g, others, batch);
    var (r, p) := Dispatch(s, l, first);
    assert WorkerOk(s.(ledger := r), Worker(p, false, 0));
  }

  /** Taking one job from the queue, before anything is done with it. */
  lemma TakenJob(s: State, w: nat)
    requires Inv(s) && Enabled(s, Take(w))
    ensures var job, l, others := s.ledger.queue[0], s.ledger.Pop(), Others(s.workers, w);
            && Books(l, multiset(l.queue) + multiset([job]) + others)
            && (forall j: JobId :: j in l.queue || j in [job] <==>
                  j in s.ledger.queue || j in s.workers[w].phase.Batch())
  {
    var job, l, others := s.ledger.queue[0], s.ledger.Pop(), Others(s.workers, w);
    PlacesAround(s, w);
    SplitFirst(s.ledger.queue);
    assert Places(s) == multiset(l.queue) + multiset([job]) + others;
  }

  lemma TakeKeeps(s: State, w: nat)
    requires Inv(s) && Enabled(s, Take(w))
    ensures Inv(Apply(s, Take(w)))
    ensures Apply(s, Take(w)).ledger.futures == s.ledger.futures
    ensures Later(s, Apply(s, Take(w)))
  {
    var job, l, others := s.ledger.queue[0], s.ledger.Pop(), Others(s.workers, w);
    TakenJob(s, w);
    if l.Finished(job) {
      TakenFinished(s, w);
    } else if |l.queue| < s.config.batchSize - 1 {
      WorkerStep(s, w, l, Sleeping([job]));
    } else {
      DispatchMoves(s, l, w, [job]);
      var (r, p) := Dispatch(s, l, [job]);
      WorkerStep(s, w, r, p);
    }
  }

  lemma TakenFinished(s: State, w: nat)
    requires Inv(s) && Enabled(s, Take(w)) && s.ledger.Pop().Finished(s.ledger.queue[0])
    ensures Inv(SetPhase(s, w, s.ledger.Pop().Release([s.ledger.queue[0]]), Idle))
    ensures s.ledger.Pop().Release([s.ledger.queue[0]]).futures == s.ledger.futures
    ensures Later(s, SetPhase(s, w, s.ledger.Pop().Release([s.ledger.queue[0]]), Idle))
  {
    var job, l, others := s.ledger.queue[0], s.ledger.Pop(), Others(s.workers, w);
    TakenJob(s, w);
    assert multiset(l.queue) + multiset([job]) + others == multiset(l.queue) + others + multiset([job]);
    ReleaseBalances(l, [job], multiset(l.queue) + others);
    var r := l.Release([job]);
    assert multiset(r.queue) + others + multiset(Idle.Batch()) == multiset(l.queue) + others;
    WorkerStep(s, w, r, Idle);
  }

  lemma WakeKeeps(s: State, w: nat)
    requires Inv(s) && Enabled(s, Wake(w))
    ensures Inv(Apply(s, Wake(w)))
    ensures Apply(s, Wake(w)).ledger.futures == s.ledger.futures
    ensures Later(s, Apply(s, Wake(w)))
  {
    var first := s.workers[w].phase.batch;
    PlacesAround(s, w);
    assert Places(s) == multiset(s.ledger.queue) + multiset(first) + Others(s.workers, w);
    DispatchMoves(s, s.ledger, w, first);
    var (r, p) := Dispatch(s, s.ledger, first);
    WorkerStep(s, w, r, p);
  }

  lemma RunKeeps(s: State, w: nat, outcomes: Option<seq<Outcome>>)
    requires Inv(s) && Runs(s, w) && s.workers[w].phase.Running?
    ensures Inv(ApplyRun(s, w, outcomes))
    ensures ApplyRun(s, w, outcomes).ledger.futures
         == s.ledger.Settle(s.workers[w].phase.group.jobs, Replies(s.workers[w].phase.group, outcomes)).futures
    ensures Later(s, ApplyRun(s, w, outcomes))
  {
    var Running(batch, group, rest) := s.workers[w].phase;
    var replies := Replies(group, outcomes);
    assert WorkerOk(s, s.workers[w]);
    assert GroupOk(s, batch, ([group] + rest)[0]);
    SettleRepliesOnce(s.ledger, group.jobs, replies);
    var l := s.ledger.Settle(group.jobs, replies);
    PlacesAround(s, w);
    var others := Others(s.workers, w);
    assert Places(s) == multiset(l.queue) + others + multiset(batch);
    var t := s.(ledger := l);
    RestPlan(s, t, batch, group, rest);
    NextGroupBalances(t, batch, rest, multiset(l.queue) + others);
    var (r, p) := NextGroup(l, batch, rest);
    assert WorkerOk(s.(ledger := r), Worker(p, false, 0));
    WorkerStep(s, w, r, p);
  }

  /** Once a group has its replies, the remaining groups are a plan for the batch. */
  lemma RestPlan(s: State, t: State, batch: seq<JobId>, group: Group, rest: seq<Group>)
    requires Plan(s, batch, [group] + rest) && Later(s, t)
    requires forall j :: j in group.jobs ==> t.ledger.Finished(j)
    ensures Plan(t, batch, rest)
  {
    var groups := [group] + rest;
    forall i | 0 <= i < |rest| ensures GroupOk(t, batch, rest[i]) {
      assert GroupOk(s, batch, groups[i + 1]);
    }
    forall k | 0 <= k < |batch| && !t.ledger.Finished(batch[k]) ensures InSome(rest, batch[k]) {
      var i :| 0 <= i < |groups| && batch[k] in groups[i].jobs;
      assert groups[i] == rest[i - 1];
    }
  }

  lemma StopKeeps(s: State, w: nat)
    requires Inv(s) && Enabled(s, Stop(w))
    ensures Inv(Apply(s, Stop(w)))
    ensures OnlyStops(s.ledger, Apply(s, Stop(w)).ledger)
    ensures Later(s, Apply(s, Stop(w)))
  {
    var batch, others := s.workers[w].phase.Batch(), Others(s.workers, w);
    PlacesAround(s, w);
    ReleaseBalances(s.ledger, batch, multiset(s.ledger.queue) + others);
    var r := s.ledger.Release(batch);
    assert multiset(r.queue) + others + multiset(Exited.Batch()) == multiset(s.ledger.queue) + others;
    WorkerStep(s, w, r, Exited);
  }

  /** Actions of callers and admission tasks touch one call and never the places. */
  lemma CallStep(s: State, j: JobId, c: Call, l: Ledger, admissions: set<JobId>)
    requires Inv(s) && j < |s.calls|
    requires l == s.ledger || l == s.ledger.Cancel(j)
    requires c.image == s.calls[j].image && c.budget == s.calls[j].budget
    requires admissions == s.admissions || admissions == s.admissions - {j}
    requires CallOk(s.(ledger := l, calls := s.calls[j := c], admissions := admissions), j)
    requires s.calls[j].caller.Returned? ==> c.caller == s.calls[j].caller
    requires s.calls[j].admission.Placed? ==> c.admission.Placed?
    requires c.admission.Waiting? ==> s.calls[j].admission.Waiting?
    requires c.admission.Waiting? && s.calls[j].withdraw ==> c.withdraw
    ensures Inv(s.(ledger := l, calls := s.calls[j := c], admissions := admissions))
    ensures Later(s, s.(ledger := l, calls := s.calls[j := c], admissions := admissions))
  {
    var t := s.(ledger := l, calls := s.calls[j := c], admissions := admissions);
    CallStepLater(s, j, t);
    assert Places(t) == Places(s);
    CallStepOthers(s, j, t);
    CallStepLife(s, j, t);
    WorkersStay(s, t);
    NativeSame(s, t);
  }

  lemma CallStepOthers(s: State, j: JobId, t: State)
    requires |s.calls| == |s.ledger.futures| && j < |s.calls|
    requires forall i :: 0 <= i < |s.calls| ==> CallOk(s, i)
    requires Later(s, t) && |t.calls| == |s.calls|
    requires t.ledger == s.ledger || t.ledger == s.ledger.Cancel(j)
    requires t.calls == s.calls[j := t.calls[j]] && CallOk(t, j) && t.workers == s.workers
    requires t.admissions == s.admissions || t.admissions == s.admissions - {j}
    ensures forall i :: 0 <= i < |t.calls| ==> CallOk(t, i)
  {
    assert Places(t) == Places(s);
    forall i | 0 <= i < |t.calls| && i != j ensures CallOk(t, i) {
      assert CallOk(s, i);
    }
  }

  lemma CallStepLife(s: State, j: JobId, t: State)
    requires LifeOk(s) && |t.calls| == |s.calls| && j < |s.calls|
    requires t == s.(ledger := t.ledger, calls := s.calls[j := t.calls[j]], admissions := t.admissions)
    requires t.ledger.queue == s.ledger.queue
    requires t.calls[j].admission.Waiting? ==> s.calls[j].admission.Waiting?
    requires t.calls[j].admission.Waiting? && s.calls[j].withdraw ==> t.calls[j].withdraw
    ensures LifeOk(t)
  {
  }

  lemma CallStepLater(s: State, j: JobId, t: State)
    requires |s.calls| == |s.ledger.futures| && j < |s.calls| && t.config == s.config
    requires t.ledger == s.ledger || t.ledger == s.ledger.Cancel(j)
    requires |t.calls| == |s.calls| && forall i :: 0 <= i < |s.calls| && i != j ==> t.calls[i] == s.calls[i]
    requires t.calls[j].image == s.calls[j].image && t.calls[j].budget == s.calls[j].budget
    requires s.calls[j].caller.Returned? ==> t.calls[j].caller == s.calls[j].caller
    requires s.calls[j].admission.Placed? ==> t.calls[j].admission.Placed?
    ensures Later(s, t)
  {
  }

  lemma CallActionKeeps(s: State, a: Action)
    requires Inv(s) && Enabled(s, a)
    requires a.Withdraw? || a.Interrupt? || a.Admitted? || a.Return?
    ensures Inv(Apply(s, a))
    ensures Later(s, Apply(s, a))
  {
    var j, t := a.job, Apply(s, a);
    CallActionShape(s, a);
    assert CallOk(s, j) && Places(t) == Places(s);
    CallStep(s, j, t.calls[j], t.ledger, t.admissions);
  }

  /** What a step of one call, or of its admission task, changes. */
  ghost predicate CallShape(s: State, j: JobId, t: State)
    requires j < |s.calls|
  {
    && |t.calls| == |s.calls|
    && t == s.(ledger := t.ledger, calls := s.calls[j := t.calls[j]], admissions := t.admissions)
    && (t.ledger == s.ledger || t.ledger == s.ledger.Cancel(j))
    && t.calls[j].image == s.calls[j].image && t.calls[j].budget == s.calls[j].budget
    && (t.admissions == s.admissions || t.admissions == s.admissions - {j})
    && (s.calls[j].caller.Returned? ==> t.calls[j].caller == s.calls[j].caller)
    && (s.calls[j].admission.Placed? ==> t.calls[j].admission.Placed?)
    && (t.calls[j].admission.Waiting? ==> s.calls[j].admission.Waiting?)
    && (t.calls[j].admission.Waiting? && s.calls[j].withdraw ==> t.calls[j].withdraw)
  }

  lemma CancelShape(s: State, a: Action)
    requires Enabled(s, a) && |s.calls| == |s.ledger.futures|
    requires a.Withdraw? || a.Interrupt?
    requires CallOk(s, a.job)
    ensures CallShape(s, a.job, Apply(s, a)) && CallOk(Apply(s, a), a.job)
  {
    assert Places(Apply(s, a)) == Places(s);
  }

  lemma ReturnShape(s: State, a: Action)
    requires Enabled(s, a) && |s.calls| == |s.ledger.futures|
    requires a.Admitted? || a.Return?
    requires CallOk(s, a.job)
    ensures CallShape(s, a.job, Apply(s, a)) && CallOk(Apply(s, a), a.job)
  {
    assert Places(Apply(s, a)) == Places(s);
  }

  lemma CallActionShape(s: State, a: Action)
    requires Enabled(s, a) && |s.calls| == |s.ledger.futures|
    requires a.Withdraw? || a.Interrupt? || a.Admitted? || a.Return?
    requires CallOk(s, a.job)
    ensures CallShape(s, a.job, Apply(s, a)) && CallOk(Apply(s, a), a.job)
  {
    if a.Withdraw? || a.Interrupt? {
      CancelShape(s, a);
    } else {
      ReturnShape(s, a);
    }
  }

  lemma SubmitKeeps(s: State, image: Image, budget: nat)
    requires Inv(s) && Enabled(s, Submit(image, budget))
    ensures Inv(Apply(s, Submit(image, budget)))
    ensures Later(s, Apply(s, Submit(image, budget)))
  {
    var t := Apply(s, Submit(image, budget));
    assert Places(t) == Places(s);
    forall i | 0 <= i < |t.calls| ensures CallOk(t, i) {
      if i < |s.calls| { assert CallOk(s, i); }
    }
    WorkersStay(s, t);
  }

  lemma PlacedPlaces(s: State, j: JobId)
    requires Inv(s) && Enabled(s, Place(j))
    ensures Places(Apply(s, Place(j))) == Places(s) + multiset{j}
    ensures Books(Apply(s, Place(j)).ledger, Places(s) + multiset{j})
  {
    assert CallOk(s, j);
    PutBalances(s.ledger, j, Places(s));
    assert multiset(s.ledger.queue + [j]) == multiset(s.ledger.queue) + multiset{j};
  }

  lemma PlacedCall(s: State, j: JobId, i: JobId)
    requires Inv(s) && Enabled(s, Place(j)) && i < |s.calls|
    ensures CallOk(Apply(s, Place(j)), i)
  {
    PlacedPlaces(s, j);
    assert CallOk(s, i);
    assert i in Places(Apply(s, Place(j))) <==> i in Places(s) || i == j;
  }

  lemma PlacedLife(s: State, j: JobId)
    requires Inv(s) && Enabled(s, Place(j))
    ensures LifeOk(Apply(s, Place(j)))
  {
    assert !s.calls[j].withdraw && s.calls[j].admission.Waiting?;
  }

  lemma PlacedLater(s: State, j: JobId)
    requires |s.calls| == |s.ledger.futures| && Enabled(s, Place(j))
    ensures Later(s, Apply(s, Place(j)))
  {
  }

  lemma PlaceKeeps(s: State, j: JobId)
    requires Inv(s) && Enabled(s, Place(j))
    ensures Inv(Apply(s, Place(j)))
    ensures Later(s, Apply(s, Place(j)))
  {
    var t := Apply(s, Place(j));
    PlacedPlaces(s, j);
    PlacedLater(s, j);
    forall i | 0 <= i < |t.calls| ensures CallOk(t, i) {
      PlacedCall(s, j, i);
    }
    WorkersStay(s, t);
    PlacedLife(s, j);
    NativeSame(s, t);
  }

  /** Actions of `start` and `close` leave the ledger alone and change only
   *  cancellation requests, the list of idle consumers and the life-cycle fields. */
  lemma Reframe(s: State, t: State)
    requires Inv(s) && LifeOk(t) && NativeOk(t) && Places(t) == Places(s)
    requires t.config == s.config && t.ledger == s.ledger && t.admissions == s.admissions
    requires |t.calls| == |s.calls|
    requires forall i :: 0 <= i < |s.calls| ==>
               t.calls[i] == s.calls[i].(withdraw := t.calls[i].withdraw)
    requires forall v :: 0 <= v < |t.workers| ==>
               t.workers[v].phase == Idle
               || (v < |s.workers| && t.workers[v].phase == s.workers[v].phase)
    ensures Inv(t)
    ensures Later(s, t)
  {
    forall i | 0 <= i < |t.calls| ensures CallOk(t, i) {
      assert CallOk(s, i);
    }
    forall v | 0 <= v < |t.workers| ensures WorkerOk(t, t.workers[v]) {
      if v < |s.workers| { WorkerStays(s, t, s.workers[v]); }
    }
  }

  lemma StartBeginNative(s: State)
    requires NativeOk(s) && Enabled(s, StartBegin) && Orderly(s, StartBegin)
    ensures NativeOk(Apply(s, StartBegin))
  {
    assert forall w :: 0 <= w < |s.workers| ==> s.workers[w].executor in s.executors;
  }

  lemma StartBeginKeeps(s: State)
    requires Inv(s) && Enabled(s, StartBegin) && Orderly(s, StartBegin)
    ensures Inv(Apply(s, StartBegin))
    ensures Later(s, Apply(s, StartBegin))
  {
    StartBeginNative(s);
    Reframe(s, Apply(s, StartBegin));
  }

  lemma NativeDoneKeeps(s: State, e: nat)
    requires Inv(s) && Enabled(s, NativeDone(e))
    ensures Inv(Apply(s, NativeDone(e)))
    ensures Later(s, Apply(s, NativeDone(e)))
  {
    Reframe(s, Apply(s, NativeDone(e)));
  }

  lemma LoadedLife(s: State)
    requires LifeOk(s) && s.starting.Loading?
    ensures LifeOk(ApplyLoaded(s))
  {
    assert s.closing.Open? && !s.accepting;
  }

  lemma LoadedNative(s: State)
    requires NativeOk(s) && LifeOk(s) && s.starting.Loading?
    ensures NativeOk(ApplyLoaded(s))
  {
    var t := ApplyLoaded(s);
    forall w | 0 <= w < |s.workers|
      ensures t.workers[w] == s.workers[w] && s.workers[w].executor < s.created
      ensures s.workers[w].executor != s.starting.executor
    {
    }
  }

  lemma LoadedPlaces(s: State)
    requires s.starting.Loading?
    ensures Places(ApplyLoaded(s)) == Places(s)
  {
    SnocHeld(s.workers, Worker(Idle, false, s.starting.executor));
    assert multiset(Idle.Batch()) == multiset{};
  }

  lemma LoadedKeeps(s: State)
    requires Inv(s) && s.starting.Loading?
    ensures Inv(ApplyLoaded(s))
    ensures Later(s, ApplyLoaded(s))
  {
    LoadedPlaces(s);
    LoadedLife(s);
    LoadedNative(s);
    Reframe(s, ApplyLoaded(s));
  }

  lemma BeginCloseKeeps(s: State)
    requires Inv(s) && !s.starting.Loading?
    ensures Inv(BeginClose(s))
    ensures Later(s, BeginClose(s))
  {
    var t := BeginClose(s);
    forall i | 0 <= i < |t.calls| && t.calls[i].admission.Waiting?
      ensures i in s.admissions && t.calls[i].withdraw
    {
      assert CallOk(s, i);
    }
    Reframe(s, t);
  }

  lemma LoadFailedKeeps(s: State)
    requires Inv(s) && Enabled(s, LoadFailed)
    ensures Inv(Apply(s, LoadFailed))
    ensures Later(s, Apply(s, LoadFailed))
  {
    Reframe(s, Apply(s, LoadFailed));
  }

  lemma AdmissionsJoinedKeeps(s: State)
    requires Inv(s) && Enabled(s, AdmissionsJoined)
    ensures Inv(Apply(s, AdmissionsJoined))
    ensures Later(s, Apply(s, AdmissionsJoined))
  {
    HeldSame(s.workers, Apply(s, AdmissionsJoined).workers);
    Reframe(s, Apply(s, AdmissionsJoined));
  }

  lemma WorkersJoinedKeeps(s: State)
    requires Inv(s) && Enabled(s, WorkersJoined)
    ensures Inv(Apply(s, WorkersJoined))
    ensures OnlyStops(s.ledger, Apply(s, WorkersJoined).ledger)
    ensures Later(s, Apply(s, WorkersJoined))
  {
    var t := Apply(s, WorkersJoined);
    HeldNothing(s.workers);
    assert Places(s) == multiset(s.ledger.queue);
    DrainBalances(s.ledger);
    assert Places(t) == multiset{};
    forall i | 0 <= i < |t.calls| ensures CallOk(t, i) {
      assert CallOk(s, i);
      assert i in Places(s) <==> i in s.ledger.queue;
    }
  }

  lemma ExecutorsJoinedKeeps(s: State)
    requires Inv(s) && Enabled(s, ExecutorsJoined)
    ensures Inv(Apply(s, ExecutorsJoined))
    ensures Later(s, Apply(s, ExecutorsJoined))
  {
    Reframe(s, Apply(s, ExecutorsJoined));
  }

  lemma WorkerActionKeeps(s: State, a: Action)
    requires Inv(s) && Enabled(s, a)
    requires a.Take? || a.Wake? || a.Answered? || a.Failed? || a.Stop?
    ensures Inv(Apply(s, a))
    ensures Later(s, Apply(s, a))
  {
    match a
    case Take(w) => TakeKeeps(s, w);
    case Wake(w) => WakeKeeps(s, w);
    case Answered(w, outcomes) => RunKeeps(s, w, Some(outcomes));
    case Failed(w) => RunKeeps(s, w, None);
    case Stop(w) => StopKeeps(s, w);
  }

  lemma LifeActionKeeps(s: State, a: Action)
    requires Inv(s) && Enabled(s, a) && Orderly(s, a)
    requires a.StartBegin? || a.Loaded? || a.LoadFailed? || a.NativeDone? || a.CloseBegin?
          || a.AdmissionsJoined? || a.WorkersJoined? || a.ExecutorsJoined?
    ensures Inv(Apply(s, a))
    ensures Later(s, Apply(s, a))
  {
    match a
    case StartBegin => StartBeginKeeps(s);
    case Loaded => LoadedKeeps(s);
    case LoadFailed => LoadFailedKeeps(s);
    case NativeDone(e) => NativeDoneKeeps(s, e);
    case CloseBegin => BeginCloseKeeps(s);
    case AdmissionsJoined => AdmissionsJoinedKeeps(s);
    case WorkersJoined => WorkersJoinedKeeps(s);
    case ExecutorsJoined => ExecutorsJoinedKeeps(s);
  }

  /** Every action keeps the invariant, as long as `start` and `close` do not overlap. */
  lemma StepKeeps(s: State, a: Action)
    requires Inv(s) && Enabled(s, a) && Orderly(s, a)
    ensures Inv(Apply(s, a))
    ensures Later(s, Apply(s, a))
  {
    if a.Submit? {
      SubmitKeeps(s, a.image, a.budget);
    } else if a.Place? {
      PlaceKeeps(s, a.job);
    } else if a.Withdraw? || a.Interrupt? || a.Admitted? || a.Return? {
      CallActionKeeps(s, a);
    } else if a.Take? || a.Wake? || a.Answered? || a.Failed? || a.Stop? {
      WorkerActionKeeps(s, a);
    } else {
      LifeActionKeeps(s, a);
    }
  }
}
