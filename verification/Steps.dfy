/** What a single reconcile can and cannot do to a reachable state. */
module Steps {
  import opened Stages
  import opened JobNames
  import opened Experiments
  import opened Targets
  import opened Controller
  import opened Protocol
  import opened Safety
  import Metrics
  import Weights

  // ---- Stored status ----

  /** The stage never goes back, ownership and failure never revert, completion is final, the counter
      of iterations grows by one at most, and other experiments are not touched. */
  lemma StatusSteps(w: World, id: ExpId, env: Inputs)
    requires Inv(w) && id in w.store && InputsOk(w.store[id], env)
    ensures var w' := Reconcile(w, id, env);
            && (forall o :: o != id ==> (o in w.store <==> o in w'.store) && (o in w.store ==> w'.store[o] == w.store[o]))
            && id in w'.store
            && var x, y := w.store[id].status, w'.store[id].status;
               && w'.store[id].spec == w.store[id].spec
               && Rank(x.stage) <= Rank(y.stage)
               && (x.acquired == True ==> y.acquired == True) && (x.failed == True ==> y.failed == True)
               && (x.completed == True ==> w' == w)
               && x.iterations <= y.iterations <= x.iterations + 1
               && (x.initTime.Some? ==> y.initTime == x.initTime)
  {
    hide Reconcile, Decide, InputsOk, Inv, JobsInv, QuietInv, MayPlan, Ended;
    ExpOf(w, id);
    ReconcileParts(w, id, env);
    if Active(w.store[id]) {
      DecideOk(w, id, env, false);
      PlanSteps(w, id, Decide(w, id, env), env, Reconcile(w, id, env).store[id].status);
    } else {
      IdleStep(w, id, env);
    }
  }

  /** Once set, the time of initialisation stays. */
  lemma KeepsInitTime(w: World, id: ExpId, env: Inputs)
    requires ExpInv(w, id, false) && InputsOk(w.store[id], env) && w.store[id].status.initTime.Some?
    ensures Reconcile(w, id, env).store[id].status.initTime == w.store[id].status.initTime
  {
    hide Reconcile, Decide, InputsOk, LoopsDone, FinishInv, MayPlan, Ended;
    ReconcileParts(w, id, env);
    if Active(w.store[id]) {
      DecideOk(w, id, env, false);
      PlanSteps(w, id, Decide(w, id, env), env, Reconcile(w, id, env).store[id].status);
    } else {
      IdleStep(w, id, env);
    }
  }

  lemma PlanSteps(w: World, id: ExpId, plan: Plan, env: Inputs, y: Status)
    requires ExpInv(w, id, false) && Active(w.store[id]) && MayPlan(w, id, plan, false)
    requires y == match plan.act
                  case Save(st) => if env.write then st else plan.early
                  case Launch(st, _) => if env.write then st else plan.early
                  case End(st) => if EndPersists(st, env) then Ended(st) else plan.early
                  case _ => plan.early
    ensures var x := w.store[id].status;
            && Rank(x.stage) <= Rank(y.stage) && y.initTime == x.initTime
            && (x.acquired == True ==> y.acquired == True)
            && x.iterations <= y.iterations <= x.iterations + 1
  {
    hide JobsInv, Settled, SettledInspected, CanAcquire, After;
    if plan.act.End? {
      AfterIsRank(Completed, plan.act.st.stage);
    }
  }

  // ---- The dereference of the absent deployment pattern ----

  /** The check of the handlers goes on past this job, which is not a loop. */
  predicate GoesOn(w: World, id: ExpId, j: Job, errors: set<Job>)
    requires id in w.store
  {
    HasHandler(w.store[id].spec, TypeOf(j)) ==>
      j !in errors && (HasJob(w, id, j) ==> j != FinishJob && JobIs(w, id, j, JobComplete))
  }

  /** Of the loop jobs from number `loop` on, the first that was launched has completed; no lookup fails up to it. */
  predicate FirstLoopComplete(w: World, id: ExpId, loop: nat, max: int, errors: set<Job>) {
    exists k :: loop <= k <= max && LoopJob(k) !in errors && JobIs(w, id, LoopJob(k), JobComplete)
      && forall i :: loop <= i < k ==> LoopJob(i) !in errors && !HasJob(w, id, LoopJob(i))
  }

  /** All references to weights can be read, several versions have none, and no deployment pattern is given. */
  predicate PatternNeeded(w: World, id: ExpId)
    requires id in w.store
  {
    var sp := w.store[id].spec;
    && sp.versionInfo.Some? && Weights.AllReadable(w.cluster, id.namespace, sp.versionInfo.value.All())
    && Weights.Missing(sp.versionInfo.value.All()) > 1 && sp.deploymentPattern.None?
  }

  lemma {:induction false} LoopsCrash(w: World, id: ExpId, st: Status, loop: nat, errors: set<Job>)
    requires id in w.store
    ensures CheckLoops(w, id, w.store[id].spec, st, loop, errors) == Stop(Crash) <==>
      (PatternNeeded(w, id) && FirstLoopComplete(w, id, loop, GetMaxLoops(w.store[id].spec), errors))
    decreases GetMaxLoops(w.store[id].spec) + 1 - loop
  {
    var sp := w.store[id].spec;
    if loop <= GetMaxLoops(sp) {
      var c := CheckOne(w, id, sp, st, LoopHandler, loop, errors);
      Weights.NilDereferenceExactly(w.cluster, id.namespace, sp, st.weights);
      if c.Continue? {
        LoopsCrash(w, id, c.st, loop + 1, errors);
      }
    }
  }

  /** With a deployment pattern no observation dereferences nil, and so no iteration. */
  lemma IterationsDoNotCrash(w: World, id: ExpId, sp: Spec, st: Status, env: Inputs)
    requires GetIterationsPerLoop(sp) > 0 && sp.versionInfo.Some? && sp.deploymentPattern.Some?
    ensures !Iterate(w, id, sp, st, env).1.Crash?
  {
    hide Weights.Observe, Weights.Redistribute;
    match Weights.Redistribute(w.cluster, id.namespace, sp, st, env.patchOrder, env.patchFailures) {
      case None =>
      case Some(c) =>
        Weights.NilDereferenceExactly(c, id.namespace, sp, st.weights);
    }
  }

  lemma StartedDoesNotCrash(w: World, id: ExpId, sp: Spec, base: Status, st: Status, env: Inputs)
    requires GetIterationsPerLoop(sp) > 0 && sp.deploymentPattern.Some?
    requires env.analysis.Some? ==> AnalysisOk(sp, env.analysis.value)
    ensures !DecideStarted(w, id, sp, base, st, env).act.Crash?
  {
    hide Weights.Observe, Iterate, Metrics.ReadNames, Metrics.ShouldReadMetrics, MustRollback, AnalysisOk,
      MoreIterationsNeeded, SufficientTime, GetIterationsPerLoop;
    Weights.NilDereferenceExactly(w.cluster, id.namespace, sp, st.weights);
    forall st' | sp.versionInfo.Some? ensures !Iterate(w, id, sp, st', env).1.Crash? {
      IterationsDoNotCrash(w, id, sp, st', env);
    }
  }

  /** Once the pattern has its default nothing crashes. */
  lemma DefaultsPreventCrash(w: World, id: ExpId, sp: Spec, base: Status, st: Status, env: Inputs)
    requires id in w.store && InputsOk(w.store[id], env) && sp == InitializeSpec(w.store[id].spec)
    ensures !DecideActive(w, id, sp, base, st, env).act.Crash?
  {
    hide DecideStarted, CanAcquire, TasksValid, MustRollback;
    StartedDoesNotCrash(w, id, sp, base, st, env);
  }

  /** The handlers that are not loops change nothing in memory, and do not crash; when they go on. */
  lemma PlainTypes(w: World, id: ExpId, errors: set<Job>)
    requires id in w.store
    ensures var sp, st := w.store[id].spec, w.store[id].status;
            var c := CheckTypes(w, id, sp, st, 4, errors);
            && c != Stop(Crash) && (c.Continue? ==> c == Continue(st))
            && (c.Continue? <==> GoesOn(w, id, StartJob, errors) && GoesOn(w, id, FinishJob, errors))
  {
    var sp, st := w.store[id].spec, w.store[id].status;
    PlainType(w, id, StartHandler, errors);
    PlainType(w, id, FinishHandler, errors);
    PlainType(w, id, RollbackHandler, errors);
    PlainType(w, id, FailureHandler, errors);
    hide CheckType, GoesOn;
    var c0, c1, c2, c3 := CheckTypes(w, id, sp, st, 0, errors), CheckTypes(w, id, sp, st, 1, errors),
                          CheckTypes(w, id, sp, st, 2, errors), CheckTypes(w, id, sp, st, 3, errors);
    assert c1 == CheckType(w, id, sp, st, StartHandler, errors);
    assert c2 == if c1.Stop? then c1 else CheckType(w, id, sp, c1.st, FinishHandler, errors);
    assert c3 == if c2.Stop? then c2 else CheckType(w, id, sp, c2.st, RollbackHandler, errors);
  }

  lemma PlainType(w: World, id: ExpId, t: HandlerType, errors: set<Job>)
    requires id in w.store && t != LoopHandler
    ensures var sp, st := w.store[id].spec, w.store[id].status;
            var c := CheckType(w, id, sp, st, t, errors);
            && c != Stop(Crash) && (c.Continue? ==> c == Continue(st))
            && (c.Continue? <==> GoesOn(w, id, JobOf(t, 0), errors))
  {
  }

  /** In any state at all, reachable or not, a reconcile dereferences an absent deployment pattern if and only if
      the experiment is active, its start and finish jobs let the check go on to the loops, the first loop job
      launched has completed, and the weights call for the pattern. */
  lemma CrashExactly(w: World, id: ExpId, env: Inputs)
    requires id in w.store && InputsOk(w.store[id], env)
    ensures var sp, errors := w.store[id].spec, env.lookupErrors;
            Decide(w, id, env).act.Crash? <==>
              (Active(w.store[id]) && GoesOn(w, id, StartJob, errors) && GoesOn(w, id, FinishJob, errors)
               && HasHandler(sp, LoopHandler) && FirstLoopComplete(w, id, 1, GetMaxLoops(sp), errors)
               && PatternNeeded(w, id))
  {
    var sp, st := w.store[id].spec, w.store[id].status;
    var c := CheckHandlers(w, id, sp, st, env.lookupErrors);
    PlainTypes(w, id, env.lookupErrors);
    LoopsCrash(w, id, st, 1, env.lookupErrors);
    if c.Continue? {
      DefaultsPreventCrash(w, id, InitializeSpec(sp), st, c.st, env);
    }
    hide CheckTypes, DecideActive, GoesOn, FirstLoopComplete, PatternNeeded;
  }

  /** A loop job is there only for an experiment that has reached the Running stage and whose weights could be
      observed: at most one version lacks a reference, or the split is explicitly fixed. */
  ghost predicate LoopInv(w: World, id: ExpId)
    requires id in w.store
  {
    forall k: nat :: HasJob(w, id, LoopJob(k)) ==>
      Rank(w.store[id].status.stage) >= Rank(Running) && Weights.ObservableShape(w.store[id].spec)
  }

  /** No experiment is created under a name for which a loop job remains. */
  ghost predicate LoopsGone(w: World, ev: Event) {
    ev.Created? ==> forall k: nat :: !HasJob(w, ev.id, LoopJob(k))
  }

  lemma ReconcileKeepsLoopInv(w: World, id: ExpId, env: Inputs)
    requires Inv(w) && id in w.store && InputsOk(w.store[id], env) && LoopInv(w, id)
    ensures LoopInv(Reconcile(w, id, env), id)
  {
    hide Reconcile, Decide, InputsOk, Inv, StatusInv, FinishInv;
    StatusSteps(w, id, env);
    ReconcileParts(w, id, env);
    var act := Decide(w, id, env).act;
    ExpOf(w, id);
    if Active(w.store[id]) {
      DecideOk(w, id, env, false);
    } else {
      IdleStep(w, id, env);
    }
  }

  lemma ExpOf(w: World, id: ExpId)
    requires Inv(w) && id in w.store
    ensures ExpInv(w, id, false)
  {
  }

  /** Nothing of what the invariant says of an experiment has changed. */
  lemma LoopInvKept(w: World, ev: Event, id: ExpId)
    requires Inv(w) && Enabled(w, ev) && LoopsGone(w, ev)
    requires (id in w.store ==> LoopInv(w, id)) && id in Apply(w, ev).store
    ensures LoopInv(Apply(w, ev), id)
  {
    hide Reconcile, InputsOk, Inv, Weights.ObservableShape;
    var w' := Apply(w, ev);
    if ev.Reconciled? {
      if ev.id !in w.store {
        CleanupSpares(w, ev.id, ev.env, id);
      } else if ev.id == id {
        ReconcileKeepsLoopInv(w, id, ev.env);
      } else {
        ReconcileParts(w, ev.id, ev.env);
        assert w'.store[id] == w.store[id];
        assert forall j :: HasJob(w', id, j) <==> HasJob(w, id, j);
      }
    } else {
      assert forall j :: HasJob(w', id, j) <==> HasJob(w, id, j);
    }
  }

  /** Along the run no experiment is created under a name for which a loop job remains. */
  ghost predicate AllLoopsGone(w: World, evs: seq<Event>)
    requires IsRun(w, evs)
    decreases |evs|
  {
    evs != [] ==> LoopsGone(w, evs[0]) && AllLoopsGone(Apply(w, evs[0]), evs[1..])
  }

  ghost predicate AllLoopInv(w: World) {
    forall id :: id in w.store ==> LoopInv(w, id)
  }

  lemma {:induction false} RunKeepsLoopInv(w: World, evs: seq<Event>)
    requires Inv(w) && AllLoopInv(w) && IsRun(w, evs) && AllLoopsGone(w, evs)
    ensures AllLoopInv(Final(w, evs))
    decreases |evs|
  {
    if evs != [] {
      hide Inv, Enabled, Apply, LoopInv, LoopsGone;
      EventKeeps(w, evs[0]);
      var w' := Apply(w, evs[0]);
      forall id | id in w'.store ensures LoopInv(w', id) {
        LoopInvKept(w, evs[0], id);
      }
      RunKeepsLoopInv(w', evs[1..]);
    }
  }

  /** As long as no experiment is created under a name for which a loop job remains, no reconcile in any
      reachable state dereferences the absent deployment pattern. */
  lemma NeverCrashes(w0: World, evs: seq<Event>, id: ExpId, env: Inputs)
    requires Initial(w0) && IsRun(w0, evs) && AllLoopsGone(w0, evs)
    requires id in Final(w0, evs).store && InputsOk(Final(w0, evs).store[id], env)
    ensures !Decide(Final(w0, evs), id, env).act.Crash?
  {
    hide IsRun, Final, AllLoopsGone, Decide, InputsOk, GoesOn;
    RunKeepsLoopInv(w0, evs);
    var w := Final(w0, evs);
    CrashExactly(w, id, env);
    assert LoopInv(w, id);
  }

  // ---- Creating jobs ----

  /** A job is created only for an experiment that holds its target and whose inspected jobs have all
      completed, and thus all its jobs if they are its own. Loop job k is created only when iteration
      k * iterationsPerLoop completes, with the loop jobs before it there and no later than the last loop. */
  lemma JobCreation(w: World, id: ExpId, env: Inputs, key: JobKey)
    requires Inv(w) && id in w.store && InputsOk(w.store[id], env)
    requires key in Reconcile(w, id, env).jobs && key !in w.jobs
    ensures key.exp == id && Holds(w, id) && Reconcile(w, id, env).jobs[key] == JobRunning
    ensures SettledInspected(w, id) && (ExpInv(w, id, true) ==> Settled(w, id))
    ensures var sp, it := w.store[id].spec, w.store[id].status.iterations;
            match key.job
            case LoopJob(k) =>
              && 1 <= k <= GetMaxLoops(sp) && it + 1 == k * GetIterationsPerLoop(sp)
              && forall i: nat :: 1 <= i < k ==> HasJob(w, id, LoopJob(i))
            case StartJob => w.store[id].status.stage != Waiting
            case FinishJob => w.store[id].status.stage == Running
  {
    hide Decide, Reconcile, InputsOk, Inv, StatusInv, JobsInv, QuietInv, FinishInv, LoopsDone, Iterated, Local;
    ExpOf(w, id);
    ReconcileParts(w, id, env);
    var plan := Decide(w, id, env);
    if !Active(w.store[id]) {
      IdleStep(w, id, env);
    } else {
      DecideOk(w, id, env, false);
      if ExpInv(w, id, true) {
        DecideOk(w, id, env, true);
      }
      var j := plan.act.job;
      assert key == JobKey(id, j);
      if j.LoopJob? {
        LoopOrder(w, id, plan.act.st, j.k);
      }
    }
  }

  lemma LoopOrder(w: World, id: ExpId, st: Status, k: nat)
    requires ExpInv(w, id, false) && Active(w.store[id]) && MayLaunch(w, id, st, LoopJob(k), false)
    ensures 1 <= k <= GetMaxLoops(w.store[id].spec)
    ensures w.store[id].status.iterations + 1 == k * GetIterationsPerLoop(w.store[id].spec)
    ensures forall i: nat :: 1 <= i < k ==> HasJob(w, id, LoopJob(i))
  {
    var d := GetIterationsPerLoop(w.store[id].spec);
    Factor(k, d, GetMaxLoops(w.store[id].spec));
    forall i: nat | 1 <= i < k ensures HasJob(w, id, LoopJob(i)) {
      Grows(k - i, d);
      assert (k - i) * d == k * d - i * d;
    }
  }

  /** In every reachable state, whatever writes were lost and names used again, each loop that an active
      experiment has completed has its job. */
  lemma CompletedLoopsHaveJobs(w0: World, evs: seq<Event>, id: ExpId, k: nat)
    requires Initial(w0) && IsRun(w0, evs)
    requires var w := Final(w0, evs);
             id in w.store && w.store[id].status.completed != True && HasHandler(w.store[id].spec, LoopHandler)
    requires var x := Final(w0, evs).store[id];
             1 <= k && k * GetIterationsPerLoop(x.spec) <= x.status.iterations
    ensures HasJob(Final(w0, evs), id, LoopJob(k))
  {
    ReachableInv(w0, evs);
    assert ExpInv(Final(w0, evs), id, false);
  }

  /** Conversely, a loop job of an experiment that was created when no job existed under its name is that of a
      loop it has completed, or of the iteration under way, whose write may have been lost. */
  lemma LoopJobsCount(w: World, id: ExpId, spec: Spec, evs: seq<Event>, k: nat)
    requires Enabled(w, Created(id, spec)) && FreshName(w, id) && IsRun(Apply(w, Created(id, spec)), evs)
    requires forall i :: 0 <= i < |evs| ==> evs[i] != Deleted(id)
    requires HasJob(Final(Apply(w, Created(id, spec)), evs), id, LoopJob(k))
    ensures var w' := Final(Apply(w, Created(id, spec)), evs);
            && id in w'.store && 1 <= k <= GetMaxLoops(w'.store[id].spec)
            && k * GetIterationsPerLoop(w'.store[id].spec) <= w'.store[id].status.iterations + 1
  {
    CreateKeepsOwn(w, id, spec, true);
    RunKeepsOwn(Apply(w, Created(id, spec)), evs, id, true);
  }

  /** The finish job is created when all iterations are done, or to roll back on a failed objective. */
  lemma FinishReason(w: World, id: ExpId, env: Inputs)
    requires Inv(w) && id in w.store && InputsOk(w.store[id], env)
    requires HasJob(Reconcile(w, id, env), id, FinishJob) && !HasJob(w, id, FinishJob)
    ensures var x := w.store[id];
            x.status.iterations == Total(x.spec) || (env.analysis.Some? && MustRollback(InitializeSpec(x.spec), env.analysis.value))
  {
    var plan := Decide(w, id, env);
    ReconcileParts(w, id, env);
    var x := w.store[id];
    assert ExpInv(w, id, false);
    CheckHandlersOk(w, id, env.lookupErrors, false);
    TotalIs(x.spec);
    var c := CheckHandlers(w, id, x.spec, x.status, env.lookupErrors);
    hide Reconcile, Perform, CheckHandlers, Inv;
    assert plan.act.Launch? && plan.act.job == FinishJob;
    assert c.Continue?;
    FinishReasonActive(w, id, InitializeSpec(x.spec), x.status, c.st, env);
  }

  lemma FinishReasonActive(w: World, id: ExpId, sp: Spec, base: Status, st: Status, env: Inputs)
    requires id in w.store && GetIterationsPerLoop(sp) > 0
    requires (env.analysis.Some? ==> AnalysisOk(sp, env.analysis.value))
    requires var act := DecideActive(w, id, sp, base, st, env).act; act.Launch? && act.job == FinishJob
    ensures st.iterations >= TotalIterations(sp) || (env.analysis.Some? && MustRollback(sp, env.analysis.value))
  {
    hide DoIteration, Weights.Observe, TotalIterations, TasksValid, CanAcquire, MustRollback;
    assert sp.versionInfo.Some?;
    FinishReasonIteration(w, id, sp, base, Recommended(st, sp.versionInfo.value.baseline.name), env);
  }

  lemma FinishReasonIteration(w: World, id: ExpId, sp: Spec, base: Status, st: Status, env: Inputs)
    requires sp.versionInfo.Some? && GetIterationsPerLoop(sp) > 0
    requires (env.analysis.Some? ==> AnalysisOk(sp, env.analysis.value))
    requires var act := DoIteration(w, id, sp, base, st, env).act; act.Launch? && act.job == FinishJob
    ensures st.iterations >= TotalIterations(sp) || (env.analysis.Some? && MustRollback(sp, env.analysis.value))
  {
  }

  // ---- Loop jobs over runs ----

  /** The loop jobs of an experiment are those numbered 1 to m. */
  ghost predicate LoopsUpTo(w: World, id: ExpId, m: nat) {
    forall k: nat :: HasJob(w, id, LoopJob(k)) <==> 1 <= k <= m
  }

  /** The number of the loop job an event creates for the experiment, if it does. */
  function LoopLaunched(w: World, ev: Event, id: ExpId): seq<nat>
    requires Enabled(w, ev)
  {
    if ev.Reconciled? && ev.id == id && id in w.store then
      var act := Decide(w, id, ev.env).act;
      if act.Launch? && act.job.LoopJob? && !HasJob(w, id, act.job) then [act.job.k] else []
    else []
  }

  /** The loop jobs created for the experiment along a run, in order. */
  function LoopLog(w: World, evs: seq<Event>, id: ExpId): seq<nat>
    requires IsRun(w, evs)
    decreases |evs|
  {
    if evs == [] then [] else LoopLaunched(w, evs[0], id) + LoopLog(Apply(w, evs[0]), evs[1..], id)
  }

  lemma LoopEvent(w: World, ev: Event, id: ExpId, m: nat)
    requires Inv(w) && Enabled(w, ev) && id in w.store && ev != Deleted(id) && LoopsUpTo(w, id, m)
    ensures LoopLaunched(w, ev, id) in {[], [m + 1]}
    ensures LoopLaunched(w, ev, id) != [] ==> m + 1 <= GetMaxLoops(w.store[id].spec)
    ensures LoopsUpTo(Apply(w, ev), id, m + |LoopLaunched(w, ev, id)|)
  {
    hide Decide, Reconcile, Inv, InputsOk;
    if ev.Reconciled? && ev.id == id {
      LoopReconcile(w, id, ev.env, m);
    } else if ev.Reconciled? && ev.id in w.store {
      ReconcileParts(w, ev.id, ev.env);
      assert forall j :: HasJob(Reconcile(w, ev.id, ev.env), id, j) <==> HasJob(w, id, j);
    } else if ev.Reconciled? {
      CleanupSpares(w, ev.id, ev.env, id);
    } else {
      assert forall j :: HasJob(Apply(w, ev), id, j) <==> HasJob(w, id, j);
    }
  }

  /** A specification never changes but for the versions. */
  lemma SpecKept(w: World, ev: Event, id: ExpId)
    requires Enabled(w, ev) && id in w.store && ev != Deleted(id)
    ensures id in Apply(w, ev).store
    ensures var sp, sp' := w.store[id].spec, Apply(w, ev).store[id].spec;
            sp' == sp.(versionInfo := sp'.versionInfo)
  {
    hide Decide, InputsOk, Reconcile;
    if ev.Reconciled? {
      if ev.id in w.store {
        ReconcileParts(w, ev.id, ev.env);
      } else {
        AbsentKeepsStore(w, ev.id, ev.env);
      }
    }
  }

  /** What a reconcile creates, and what the log says of it. */
  lemma LaunchSeen(w: World, id: ExpId, env: Inputs)
    requires id in w.store && InputsOk(w.store[id], env)
    ensures var act := Decide(w, id, env).act;
            && Reconcile(w, id, env).jobs == (if act.Launch? then CreateJob(w.jobs, JobKey(id, act.job)) else w.jobs)
            && LoopLaunched(w, Reconciled(id, env), id) ==
                 if act.Launch? && act.job.LoopJob? && !HasJob(w, id, act.job) then [act.job.k] else []
  {
    var plan := Decide(w, id, env);
    assert Reconcile(w, id, env) == Perform(w, id, plan, env);
    PerformParts(w, id, plan, env);
    hide Decide, Reconcile, Perform, CreateJob;
  }

  lemma LoopReconcile(w: World, id: ExpId, env: Inputs, m: nat)
    requires Inv(w) && id in w.store && InputsOk(w.store[id], env) && LoopsUpTo(w, id, m)
    ensures LoopLaunched(w, Reconciled(id, env), id) in {[], [m + 1]}
    ensures LoopLaunched(w, Reconciled(id, env), id) != [] ==> m + 1 <= GetMaxLoops(w.store[id].spec)
    ensures LoopsUpTo(Reconcile(w, id, env), id, m + |LoopLaunched(w, Reconciled(id, env), id)|)
  {
    hide Decide, Reconcile, Inv, InputsOk, LoopsUpTo, LoopLaunched, Holds, Settled, SettledInspected, ExpInv;
    LaunchSeen(w, id, env);
    var act, w' := Decide(w, id, env).act, Reconcile(w, id, env);
    var j := if act.Launch? then act.job else StartJob;
    if act.Launch? && j.LoopJob? && !HasJob(w, id, j) {
      JobCreation(w, id, env, JobKey(id, j));
    }
    OneMoreLoop(w, w', id, j, m);
  }

  lemma OneMoreLoop(w: World, w': World, id: ExpId, j: Job, m: nat)
    requires LoopsUpTo(w, id, m) && (w'.jobs == w.jobs || w'.jobs == CreateJob(w.jobs, JobKey(id, j)))
    requires j.LoopJob? && !HasJob(w, id, j) ==> 1 <= j.k && forall i: nat :: 1 <= i < j.k ==> HasJob(w, id, LoopJob(i))
    ensures j.LoopJob? && !HasJob(w, id, j) ==> j.k == m + 1
    ensures j.LoopJob? && !HasJob(w, id, j) && w'.jobs != w.jobs ==> LoopsUpTo(w', id, m + 1)
    ensures !j.LoopJob? || HasJob(w, id, j) || w'.jobs == w.jobs ==> LoopsUpTo(w', id, m)
  {
    if j.LoopJob? && !HasJob(w, id, j) {
      assert j.k > m;
      assert !HasJob(w, id, LoopJob(m + 1));
    }
  }

  /** Along any run that keeps the experiment its loop jobs are created in order, none left out and none
      twice, going on from the last one there, up to maxLoops at most; so the check of the handlers, which
      looks at the numbers 1 to maxLoops, sees every one created. */
  lemma {:induction false} LoopJobsInOrder(w: World, evs: seq<Event>, id: ExpId, m: nat)
    requires Inv(w) && IsRun(w, evs) && id in w.store && LoopsUpTo(w, id, m)
    requires forall i :: 0 <= i < |evs| ==> evs[i] != Deleted(id)
    ensures var log, w' := LoopLog(w, evs, id), Final(w, evs);
            && CountsFrom(log, m) && LoopsUpTo(w', id, m + |log|)
            && id in w'.store && GetMaxLoops(w'.store[id].spec) == GetMaxLoops(w.store[id].spec)
            && (log != [] ==> m + |log| <= GetMaxLoops(w.store[id].spec))
    decreases |evs|
  {
    hide *;
    LoopLogSteps(w, evs, id);
    if evs == [] {
      Counting([], [], m);
    } else {
      var now := LoopLaunched(w, evs[0], id);
      SpecKept(w, evs[0], id);
      SameLoops(w.store[id].spec, Apply(w, evs[0]).store[id].spec);
      EventKeeps(w, evs[0]);
      LoopEvent(w, evs[0], id, m);
      LoopJobsInOrder(Apply(w, evs[0]), evs[1..], id, m + |now|);
      Counting(now, LoopLog(Apply(w, evs[0]), evs[1..], id), m);
    }
  }

  lemma SameLoops(sp: Spec, sp': Spec)
    requires sp' == sp.(versionInfo := sp'.versionInfo)
    ensures GetMaxLoops(sp') == GetMaxLoops(sp)
    ensures forall t :: HasHandler(sp', t) <==> HasHandler(sp, t)
  {
  }

  /** The numbers after m, in order. */
  predicate CountsFrom(s: seq<nat>, m: nat) {
    forall i :: 0 <= i < |s| ==> s[i] == m + 1 + i
  }

  lemma Counting(now: seq<nat>, rest: seq<nat>, m: nat)
    requires now in {[], [m + 1]} && (rest == [] || CountsFrom(rest, m + |now|))
    ensures CountsFrom(now + rest, m)
    ensures rest == [] ==> CountsFrom(now, m)
  {
  }

  lemma LoopLogSteps(w: World, evs: seq<Event>, id: ExpId)
    requires IsRun(w, evs)
    ensures evs == [] ==> LoopLog(w, evs, id) == [] && Final(w, evs) == w
    ensures evs != [] ==> Enabled(w, evs[0]) && IsRun(Apply(w, evs[0]), evs[1..])
    ensures evs != [] ==> Final(w, evs) == Final(Apply(w, evs[0]), evs[1..])
    ensures evs != [] ==> LoopLog(w, evs, id) == LoopLaunched(w, evs[0], id) + LoopLog(Apply(w, evs[0]), evs[1..], id)
  {
  }

  // ---- Jobs of deleted experiments ----

  /** A reconcile of an experiment that is gone deletes the jobs of all that are, where their deletion does not fail:
      a name is then as good as new. Those of stored experiments stay as they are. */
  lemma DeletedNamesAreFresh(w: World, id: ExpId, env: Inputs, o: ExpId)
    requires id !in w.store
    ensures var w' := Reconcile(w, id, env);
            && w'.store == w.store
            && (o !in w.store ==> (FreshName(w', o) <==> forall j :: HasJob(w, o, j) ==> JobKey(o, j) !in env.undeleted))
            && (o in w.store ==> forall j :: HasJob(w', o, j) <==> HasJob(w, o, j))
            && forall k :: k in w'.jobs ==> k in w.jobs && w'.jobs[k] == w.jobs[k]
  {
    var w' := Reconcile(w, id, env);
    if o !in w.store {
      forall j ensures HasJob(w', o, j) <==> HasJob(w, o, j) && JobKey(o, j) in env.undeleted {
        assert JobKey(o, j).exp == o;
      }
    } else {
      CleanupSpares(w, id, env, o);
    }
  }

  // ---- The terminal hand-off ----

  /** What the check makes of an existing finish job, if there is a handler for it. */
  lemma FinishStops(w: World, id: ExpId, errors: set<Job>)
    requires id in w.store && HasJob(w, id, FinishJob) && HasHandler(w.store[id].spec, FinishHandler)
    ensures var st := w.store[id].status;
            var c := CheckHandlers(w, id, w.store[id].spec, st, errors);
            c in {Stop(Save(st)), Stop(End(st)), Stop(End(st.(failed := True)))}
  {
    var sp, st := w.store[id].spec, w.store[id].status;
    var c1 := CheckTypes(w, id, sp, st, 1, errors);
    assert CheckTypes(w, id, sp, st, 0, errors) == Continue(st);
    assert ALL_HANDLER_TYPES[0] == StartHandler && ALL_HANDLER_TYPES[1] == FinishHandler;
    assert c1 in {Continue(st), Stop(Save(st)), Stop(End(st.(failed := True)))};
    var c2 := CheckTypes(w, id, sp, st, 2, errors);
    assert c2 in {Stop(Save(st)), Stop(End(st)), Stop(End(st.(failed := True)))};
    hide CheckType, CheckOne, HasHandler;
    assert CheckTypes(w, id, sp, st, 3, errors) == c2;
    assert CheckTypes(w, id, sp, st, 4, errors) == c2;
  }

  /** The plan of an active experiment whose finish job exists, whatever the check says of its start job. */
  lemma FinishPlan(w: World, id: ExpId, env: Inputs)
    requires id in w.store && InputsOk(w.store[id], env) && Active(w.store[id])
    requires HasJob(w, id, FinishJob) && HasHandler(w.store[id].spec, FinishHandler)
    ensures var st, plan := w.store[id].status, Decide(w, id, env);
            && plan.early == st && plan.cluster == w.cluster
            && plan.act in {Save(st), End(st), End(st.(failed := True))}
  {
    hide CheckHandlers, DecideActive, InputsOk;
    FinishStops(w, id, env.lookupErrors);
  }

  lemma ReconcileCluster(w: World, id: ExpId, env: Inputs)
    requires id in w.store && InputsOk(w.store[id], env)
    ensures Reconcile(w, id, env).cluster == Decide(w, id, env).cluster
  {
    hide Decide, InputsOk;
  }

  /** Once the finish job of an experiment with a finish handler exists a reconcile launches nothing, moves no
      weight and iterates no more: it stores nothing, or the experiment's end, or, if the job is left from an
      experiment of the same name, the initial status. */
  lemma TerminalOneWay(w: World, id: ExpId, env: Inputs)
    requires Inv(w) && id in w.store && InputsOk(w.store[id], env)
    requires HasJob(w, id, FinishJob) && HasHandler(w.store[id].spec, FinishHandler)
    ensures var w', st := Reconcile(w, id, env), w.store[id].status;
            && w'.jobs == w.jobs && w'.cluster == w.cluster
            && (if st.initTime.None? then w'.store[id].status in {st, Initialized(st, w.now)}
                else w'.store[id].status in {st, Ended(st), Ended(st.(failed := True))})
            && (forall o :: o in w.store && o != id ==> w'.store[o] == w.store[o])
  {
    hide Reconcile, Decide, InputsOk, Inv, ExpInv, Ended, Initialized, CreateJob;
    ExpOf(w, id);
    ReconcileParts(w, id, env);
    if Active(w.store[id]) {
      ReconcileCluster(w, id, env);
      FinishPlan(w, id, env);
    } else {
      IdleStep(w, id, env);
    }
  }

  /** What can still happen to the stored experiment once its finish job exists. */
  predicate TerminalStep(x: Experiment, y: Experiment) {
    && y.spec == x.spec.(versionInfo := y.spec.versionInfo)
    && y.status.iterations == x.status.iterations && (Owns(y) <==> Owns(x))
    && (y.status.stage == x.status.stage || y.status.stage == Completed)
  }

  lemma TerminalEvent(w: World, ev: Event, id: ExpId)
    requires Inv(w) && Enabled(w, ev) && ev != Deleted(id) && id in w.store
    requires HasJob(w, id, FinishJob) && HasHandler(w.store[id].spec, FinishHandler)
    ensures var w' := Apply(w, ev);
            && HasJob(w', id, FinishJob) && (forall j :: HasJob(w', id, j) ==> HasJob(w, id, j))
            && id in w'.store && TerminalStep(w.store[id], w'.store[id])
  {
    hide Decide, Reconcile, InputsOk, Inv;
    match ev {
      case Reconciled(o, env) =>
        if o == id {
          TerminalOneWay(w, id, env);
          ReconcileParts(w, id, env);
          ExpOf(w, id);
          var st := w.store[id].status;
          AfterIsRank(Completed, st.stage);
        } else if o in w.store {
          ReconcileParts(w, o, env);
          assert forall j :: HasJob(Reconcile(w, o, env), id, j) <==> HasJob(w, id, j);
        } else {
          CleanupSpares(w, o, env, id);
        }
      case _ =>
    }
  }

  /** Along any run that keeps the experiment, lost writes and names used again included, nothing more happens to
      an experiment with a finish handler after its finish job was created than that it ends. */
  lemma {:induction false} TerminalRun(w: World, evs: seq<Event>, id: ExpId)
    requires Inv(w) && IsRun(w, evs) && id in w.store
    requires HasJob(w, id, FinishJob) && HasHandler(w.store[id].spec, FinishHandler)
    requires forall i :: 0 <= i < |evs| ==> evs[i] != Deleted(id)
    ensures var w' := Final(w, evs);
            && HasJob(w', id, FinishJob) && (forall j :: HasJob(w', id, j) ==> HasJob(w, id, j))
            && id in w'.store && TerminalStep(w.store[id], w'.store[id])
    decreases |evs|
  {
    if evs != [] {
      hide Enabled, Apply, Inv;
      EventKeeps(w, evs[0]);
      TerminalEvent(w, evs[0], id);
      SameLoops(w.store[id].spec, Apply(w, evs[0]).store[id].spec);
      TerminalRun(Apply(w, evs[0]), evs[1..], id);
    }
  }
}
