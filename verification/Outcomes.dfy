/** What one reconcile leaves behind, case by case, in terms of what it found: the specification, the stored status,
    the jobs, the fields and the analysis. */
module Outcomes {
  import opened Prelude
  import opened Stages
  import opened JobNames
  import opened Experiments
  import opened Targets
  import opened Controller
  import opened Protocol
  import opened Safety
  import opened Quiescence
  import opened Handover
  import Metrics
  import Steps
  import Weights

  // ---- Ends ----

  /** Neither fields nor jobs have changed. */
  predicate Elsewhere(w: World, w': World) {
    w'.cluster == w.cluster && w'.jobs == w.jobs
  }

  /** The experiment has ended, as a failure or as it was, if one of the two writes persists; otherwise at most the
      write of the start time has happened. */
  predicate EndStored(x: Status, y: Status, env: Inputs, failure: bool) {
    if env.write || env.endWrite then
      && y.stage == Completed && y.completed == True && y.failed == (if failure then True else x.failed)
      && y.iterations == x.iterations && y.acquired == x.acquired && y.initTime == x.initTime
      && y.lastUpdate == x.lastUpdate
    else StartWritten(x, y)
  }

  /** The write of the start time stores the weights and the recommended version in memory with it. */
  predicate StartWritten(x: Status, y: Status) {
    y == x || (x.startTime.None? && y == x.(startTime := y.startTime, weights := y.weights, recommended := y.recommended))
  }

  /** Initialisation: if one of its two writes persists it stores the time of the call and the initial values. */
  lemma InitialisationStores(w: World, id: ExpId, env: Inputs)
    requires ExpInv(w, id, false) && InputsOk(w.store[id], env) && w.store[id].status.initTime.None?
    ensures var w', x := Reconcile(w, id, env), w.store[id].status;
            var y := w'.store[id].status;
            && Elsewhere(w, w')
            && (env.startWrite || env.write ==>
                  && TimeOf(y.initTime, w.now) && y.lastUpdate == y.initTime && y.stage == Waiting && y.iterations == 0
                  && y.completed == False && y.failed == False && y.acquired == False)
            && (!env.startWrite && !env.write ==> y == x)
  {
  }

  // ---- The weights in memory after the check of the handlers ----

  ghost predicate LoopFrom(w: World, id: ExpId, loop: nat)
    requires id in w.store
  {
    exists k: nat :: loop <= k <= GetMaxLoops(w.store[id].spec) && HasJob(w, id, LoopJob(k))
  }

  /** The check has come upon a loop job, and so has observed the weights. */
  ghost predicate LoopSeen(w: World, id: ExpId)
    requires id in w.store
  {
    "loop" in w.store[id].spec.actions && LoopFrom(w, id, 1)
  }

  function Observed(w: World, id: ExpId): Weights.Observation
    requires id in w.store
  {
    Weights.Observe(w.cluster, id.namespace, w.store[id].spec, w.store[id].status.weights)
  }

  ghost function Remembered(w: World, id: ExpId): seq<WeightData>
    requires id in w.store
  {
    if LoopSeen(w, id) && Observed(w, id).Observed? then Observed(w, id).weights else w.store[id].status.weights
  }

  lemma ObservedAgain(w: World, id: ExpId)
    requires id in w.store && Observed(w, id).Observed?
    ensures Weights.Observe(w.cluster, id.namespace, w.store[id].spec, Observed(w, id).weights) == Observed(w, id)
  {
  }

  lemma {:induction false} LoopsRemember(w: World, id: ExpId, st: Status, loop: nat, errors: set<Job>)
    requires id in w.store
    requires Weights.Observe(w.cluster, id.namespace, w.store[id].spec, st.weights) == Observed(w, id)
    ensures var c := CheckLoops(w, id, w.store[id].spec, st, loop, errors);
            c.Continue? ==>
              if LoopFrom(w, id, loop) then Observed(w, id).Observed? && c.st == st.(weights := Observed(w, id).weights)
              else c.st == st
    decreases GetMaxLoops(w.store[id].spec) + 1 - loop
  {
    hide Observed, Weights.Observe;
    var c := CheckOne(w, id, w.store[id].spec, st, LoopHandler, loop, errors);
    if loop <= GetMaxLoops(w.store[id].spec) && c.Continue? {
      if HasJob(w, id, LoopJob(loop)) {
        ObservedAgain(w, id);
      }
      LoopsRemember(w, id, c.st, loop + 1, errors);
      assert LoopFrom(w, id, loop) <==> HasJob(w, id, LoopJob(loop)) || LoopFrom(w, id, loop + 1);
    }
  }

  lemma Remembers(w: World, id: ExpId, errors: set<Job>)
    requires id in w.store && Clear(w, id, errors)
    ensures CheckHandlers(w, id, w.store[id].spec, w.store[id].status, errors)
         == Continue(w.store[id].status.(weights := Remembered(w, id)))
  {
    hide CheckTypes, CheckHandlers, CheckLoops, Clear, Weights.Observe, Steps.GoesOn, LoopFrom;
    CheckPasses(w, id, errors);
    Steps.PlainTypes(w, id, errors);
    LoopsRemember(w, id, w.store[id].status, 1, errors);
    LastType(w, id, errors);
  }

  // ---- Up to the launch of the start handler ----

  /** The check of the handlers goes on and the tasks are valid. */
  ghost predicate Cleared(w: World, id: ExpId, env: Inputs) {
    && id in w.store && InputsOk(w.store[id], env) && Active(w.store[id])
    && Clear(w, id, env.lookupErrors) && TasksValid(w.store[id].spec)
  }

  lemma ClearedPlan(w: World, id: ExpId, env: Inputs)
    requires id in w.store && InputsOk(w.store[id], env) && Active(w.store[id]) && Clear(w, id, env.lookupErrors)
    ensures var x := w.store[id];
            Decide(w, id, env) ==
              DecideActive(w, id, InitializeSpec(x.spec), x.status, x.status.(weights := Remembered(w, id)), env)
    ensures TasksValid(InitializeSpec(w.store[id].spec)) <==> TasksValid(w.store[id].spec)
  {
    hide CheckHandlers, DecideActive, Clear, Remembered;
    Remembers(w, id, env.lookupErrors);
  }

  /** How a reconcile ends that decides on an end. */
  lemma EndOutcome(w: World, id: ExpId, env: Inputs, st: Status, failure: bool)
    requires ExpInv(w, id, false) && InputsOk(w.store[id], env) && Active(w.store[id])
    requires var x, plan := w.store[id].status, Decide(w, id, env);
             && plan.act == End(st) && StartWritten(x, plan.early)
             && st.stage != Completed && st.iterations == x.iterations && st.acquired == x.acquired
             && st.initTime == x.initTime && st.lastUpdate == x.lastUpdate
             && st.failed == if failure then True else x.failed
    ensures var w' := Reconcile(w, id, env);
            && w'.jobs == w.jobs && w'.cluster == Decide(w, id, env).cluster
            && EndStored(w.store[id].status, w'.store[id].status, env, failure)
            && (EndPersists(st, env) ==> w'.store[id].status == Ended(st))
  {
    hide Decide, Reconcile, InputsOk, LoopsDone, FinishInv;
    ReconcileParts(w, id, env);
    Steps.ReconcileCluster(w, id, env);
    AfterIsRank(Completed, st.stage);
  }

  /** An experiment with a task that is not valid ends, but not as a failure. */
  lemma InvalidTasksEnd(w: World, id: ExpId, env: Inputs)
    requires ExpInv(w, id, false) && InputsOk(w.store[id], env) && Active(w.store[id])
    requires Clear(w, id, env.lookupErrors) && !TasksValid(w.store[id].spec)
    ensures var w' := Reconcile(w, id, env);
            Elsewhere(w, w') && EndStored(w.store[id].status, w'.store[id].status, env, false)
  {
    hide Decide, Reconcile, InputsOk, Clear, Remembered, TasksValid, LoopsDone, FinishInv, DecideStarted;
    InStore(w, id, false);
    ClearedPlan(w, id, env);
    var x := w.store[id];
    EndOutcome(w, id, env, x.status.(weights := Remembered(w, id)), false);
  }

  /** A holder that was Waiting goes on to Initializing. */
  lemma HolderInitializes(w: World, id: ExpId, env: Inputs)
    requires ExpInv(w, id, false) && Cleared(w, id, env) && Owns(w.store[id]) && w.store[id].status.stage == Waiting
    ensures var w', x := Reconcile(w, id, env), w.store[id].status;
            && Elsewhere(w, w')
            && w'.store[id].status == if env.write then x.(stage := Initializing, weights := Remembered(w, id)) else x
  {
    hide Decide, Reconcile, InputsOk, Clear, Remembered, TasksValid, DecideStarted, LoopsDone, FinishInv;
    ClearedPlan(w, id, env);
    AfterIsRank(Initializing, Waiting);
    ReconcileParts(w, id, env);
    Steps.ReconcileCluster(w, id, env);
  }

  /** A holder past Waiting, with a start handler and without a start job, launches one; where the job cannot be
      created the experiment ends. */
  lemma StartHandlerLaunched(w: World, id: ExpId, env: Inputs)
    requires ExpInv(w, id, false) && Cleared(w, id, env) && Owns(w.store[id]) && w.store[id].status.stage != Waiting
    requires "start" in w.store[id].spec.actions && !HasJob(w, id, StartJob) && !env.startLookupFails
    ensures var w', x := Reconcile(w, id, env), w.store[id].status;
            var y := w'.store[id].status;
            && w'.cluster == w.cluster
            && if env.launchOk then
                 w'.jobs == w.jobs[JobKey(id, StartJob) := JobRunning] && y in {x, x.(weights := Remembered(w, id))}
               else w'.jobs == w.jobs && EndStored(x, y, env, false)
  {
    hide Decide, Reconcile, InputsOk, Clear, Remembered, TasksValid, DecideStarted, LoopsDone;
    ClearedPlan(w, id, env);
    var x := w.store[id];
    AfterIsRank(Initializing, x.status.stage);
    NotFinishing(w, id, env);
    if env.launchOk {
      ReconcileParts(w, id, env);
      Steps.ReconcileCluster(w, id, env);
    } else {
      EndOutcome(w, id, env, x.status.(weights := Remembered(w, id)), false);
    }
  }

  /** An experiment in the Finishing stage has a finish job, at which the check stops. */
  lemma NotFinishing(w: World, id: ExpId, env: Inputs)
    requires ExpInv(w, id, false) && Active(w.store[id]) && Clear(w, id, env.lookupErrors)
    ensures w.store[id].status.stage in {Waiting, Initializing, Running}
    ensures "finish" in w.store[id].spec.actions ==> !HasJob(w, id, FinishJob)
  {
    assert HandlerName(TypeOf(FinishJob)) == "finish";
  }

  // ---- From the start handler to the iterations ----

  /** A holder whose start handler, if there is one, is through. */
  ghost predicate Started(w: World, id: ExpId, env: Inputs) {
    && Cleared(w, id, env) && Owns(w.store[id]) && w.store[id].status.stage != Waiting
    && ("start" in w.store[id].spec.actions ==> HasJob(w, id, StartJob) || env.startLookupFails)
  }

  lemma StartedPlan(w: World, id: ExpId, env: Inputs)
    requires ExpInv(w, id, false) && Started(w, id, env)
    ensures var x := w.store[id];
            Decide(w, id, env) ==
              DecideStarted(w, id, InitializeSpec(x.spec), x.status, x.status.(weights := Remembered(w, id)), env)
    ensures w.store[id].status.stage in {Initializing, Running}
  {
    hide Decide, InputsOk, Clear, Remembered, TasksValid, DecideStarted, LoopsDone, FinishInv;
    ClearedPlan(w, id, env);
    NotFinishing(w, id, env);
    AfterIsRank(Initializing, w.store[id].status.stage);
  }

  /** The criteria name metrics and none have been read. */
  ghost predicate MetricsMissing(x: Experiment) {
    x.status.metrics == map[] && x.spec.criteria.Some? && exists name :: Metrics.Named(x.spec.criteria.value, name)
  }

  lemma MissingAreRead(x: Experiment, weights: seq<WeightData>)
    ensures Metrics.ShouldReadMetrics(InitializeSpec(x.spec), x.status.(weights := weights)) <==> MetricsMissing(x)
  {
    Metrics.ReadsWhenNamed(InitializeSpec(x.spec), x.status.(weights := weights));
  }

  /** The metrics of the criteria are read once, all those they lead to and no others; if one of these does not
      exist the experiment fails. */
  lemma MetricsStored(w: World, id: ExpId, env: Inputs)
    requires ExpInv(w, id, false) && Started(w, id, env) && MetricsMissing(w.store[id])
    ensures var w', x, c := Reconcile(w, id, env), w.store[id].status, w.store[id].spec.criteria.value;
            var y := w'.store[id].status;
            && Elsewhere(w, w')
            && if forall b :: Metrics.Wanted(env.metrics, id.namespace, c, b) ==> b in env.metrics then
                 && y == x.(metrics := y.metrics, weights := y.weights)
                 && (env.write ==> forall b :: b in y.metrics <==> Metrics.Wanted(env.metrics, id.namespace, c, b))
                 && forall b :: b in y.metrics ==> b in env.metrics && y.metrics[b] == env.metrics[b]
               else EndStored(x, y, env, true)
  {
    hide Decide, Reconcile, InputsOk, Clear, Remembered, TasksValid, LoopsDone, FinishInv, After, DoIteration,
      Metrics.ReadNames, Metrics.ShouldReadMetrics, Metrics.Wanted, Weights.Observe;
    StartedPlan(w, id, env);
    var x := w.store[id];
    MissingAreRead(x, Remembered(w, id));
    var c := x.spec.criteria.value;
    Metrics.WantedAreRead(env.metrics, id.namespace, c);
    var r := Metrics.ReadNames(env.metrics, id.namespace, Metrics.CriteriaNames(c));
    if r.None? {
      EndOutcome(w, id, env, x.status.(weights := Remembered(w, id), failed := True), true);
    } else {
      ReconcileParts(w, id, env);
      Steps.ReconcileCluster(w, id, env);
    }
  }

  /** The weights of these versions can be observed: every reference can be read, and at most one version has
      none or the split is fixed. */
  predicate CanObserve(c: Weights.Cluster, namespace: string, sp: Spec) {
    sp.versionInfo.Some? ==>
      Weights.AllReadable(c, namespace, sp.versionInfo.value.All())
      && (Weights.Missing(sp.versionInfo.value.All()) <= 1 || sp.deploymentPattern == Some(FixedSplit))
  }

  /** Every version with a reference has the weight of the field it refers to. */
  predicate WeightsRead(c: Weights.Cluster, namespace: string, sp: Spec, weights: seq<WeightData>) {
    sp.versionInfo.Some? && Distinct(Names(sp.versionInfo.value.All())) ==>
      forall v :: v in sp.versionInfo.value.All() && v.ref.Some? ==>
        Weights.Lookup(v.name, weights) == Weights.ObserveWeight(c, namespace, v.ref.value)
  }

  /** Observation after late initialisation, whose default is no fixed split. */
  lemma ObserveOutcome(c: Weights.Cluster, namespace: string, sp: Spec, current: seq<WeightData>)
    ensures var o := Weights.Observe(c, namespace, InitializeSpec(sp), current);
            && (o.Observed? <==> CanObserve(c, namespace, sp)) && !o.NilDereference?
            && (o.Observed? ==> WeightsRead(c, namespace, sp, o.weights))
  {
    var sp' := InitializeSpec(sp);
    hide Weights.Observe, Weights.ObserveWeight, Weights.Lookup;
    Weights.NilDereferenceExactly(c, namespace, sp', current);
    if sp.versionInfo.Some? {
      var vs := sp.versionInfo.value.All();
      Weights.ObservedHasShape(c, namespace, sp', current);
      var o := Weights.Observe(c, namespace, sp', current);
      if o.Observed? && Distinct(Names(vs)) {
        forall v | v in vs && v.ref.Some?
          ensures Weights.Lookup(v.name, o.weights) == Weights.ObserveWeight(c, namespace, v.ref.value)
        {
          var i :| 0 <= i < |vs| && vs[i] == v;
          Weights.ObservedUnderName(c, namespace, sp', current, i);
        }
      }
    } else {
      NoVersions(c, namespace, sp', current);
    }
  }

  lemma NoVersions(c: Weights.Cluster, namespace: string, sp: Spec, current: seq<WeightData>)
    requires sp.versionInfo.None?
    ensures Weights.Observe(c, namespace, sp, current) == Weights.Observed(current)
  {
  }

  /** With the metrics read, the experiment goes on to Running and records the weights it finds; if they cannot be
      observed it fails. */
  lemma RunningStored(w: World, id: ExpId, env: Inputs)
    requires ExpInv(w, id, false) && Started(w, id, env) && !MetricsMissing(w.store[id])
    requires w.store[id].status.stage == Initializing
    ensures var w', x, sp := Reconcile(w, id, env), w.store[id].status, w.store[id].spec;
            var y := w'.store[id].status;
            && Elsewhere(w, w')
            && if !CanObserve(w.cluster, id.namespace, sp) then EndStored(x, y, env, true)
               else if env.write then
                 y == x.(stage := Running, weights := y.weights) && WeightsRead(w.cluster, id.namespace, sp, y.weights)
               else y == x
  {
    hide Decide, Reconcile, InputsOk, Clear, Remembered, TasksValid, LoopsDone, FinishInv, DoIteration, MetricsMissing,
      Metrics.ReadNames, Metrics.ShouldReadMetrics, Weights.Observe, CanObserve, WeightsRead;
    StartedPlan(w, id, env);
    var x := w.store[id];
    MissingAreRead(x, Remembered(w, id));
    AfterIsRank(Running, Initializing);
    ObserveOutcome(w.cluster, id.namespace, x.spec, Remembered(w, id));
    if CanObserve(w.cluster, id.namespace, x.spec) {
      ReconcileParts(w, id, env);
      Steps.ReconcileCluster(w, id, env);
    } else {
      var st := x.status.(stage := Running, completed := False, weights := Remembered(w, id));
      EndOutcome(w, id, env, st.(failed := True), true);
    }
  }

  // ---- Jobs that have ended ----

  /** The check goes on past this job, which it looks at. */
  predicate Passes(w: World, id: ExpId, j: Job, errors: set<Job>)
    requires id in w.store
  {
    && j !in errors
    && (HasJob(w, id, j) ==> JobIs(w, id, j, JobComplete) && j != FinishJob && (j.LoopJob? ==> Observable(w, id)))
  }

  /** The check comes upon this job. */
  ghost predicate ComesTo(w: World, id: ExpId, j: Job, errors: set<Job>)
    requires id in w.store
  {
    && Inspected(w.store[id].spec, j)
    && forall i :: Inspected(w.store[id].spec, i) && Position(i) < Position(j) ==> Passes(w, id, i, errors)
  }

  /** The job has failed, or its lookup does. */
  predicate Fails(w: World, id: ExpId, j: Job, errors: set<Job>) {
    j in errors || JobIs(w, id, j, JobFailed)
  }

  /** The check ends the experiment; otherwise the status in memory is that stored but for the weights. */
  predicate StopsWith(c: Check, st: Status, failure: bool) {
    c.Stop? && c.act.End? && c.act.st == st.(weights := c.act.st.weights, failed := if failure then True else st.failed)
  }

  lemma {:induction false} LoopFails(w: World, id: ExpId, st: Status, loop: nat, k: nat, errors: set<Job>)
    requires id in w.store && 1 <= loop <= k <= GetMaxLoops(w.store[id].spec) && Fails(w, id, LoopJob(k), errors)
    requires forall i: nat :: loop <= i < k ==> Passes(w, id, LoopJob(i), errors)
    ensures StopsWith(CheckLoops(w, id, w.store[id].spec, st, loop, errors), st, true)
    decreases k - loop
  {
    ObservableWhatever(w, id, st);
    hide Weights.Observe, Observable;
    if loop < k {
      var c := CheckOne(w, id, w.store[id].spec, st, LoopHandler, loop, errors);
      assert Passes(w, id, LoopJob(loop), errors);
      LoopFails(w, id, c.st, loop + 1, k, errors);
    }
  }

  /** The check of the handlers that are not loops. */
  lemma PlainCheck(w: World, id: ExpId, t: HandlerType, errors: set<Job>)
    requires id in w.store && t != LoopHandler
    ensures var sp, st, j := w.store[id].spec, w.store[id].status, JobOf(t, 0);
            var c := CheckType(w, id, sp, st, t, errors);
            && (!HasHandler(sp, t) || Passes(w, id, j, errors) ==> c == Continue(st))
            && (HasHandler(sp, t) && Fails(w, id, j, errors) ==> c == Stop(End(st.(failed := True))))
            && (HasHandler(sp, t) && j !in errors && j == FinishJob && JobIs(w, id, j, JobComplete) ==> c == Stop(End(st)))
  {
  }

  lemma FailureStops(w: World, id: ExpId, j: Job, errors: set<Job>)
    requires id in w.store && ComesTo(w, id, j, errors) && Fails(w, id, j, errors)
    ensures StopsWith(CheckHandlers(w, id, w.store[id].spec, w.store[id].status, errors), w.store[id].status, true)
  {
    hide CheckType, CheckHandlers, CheckLoops, Passes, Fails;
    FirstTypes(w, id, j, errors);
    match j {
      case LoopJob(k) =>
        forall i: nat | 1 <= i < k ensures Passes(w, id, LoopJob(i), errors) {
          assert Inspected(w.store[id].spec, LoopJob(i)) && Position(LoopJob(i)) < Position(j);
        }
        LoopFails(w, id, w.store[id].status, 1, k, errors);
        LoopType(w, id, errors);
      case _ =>
    }
  }

  lemma LoopType(w: World, id: ExpId, errors: set<Job>)
    requires id in w.store && HasHandler(w.store[id].spec, LoopHandler)
    ensures CheckType(w, id, w.store[id].spec, w.store[id].status, LoopHandler, errors)
         == CheckLoops(w, id, w.store[id].spec, w.store[id].status, 1, errors)
  {
  }

  /** The check up to the type of a job it comes upon. */
  lemma FirstTypes(w: World, id: ExpId, j: Job, errors: set<Job>)
    requires id in w.store && ComesTo(w, id, j, errors)
    ensures var sp, st := w.store[id].spec, w.store[id].status;
            var c := CheckHandlers(w, id, sp, st, errors);
            && (j.StartJob? || j.FinishJob? ==>
                  && (Fails(w, id, j, errors) ==> c == Stop(End(st.(failed := True))))
                  && (j.FinishJob? && j !in errors && JobIs(w, id, j, JobComplete) ==> c == Stop(End(st))))
            && (j.LoopJob? ==> c == CheckType(w, id, sp, st, LoopHandler, errors))
  {
    hide CheckType, CheckHandlers, Passes, Fails;
    PlainCheck(w, id, StartHandler, errors);
    PlainCheck(w, id, FinishHandler, errors);
    PlainCheck(w, id, RollbackHandler, errors);
    PlainCheck(w, id, FailureHandler, errors);
    Chain(w, id, errors);
    var sp := w.store[id].spec;
    if HasHandler(sp, StartHandler) && !j.StartJob? {
      assert Inspected(sp, StartJob) && Position(StartJob) < Position(j);
    }
    if HasHandler(sp, FinishHandler) && j.LoopJob? {
      assert Inspected(sp, FinishJob) && Position(FinishJob) < Position(j);
    }
  }

  /** A job that has failed, or whose lookup fails, fails the experiment when the check comes upon it. */
  lemma FailedJobFails(w: World, id: ExpId, env: Inputs, j: Job)
    requires ExpInv(w, id, false) && InputsOk(w.store[id], env) && Active(w.store[id])
    requires ComesTo(w, id, j, env.lookupErrors) && Fails(w, id, j, env.lookupErrors)
    ensures var w' := Reconcile(w, id, env);
            Elsewhere(w, w') && EndStored(w.store[id].status, w'.store[id].status, env, true)
  {
    hide Decide, Reconcile, InputsOk, CheckHandlers, LoopsDone, FinishInv, ComesTo, Fails;
    FailureStops(w, id, j, env.lookupErrors);
    EndOfCheck(w, id, env, true);
  }

  /** A finish job that has completed ends the experiment, not as a failure. */
  lemma FinishedJobEnds(w: World, id: ExpId, env: Inputs)
    requires ExpInv(w, id, false) && InputsOk(w.store[id], env) && Active(w.store[id])
    requires ComesTo(w, id, FinishJob, env.lookupErrors) && FinishJob !in env.lookupErrors
    requires JobIs(w, id, FinishJob, JobComplete)
    ensures var w' := Reconcile(w, id, env);
            Elsewhere(w, w') && EndStored(w.store[id].status, w'.store[id].status, env, false)
  {
    hide Decide, Reconcile, InputsOk, CheckHandlers, LoopsDone, FinishInv, ComesTo, Fails;
    FirstTypes(w, id, FinishJob, env.lookupErrors);
    EndOfCheck(w, id, env, false);
  }

  lemma EndOfCheck(w: World, id: ExpId, env: Inputs, failure: bool)
    requires ExpInv(w, id, false) && InputsOk(w.store[id], env) && Active(w.store[id])
    requires var x := w.store[id];
             StopsWith(CheckHandlers(w, id, x.spec, x.status, env.lookupErrors), x.status, failure)
    ensures var w' := Reconcile(w, id, env);
            Elsewhere(w, w') && EndStored(w.store[id].status, w'.store[id].status, env, failure)
  {
    hide Decide, Reconcile, InputsOk, CheckHandlers, LoopsDone, FinishInv;
    StoppedPlan(w, id, env);
    var c := CheckHandlers(w, id, w.store[id].spec, w.store[id].status, env.lookupErrors);
    EndOutcome(w, id, env, c.act.st, failure);
  }
}
