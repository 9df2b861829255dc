/** What an iteration does: when it is due, when an objective's failure rolls the experiment back, and how else it
    moves the weights, counts and records the analysis (controllers/iterate.go). */
module Iterations {
  import opened Prelude
  import opened Stages
  import opened JobNames
  import opened Experiments
  import opened Targets
  import opened Controller
  import opened Protocol
  import opened Safety
  import opened Handover
  import opened Outcomes
  import Metrics
  import Steps
  import Weights

  // ---- When an iteration is due ----

  /** A holder in the Running stage that has started and read its metrics. */
  ghost predicate Iterating(w: World, id: ExpId, env: Inputs) {
    Started(w, id, env) && w.store[id].status.stage == Running && !MetricsMissing(w.store[id])
  }

  /** Its versions are valid, and its start time is set or can be stored. */
  ghost predicate Ready(w: World, id: ExpId, env: Inputs) {
    && Iterating(w, id, env) && VersionInfoValid(w.store[id].spec)
    && (w.store[id].status.startTime.Some? || env.startWrite)
  }

  /** The interval in milliseconds. */
  function Interval(sp: Spec): int {
    1000 * (if sp.duration.Some? && sp.duration.value.intervalSeconds.Some? then sp.duration.value.intervalSeconds.value
            else 20)
  }

  /** The first iteration, or all but a tenth of a second of the interval has passed since the last one. */
  predicate OnTime(x: Experiment, now: int) {
    x.status.iterations == 0 || x.status.lastUpdate.None? || now > x.status.lastUpdate.value + Interval(x.spec) - 100
  }

  lemma OnTimeIsSufficient(x: Experiment, st: Status, now: int)
    requires st.iterations == x.status.iterations && st.lastUpdate == x.status.lastUpdate
    ensures SufficientTime(InitializeSpec(x.spec), st, now) <==> OnTime(x, now)
    ensures SufficientTime(x.spec, st, now) <==> OnTime(x, now)
  {
  }

  ghost predicate Due(w: World, id: ExpId, env: Inputs) {
    Ready(w, id, env) && w.store[id].status.iterations < Total(w.store[id].spec) && OnTime(w.store[id], w.now)
  }

  /** The status in memory when the iteration begins. */
  ghost function Begun(w: World, id: ExpId): Status
    requires id in w.store && w.store[id].spec.versionInfo.Some?
  {
    var x := w.store[id];
    var st := Recommended(x.status.(weights := Remembered(w, id)), x.spec.versionInfo.value.baseline.name);
    if st.startTime.None? then st.(startTime := Some(Stamp(w.now))) else st
  }

  /** What is stored before the iteration proper: the write of the start time stores the whole status. */
  ghost function Early(w: World, id: ExpId): Status
    requires id in w.store && w.store[id].spec.versionInfo.Some?
  {
    if w.store[id].status.startTime.None? then Begun(w, id) else w.store[id].status
  }

  /** Late initialisation changes neither the versions nor what the inputs satisfy. */
  lemma ValidHere(x: Experiment, env: Inputs)
    requires InputsOk(x, env)
    ensures VersionInfoValid(InitializeSpec(x.spec)) <==> VersionInfoValid(x.spec)
    ensures VersionInfoValid(x.spec) ==> x.spec.versionInfo.Some?
    ensures GetIterationsPerLoop(InitializeSpec(x.spec)) > 0
    ensures var sp, a := InitializeSpec(x.spec), env.analysis;
            a.Some? ==> AnalysisOk(x.spec, a.value) && AnalysisOk(sp, a.value)
  {
  }

  lemma IteratingPlan(w: World, id: ExpId, env: Inputs)
    requires ExpInv(w, id, false) && Iterating(w, id, env)
    ensures var x, sp := w.store[id], InitializeSpec(w.store[id].spec);
            var st := x.status.(weights := Remembered(w, id));
            Decide(w, id, env) ==
              if VersionInfoValid(x.spec) then
                DoIteration(w, id, sp, x.status, Recommended(st, sp.versionInfo.value.baseline.name), env)
              else Plan(x.status, w.cluster, End(st.(failed := True)))
  {
    hide Decide, InputsOk, Clear, Remembered, TasksValid, LoopsDone, FinishInv, DoIteration, MetricsMissing,
      Metrics.ReadNames, Metrics.ShouldReadMetrics, Weights.Observe, VersionInfoValid;
    StartedPlan(w, id, env);
    MissingAreRead(w.store[id], Remembered(w, id));
    AfterIsRank(Running, Running);
    ValidHere(w.store[id], env);
  }

  /** An experiment whose versions are not valid fails. */
  lemma InvalidVersionsFail(w: World, id: ExpId, env: Inputs)
    requires ExpInv(w, id, false) && Iterating(w, id, env) && !VersionInfoValid(w.store[id].spec)
    ensures var w' := Reconcile(w, id, env);
            Elsewhere(w, w') && EndStored(w.store[id].status, w'.store[id].status, env, true)
  {
    hide Decide, Reconcile, InputsOk, Clear, Remembered, TasksValid, LoopsDone, FinishInv, VersionInfoValid,
      MetricsMissing;
    IteratingPlan(w, id, env);
    EndOutcome(w, id, env, w.store[id].status.(weights := Remembered(w, id), failed := True), true);
  }

  /** Where the start time can not be stored nothing happens. */
  lemma NoStartNoIteration(w: World, id: ExpId, env: Inputs)
    requires ExpInv(w, id, false) && Iterating(w, id, env) && VersionInfoValid(w.store[id].spec) && !Ready(w, id, env)
    ensures Reconcile(w, id, env) == w
  {
    hide Decide, InputsOk, Clear, Remembered, TasksValid, LoopsDone, FinishInv, VersionInfoValid, MetricsMissing,
      DueIteration, MoreIterationsNeeded, SufficientTime;
    IteratingPlan(w, id, env);
    ValidHere(w.store[id], env);
    SameStatus(w, id);
    var x := w.store[id].status;
    assert Decide(w, id, env) == Plan(x, w.cluster, Leave);
    assert Put(w.store, id, x, true) == w.store;
  }

  /** The start time is set once, to the time of the call. */
  lemma StartTimeSet(w: World, id: ExpId, env: Inputs)
    requires ExpInv(w, id, false) && Ready(w, id, env)
    ensures var x, y := w.store[id].status, Reconcile(w, id, env).store[id].status;
            if x.startTime.Some? then y.startTime == x.startTime else TimeOf(y.startTime, w.now)
  {
    hide Decide, Reconcile, InputsOk, Clear, Remembered, TasksValid, LoopsDone, FinishInv, VersionInfoValid,
      MetricsMissing;
    IteratingPlan(w, id, env);
    ValidHere(w.store[id], env);
    var x, sp := w.store[id], InitializeSpec(w.store[id].spec);
    var st := Recommended(x.status.(weights := Remembered(w, id)), sp.versionInfo.value.baseline.name);
    KeepsStart(w, id, sp, x.status, st, env);
    ReconcileParts(w, id, env);
  }

  lemma KeepsStart(w: World, id: ExpId, sp: Spec, base: Status, st: Status, env: Inputs)
    requires GetIterationsPerLoop(sp) > 0 && sp.versionInfo.Some? && st.startTime == base.startTime
    requires env.analysis.Some? ==> AnalysisOk(sp, env.analysis.value)
    requires base.startTime.Some? || env.startWrite
    ensures var plan := DoIteration(w, id, sp, base, st, env);
            var start := if base.startTime.Some? then base.startTime else Some(Stamp(w.now));
            && plan.early.startTime == start
            && match plan.act
               case Save(st') => st'.startTime == start
               case Launch(st', _) => st'.startTime == start
               case End(st') => st'.startTime == start && Ended(st').startTime == start
               case _ => true
  {
    hide MustRollback, Weights.Observe, Weights.Redistribute, TotalIterations, SufficientTime, AnalysisOk;
  }

  // ---- No iteration is due ----

  /** Once all iterations are done the finish handler is launched, or the experiment ends. */
  lemma LastIterationDone(w: World, id: ExpId, env: Inputs)
    requires ExpInv(w, id, false) && Ready(w, id, env) && w.store[id].status.iterations == Total(w.store[id].spec)
    ensures Finishes(w, Reconcile(w, id, env), id, env, w.store[id].status.analysis)
  {
    hide Decide, InputsOk, Clear, Remembered, TasksValid, LoopsDone, FinishInv, VersionInfoValid, MetricsMissing,
      DueIteration, SufficientTime, Terminate, Finishes, Total;
    IteratingPlan(w, id, env);
    ValidHere(w.store[id], env);
    TotalIs(w.store[id].spec);
    FinishOutcome(w, id, env, Begun(w, id), FinishHandler);
  }

  /** The terminal handler is launched if there is one and its job can be created, and else the experiment ends, not
      as a failure. Fields and count stay as they are; the analysis is the given one. */
  predicate Finishes(w: World, w': World, id: ExpId, env: Inputs, analysis: Option<Analysis>)
    requires id in w.store
  {
    && id in w'.store && w'.cluster == w.cluster && w'.store[id].status.iterations == w.store[id].status.iterations
    && var x, y := w.store[id].status, w'.store[id].status;
       && (env.write || (env.endWrite && !("finish" in w.store[id].spec.actions && env.launchOk)) ==> y.analysis == analysis)
       && if "finish" in w.store[id].spec.actions && env.launchOk then
            && w'.jobs == w.jobs[JobKey(id, FinishJob) := JobRunning] && y.completed == False && y.failed == x.failed
            && y.stage == if env.write then Finishing else Running
          else w'.jobs == w.jobs && EndStored(x, y, env, false)
  }

  lemma FinishOutcome(w: World, id: ExpId, env: Inputs, st: Status, t: HandlerType)
    requires ExpInv(w, id, false) && Ready(w, id, env) && t in {FinishHandler, RollbackHandler}
    requires w.store[id].spec.versionInfo.Some? && st == Begun(w, id).(analysis := st.analysis)
    requires Decide(w, id, env) == Plan(Early(w, id), w.cluster, Terminate(InitializeSpec(w.store[id].spec), st, t, env))
    ensures Finishes(w, Reconcile(w, id, env), id, env, st.analysis)
  {
    hide Decide, Reconcile, InputsOk, Clear, Remembered, TasksValid, LoopsDone, FinishInv, VersionInfoValid,
      MetricsMissing;
    var x := w.store[id];
    NotFinishing(w, id, env);
    AfterIsRank(Finishing, Running);
    AfterIsRank(Completed, Running);
    assert HasHandler(InitializeSpec(x.spec), t) <==> "finish" in x.spec.actions;
    if "finish" in x.spec.actions && env.launchOk {
      ReconcileParts(w, id, env);
      Steps.ReconcileCluster(w, id, env);
    } else {
      EndOutcome(w, id, env, st, false);
    }
  }

  /** While the interval has not passed nothing is stored but the start time. */
  lemma TooEarly(w: World, id: ExpId, env: Inputs)
    requires ExpInv(w, id, false) && Ready(w, id, env)
    requires w.store[id].status.iterations < Total(w.store[id].spec) && !OnTime(w.store[id], w.now)
    ensures w.store[id].spec.versionInfo.Some?
    ensures Reconcile(w, id, env) == WithStatus(w, id, Early(w, id))
  {
    hide Decide, InputsOk, Clear, Remembered, TasksValid, LoopsDone, FinishInv, VersionInfoValid, MetricsMissing,
      DueIteration, SufficientTime, OnTime, Total;
    IteratingPlan(w, id, env);
    ValidHere(w.store[id], env);
    TotalIs(w.store[id].spec);
    OnTimeIsSufficient(w.store[id], Begun(w, id), w.now);
  }

  // ---- A due iteration ----

  lemma DuePlan(w: World, id: ExpId, env: Inputs)
    requires ExpInv(w, id, false) && Due(w, id, env)
    ensures w.store[id].spec.versionInfo.Some?
    ensures Decide(w, id, env) == DueIteration(w, id, InitializeSpec(w.store[id].spec), Early(w, id), Begun(w, id), env)
  {
    hide Decide, InputsOk, Clear, Remembered, TasksValid, LoopsDone, FinishInv, VersionInfoValid, MetricsMissing,
      DueIteration, SufficientTime, OnTime, Total;
    IteratingPlan(w, id, env);
    ValidHere(w.store[id], env);
    TotalIs(w.store[id].spec);
    OnTimeIsSufficient(w.store[id], Begun(w, id), w.now);
  }

  /** Without an answer of the analytics service the experiment fails. */
  lemma AnalysisFails(w: World, id: ExpId, env: Inputs)
    requires ExpInv(w, id, false) && Due(w, id, env) && env.analysis.None?
    ensures var w' := Reconcile(w, id, env);
            Elsewhere(w, w') && EndStored(w.store[id].status, w'.store[id].status, env, true)
  {
    hide Decide, Reconcile, InputsOk, Clear, Remembered, TasksValid, LoopsDone, FinishInv, VersionInfoValid,
      MetricsMissing;
    DuePlan(w, id, env);
    EndOutcome(w, id, env, Begun(w, id).(failed := True), true);
  }

  /** Some version fails an objective that asks for a rollback: because it says so, or, in a blue-green experiment,
      because it does not say. */
  predicate FailsObjective(sp: Spec, a: Analysis) {
    sp.criteria.Some? &&
    exists i, v :: 0 <= i < |sp.criteria.value.objectives| && v in a.assessments
      && i < |a.assessments[v]| && !a.assessments[v][i]
      && var o := sp.criteria.value.objectives[i];
         o.rollbackOnFailure == Some(true) || (o.rollbackOnFailure.None? && sp.deploymentPattern == Some(BlueGreen))
  }

  lemma FailureMustRollback(sp: Spec, st: Status, a: Analysis)
    requires AnalysisOk(sp, a)
    ensures AnalysisOk(InitializeSpec(sp), KeepHists(st, a))
    ensures MustRollback(InitializeSpec(sp), KeepHists(st, a)) <==> FailsObjective(sp, a)
  {
  }

  /** The analysis to record: the one received, with the histograms recorded earlier. */
  function Kept(st: Status, a: Analysis): Analysis {
    if st.analysis.Some? then a.(hists := st.analysis.value.hists) else a
  }

  /** A version that fails an objective with rollback rolls the experiment back: no field moves, no iteration is
      counted, and the finish handler is launched or the experiment ends. */
  lemma RollsBack(w: World, id: ExpId, env: Inputs)
    requires ExpInv(w, id, false) && Due(w, id, env) && env.analysis.Some?
    requires FailsObjective(w.store[id].spec, env.analysis.value)
    ensures Finishes(w, Reconcile(w, id, env), id, env, Some(Kept(w.store[id].status, env.analysis.value)))
  {
    hide Decide, Clear, Remembered, TasksValid, LoopsDone, FinishInv, VersionInfoValid, MetricsMissing, Finishes,
      Terminate, MustRollback, FailsObjective;
    var x, a := w.store[id], env.analysis.value;
    DuePlan(w, id, env);
    var st := Begun(w, id);
    FailureMustRollback(x.spec, st, a);
    FinishOutcome(w, id, env, st.(analysis := Some(KeepHists(st, a))), RollbackHandler);
  }

  // ---- Moving the weights ----

  /** The experiment is one whose weights are moved. */
  predicate MovesWeights(sp: Spec) {
    sp.testingPattern != Conformance && sp.deploymentPattern != Some(FixedSplit)
  }

  /** The analysis recommends a weight for every version that refers to a field. */
  predicate Recommends(sp: Spec, a: Analysis) {
    sp.versionInfo.Some? ==>
      forall v :: v in sp.versionInfo.value.All() && Weights.Settable(v) ==> Weights.Lookup(v.name, a.weights).Some?
  }

  /** An iteration is due, and the analysis received asks for no rollback. */
  ghost predicate Proceeds(w: World, id: ExpId, env: Inputs) {
    Due(w, id, env) && env.analysis.Some? && !FailsObjective(w.store[id].spec, env.analysis.value)
  }

  /** The status with which weights are redistributed. */
  ghost function Analysed(w: World, id: ExpId, a: Analysis): Status
    requires id in w.store && w.store[id].spec.versionInfo.Some?
  {
    Begun(w, id).(analysis := Some(Kept(w.store[id].status, a)))
  }

  lemma ProceedsPlan(w: World, id: ExpId, env: Inputs)
    requires ExpInv(w, id, false) && Proceeds(w, id, env)
    ensures w.store[id].spec.versionInfo.Some?
    ensures var r := Iterate(w, id, InitializeSpec(w.store[id].spec), Analysed(w, id, env.analysis.value), env);
            Decide(w, id, env) == Plan(Early(w, id), r.0, r.1)
  {
    hide Decide, Clear, Remembered, TasksValid, LoopsDone, FinishInv, VersionInfoValid, MetricsMissing, Iterate,
      Terminate, MustRollback, FailsObjective;
    var x, a := w.store[id], env.analysis.value;
    DuePlan(w, id, env);
    var st := Begun(w, id);
    FailureMustRollback(x.spec, st, a);
  }

  lemma RecommendedInAnalysis(w: World, id: ExpId, a: Analysis, name: string)
    requires id in w.store && w.store[id].spec.versionInfo.Some?
    ensures Weights.Recommendation(Analysed(w, id, a), name) == Weights.Lookup(name, a.weights)
    ensures Weights.CurrentWeight(Analysed(w, id, a), name) ==
      (match Weights.Lookup(name, Remembered(w, id)) case None => 0 case Some(v) => v)
  {
    hide Remembered;
  }

  lemma MovesAreRedistributed(sp: Spec)
    ensures Weights.ShouldRedistribute(InitializeSpec(sp)) <==> MovesWeights(sp)
  {
  }

  /** What redistribution is given. */
  lemma RecommendedAll(w: World, id: ExpId, a: Analysis)
    requires id in w.store && w.store[id].spec.versionInfo.Some?
    ensures Recommends(w.store[id].spec, a) <==>
      Weights.AllRecommended(Analysed(w, id, a), w.store[id].spec.versionInfo.value.All())
  {
    hide Analysed;
    var vs := w.store[id].spec.versionInfo.value.All();
    forall v | v in vs ensures Weights.Recommendation(Analysed(w, id, a), v.name) == Weights.Lookup(v.name, a.weights) {
      RecommendedInAnalysis(w, id, a, v.name);
    }
  }

  /** Where the analysis lacks a recommendation the experiment fails, and no field moves. */
  lemma NoRecommendationFails(w: World, id: ExpId, env: Inputs)
    requires ExpInv(w, id, false) && Proceeds(w, id, env) && MovesWeights(w.store[id].spec)
    requires !Recommends(w.store[id].spec, env.analysis.value)
    ensures var w' := Reconcile(w, id, env);
            Elsewhere(w, w') && EndStored(w.store[id].status, w'.store[id].status, env, true)
  {
    hide Decide, Reconcile, Clear, Remembered, TasksValid, LoopsDone, FinishInv, VersionInfoValid, MetricsMissing,
      Recommends, FailsObjective, Weights.AddPatches, Weights.ShouldRedistribute, MovesWeights;
    ProceedsPlan(w, id, env);
    var st := Analysed(w, id, env.analysis.value);
    MovesAreRedistributed(w.store[id].spec);
    RecommendedAll(w, id, env.analysis.value);
    Weights.PatchesNeedRecommendations(st, w.store[id].spec.versionInfo.value.All());
    EndOutcome(w, id, env, st.(failed := True), true);
  }

  /** The fields after a reconcile that goes on. */
  lemma FieldsAfter(w: World, id: ExpId, env: Inputs)
    requires ExpInv(w, id, false) && Proceeds(w, id, env)
    requires MovesWeights(w.store[id].spec) ==> Recommends(w.store[id].spec, env.analysis.value)
    ensures w.store[id].spec.versionInfo.Some?
    ensures var sp, st := InitializeSpec(w.store[id].spec), Analysed(w, id, env.analysis.value);
            Weights.Redistribute(w.cluster, id.namespace, sp, st, env.patchOrder, env.patchFailures)
              == Some(Reconcile(w, id, env).cluster)
    ensures !MovesWeights(w.store[id].spec) ==> Reconcile(w, id, env).cluster == w.cluster
  {
    hide Decide, Reconcile, Clear, Remembered, TasksValid, LoopsDone, FinishInv, VersionInfoValid, MetricsMissing,
      Recommends, FailsObjective, Weights.AddPatches, Weights.ShouldRedistribute, MovesWeights, Weights.Observe,
      CloseIteration;
    ProceedsPlan(w, id, env);
    Steps.ReconcileCluster(w, id, env);
    MovesAreRedistributed(w.store[id].spec);
    RecommendedAll(w, id, env.analysis.value);
    Weights.PatchesNeedRecommendations(Analysed(w, id, env.analysis.value), w.store[id].spec.versionInfo.value.All());
  }

  predicate FieldHolds(c: Weights.Cluster, l: Weights.Loc, value: int) {
    l in c.fields && c.fields[l] == value
  }

  /** A weight in memory that has been observed is that of the field. */
  lemma RememberedWeight(w: World, id: ExpId, env: Inputs, v: Version)
    requires Started(w, id, env) && VersionInfoValid(w.store[id].spec)
    requires v in w.store[id].spec.versionInfo.value.All() && Weights.Settable(v)
    ensures LoopSeen(w, id) ==>
      Some(Weights.CurrentWeight(w.store[id].status.(weights := Remembered(w, id)), v.name))
        == Weights.ObserveWeight(w.cluster, id.namespace, v.ref.value)
    ensures !LoopSeen(w, id) ==> Remembered(w, id) == w.store[id].status.weights
  {
    hide Weights.Observe, Weights.ObserveWeight, LoopFrom, TasksValid;
    var sp := w.store[id].spec;
    var vs := sp.versionInfo.value.All();
    if LoopSeen(w, id) {
      LoopsRemembered(w, id, env.lookupErrors);
      var i :| 0 <= i < |vs| && vs[i] == v;
      Weights.ObservedUnderName(w.cluster, id.namespace, sp, w.store[id].status.weights, i);
      Weights.ObservedHasShape(w.cluster, id.namespace, sp, w.store[id].status.weights);
    }
  }

  lemma LoopsRemembered(w: World, id: ExpId, errors: set<Job>)
    requires id in w.store && Clear(w, id, errors) && LoopSeen(w, id)
    ensures Observed(w, id).Observed?
  {
  }

  /** The weights move as recommended: the field of a version ends at its recommendation if and only if it was there
      before, or its object can be patched and the recommendation differs from the recorded weight, which does not
      matter when the weights have just been observed. No other field moves. */
  lemma IterationMovesWeights(w: World, id: ExpId, env: Inputs)
    requires ExpInv(w, id, false) && Proceeds(w, id, env)
    requires MovesWeights(w.store[id].spec) && Recommends(w.store[id].spec, env.analysis.value)
    requires w.store[id].spec.versionInfo.Some?
    requires var vs := w.store[id].spec.versionInfo.value.All();
             Weights.ReferencesSound(w.cluster, id.namespace, vs) && Weights.Complete(vs, env.patchOrder)
    ensures var c, vs := Reconcile(w, id, env).cluster, w.store[id].spec.versionInfo.value.All();
            && c.clusterWide == w.cluster.clusterWide
            && (forall v :: v in vs && Weights.Settable(v) ==>
                  var l, r := Weights.LocOf(w.cluster, id.namespace, v.ref.value),
                              Weights.Lookup(v.name, env.analysis.value.weights).value;
                  FieldHolds(c, l, r) <==>
                    FieldHolds(w.cluster, l, r)
                    || (v.ref.value.obj !in env.patchFailures
                        && (LoopSeen(w, id) || r != Weights.CurrentWeight(w.store[id].status, v.name))))
            && (forall l :: (forall v :: v in vs && Weights.Settable(v) ==>
                               Weights.LocOf(w.cluster, id.namespace, v.ref.value) != l) ==>
                  (l in c.fields <==> l in w.cluster.fields) && (l in c.fields ==> c.fields[l] == w.cluster.fields[l]))
  {
    hide Decide, Reconcile, Clear, Remembered, TasksValid, LoopsDone, FinishInv, VersionInfoValid, MetricsMissing,
      FailsObjective, Weights.ShouldRedistribute, MovesWeights, Weights.Redistribute, Analysed, Weights.LocOf,
      Weights.ReferencesSound, Weights.Complete, LoopSeen, Weights.AllRecommended;
    var sp, a, st := InitializeSpec(w.store[id].spec), env.analysis.value, Analysed(w, id, env.analysis.value);
    var vs, c := w.store[id].spec.versionInfo.value.All(), Reconcile(w, id, env).cluster;
    FieldsAfter(w, id, env);
    MovesAreRedistributed(w.store[id].spec);
    RecommendedAll(w, id, a);
    Weights.RedistributionReachesRecommendation(w.cluster, id.namespace, sp, st, env.patchOrder, env.patchFailures);
    forall v | v in vs && Weights.Settable(v)
      ensures var l, r := Weights.LocOf(w.cluster, id.namespace, v.ref.value), Weights.Lookup(v.name, a.weights).value;
              FieldHolds(c, l, r) <==>
                FieldHolds(w.cluster, l, r)
                || (v.ref.value.obj !in env.patchFailures
                    && (LoopSeen(w, id) || r != Weights.CurrentWeight(w.store[id].status, v.name)))
    {
      var i :| 0 <= i < |vs| && vs[i] == v;
      RecommendedInAnalysis(w, id, a, v.name);
      RememberedWeight(w, id, env, v);
      ObservedField(w.cluster, id.namespace, v.ref.value);
    }
  }

  lemma ObservedField(c: Weights.Cluster, namespace: string, ref: ObjRef)
    ensures var r := Weights.ObserveWeight(c, namespace, ref);
            r.Some? ==> FieldHolds(c, Weights.LocOf(c, namespace, ref), r.value)
  {
  }

  // ---- What an iteration records ----

  /** What is recorded of an iteration: its count and time, the analysis, the recommended version and the weights
      the fields have then. */
  predicate Recorded(w: World, id: ExpId, env: Inputs, c: Weights.Cluster, y: Status)
    requires id in w.store && env.analysis.Some? && w.store[id].spec.versionInfo.Some?
  {
    var x, a := w.store[id].status, env.analysis.value;
    && y.iterations == x.iterations + 1 && TimeOf(y.lastUpdate, w.now)
    && y.analysis == Some(Kept(x, a))
    && y.recommended == Some(if a.winner.Some? then a.winner.value else w.store[id].spec.versionInfo.value.baseline.name)
    && WeightsRead(c, id.namespace, w.store[id].spec, y.weights)
    && y.failed == x.failed && y.acquired == x.acquired && y.metrics == x.metrics && y.initTime == x.initTime
  }

  /** The iteration completes a loop that has a handler. */
  predicate LoopCompleted(x: Experiment)
    requires GetIterationsPerLoop(x.spec) > 0
  {
    "loop" in x.spec.actions && (x.status.iterations + 1) % GetIterationsPerLoop(x.spec) == 0
  }

  /** The iteration is recorded if the write persists, and the handler of a completed loop is launched; where its job
      cannot be created the experiment ends with the iteration recorded. */
  predicate CountsIteration(w: World, w': World, id: ExpId, env: Inputs)
    requires id in w.store && id in w'.store && GetIterationsPerLoop(w.store[id].spec) > 0
    requires env.analysis.Some? && w.store[id].spec.versionInfo.Some?
  {
    var x, y := w.store[id], w'.store[id].status;
    var loop := LoopJob((x.status.iterations + 1) / GetIterationsPerLoop(x.spec));
    if LoopCompleted(x) && !env.launchOk then
      && w'.jobs == w.jobs
      && if env.write || env.endWrite then
           Recorded(w, id, env, w'.cluster, y) && y.completed == True && y.stage == Completed
         else StartWritten(x.status, y)
    else
      && w'.jobs == (if LoopCompleted(x) then CreateJob(w.jobs, JobKey(id, loop)) else w.jobs)
      && if env.write then Recorded(w, id, env, w'.cluster, y) && y.completed == False && y.stage == Running
         else StartWritten(x.status, y)
  }

  /** An iteration that goes on counts, if its weights can be observed afterwards; if they cannot the experiment fails,
      and the iteration does not count. */
  lemma IterationRecorded(w: World, id: ExpId, env: Inputs)
    requires ExpInv(w, id, false) && Proceeds(w, id, env)
    requires MovesWeights(w.store[id].spec) ==> Recommends(w.store[id].spec, env.analysis.value)
    ensures w.store[id].spec.versionInfo.Some?
    ensures var w', x := Reconcile(w, id, env), w.store[id];
            if CanObserve(w'.cluster, id.namespace, x.spec) then CountsIteration(w, w', id, env)
            else w'.jobs == w.jobs && EndStored(x.status, w'.store[id].status, env, true)
  {
    hide Decide, Reconcile, Clear, Remembered, TasksValid, LoopsDone, FinishInv, VersionInfoValid, MetricsMissing,
      FailsObjective, MovesWeights, Weights.Redistribute, Recommends, Weights.Observe, CanObserve, WeightsRead,
      CloseIteration, Total, CountsIteration;
    FieldsAfter(w, id, env);
    ProceedsPlan(w, id, env);
    Steps.ReconcileCluster(w, id, env);
    var sp, st, c := InitializeSpec(w.store[id].spec), Analysed(w, id, env.analysis.value), Reconcile(w, id, env).cluster;
    ObserveOutcome(c, id.namespace, w.store[id].spec, st.weights);
    var o := Weights.Observe(c, id.namespace, sp, st.weights);
    if o.Observed? {
      CloseOutcome(w, id, env, c, o.weights);
    } else {
      EndOutcome(w, id, env, st.(failed := True), true);
    }
  }

  /** The status in memory when the iteration has been counted. */
  ghost function Counted(w: World, id: ExpId, a: Analysis, weights: seq<WeightData>): Status
    requires id in w.store && w.store[id].spec.versionInfo.Some?
  {
    CompleteIteration(
      Recommended(Analysed(w, id, a).(weights := weights), w.store[id].spec.versionInfo.value.baseline.name), w.now)
  }

  lemma CountedIsRecorded(w: World, id: ExpId, env: Inputs, c: Weights.Cluster, weights: seq<WeightData>)
    requires id in w.store && w.store[id].spec.versionInfo.Some? && env.analysis.Some?
    requires WeightsRead(c, id.namespace, w.store[id].spec, weights) && w.store[id].status.stage == Running
    ensures var st, x := Counted(w, id, env.analysis.value, weights), w.store[id].status;
            && Recorded(w, id, env, c, st) && st.completed == False && st.stage == Running && Progress(st) == st
            && Recorded(w, id, env, c, Ended(st)) && Ended(st).completed == True && Ended(st).stage == Completed
  {
    hide Remembered, WeightsRead;
    AfterIsRank(Completed, Running);
  }

  lemma CloseAct(w: World, id: ExpId, env: Inputs, weights: seq<WeightData>)
    requires id in w.store && w.store[id].spec.versionInfo.Some? && env.analysis.Some?
    requires GetIterationsPerLoop(w.store[id].spec) > 0
    ensures var x, st := w.store[id], Counted(w, id, env.analysis.value, weights);
            CloseIteration(InitializeSpec(x.spec), Analysed(w, id, env.analysis.value).(weights := weights), w.now, env) ==
              if LoopCompleted(x) then
                LaunchJob(st, st, LoopJob((x.status.iterations + 1) / GetIterationsPerLoop(x.spec)), env)
              else Save(st)
  {
    hide Remembered;
  }

  lemma CloseOutcome(w: World, id: ExpId, env: Inputs, c: Weights.Cluster, weights: seq<WeightData>)
    requires ExpInv(w, id, false) && Proceeds(w, id, env) && w.store[id].spec.versionInfo.Some?
    requires c == Reconcile(w, id, env).cluster && WeightsRead(c, id.namespace, w.store[id].spec, weights)
    requires var sp, st := InitializeSpec(w.store[id].spec), Analysed(w, id, env.analysis.value);
             Decide(w, id, env) == Plan(Early(w, id), c, CloseIteration(sp, st.(weights := weights), w.now, env))
    ensures CountsIteration(w, Reconcile(w, id, env), id, env)
  {
    hide Decide, Reconcile, Clear, TasksValid, LoopsDone, FinishInv, VersionInfoValid, MetricsMissing, Recorded,
      FailsObjective, WeightsRead, Total, CreateJob, CloseIteration, Counted, LoopCompleted, Ended, Remembered, OnTime;
    CloseAct(w, id, env, weights);
    CountedIsRecorded(w, id, env, c, weights);
    ReconcileParts(w, id, env);
    AfterIsRank(Completed, Running);
  }

  // ---- The weights follow the recommendation ----

  /** When every patch succeeds, every version but one at most refers to a field, and the recorded weights are those
      of the fields, then fields and recorded weights both follow the recommendation. */
  lemma WeightsFollow(w: World, id: ExpId, env: Inputs)
    requires ExpInv(w, id, false) && Proceeds(w, id, env) && env.patchFailures == {} && env.write && env.launchOk
    requires MovesWeights(w.store[id].spec) && w.store[id].spec.versionInfo.Some?
    requires var vs := w.store[id].spec.versionInfo.value.All();
             && Weights.ReferencesSound(w.cluster, id.namespace, vs) && Weights.Complete(vs, env.patchOrder)
             && Weights.Missing(vs) <= 1
             && forall v :: v in vs && v.ref.Some? ==>
                  var r := Weights.Lookup(v.name, env.analysis.value.weights);
                  && Weights.Settable(v) && r.Some? && FitsInt32(r.value)
                  && Weights.ObserveWeight(w.cluster, id.namespace, v.ref.value)
                       == Some(Weights.CurrentWeight(w.store[id].status, v.name))
    ensures var w' := Reconcile(w, id, env);
            && Recorded(w, id, env, w'.cluster, w'.store[id].status)
            && forall v :: v in w.store[id].spec.versionInfo.value.All() && v.ref.Some? ==>
                 var r := Weights.Lookup(v.name, env.analysis.value.weights);
                 && Weights.ObserveWeight(w'.cluster, id.namespace, v.ref.value) == r
                 && Weights.Lookup(v.name, w'.store[id].status.weights) == r
  {
    hide Decide, Reconcile, Clear, Remembered, TasksValid, LoopsDone, FinishInv, MetricsMissing, FailsObjective,
      Weights.ShouldRedistribute, MovesWeights, Weights.Redistribute, Weights.ReferencesSound, Weights.Complete, LoopSeen,
      CreateJob, Weights.Lookup, Weights.Missing;
    var sp, vs := w.store[id].spec, w.store[id].spec.versionInfo.value.All();
    var w' := Reconcile(w, id, env);
    IterationMovesWeights(w, id, env);
    forall v | v in vs && v.ref.Some?
      ensures Weights.ObserveWeight(w'.cluster, id.namespace, v.ref.value)
           == Weights.Lookup(v.name, env.analysis.value.weights)
    {
      ObservedField(w.cluster, id.namespace, v.ref.value);
      assert Weights.LocOf(w'.cluster, id.namespace, v.ref.value) == Weights.LocOf(w.cluster, id.namespace, v.ref.value);
    }
    assert CanObserve(w'.cluster, id.namespace, sp);
    IterationRecorded(w, id, env);
  }

  // ---- Nothing else moves a weight ----

  lemma NotOwnedPlan(w: World, id: ExpId, env: Inputs)
    requires Cleared(w, id, env) && !Owns(w.store[id])
    ensures Decide(w, id, env).cluster == w.cluster
  {
    hide Decide, InputsOk, Clear, Remembered, TasksValid, DecideStarted;
    ClearedPlan(w, id, env);
  }

  lemma StoppedCluster(w: World, id: ExpId, env: Inputs)
    requires id in w.store && InputsOk(w.store[id], env) && Active(w.store[id]) && !Clear(w, id, env.lookupErrors)
    ensures Decide(w, id, env).cluster == w.cluster
  {
    hide CheckHandlers, Clear, DecideActive;
    CheckPasses(w, id, env.lookupErrors);
  }

  lemma OtherwiseStill(w: World, id: ExpId, env: Inputs)
    requires ExpInv(w, id, false) && InputsOk(w.store[id], env) && !Proceeds(w, id, env)
    ensures Reconcile(w, id, env).cluster == w.cluster
  {
    hide Decide, Reconcile, InputsOk, Clear, Remembered, TasksValid, LoopsDone, FinishInv, MetricsMissing, FailsObjective,
      OnTime, VersionInfoValid, Finishes, EndStored;
    Steps.ReconcileCluster(w, id, env);
    var x := w.store[id];
    if !Active(x) {
      IdleStep(w, id, env);
    } else if !Clear(w, id, env.lookupErrors) {
      StoppedCluster(w, id, env);
    } else if !TasksValid(x.spec) {
      InvalidTasksEnd(w, id, env);
    } else if !Owns(x) {
      NotOwnedPlan(w, id, env);
    } else if x.status.stage == Waiting {
      HolderInitializes(w, id, env);
    } else if !Started(w, id, env) {
      StartHandlerLaunched(w, id, env);
    } else {
      StartedStill(w, id, env);
    }
  }

  lemma StartedStill(w: World, id: ExpId, env: Inputs)
    requires ExpInv(w, id, false) && Started(w, id, env) && !Proceeds(w, id, env)
    ensures Reconcile(w, id, env).cluster == w.cluster
  {
    hide Decide, Reconcile, InputsOk, Clear, Remembered, TasksValid, LoopsDone, FinishInv, MetricsMissing, FailsObjective,
      OnTime, VersionInfoValid, EndStored;
    NotFinishing(w, id, env);
    var x := w.store[id];
    if MetricsMissing(x) {
      MetricsStored(w, id, env);
    } else if x.status.stage == Initializing {
      RunningStored(w, id, env);
    } else if !VersionInfoValid(x.spec) {
      InvalidVersionsFail(w, id, env);
    } else if !Ready(w, id, env) {
      NoStartNoIteration(w, id, env);
    } else if x.status.iterations >= Total(x.spec) {
      LastIterationDone(w, id, env);
    } else if !OnTime(x, w.now) {
      TooEarly(w, id, env);
    } else if env.analysis.None? {
      AnalysisFails(w, id, env);
    } else {
      RollsBack(w, id, env);
    }
  }

  /** Of all events only one that comes from elsewhere, and an iteration that is due, is not rolled back and has all
      its recommendations, change a field. */
  lemma OnlyIterationsMoveWeights(w: World, ev: Event)
    requires Inv(w) && Enabled(w, ev) && Apply(w, ev).cluster != w.cluster
    ensures ev.FieldsChanged? ||
      (ev.Reconciled? && Proceeds(w, ev.id, ev.env) && MovesWeights(w.store[ev.id].spec)
       && Recommends(w.store[ev.id].spec, ev.env.analysis.value))
  {
    hide Reconcile, InputsOk, Due, FailsObjective, MovesWeights, Recommends, WellFormed, ExpInv, EndStored, Inv;
    if ev.Reconciled? {
      var id, env := ev.id, ev.env;
      if id !in w.store {
        CleanupStill(w, id, env);
      } else {
        Steps.ExpOf(w, id);
        if !Proceeds(w, id, env) {
          OtherwiseStill(w, id, env);
        } else if !MovesWeights(w.store[id].spec) {
          FieldsAfter(w, id, env);
        } else if !Recommends(w.store[id].spec, env.analysis.value) {
          NoRecommendationFails(w, id, env);
        }
      }
    }
  }

  lemma CleanupStill(w: World, id: ExpId, env: Inputs)
    requires id !in w.store
    ensures Reconcile(w, id, env).cluster == w.cluster
  {
  }

  // ---- The pace of iterations ----

  /** The clock readings at which iterations of the experiment are counted along a run. */
  function Readings(w: World, evs: seq<Event>, id: ExpId): seq<int>
    requires IsRun(w, evs)
    decreases |evs|
  {
    if evs == [] then []
    else (if Counts(w, evs[0], id) then [w.now] else []) + Readings(Apply(w, evs[0]), evs[1..], id)
  }

  predicate Counts(w: World, ev: Event, id: ExpId)
    requires Enabled(w, ev)
  {
    ev.Reconciled? && ev.id == id && id in w.store && id in Apply(w, ev).store
    && Apply(w, ev).store[id].status.iterations > w.store[id].status.iterations
  }

  /** Only an iteration on time is counted, and only then does the time of the last one change. */
  lemma CountedOnTime(w: World, id: ExpId, env: Inputs)
    requires ExpInv(w, id, false) && InputsOk(w.store[id], env) && w.store[id].status.initTime.Some?
    ensures var x, y := w.store[id], Reconcile(w, id, env).store[id];
            if y.status.iterations > x.status.iterations then OnTime(x, w.now) && TimeOf(y.status.lastUpdate, w.now)
            else y.status.iterations == x.status.iterations && y.status.lastUpdate == x.status.lastUpdate
  {
    hide Decide, Reconcile, InputsOk, LoopsDone, FinishInv, SettledInspected, Total, SufficientTime, OnTime, CanAcquire;
    var x := w.store[id];
    OnTimeIsSufficient(x, x.status, w.now);
    ReconcileParts(w, id, env);
    if Active(x) {
      DecideOk(w, id, env, false);
      var act := Decide(w, id, env).act;
      if act.End? {
        AfterIsRank(Completed, act.st.stage);
      }
    } else {
      IdleStep(w, id, env);
    }
  }

  /** The last iteration was counted at this clock reading. */
  predicate CountedAt(w: World, id: ExpId, last: int)
    requires id in w.store
  {
    w.store[id].status.iterations > 0 && w.store[id].status.initTime.Some? && TimeOf(w.store[id].status.lastUpdate, last)
  }

  lemma PacedEvent(w: World, ev: Event, id: ExpId, last: int)
    requires ExpInv(w, id, false) && Enabled(w, ev) && ev != Deleted(id) && id in Apply(w, ev).store
    ensures Counts(w, ev, id) ==> CountedAt(Apply(w, ev), id, w.now)
    ensures CountedAt(w, id, last) ==>
      if Counts(w, ev, id) then w.now - last > Interval(w.store[id].spec) - 1100 else CountedAt(Apply(w, ev), id, last)
    ensures Interval(Apply(w, ev).store[id].spec) == Interval(w.store[id].spec)
  {
    hide Decide, Reconcile, InputsOk, LoopsDone, FinishInv, Total, WellFormed;
    Steps.SpecKept(w, ev, id);
    if ev.Reconciled? && ev.id == id {
      var x := w.store[id].status;
      if x.initTime.Some? {
        CountedOnTime(w, id, ev.env);
        ReconcileParts(w, id, ev.env);
        Steps.KeepsInitTime(w, id, ev.env);
      } else {
        IdleStep(w, id, ev.env);
      }
    } else if ev.Reconciled? && ev.id in w.store {
      ReconcileParts(w, ev.id, ev.env);
      assert Apply(w, ev).store[id] == w.store[id];
    } else if ev.Reconciled? {
      AbsentKeepsStore(w, ev.id, ev.env);
    }
  }

  /** Any two readings in a row are further apart than this. */
  predicate Spaced(readings: seq<int>, gap: int) {
    forall i :: 0 < i < |readings| ==> readings[i] - readings[i - 1] > gap
  }

  lemma {:induction false} PacedRun(w: World, evs: seq<Event>, id: ExpId, last: int)
    requires ExpInv(w, id, false) && IsRun(w, evs) && forall i :: 0 <= i < |evs| ==> evs[i] != Deleted(id)
    ensures var log, gap := Readings(w, evs, id), Interval(w.store[id].spec) - 1100;
            Spaced(log, gap) && (CountedAt(w, id, last) && log != [] ==> log[0] - last > gap)
    decreases |evs|
  {
    hide ExpInv, Enabled, Apply, CountedAt, Counts, Interval;
    InStore(w, id, false);
    if evs != [] {
      var w' := Apply(w, evs[0]);
      EventKeepsOwn(w, evs[0], id, false);
      InStore(w', id, false);
      PacedEvent(w, evs[0], id, last);
      PacedRun(w', evs[1..], id, if Counts(w, evs[0], id) then w.now else last);
    }
  }

  /** Along every run the iterations of an experiment are at least its interval apart, but for the tenth of a second
      that is granted and the second to which times are stored. */
  lemma IterationsArePaced(w: World, evs: seq<Event>, id: ExpId)
    requires Inv(w) && id in w.store && IsRun(w, evs) && forall i :: 0 <= i < |evs| ==> evs[i] != Deleted(id)
    ensures Spaced(Readings(w, evs, id), Interval(w.store[id].spec) - 1100)
  {
    Steps.ExpOf(w, id);
    PacedRun(w, evs, id, 0);
  }
}
