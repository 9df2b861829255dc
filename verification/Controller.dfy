/** What one reconcile of an experiment decides and what it leaves in the cluster, as functions
    (controllers/experiment_controller.go, controllers/iterate.go, controllers/handler.go). */
module Controller {
  import opened Prelude
  import opened Stages
  import opened JobNames
  import opened Experiments
  import opened Targets
  import Metrics
  import Weights

  datatype JobState = JobRunning | JobComplete | JobFailed

  /** The durable state: experiments, handler jobs, weight fields and the clock. */
  datatype World = World(store: ExpStore, jobs: map<JobKey, JobState>, cluster: Weights.Cluster, now: int)

  /** What the surroundings contribute to one reconcile. */
  datatype Inputs = Inputs(
    metrics: Metrics.Store,             // the metrics that exist
    analysis: Option<Analysis>,         // the analytics service's answer; None is a failed call
    lookupErrors: set<Job>,             // jobs whose lookup in the check of the handlers fails, but not with NotFound
    startLookupFails: bool,             // whether the second lookup of the start job, before its launch, fails so
    launchOk: bool,                     // whether a handler job can be created
    patchOrder: seq<ObjKey>,            // the order in which the map of patches is ranged over
    patchFailures: set<ObjKey>,         // objects whose patch is refused
    startWrite: bool,                   // whether the first status write of a reconcile persists
    endWrite: bool,                     // whether the write that ends an experiment persists
    write: bool,                        // whether the write at the end of the request persists
    undeleted: set<JobKey>)             // orphaned jobs whose deletion fails

  /** Times are stored to the second. */
  function Stamp(now: int): (t: int)
    ensures t <= now < t + 1000 && t % 1000 == 0
  {
    now / 1000 * 1000
  }

  /** The time is the given clock reading, to the second. */
  predicate TimeOf(t: Option<int>, now: int) {
    t.Some? && t.value <= now < t.value + 1000 && t.value % 1000 == 0
  }

  function Initialized(st: Status, now: int): Status {
    st.(completed := False, failed := False, acquired := False, initTime := Some(Stamp(now)),
        lastUpdate := Some(Stamp(now)), stage := Waiting, iterations := 0)
  }

  /** recordExperimentProgress. */
  function Progress(st: Status): Status {
    st.(completed := False)
  }

  function AdvanceStage(st: Status, to: Stage): Status {
    if After(to, st.stage) then Progress(st.(stage := to)) else st
  }

  /** The status endExperiment leaves. */
  function Ended(st: Status): Status {
    if After(Completed, st.stage) then AdvanceStage(st, Completed).(completed := True) else st
  }

  // ---- Handlers ----

  datatype HandlerStatus = NotLaunched | HandlerRunning | HandlerComplete | HandlerFailed

  function GetHandlerStatus(w: World, id: ExpId, j: Job, errors: set<Job>): HandlerStatus {
    if j in errors then HandlerFailed
    else if JobKey(id, j) !in w.jobs then NotLaunched
    else match w.jobs[JobKey(id, j)]
      case JobRunning => HandlerRunning
      case JobComplete => HandlerComplete
      case JobFailed => HandlerFailed
  }

  /** How a reconcile ends: without a write; with a status write; with a new job and a status write;
      by ending the experiment; or by dereferencing nil. */
  datatype Act = Leave | Save(st: Status) | Launch(st: Status, job: Job) | End(st: Status) | Crash

  datatype Check = Continue(st: Status) | Stop(act: Act)

  /** checkHandlerStatus for one handler job. */
  function CheckOne(w: World, id: ExpId, sp: Spec, st: Status, t: HandlerType, loop: nat, errors: set<Job>): Check {
    match GetHandlerStatus(w, id, JobOf(t, loop), errors)
    case HandlerRunning => Stop(Save(st))
    case HandlerComplete => (
      match t
      case StartHandler => Continue(st)
      case LoopHandler => (
        match Weights.Observe(w.cluster, id.namespace, sp, st.weights)
        case Observed(ws) => Continue(st.(weights := ws))
        case Unreadable => Stop(Leave)
        case NilDereference => Stop(Crash))
      case _ => Stop(End(st)))
    case HandlerFailed => Stop(End(st.(failed := True)))
    case NotLaunched => Continue(st)
  }

  function CheckLoops(w: World, id: ExpId, sp: Spec, st: Status, loop: nat, errors: set<Job>): Check
    decreases GetMaxLoops(sp) + 1 - loop
  {
    if loop > GetMaxLoops(sp) then Continue(st)
    else match CheckOne(w, id, sp, st, LoopHandler, loop, errors)
      case Stop(act) => Stop(act)
      case Continue(st') => CheckLoops(w, id, sp, st', loop + 1, errors)
  }

  function CheckType(w: World, id: ExpId, sp: Spec, st: Status, t: HandlerType, errors: set<Job>): Check {
    if !HasHandler(sp, t) then Continue(st)
    else if t == LoopHandler then CheckLoops(w, id, sp, st, 1, errors)
    else CheckOne(w, id, sp, st, t, 0, errors)
  }

  /** checkHandlersStatus over the first n handler types. */
  function CheckTypes(w: World, id: ExpId, sp: Spec, st: Status, n: nat, errors: set<Job>): Check
    requires n <= |ALL_HANDLER_TYPES|
  {
    if n == 0 then Continue(st)
    else match CheckTypes(w, id, sp, st, n - 1, errors)
      case Stop(act) => Stop(act)
      case Continue(st') => CheckType(w, id, sp, st', ALL_HANDLER_TYPES[n - 1], errors)
  }

  function CheckHandlers(w: World, id: ExpId, sp: Spec, st: Status, errors: set<Job>): Check {
    CheckTypes(w, id, sp, st, |ALL_HANDLER_TYPES|, errors)
  }

  /** launchHandlerWrapper once it is clear that there is a job to launch: a failed launch ends the
      experiment, and `launched` is the status after a successful one. */
  function LaunchJob(st: Status, launched: Status, j: Job, env: Inputs): Act {
    if env.launchOk then Launch(Progress(launched), j) else End(st)
  }

  /** finishExperiment and rollbackExperiment. */
  function Terminate(sp: Spec, st: Status, t: HandlerType, env: Inputs): Act {
    if HasHandler(sp, t) then LaunchJob(st, AdvanceStage(st, Finishing), JobOf(t, 0), env) else End(st)
  }

  // ---- Iterations ----

  function TotalIterations(sp: Spec): int {
    Wrap32(GetIterationsPerLoop(sp) * GetMaxLoops(sp))
  }

  predicate MoreIterationsNeeded(sp: Spec, st: Status) {
    st.iterations < TotalIterations(sp)
  }

  /** The number of the loop that has just been completed, if one has. */
  function CompletedLoop(sp: Spec, st: Status): Option<nat>
    requires GetIterationsPerLoop(sp) > 0
  {
    if st.iterations % GetIterationsPerLoop(sp) == 0 then Some(st.iterations / GetIterationsPerLoop(sp)) else None
  }

  predicate SufficientTime(sp: Spec, st: Status, now: int) {
    st.iterations == 0 || st.lastUpdate.None?
    || st.lastUpdate.value + GetIntervalSeconds(sp) * 1000 - now < 100
  }

  /** There is an assessment for every objective. */
  predicate AnalysisOk(sp: Spec, a: Analysis) {
    sp.criteria.Some? ==> forall v :: v in a.assessments ==> |a.assessments[v]| >= |sp.criteria.value.objectives|
  }

  predicate MustRollback(sp: Spec, a: Analysis)
    requires AnalysisOk(sp, a)
  {
    sp.criteria.Some? &&
    exists i, v :: 0 <= i < |sp.criteria.value.objectives| && v in a.assessments
      && GetRollbackOnFailure(sp.criteria.value.objectives[i], GetDeploymentPattern(sp)) && !a.assessments[v][i]
  }

  /** SetVersionRecommendedForPromotion. */
  function Recommended(st: Status, baseline: string): Status {
    st.(recommended :=
      if st.analysis.Some? && st.analysis.value.winner.Some? then st.analysis.value.winner else Some(baseline))
  }

  /** The analysis to record; the histograms already stored are kept. */
  function KeepHists(st: Status, a: Analysis): Analysis {
    if st.analysis.Some? then a.(hists := st.analysis.value.hists) else a
  }

  function CompleteIteration(st: Status, now: int): Status {
    Progress(st.(iterations := st.iterations + 1, lastUpdate := Some(Stamp(now))))
  }

  /** A reconcile's effects: the status of an early write, the weight fields, and how it ends. */
  datatype Plan = Plan(early: Status, cluster: Weights.Cluster, act: Act)

  /** The end of an iteration whose weights have been observed: it is counted, and a completed loop
      launches its handler, if there is one. */
  function CloseIteration(sp: Spec, st: Status, now: int, env: Inputs): Act
    requires GetIterationsPerLoop(sp) > 0 && sp.versionInfo.Some?
  {
    var st' := CompleteIteration(Recommended(st, sp.versionInfo.value.baseline.name), now);
    var loop := CompletedLoop(sp, st');
    if loop.Some? && HasHandler(sp, LoopHandler) then LaunchJob(st', st', JobOf(LoopHandler, loop.value), env)
    else Save(st')
  }

  /** What follows the analysis in an iteration: the fields it leaves and its end. */
  function Iterate(w: World, id: ExpId, sp: Spec, st: Status, env: Inputs): (Weights.Cluster, Act)
    requires GetIterationsPerLoop(sp) > 0 && sp.versionInfo.Some?
  {
    match Weights.Redistribute(w.cluster, id.namespace, sp, st, env.patchOrder, env.patchFailures)
    case None => (w.cluster, End(st.(failed := True)))
    case Some(c) =>
      match Weights.Observe(c, id.namespace, sp, st.weights)
      case NilDereference => (c, Crash)
      case Unreadable => (c, End(st.(failed := True)))
      case Observed(ws) => (c, CloseIteration(sp, st.(weights := ws), w.now, env))
  }

  /** An iteration that is due: its analysis, rollback, weights and accounting. */
  function DueIteration(w: World, id: ExpId, sp: Spec, early: Status, st: Status, env: Inputs): Plan
    requires GetIterationsPerLoop(sp) > 0 && sp.versionInfo.Some?
    requires env.analysis.Some? ==> AnalysisOk(sp, env.analysis.value)
  {
    if env.analysis.None? then Plan(early, w.cluster, End(st.(failed := True)))
    else
      var a := KeepHists(st, env.analysis.value);
      var st1 := st.(analysis := Some(a));
      if MustRollback(sp, a) then Plan(early, w.cluster, Terminate(sp, st1, RollbackHandler, env))
      else
        var r := Iterate(w, id, sp, st1, env);
        Plan(early, r.0, r.1)
  }

  /** doIteration; `base` is the stored status, `st0` the one in memory. */
  function DoIteration(w: World, id: ExpId, sp: Spec, base: Status, st0: Status, env: Inputs): Plan
    requires GetIterationsPerLoop(sp) > 0 && sp.versionInfo.Some?
    requires env.analysis.Some? ==> AnalysisOk(sp, env.analysis.value)
  {
    if st0.startTime.None? && !env.startWrite then Plan(base, w.cluster, Leave)
    else
      var st := if st0.startTime.None? then st0.(startTime := Some(Stamp(w.now))) else st0;
      var early := if st0.startTime.None? then st else base;
      if !MoreIterationsNeeded(sp, st) then Plan(early, w.cluster, Terminate(sp, st, FinishHandler, env))
      else if !SufficientTime(sp, st, w.now) then Plan(early, w.cluster, Leave)
      else DueIteration(w, id, sp, early, st, env)
  }

  // ---- One reconcile ----

  /** The part of Reconcile after the start handler; `base` is the stored status. */
  function DecideStarted(w: World, id: ExpId, sp: Spec, base: Status, st: Status, env: Inputs): Plan
    requires GetIterationsPerLoop(sp) > 0
    requires env.analysis.Some? ==> AnalysisOk(sp, env.analysis.value)
  {
    if Metrics.ShouldReadMetrics(sp, st) then
      match Metrics.ReadNames(env.metrics, id.namespace, Metrics.CriteriaNames(sp.criteria.value))
      case None => Plan(base, w.cluster, End(st.(failed := True)))
      case Some(m) => Plan(base, w.cluster, Save(st.(metrics := m)))
    else if After(Running, st.stage) then
      var st' := AdvanceStage(st, Running);
      match Weights.Observe(w.cluster, id.namespace, sp, st'.weights)
      case NilDereference => Plan(base, w.cluster, Crash)
      case Unreadable => Plan(base, w.cluster, End(st'.(failed := True)))
      case Observed(ws) => Plan(base, w.cluster, Save(st'.(weights := ws)))
    else if !VersionInfoValid(sp) then Plan(base, w.cluster, End(st.(failed := True)))
    else DoIteration(w, id, sp, base, Recommended(st, sp.versionInfo.value.baseline.name), env)
  }

  /** The second lookup of the start job can fail where the first did not. */
  function StartErrors(env: Inputs): set<Job> {
    if env.startLookupFails then {StartJob} else {}
  }

  /** The part of Reconcile after late initialisation; `st` is the status in memory, `sp` the
      initialised specification. */
  function DecideActive(w: World, id: ExpId, sp: Spec, base: Status, st: Status, env: Inputs): Plan
    requires id in w.store && GetIterationsPerLoop(sp) > 0
    requires env.analysis.Some? ==> AnalysisOk(sp, env.analysis.value)
  {
    if !TasksValid(sp) then Plan(base, w.cluster, End(st))
    else if st.acquired != True then
      Plan(base, w.cluster, Save(if CanAcquire(w.store, id) then st.(acquired := True) else st))
    else if After(Initializing, st.stage) then Plan(base, w.cluster, Save(AdvanceStage(st, Initializing)))
    else if HasHandler(sp, StartHandler) && GetHandlerStatus(w, id, StartJob, StartErrors(env)) == NotLaunched then
      Plan(base, w.cluster, LaunchJob(st, st, StartJob, env))
    else DecideStarted(w, id, sp, base, st, env)
  }

  /** What the surroundings guarantee of a reconcile of this experiment. */
  predicate InputsOk(x: Experiment, env: Inputs) {
    && Metrics.WellKeyed(env.metrics)
    && GetIterationsPerLoop(x.spec) > 0
    && (env.analysis.Some? ==> AnalysisOk(x.spec, env.analysis.value))
  }

  function Decide(w: World, id: ExpId, env: Inputs): Plan
    requires id in w.store && InputsOk(w.store[id], env)
  {
    var x := w.store[id];
    var st := x.status;
    if st.initTime.None? then
      var st' := Initialized(st, w.now);
      Plan(if env.startWrite then st' else st, w.cluster, Save(Progress(st')))
    else if st.completed == True then Plan(st, w.cluster, Save(st))
    else match CheckHandlers(w, id, x.spec, st, env.lookupErrors)
      case Stop(act) => Plan(st, w.cluster, act)
      case Continue(st') => DecideActive(w, id, InitializeSpec(x.spec), st, st', env)
  }

  /** Storing a status, if the write persists. */
  function Put(store: ExpStore, id: ExpId, st: Status, persists: bool): ExpStore
    requires id in store
  {
    if persists then store[id := store[id].(status := st)] else store
  }

  /** Creating a job that may exist already. */
  function CreateJob(jobs: map<JobKey, JobState>, key: JobKey): map<JobKey, JobState> {
    if key in jobs then jobs else jobs[key := JobRunning]
  }

  /** Whether the end of an experiment is stored: it is written twice, before and after the next one is
      triggered, unless the experiment had ended already. */
  predicate EndPersists(st: Status, env: Inputs) {
    env.write || (env.endWrite && After(Completed, st.stage))
  }

  /** What the end of an experiment triggers: the one next waiting in the store after the first of its writes. */
  ghost predicate Triggers(w: World, id: ExpId, st: Status, env: Inputs, next: Option<ExpId>)
    requires id in w.store
  {
    IsNextWaiting(Put(w.store, id, Ended(st), env.endWrite), w.store[id].spec.target, Some(id), w.now, next)
  }

  function Do(w: World, id: ExpId, act: Act, env: Inputs): (r: World)
    requires id in w.store
    ensures r.store.Keys == w.store.Keys
  {
    match act
    case Leave => w
    case Crash => w
    case Save(st) => w.(store := Put(w.store, id, st, env.write))
    case Launch(st, j) => w.(store := Put(w.store, id, st, env.write), jobs := CreateJob(w.jobs, JobKey(id, j)))
    case End(st) => w.(store := Put(w.store, id, Ended(st), EndPersists(st, env)))
  }

  function Perform(w: World, id: ExpId, plan: Plan, env: Inputs): (r: World)
    requires id in w.store
    ensures r.store.Keys == w.store.Keys
  {
    Do(w.(store := Put(w.store, id, plan.early, true), cluster := plan.cluster), id, plan.act, env)
  }

  /** Deleting the jobs of experiments that are gone. */
  function Cleanup(w: World, undeleted: set<JobKey>): World {
    w.(jobs := map k | k in w.jobs && (k.exp in w.store || k in undeleted) :: w.jobs[k])
  }

  function Reconcile(w: World, id: ExpId, env: Inputs): (r: World)
    requires id in w.store ==> InputsOk(w.store[id], env)
    ensures r.store.Keys == w.store.Keys
  {
    if id in w.store then Perform(w, id, Decide(w, id, env), env) else Cleanup(w, env.undeleted)
  }
}
