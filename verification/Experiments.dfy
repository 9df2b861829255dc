/** Experiments as the cluster stores them: specification with its defaults, status, and validation
    (api/v2alpha2/experiment_types.go, api/v2alpha2/defaults.go, controllers/validatation.go). */
module Experiments {
  import opened Prelude
  import opened Stages
  import opened FieldPaths
  import opened JobNames

  /** corev1.ConditionStatus. */
  datatype Truth = Unknown | False | True

  datatype TestingPattern = Canary | AB | ABN | Conformance
  datatype DeploymentPattern = FixedSplit | Progressive | BlueGreen

  /** A Kubernetes object reference without its field path. */
  datatype ObjKey = ObjKey(apiVersion: string, kind: string, namespace: string, name: string)

  /** A weightObjRef; an empty path stands for an empty fieldPath. */
  datatype ObjRef = ObjRef(obj: ObjKey, path: Path)

  datatype Version = Version(name: string, ref: Option<ObjRef>)
  datatype VersionInfo = VersionInfo(baseline: Version, candidates: seq<Version>) {
    function All(): seq<Version> { [baseline] + candidates }
  }

  datatype WeightData = WeightData(name: string, value: int)

  datatype Objective = Objective(metric: string, rollbackOnFailure: Option<bool>)
  datatype Criteria = Criteria(requestCount: Option<string>, rewards: seq<string>,
                               indicators: seq<string>, objectives: seq<Objective>)

  datatype Duration = Duration(intervalSeconds: Option<int>, iterationsPerLoop: Option<int>, maxLoops: Option<int>)

  /** spec.strategy.weights: bounds for the analytics service. */
  datatype WeightBounds = WeightBounds(maxCandidateWeight: Option<int>, maxCandidateWeightIncrement: Option<int>)

  datatype Task = Task(task: Option<string>, run: Option<string>)

  datatype Spec = Spec(target: string, versionInfo: Option<VersionInfo>, testingPattern: TestingPattern,
                       deploymentPattern: Option<DeploymentPattern>, actions: map<string, seq<Task>>,
                       criteria: Option<Criteria>, duration: Option<Duration>, bounds: Option<WeightBounds>)

  datatype Metric = Metric(namespace: string, sampleSize: Option<string>)

  datatype Analysis = Analysis(hists: Option<string>, winner: Option<string>,
                               assessments: map<string, seq<bool>>, weights: seq<WeightData>)

  /** Times are milliseconds; the conditions' reasons and messages are in module Conditions. */
  datatype Status = Status(initTime: Option<int>, startTime: Option<int>, lastUpdate: Option<int>,
                           stage: Stage, completed: Truth, failed: Truth, acquired: Truth,
                           iterations: nat, metrics: map<string, Metric>, weights: seq<WeightData>,
                           analysis: Option<Analysis>, recommended: Option<string>)

  datatype Experiment = Experiment(spec: Spec, status: Status)

  /** The status of a newly created experiment; its absent stage and counter read as Waiting and 0. */
  const NO_STATUS := Status(None, None, None, Waiting, Unknown, Unknown, Unknown, 0, map[], [], None, None)

  // ---- Defaults ----

  const DEFAULT_MAX_CANDIDATE_WEIGHT := 100
  const DEFAULT_MAX_CANDIDATE_WEIGHT_INCREMENT := 10
  const DEFAULT_INTERVAL_SECONDS := 20
  const DEFAULT_ITERATIONS_PER_LOOP := 15
  const DEFAULT_MAX_LOOPS := 1

  function GetDeploymentPattern(sp: Spec): DeploymentPattern {
    if sp.deploymentPattern.None? then Progressive else sp.deploymentPattern.value
  }

  function GetMaxCandidateWeight(sp: Spec): int {
    if sp.bounds.None? || sp.bounds.value.maxCandidateWeight.None? then DEFAULT_MAX_CANDIDATE_WEIGHT
    else sp.bounds.value.maxCandidateWeight.value
  }

  function GetMaxCandidateWeightIncrement(sp: Spec): int {
    if sp.bounds.None? || sp.bounds.value.maxCandidateWeightIncrement.None? then DEFAULT_MAX_CANDIDATE_WEIGHT_INCREMENT
    else sp.bounds.value.maxCandidateWeightIncrement.value
  }

  function GetIntervalSeconds(sp: Spec): int {
    if sp.duration.None? || sp.duration.value.intervalSeconds.None? then DEFAULT_INTERVAL_SECONDS
    else sp.duration.value.intervalSeconds.value
  }

  function GetIterationsPerLoop(sp: Spec): int {
    if sp.duration.None? || sp.duration.value.iterationsPerLoop.None? then DEFAULT_ITERATIONS_PER_LOOP
    else sp.duration.value.iterationsPerLoop.value
  }

  function GetMaxLoops(sp: Spec): int {
    if sp.duration.None? || sp.duration.value.maxLoops.None? then DEFAULT_MAX_LOOPS
    else sp.duration.value.maxLoops.value
  }

  function GetRollbackOnFailure(o: Objective, pattern: DeploymentPattern): bool {
    if o.rollbackOnFailure.None? then pattern == BlueGreen else o.rollbackOnFailure.value
  }

  /** Late initialisation, of the copy in memory only. InitializeObjectives assigns to copies of the
      objectives and so leaves them as they are. */
  function InitializeSpec(sp: Spec): (r: Spec)
    ensures r.deploymentPattern == Some(GetDeploymentPattern(sp))
    ensures GetIntervalSeconds(r) == GetIntervalSeconds(sp)
    ensures GetIterationsPerLoop(r) == GetIterationsPerLoop(sp) && GetMaxLoops(r) == GetMaxLoops(sp)
    ensures r.bounds == Some(WeightBounds(Some(GetMaxCandidateWeight(sp)), Some(GetMaxCandidateWeightIncrement(sp))))
    ensures r == sp.(deploymentPattern := r.deploymentPattern, duration := r.duration, bounds := r.bounds)
  {
    sp.(deploymentPattern := Some(GetDeploymentPattern(sp)),
        duration := Some(Duration(Some(GetIntervalSeconds(sp)), Some(GetIterationsPerLoop(sp)), Some(GetMaxLoops(sp)))),
        bounds := Some(WeightBounds(Some(GetMaxCandidateWeight(sp)), Some(GetMaxCandidateWeightIncrement(sp)))))
  }

  /** Late initialisation keeps what is given and fills in what is not; doing it again changes nothing. */
  lemma LateInitialization(sp: Spec)
    ensures InitializeSpec(InitializeSpec(sp)) == InitializeSpec(sp)
    ensures var r := InitializeSpec(sp);
            && r.deploymentPattern == Some(if sp.deploymentPattern.Some? then sp.deploymentPattern.value else Progressive)
            && (sp.duration.None? ==> r.duration == Some(Duration(Some(20), Some(15), Some(1))))
            && (sp.bounds.None? ==> r.bounds == Some(WeightBounds(Some(100), Some(10))))
    ensures sp.duration.Some? ==>
      var d, e := sp.duration.value, InitializeSpec(sp).duration.value;
      && e.intervalSeconds == Some(if d.intervalSeconds.Some? then d.intervalSeconds.value else 20)
      && e.iterationsPerLoop == Some(if d.iterationsPerLoop.Some? then d.iterationsPerLoop.value else 15)
      && e.maxLoops == Some(if d.maxLoops.Some? then d.maxLoops.value else 1)
    ensures sp.bounds.Some? ==>
      var b, e := sp.bounds.value, InitializeSpec(sp).bounds.value;
      && e.maxCandidateWeight == Some(if b.maxCandidateWeight.Some? then b.maxCandidateWeight.value else 100)
      && e.maxCandidateWeightIncrement ==
           Some(if b.maxCandidateWeightIncrement.Some? then b.maxCandidateWeightIncrement.value else 10)
  {
  }

  // ---- Handlers ----

  datatype HandlerType = StartHandler | FinishHandler | RollbackHandler | FailureHandler | LoopHandler

  const ALL_HANDLER_TYPES := [StartHandler, FinishHandler, RollbackHandler, FailureHandler, LoopHandler]

  /** The default handler names; finish, rollback and failure share one. */
  function HandlerName(t: HandlerType): string {
    match t
    case StartHandler => "start"
    case FinishHandler => "finish"
    case RollbackHandler => "finish"
    case FailureHandler => "finish"
    case LoopHandler => "loop"
  }

  /** GetHandler gives a handler only when the experiment has actions for it. */
  predicate HasHandler(sp: Spec, t: HandlerType) {
    HandlerName(t) in sp.actions
  }

  /** The job that runs a handler; only loop handlers are numbered. */
  function JobOf(t: HandlerType, loop: nat): Job {
    match t
    case StartHandler => StartJob
    case FinishHandler => FinishJob
    case RollbackHandler => FinishJob
    case FailureHandler => FinishJob
    case LoopHandler => LoopJob(loop)
  }

  lemma JobsCarryHandlerNames(t: HandlerType, loop: nat)
    ensures HandlerOf(JobOf(t, loop)) == HandlerName(t)
  {
  }

  // ---- Validation ----

  function Nonempty(s: Option<string>): nat {
    if s.Some? && |s.value| > 0 then 1 else 0
  }

  /** Exactly one of the two is given and not empty. */
  predicate TaskValid(t: Task): (valid: bool)
    ensures valid <==> (t.task.Some? && t.task.value != "") != (t.run.Some? && t.run.value != "")
  {
    Nonempty(t.task) + Nonempty(t.run) == 1
  }

  predicate TasksValid(sp: Spec) {
    forall a :: a in sp.actions ==> forall i :: 0 <= i < |sp.actions[a]| ==> TaskValid(sp.actions[a][i])
  }

  function Names(vs: seq<Version>): (r: seq<string>)
    ensures |r| == |vs| && forall i :: 0 <= i < |vs| ==> r[i] == vs[i].name
  {
    seq(|vs|, i requires 0 <= i < |vs| => vs[i].name)
  }

  predicate CandidatesMatchStrategy(sp: Spec)
    requires sp.versionInfo.Some?
  {
    var n := |sp.versionInfo.value.candidates|;
    match sp.testingPattern
    case Conformance => n == 0
    case AB => n == 1
    case Canary => n == 1
    case ABN => n > 0
  }

  predicate ValidNumberOfRewards(sp: Spec) {
    match sp.testingPattern
    case Conformance => sp.criteria.None? || |sp.criteria.value.rewards| == 0
    case Canary => sp.criteria.None? || |sp.criteria.value.rewards| == 0
    case AB => sp.criteria.Some? && |sp.criteria.value.rewards| == 1
    case ABN => sp.criteria.Some? && |sp.criteria.value.rewards| == 1
  }

  /** A field path, when there is one, starts with a dot. */
  predicate PathStartsWithDot(v: Version) {
    v.ref.Some? && Print(v.ref.value.path) != "" ==> Print(v.ref.value.path)[0] == '.'
  }

  predicate VersionInfoValid(sp: Spec) {
    && sp.versionInfo.Some?
    && CandidatesMatchStrategy(sp)
    && Distinct(Names(sp.versionInfo.value.All()))
    && ValidNumberOfRewards(sp)
    && (forall i :: 0 <= i < |sp.versionInfo.value.All()| ==> PathStartsWithDot(sp.versionInfo.value.All()[i]))
  }

  /** What a valid versionInfo says, pattern by pattern: how many versions there are, and whether a reward is to
      tell them apart. */
  lemma ValidVersions(sp: Spec)
    requires VersionInfoValid(sp)
    ensures var vs := sp.versionInfo.value.All();
            && (|vs| == 1 <==> sp.testingPattern == Conformance)
            && (sp.testingPattern in {Canary, AB} ==> |vs| == 2)
            && (forall i, j :: 0 <= i < j < |vs| ==> vs[i].name != vs[j].name)
    ensures var rewards := if sp.criteria.Some? then sp.criteria.value.rewards else [];
            |rewards| == if sp.testingPattern in {AB, ABN} then 1 else 0
    ensures forall v :: v in sp.versionInfo.value.All() && v.ref.Some? && v.ref.value.path != [] ==> v.ref.value.path[0].Field?
  {
    var vs := sp.versionInfo.value.All();
    forall i, j | 0 <= i < j < |vs| ensures vs[i].name != vs[j].name {
      assert Names(vs)[i] != Names(vs)[j];
    }
    forall v | v in vs && v.ref.Some? && v.ref.value.path != [] ensures v.ref.value.path[0].Field? {
      DotMeansField(v);
    }
  }

  /** Conversely, these requirements are all there are. */
  lemma VersionsValid(sp: Spec)
    requires sp.versionInfo.Some?
    requires var vs := sp.versionInfo.value.All();
             && (|vs| == 1 <==> sp.testingPattern == Conformance)
             && (sp.testingPattern in {Canary, AB} ==> |vs| == 2)
             && (forall i, j :: 0 <= i < j < |vs| ==> vs[i].name != vs[j].name)
    requires var rewards := if sp.criteria.Some? then sp.criteria.value.rewards else [];
             |rewards| == if sp.testingPattern in {AB, ABN} then 1 else 0
    requires forall v :: v in sp.versionInfo.value.All() && v.ref.Some? && v.ref.value.path != [] ==> v.ref.value.path[0].Field?
    ensures VersionInfoValid(sp)
  {
    var vs := sp.versionInfo.value.All();
    forall i | 0 <= i < |vs| ensures PathStartsWithDot(vs[i]) {
      assert vs[i] in vs;
      DotMeansField(vs[i]);
    }
  }

  /** A printed path starts with a dot exactly when the path is nonempty and starts with a field. */
  lemma DotMeansField(v: Version)
    ensures PathStartsWithDot(v) <==> v.ref.Some? && v.ref.value.path != [] ==> v.ref.value.path[0].Field?
  {
  }

  /** versionsUnique: collect the names, stop at the first repeat. */
  method VersionsUnique(vi: VersionInfo) returns (unique: bool)
    ensures unique <==> Distinct(Names(vi.All()))
  {
    var all := vi.All();
    var versions := [vi.baseline.name];
    for i := 0 to |vi.candidates|
      invariant versions == Names(all)[..i + 1]
      invariant Distinct(versions)
    {
      var candidate := vi.candidates[i];
      assert candidate == all[i + 1];
      if candidate.name in versions {
        assert Names(all)[i + 1] in Names(all)[..i + 1];
        return false;
      }
      versions := versions + [candidate.name];
    }
    assert Names(all)[..|all|] == Names(all);
    return true;
  }

  /** The experiment object a reconcile works on: a copy in memory of the stored one. */
  class Instance {
    const id: ExpId
    var spec: Spec
    var status: Status

    constructor (id: ExpId, x: Experiment)
      ensures this.id == id && spec == x.spec && status == x.status
    {
      this.id := id;
      spec, status := x.spec, x.status;
    }
  }

  /** AreTasksValid: every task of every action names either a task or a script. */
  method AreTasksValid(sp: Spec) returns (valid: bool)
    ensures valid <==> TasksValid(sp)
  {
    var rest := sp.actions.Keys;
    while rest != {}
      invariant rest <= sp.actions.Keys
      invariant forall a :: a in sp.actions && a !in rest ==>
        forall i :: 0 <= i < |sp.actions[a]| ==> TaskValid(sp.actions[a][i])
      decreases rest
    {
      var a :| a in rest;
      for i := 0 to |sp.actions[a]|
        invariant forall j :: 0 <= j < i ==> TaskValid(sp.actions[a][j])
      {
        var t := sp.actions[a][i];
        var num := 0;
        if t.task.Some? && |t.task.value| > 0 {
          num := num + 1;
        }
        if t.run.Some? && |t.run.value| > 0 {
          num := num + 1;
        }
        if num != 1 {
          assert !TaskValid(t);
          return false;
        }
      }
      rest := rest - {a};
    }
    return true;
  }

  /** IsVersionInfoValid: an invalid versionInfo is recorded as a failure. */
  method IsVersionInfoValid(instance: Instance) returns (valid: bool)
    modifies instance
    ensures valid <==> VersionInfoValid(instance.spec)
    ensures instance.spec == old(instance.spec)
    ensures instance.status == if valid then old(instance.status) else old(instance.status).(failed := True)
  {
    valid := instance.spec.versionInfo.Some?;
    if valid {
      valid := CandidatesMatchStrategy(instance.spec);
    }
    if valid {
      valid := VersionsUnique(instance.spec.versionInfo.value);
    }
    if valid {
      valid := ValidNumberOfRewards(instance.spec);
    }
    if valid {
      var vs := instance.spec.versionInfo.value.All();
      var i := 0;
      while i < |vs| && valid
        invariant 0 <= i <= |vs|
        invariant forall j :: 0 <= j < i && (valid || j < i - 1) ==> PathStartsWithDot(vs[j])
        invariant !valid ==> 0 < i && !PathStartsWithDot(vs[i - 1])
        decreases |vs| - i
      {
        valid := PathStartsWithDot(vs[i]);
        i := i + 1;
      }
    }
    if !valid {
      instance.status := instance.status.(failed := True);
    }
  }
}
