/** Runs of many experiments: reconciles interleaved with whatever else happens in the cluster, and the
    invariants every reachable state keeps. */
module Protocol {
  import opened Prelude
  import opened Stages
  import opened JobNames
  import opened Experiments
  import opened Targets
  import opened Controller
  import Metrics
  import Weights

  // ---- Runs ----

  datatype Event =
    | Reconciled(id: ExpId, env: Inputs)
    | Created(id: ExpId, spec: Spec)
    | Deleted(id: ExpId)
    | JobEnded(key: JobKey, succeeded: bool)
    | Ticked(now: int)
    | VersionsSet(id: ExpId, versions: Option<VersionInfo>)          // by a start handler
    | HistsCollected(id: ExpId, hists: string)                       // by a collect task
    | FieldsChanged(fields: map<Weights.Loc, int>)                   // by anyone

  /** The duration fields respect their declared minimum, and the number of iterations fits an int32. */
  predicate WellFormed(sp: Spec) {
    GetIterationsPerLoop(sp) >= 1 && GetMaxLoops(sp) >= 1 && FitsInt32(GetIterationsPerLoop(sp) * GetMaxLoops(sp))
  }

  predicate Enabled(w: World, ev: Event) {
    match ev
    case Reconciled(id, env) => id in w.store ==> InputsOk(w.store[id], env)
    case Created(id, spec) => id !in w.store && WellFormed(spec)
    case Deleted(id) => id in w.store
    case JobEnded(key, _) => key in w.jobs && w.jobs[key] == JobRunning
    case Ticked(now) => w.now <= now
    case VersionsSet(id, _) => id in w.store && Rank(w.store[id].status.stage) < Rank(Running)
    case HistsCollected(id, _) => id in w.store && w.store[id].status.initTime.Some?
    case FieldsChanged(_) => true
  }

  function SetHists(st: Status, hists: string): Status {
    st.(analysis := Some(if st.analysis.Some? then st.analysis.value.(hists := Some(hists))
                         else Analysis(Some(hists), None, map[], [])))
  }

  function Apply(w: World, ev: Event): World
    requires Enabled(w, ev)
  {
    match ev
    case Reconciled(id, env) => Reconcile(w, id, env)
    case Created(id, spec) => w.(store := w.store[id := Experiment(spec, NO_STATUS)])
    case Deleted(id) => w.(store := w.store - {id})
    case JobEnded(key, ok) => w.(jobs := w.jobs[key := if ok then JobComplete else JobFailed])
    case Ticked(now) => w.(now := now)
    case VersionsSet(id, versions) =>
      w.(store := w.store[id := w.store[id].(spec := w.store[id].spec.(versionInfo := versions))])
    case HistsCollected(id, hists) => w.(store := Put(w.store, id, SetHists(w.store[id].status, hists), true))
    case FieldsChanged(fields) => w.(cluster := w.cluster.(fields := fields))
  }

  /** No job exists under the experiment's name. */
  ghost predicate FreshName(w: World, id: ExpId) {
    forall j :: !HasJob(w, id, j)
  }

  /** A sequence of events that can happen. */
  predicate IsRun(w: World, evs: seq<Event>)
    decreases |evs|
  {
    evs == [] || (Enabled(w, evs[0]) && IsRun(Apply(w, evs[0]), evs[1..]))
  }

  function Final(w: World, evs: seq<Event>): World
    requires IsRun(w, evs)
    decreases |evs|
  {
    if evs == [] then w else Final(Apply(w, evs[0]), evs[1..])
  }

  /** No experiments and no jobs. */
  predicate Initial(w: World) {
    w.store == map[] && w.jobs == map[]
  }

  // ---- Invariants ----

  function Total(sp: Spec): int {
    GetIterationsPerLoop(sp) * GetMaxLoops(sp)
  }

  /** The stored status of an experiment is consistent. */
  predicate StatusInv(x: Experiment, now: int) {
    var st := x.status;
    && WellFormed(x.spec)
    && (st.initTime.None? ==> st == NO_STATUS)
    && (st.initTime.Some? ==>
          && st.initTime.value <= Stamp(now)
          && st.completed != Unknown && st.failed != Unknown && st.acquired != Unknown)
    && (st.completed == True <==> st.stage == Completed)
    && (st.failed == True ==> st.completed == True)
    && (st.stage in {Initializing, Running, Finishing} ==> st.acquired == True)
    && st.iterations <= Total(x.spec)
    && (st.iterations > 0 ==> Rank(st.stage) >= Rank(Running))
  }

  predicate HasJob(w: World, id: ExpId, j: Job) {
    JobKey(id, j) in w.jobs
  }

  predicate JobIs(w: World, id: ExpId, j: Job, state: JobState) {
    HasJob(w, id, j) && w.jobs[JobKey(id, j)] == state
  }

  /** The type of handler a job runs. */
  function TypeOf(j: Job): HandlerType {
    match j
    case StartJob => StartHandler
    case FinishJob => FinishHandler
    case LoopJob(_) => LoopHandler
  }

  /** The jobs of an experiment, when they are all its own, agree with its stored status. */
  ghost predicate JobsInv(w: World, id: ExpId)
    requires id in w.store
  {
    var x := w.store[id];
    var st := x.status;
    && (forall j :: HasJob(w, id, j) ==>
          && HasHandler(x.spec, TypeOf(j)) && st.acquired == True && st.stage != Waiting
          && (j.StartJob? || Rank(st.stage) >= Rank(Running)))
    && (forall k: nat :: HasJob(w, id, LoopJob(k)) ==>
          && 1 <= k <= GetMaxLoops(x.spec) && k * GetIterationsPerLoop(x.spec) <= st.iterations + 1
          && Weights.ObservableShape(x.spec))
  }

  /** Every loop that an active experiment has completed has its job, if there is a handler for loops. */
  ghost predicate LoopsDone(w: World, id: ExpId)
    requires id in w.store
  {
    var sp, st := w.store[id].spec, w.store[id].status;
    st.completed != True && HasHandler(sp, LoopHandler) ==>
      forall k: nat :: 1 <= k && k * GetIterationsPerLoop(sp) <= st.iterations ==> HasJob(w, id, LoopJob(k))
  }

  /** In the Finishing stage the finish job is there. */
  predicate FinishInv(w: World, id: ExpId)
    requires id in w.store
  {
    w.store[id].status.stage == Finishing ==> HasHandler(w.store[id].spec, FinishHandler) && HasJob(w, id, FinishJob)
  }

  /** At most one job of the experiment has not completed, and the finish job comes after all others have. */
  ghost predicate QuietInv(w: World, id: ExpId)
    requires id in w.store
  {
    && (forall i, j :: HasJob(w, id, i) && HasJob(w, id, j) && i != j ==>
          w.jobs[JobKey(id, i)] == JobComplete || w.jobs[JobKey(id, j)] == JobComplete)
    && (HasJob(w, id, FinishJob) ==>
          forall j :: HasJob(w, id, j) && j != FinishJob ==> w.jobs[JobKey(id, j)] == JobComplete)
  }

  /** No target has two owners that are not completed. */
  predicate OneOwner(store: ExpStore) {
    forall a, b :: a in store && b in store && a != b && store[a].spec.target == store[b].spec.target ==>
      !(Owns(store[a]) && store[a].status.completed != True && Owns(store[b]) && store[b].status.completed != True)
  }

  /** What holds of an experiment; the last two parts only if it was created when no job existed under its
      name, so that its jobs are all its own. */
  ghost predicate ExpInv(w: World, id: ExpId, own: bool) {
    && id in w.store && StatusInv(w.store[id], w.now) && FinishInv(w, id) && LoopsDone(w, id)
    && (own ==> JobsInv(w, id) && QuietInv(w, id))
  }

  /** What holds of all experiments, whatever names are used again. */
  ghost predicate Inv(w: World) {
    (forall id :: id in w.store ==> ExpInv(w, id, false)) && OneOwner(w.store)
  }

  // ---- What a plan may do ----

  /** The statuses agree in everything the protocol rests on. */
  predicate SameCore(a: Status, b: Status) {
    && a.initTime == b.initTime && a.lastUpdate == b.lastUpdate && a.stage == b.stage && a.iterations == b.iterations
    && a.completed == b.completed && a.failed == b.failed && a.acquired == b.acquired
    && (|a.metrics| > 0 ==> b.metrics == a.metrics)
  }

  /** The job is one that the check of the handlers looks at. */
  predicate Inspected(sp: Spec, j: Job) {
    HasHandler(sp, TypeOf(j)) && (j.LoopJob? ==> 1 <= j.k <= GetMaxLoops(sp))
  }

  /** Every job that the check looks at has completed, and none is the finish job. */
  ghost predicate SettledInspected(w: World, id: ExpId)
    requires id in w.store
  {
    forall j :: HasJob(w, id, j) && Inspected(w.store[id].spec, j) ==>
      w.jobs[JobKey(id, j)] == JobComplete && j != FinishJob
  }

  /** All jobs of the experiment have completed, and it has no finish job. */
  ghost predicate Settled(w: World, id: ExpId) {
    forall j :: HasJob(w, id, j) ==> w.jobs[JobKey(id, j)] == JobComplete && j != FinishJob
  }

  /** One more iteration in the Running stage, that was due and whose weights could be observed, with all jobs
      complete. */
  ghost predicate Iterated(w: World, id: ExpId, st: Status, own: bool)
    requires id in w.store
  {
    var x := w.store[id];
    && SameCore(x.status.(iterations := x.status.iterations + 1, lastUpdate := Some(Stamp(w.now))), st)
    && SufficientTime(x.spec, x.status, w.now)
    && x.status.stage == Running && st.iterations <= Total(x.spec) && Weights.ObservableShape(x.spec)
    && (own ==> Settled(w, id))
  }

  ghost predicate MaySave(w: World, id: ExpId, st: Status, own: bool)
    requires id in w.store
  {
    var x := w.store[id];
    || SameCore(x.status, st)
    || (SameCore(x.status.(acquired := True), st) && CanAcquire(w.store, id))
    || (SameCore(x.status.(stage := Initializing), st) && x.status.stage == Waiting && Owns(x))
    || (SameCore(x.status.(stage := Running), st) && x.status.stage == Initializing)
    || (Iterated(w, id, st, own)
        && (HasHandler(x.spec, LoopHandler) ==> forall k: nat :: k * GetIterationsPerLoop(x.spec) != st.iterations))
  }

  /** The job to launch does not run already, unless it is a loop job of an iteration whose write was lost. */
  ghost predicate MayLaunch(w: World, id: ExpId, st: Status, j: Job, own: bool)
    requires id in w.store
  {
    var x := w.store[id];
    && SettledInspected(w, id) && (own ==> Settled(w, id))
    && Owns(x) && x.status.stage != Waiting && HasHandler(x.spec, TypeOf(j))
    && match j
       case StartJob => SameCore(x.status, st) && !HasJob(w, id, StartJob)
       case FinishJob => SameCore(x.status.(stage := Finishing), st) && x.status.stage == Running
       case LoopJob(k) => Iterated(w, id, st, own) && st.iterations == k * GetIterationsPerLoop(x.spec)
  }

  ghost predicate MayEnd(w: World, id: ExpId, st: Status, own: bool)
    requires id in w.store
  {
    var x := w.store[id];
    && st.initTime == x.status.initTime && st.acquired == x.status.acquired && st.completed == False
    && st.failed != Unknown && st.stage != Completed && Rank(st.stage) >= Rank(x.status.stage)
    && ((st.iterations == x.status.iterations && st.lastUpdate == x.status.lastUpdate) || Iterated(w, id, st, own))
  }

  /** What a plan for an active experiment may do, whatever the inputs. */
  ghost predicate MayPlan(w: World, id: ExpId, plan: Plan, own: bool)
    requires id in w.store
  {
    && SameCore(w.store[id].status, plan.early)
    && match plan.act
       case Leave => true
       case Crash => !own
       case Save(st) => MaySave(w, id, st, own)
       case Launch(st, j) => MayLaunch(w, id, st, j, own)
       case End(st) => MayEnd(w, id, st, own)
  }

  predicate Active(x: Experiment) {
    x.status.initTime.Some? && x.status.completed != True
  }

  // ---- Checking the handlers ----

  lemma TotalIs(sp: Spec)
    requires WellFormed(sp)
    ensures TotalIterations(sp) == Total(sp) == Total(InitializeSpec(sp))
  {
  }

  /** In memory only the weights may have changed. */
  predicate WeightsOnly(a: Status, b: Status) {
    b == a.(weights := b.weights)
  }

  /** What the check of some handlers says about the jobs it inspected. */
  ghost predicate CheckedOk(w: World, id: ExpId, st0: Status, c: Check, own: bool) {
    match c
    case Continue(st) => WeightsOnly(st0, st)
    case Stop(Save(st)) => WeightsOnly(st0, st)
    case Stop(Leave) => true
    case Stop(End(st)) =>
      WeightsOnly(st0, st) || WeightsOnly(st0.(failed := True), st)
    case Stop(Crash) => !own
    case Stop(Launch(_, _)) => false
  }

  lemma CheckOneOk(w: World, id: ExpId, st: Status, t: HandlerType, loop: nat, errors: set<Job>, own: bool)
    requires ExpInv(w, id, own) && Active(w.store[id])
    ensures CheckedOk(w, id, st, CheckOne(w, id, w.store[id].spec, st, t, loop, errors), own)
    ensures CheckOne(w, id, w.store[id].spec, st, t, loop, errors).Continue? && HasJob(w, id, JobOf(t, loop)) ==>
      w.jobs[JobKey(id, JobOf(t, loop))] == JobComplete && JobOf(t, loop) != FinishJob
  {
    var sp, j := w.store[id].spec, JobOf(t, loop);
    Weights.NilDereferenceExactly(w.cluster, id.namespace, sp, st.weights);
  }

  lemma {:induction false} CheckLoopsOk(w: World, id: ExpId, st: Status, loop: nat, errors: set<Job>, own: bool)
    requires ExpInv(w, id, own) && Active(w.store[id])
    ensures var c := CheckLoops(w, id, w.store[id].spec, st, loop, errors);
            && CheckedOk(w, id, st, c, own)
            && (c.Continue? ==> forall k: nat :: loop <= k <= GetMaxLoops(w.store[id].spec) && HasJob(w, id, LoopJob(k)) ==>
                  w.jobs[JobKey(id, LoopJob(k))] == JobComplete)
    decreases GetMaxLoops(w.store[id].spec) + 1 - loop
  {
    var sp := w.store[id].spec;
    if loop <= GetMaxLoops(sp) {
      CheckOneOk(w, id, st, LoopHandler, loop, errors, own);
      var c := CheckOne(w, id, sp, st, LoopHandler, loop, errors);
      if c.Continue? {
        CheckLoopsOk(w, id, c.st, loop + 1, errors, own);
      }
    }
  }

  /** Every job of the given types that is looked at has completed and is not the finish job. */
  ghost predicate SettledTypes(w: World, id: ExpId, n: nat)
    requires id in w.store && n <= |ALL_HANDLER_TYPES|
  {
    forall j :: HasJob(w, id, j) && Inspected(w.store[id].spec, j) && TypeOf(j) in ALL_HANDLER_TYPES[..n] ==>
      w.jobs[JobKey(id, j)] == JobComplete && j != FinishJob
  }

  lemma CheckTypeOk(w: World, id: ExpId, st: Status, t: HandlerType, errors: set<Job>, own: bool)
    requires ExpInv(w, id, own) && Active(w.store[id])
    ensures var c := CheckType(w, id, w.store[id].spec, st, t, errors);
            && CheckedOk(w, id, st, c, own)
            && (c.Continue? ==> forall j :: HasJob(w, id, j) && Inspected(w.store[id].spec, j) && TypeOf(j) == t ==>
                  w.jobs[JobKey(id, j)] == JobComplete && j != FinishJob)
  {
    if t == LoopHandler {
      CheckLoopsOk(w, id, st, 1, errors, own);
    } else {
      CheckOneOk(w, id, st, t, 0, errors, own);
    }
  }

  lemma {:induction false} CheckTypesOk(w: World, id: ExpId, st: Status, n: nat, errors: set<Job>, own: bool)
    requires n <= |ALL_HANDLER_TYPES|
    requires ExpInv(w, id, own) && Active(w.store[id])
    ensures var c := CheckTypes(w, id, w.store[id].spec, st, n, errors);
            CheckedOk(w, id, st, c, own) && (c.Continue? ==> SettledTypes(w, id, n))
  {
    if n > 0 {
      CheckTypesOk(w, id, st, n - 1, errors, own);
      var c := CheckTypes(w, id, w.store[id].spec, st, n - 1, errors);
      if c.Continue? {
        CheckTypeOk(w, id, c.st, ALL_HANDLER_TYPES[n - 1], errors, own);
        assert ALL_HANDLER_TYPES[..n] == ALL_HANDLER_TYPES[..n - 1] + [ALL_HANDLER_TYPES[n - 1]];
      }
    }
  }

  /** What the rest of a reconcile may rely on: the jobs looked at have completed and the experiment is not
      finishing; when its jobs are all its own these are all of them. */
  ghost predicate Passed(w: World, id: ExpId, own: bool)
    requires id in w.store
  {
    SettledInspected(w, id) && w.store[id].status.stage != Finishing && (own ==> Settled(w, id))
  }

  /** A reconcile goes on past the check of the handlers only when all jobs it looks at have completed and none
      is the finish job. */
  lemma CheckHandlersOk(w: World, id: ExpId, errors: set<Job>, own: bool)
    requires ExpInv(w, id, own) && Active(w.store[id])
    ensures var st := w.store[id].status;
            var c := CheckHandlers(w, id, w.store[id].spec, st, errors);
            CheckedOk(w, id, st, c, own) && (c.Continue? ==> Passed(w, id, own))
  {
    CheckTypesOk(w, id, w.store[id].status, |ALL_HANDLER_TYPES|, errors, own);
    assert ALL_HANDLER_TYPES[..5] == ALL_HANDLER_TYPES;
    forall j ensures TypeOf(j) in ALL_HANDLER_TYPES {
      assert ALL_HANDLER_TYPES[0] == StartHandler && ALL_HANDLER_TYPES[1] == FinishHandler && ALL_HANDLER_TYPES[4] == LoopHandler;
    }
    if SettledTypes(w, id, |ALL_HANDLER_TYPES|) {
      SettledPasses(w, id, own);
    }
  }

  lemma SettledPasses(w: World, id: ExpId, own: bool)
    requires ExpInv(w, id, own) && (forall j :: TypeOf(j) in ALL_HANDLER_TYPES[..|ALL_HANDLER_TYPES|])
    requires SettledTypes(w, id, |ALL_HANDLER_TYPES|)
    ensures Passed(w, id, own)
  {
    assert w.store[id].status.stage == Finishing ==> Inspected(w.store[id].spec, FinishJob);
    if own {
      forall j | HasJob(w, id, j) ensures Inspected(w.store[id].spec, j) {
      }
    }
  }

  // ---- The plan of an active experiment ----

  lemma LoopNumber(iterations: nat, perLoop: int)
    requires perLoop >= 1
    ensures if iterations % perLoop == 0 then iterations / perLoop * perLoop == iterations
            else forall k: nat :: k * perLoop != iterations
  {
    var q, r := iterations / perLoop, iterations % perLoop;
    assert iterations == q * perLoop + r;
    if r != 0 {
      forall k: nat ensures k * perLoop != iterations {
        NotAMultiple(k - q, perLoop, r);
        assert (k - q) * perLoop == k * perLoop - q * perLoop;
      }
    }
  }

  lemma NotAMultiple(a: int, d: int, r: int)
    requires 0 < r < d
    ensures a * d != r
  {
  }

  /** A fixed split is never the default: the shape seen after late initialisation was there before. */
  lemma ShapeBeforeDefaults(sp: Spec)
    requires Weights.ObservableShape(InitializeSpec(sp))
    ensures Weights.ObservableShape(sp)
  {
  }

  /** The ways an iteration may end. */
  ghost predicate MayIterate(w: World, id: ExpId, act: Act, own: bool)
    requires id in w.store
  {
    match act
    case Save(st) => MaySave(w, id, st, own)
    case Launch(st, j) => MayLaunch(w, id, st, j, own) && j.LoopJob?
    case End(st) => MayEnd(w, id, st, own)
    case Leave => false
    case Crash => false
  }

  lemma CloseIterationOk(w: World, id: ExpId, st: Status, env: Inputs, own: bool)
    requires ExpInv(w, id, own) && Active(w.store[id]) && Passed(w, id, own)
    requires var sp := InitializeSpec(w.store[id].spec); sp.versionInfo.Some? && MoreIterationsNeeded(sp, st)
    requires SameCore(w.store[id].status, st) && st.stage == Running && Weights.ObservableShape(w.store[id].spec)
    requires SufficientTime(w.store[id].spec, w.store[id].status, w.now)
    ensures MayIterate(w, id, CloseIteration(InitializeSpec(w.store[id].spec), st, w.now, env), own)
  {
    var sp := InitializeSpec(w.store[id].spec);
    TotalIs(w.store[id].spec);
    LoopNumber(st.iterations + 1, GetIterationsPerLoop(sp));
    hide Weights.ObservableShape;
    var st' := CompleteIteration(Recommended(st, sp.versionInfo.value.baseline.name), w.now);
    assert Iterated(w, id, st', own);
  }

  lemma IterateOk(w: World, id: ExpId, st: Status, env: Inputs, own: bool)
    requires ExpInv(w, id, own) && Active(w.store[id])
    requires Passed(w, id, own) && SufficientTime(w.store[id].spec, w.store[id].status, w.now)
    requires var sp := InitializeSpec(w.store[id].spec); sp.versionInfo.Some? && MoreIterationsNeeded(sp, st)
    requires SameCore(w.store[id].status, st) && st.stage == Running
    ensures MayIterate(w, id, Iterate(w, id, InitializeSpec(w.store[id].spec), st, env).1, own)
  {
    hide Weights.Redistribute, Weights.Observe, CloseIteration, Weights.ObservableShape, Iterated, MaySave,
      MayLaunch, JobsInv;
    var sp := InitializeSpec(w.store[id].spec);
    match Weights.Redistribute(w.cluster, id.namespace, sp, st, env.patchOrder, env.patchFailures) {
      case None =>
      case Some(c) =>
        Weights.NilDereferenceExactly(c, id.namespace, sp, st.weights);
        Weights.ObservedHasShape(c, id.namespace, sp, st.weights);
        var o := Weights.Observe(c, id.namespace, sp, st.weights);
        if o.Observed? {
          ShapeBeforeDefaults(w.store[id].spec);
          CloseIterationOk(w, id, st.(weights := o.weights), env, own);
        }
    }
  }

  lemma DueIterationOk(w: World, id: ExpId, early: Status, st: Status, env: Inputs, own: bool)
    requires ExpInv(w, id, own) && Active(w.store[id])
    requires Passed(w, id, own) && InputsOk(w.store[id], env)
    requires var sp := InitializeSpec(w.store[id].spec); sp.versionInfo.Some? && MoreIterationsNeeded(sp, st)
    requires SameCore(w.store[id].status, early) && SameCore(w.store[id].status, st) && st.stage == Running
    requires SufficientTime(w.store[id].spec, w.store[id].status, w.now)
    ensures MayPlan(w, id, DueIteration(w, id, InitializeSpec(w.store[id].spec), early, st, env), own)
  {
    hide Iterate;
    var sp := InitializeSpec(w.store[id].spec);
    AfterIsRank(Finishing, Running);
    if env.analysis.Some? {
      var a := KeepHists(st, env.analysis.value);
      if !MustRollback(sp, a) {
        IterateOk(w, id, st.(analysis := Some(a)), env, own);
      }
    }
  }

  lemma DoIterationOk(w: World, id: ExpId, st: Status, env: Inputs, own: bool)
    requires ExpInv(w, id, own) && Active(w.store[id])
    requires Passed(w, id, own) && InputsOk(w.store[id], env)
    requires InitializeSpec(w.store[id].spec).versionInfo.Some?
    requires SameCore(w.store[id].status, st) && st.stage == Running
    ensures MayPlan(w, id, DoIteration(w, id, InitializeSpec(w.store[id].spec), w.store[id].status, st, env), own)
  {
    hide DueIteration;
    var sp := InitializeSpec(w.store[id].spec);
    AfterIsRank(Finishing, Running);
    var st1 := if st.startTime.None? then st.(startTime := Some(Stamp(w.now))) else st;
    var early := if st.startTime.None? then st1 else w.store[id].status;
    if MoreIterationsNeeded(sp, st1) && SufficientTime(sp, st1, w.now) {
      DueIterationOk(w, id, early, st1, env, own);
    }
  }

  lemma DecideStartedOk(w: World, id: ExpId, st: Status, env: Inputs, own: bool)
    requires ExpInv(w, id, own) && Active(w.store[id])
    requires Passed(w, id, own) && InputsOk(w.store[id], env)
    requires WeightsOnly(w.store[id].status, st) && st.stage in {Initializing, Running} && st.acquired == True
    ensures MayPlan(w, id, DecideStarted(w, id, InitializeSpec(w.store[id].spec), w.store[id].status, st, env), own)
  {
    var sp, base := InitializeSpec(w.store[id].spec), w.store[id].status;
    AfterIsRank(Running, st.stage);
    hide DoIteration, Weights.Observe, Metrics.ReadNames, Metrics.ShouldReadMetrics, CanAcquire, Iterated, After;
    var plan := DecideStarted(w, id, sp, base, st, env);
    if !Metrics.ShouldReadMetrics(sp, st) && st.stage == Running && VersionInfoValid(sp) {
      var st' := Recommended(st, sp.versionInfo.value.baseline.name);
      assert plan == DoIteration(w, id, sp, base, st', env);
      DoIterationOk(w, id, st', env, own);
      hide DecideStarted, MayPlan;
    } else {
      hide VersionInfoValid, JobsInv, QuietInv;
      Weights.NilDereferenceExactly(w.cluster, id.namespace, sp, st.weights);
    }
  }

  lemma DecideActiveOk(w: World, id: ExpId, st: Status, env: Inputs, own: bool)
    requires ExpInv(w, id, own) && Active(w.store[id])
    requires Passed(w, id, own) && InputsOk(w.store[id], env)
    requires WeightsOnly(w.store[id].status, st)
    ensures MayPlan(w, id, DecideActive(w, id, InitializeSpec(w.store[id].spec), w.store[id].status, st, env), own)
  {
    hide DecideStarted, CanAcquire, TasksValid, Iterated, JobsInv, QuietInv, After;
    AfterIsRank(Initializing, st.stage);
    assert st.stage != Finishing;
    if st.acquired == True && st.stage != Waiting {
      DecideStartedOk(w, id, st, env, own);
    }
  }

  /** Every plan for an active experiment stays within the protocol; in particular none crashes if the
      experiment's jobs are its own. */
  lemma DecideOk(w: World, id: ExpId, env: Inputs, own: bool)
    requires ExpInv(w, id, own) && Active(w.store[id])
    requires InputsOk(w.store[id], env)
    ensures MayPlan(w, id, Decide(w, id, env), own)
  {
    hide CheckHandlers, DecideActive;
    CheckHandlersOk(w, id, env.lookupErrors, own);
    var c := CheckHandlers(w, id, w.store[id].spec, w.store[id].status, env.lookupErrors);
    if c.Continue? {
      DecideActiveOk(w, id, c.st, env, own);
    }
  }
}
