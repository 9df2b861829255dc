/** Every event of a run keeps the invariants; what follows for targets and handler jobs. */
module Safety {
  import opened Prelude
  import opened Stages
  import opened JobNames
  import opened Experiments
  import opened Targets
  import opened Controller
  import opened Protocol

  // ---- One experiment changes, the others do not ----

  /** The step touches only experiment `id`: its status and its jobs. */
  ghost predicate Local(w: World, w': World, id: ExpId)
    requires id in w.store
  {
    && w'.now == w.now && id in w'.store
    && w'.store == w.store[id := w.store[id].(status := w'.store[id].status)]
    && forall k: JobKey :: k.exp != id ==> (k in w.jobs <==> k in w'.jobs) && (k in w.jobs ==> w'.jobs[k] == w.jobs[k])
  }

  lemma OthersKept(w: World, w': World, id: ExpId, o: ExpId, own: bool)
    requires id in w.store && Local(w, w', id) && o != id && ExpInv(w, o, own)
    ensures ExpInv(w', o, own)
  {
  }

  /** An experiment holds its target, or wants it with good reason. */
  predicate OwnsAnew(w: World, id: ExpId, st: Status)
    requires id in w.store
  {
    st.acquired == True && st.completed != True ==>
      (Owns(w.store[id]) && w.store[id].status.completed != True) || CanAcquire(w.store, id)
  }

  lemma OneOwnerKept(w: World, w': World, id: ExpId)
    requires Inv(w) && id in w.store && Local(w, w', id) && OwnsAnew(w, id, w'.store[id].status)
    ensures OneOwner(w'.store)
  {
  }

  // ---- The four ways a plan ends ----

  /** The world with a new status for one experiment. */
  function WithStatus(w: World, id: ExpId, st: Status): World
    requires id in w.store
  {
    w.(store := w.store[id := w.store[id].(status := st)])
  }

  lemma SameJobs(w: World, id: ExpId, st: Status)
    requires id in w.store
    ensures forall j :: HasJob(WithStatus(w, id, st), id, j) <==> HasJob(w, id, j)
  {
  }

  lemma Grows(a: int, d: int)
    requires d >= 1
    ensures a >= 1 ==> a * d >= d
  {
  }

  lemma Factor(k: nat, d: int, loops: int)
    requires d >= 1 && k * d <= d * loops
    ensures k <= loops
  {
  }

  lemma Cancel(a: nat, b: nat, d: int)
    requires d >= 1 && a * d == b * d
    ensures a == b
  {
  }

  /** The world with a new job as well. */
  function WithJob(w: World, id: ExpId, st: Status, j: Job): World
    requires id in w.store
  {
    WithStatus(w, id, st).(jobs := CreateJob(w.jobs, JobKey(id, j)))
  }

  lemma LaunchedJobs(w: World, id: ExpId, fin: Status, j: Job)
    requires id in w.store
    ensures var w' := WithJob(w, id, fin, j);
            forall i :: HasJob(w', id, i) <==> HasJob(w, id, i) || i == j
    ensures var w' := WithJob(w, id, fin, j);
            forall i :: HasJob(w, id, i) ==> w'.jobs[JobKey(id, i)] == w.jobs[JobKey(id, i)]
  {
  }

  lemma LaunchQuiet(w: World, id: ExpId, st: Status, fin: Status, j: Job)
    requires ExpInv(w, id, true) && Active(w.store[id]) && MayLaunch(w, id, st, j, true)
    requires fin.completed == w.store[id].status.completed
    ensures QuietInv(WithJob(w, id, fin, j), id)
  {
  }

  lemma LaunchKeeps(w: World, id: ExpId, st: Status, fin: Status, j: Job, own: bool)
    requires ExpInv(w, id, own) && Active(w.store[id]) && MayLaunch(w, id, st, j, own)
    requires SameCore(st, fin) || SameCore(w.store[id].status, fin)
    ensures ExpInv(WithJob(w, id, fin, j), id, own)
    ensures OwnsAnew(w, id, fin)
  {
    var x := w.store[id];
    LaunchedJobs(w, id, fin, j);
    if own {
      LaunchQuiet(w, id, st, fin, j);
    }
    var d := GetIterationsPerLoop(x.spec);
    if j.LoopJob? {
      Factor(j.k, d, GetMaxLoops(x.spec));
      forall k: nat | k * d == st.iterations ensures k == j.k {
        Cancel(k, j.k, d);
      }
    }
  }

  lemma EndKeeps(w: World, id: ExpId, st: Status, own: bool)
    requires ExpInv(w, id, own) && Active(w.store[id]) && MayEnd(w, id, st, own)
    ensures ExpInv(WithStatus(w, id, Ended(st)), id, own)
    ensures OwnsAnew(w, id, Ended(st))
  {
  }

  lemma PerformIsLocal(w: World, id: ExpId, plan: Plan, env: Inputs)
    requires id in w.store
    ensures Local(w, Perform(w, id, plan, env), id)
  {
    hide Ended, EndPersists;
  }

  /** The new world of one experiment, its weight fields aside. */
  lemma PerformParts(w: World, id: ExpId, plan: Plan, env: Inputs)
    requires id in w.store
    ensures var w' := Perform(w, id, plan, env);
            var fin := w'.store[id].status;
            && w'.store[id] == w.store[id].(status := fin) && w'.now == w.now
            && w'.jobs == (if plan.act.Launch? then CreateJob(w.jobs, JobKey(id, plan.act.job)) else w.jobs)
            && fin == match plan.act
                      case Save(st) => if env.write then st else plan.early
                      case Launch(st, _) => if env.write then st else plan.early
                      case End(st) => if EndPersists(st, env) then Ended(st) else plan.early
                      case _ => plan.early
  {
  }

  /** The same, of a reconcile. */
  lemma ReconcileParts(w: World, id: ExpId, env: Inputs)
    requires id in w.store && InputsOk(w.store[id], env)
    ensures var plan, w' := Decide(w, id, env), Reconcile(w, id, env);
            var fin := w'.store[id].status;
            && Local(w, w', id) && w'.store[id] == w.store[id].(status := fin)
            && w'.jobs == (if plan.act.Launch? then CreateJob(w.jobs, JobKey(id, plan.act.job)) else w.jobs)
            && fin == match plan.act
                      case Save(st) => if env.write then st else plan.early
                      case Launch(st, _) => if env.write then st else plan.early
                      case End(st) => if EndPersists(st, env) then Ended(st) else plan.early
                      case _ => plan.early
  {
    var plan := Decide(w, id, env);
    PerformParts(w, id, plan, env);
    PerformIsLocal(w, id, plan, env);
    hide Decide, Perform, InputsOk, Local;
  }

  /** The experiment in the new world: its status and the jobs. */
  predicate Becomes(w: World, w': World, id: ExpId, fin: Status, jobs: map<JobKey, JobState>)
    requires id in w.store
  {
    id in w'.store && w'.store[id] == w.store[id].(status := fin) && w'.now == w.now && w'.jobs == jobs
  }

  lemma SaveCase(w: World, w': World, id: ExpId, fin: Status, own: bool)
    requires id in w.store && ExpInv(w, id, own) && Active(w.store[id]) && MaySave(w, id, fin, own)
    requires Becomes(w, w', id, fin, w.jobs)
    ensures ExpInv(w', id, own) && OwnsAnew(w, id, w'.store[id].status)
  {
  }

  lemma EndCase(w: World, w': World, id: ExpId, st: Status, own: bool)
    requires id in w.store && ExpInv(w, id, own) && Active(w.store[id]) && MayEnd(w, id, st, own)
    requires Becomes(w, w', id, Ended(st), w.jobs)
    ensures ExpInv(w', id, own) && OwnsAnew(w, id, w'.store[id].status)
  {
    hide ExpInv, OwnsAnew, MayEnd, Active, Ended;
    EndKeeps(w, id, st, own);
    Relocate(WithStatus(w, id, Ended(st)), w', id, own);
  }

  lemma LaunchCase(w: World, w': World, id: ExpId, st: Status, fin: Status, j: Job, own: bool)
    requires id in w.store && ExpInv(w, id, own) && Active(w.store[id]) && MayLaunch(w, id, st, j, own)
    requires Becomes(w, w', id, fin, CreateJob(w.jobs, JobKey(id, j)))
    requires SameCore(st, fin) || SameCore(w.store[id].status, fin)
    ensures ExpInv(w', id, own) && OwnsAnew(w, id, w'.store[id].status)
  {
    hide ExpInv, OwnsAnew, MayLaunch, Active;
    LaunchKeeps(w, id, st, fin, j, own);
    Relocate(WithJob(w, id, fin, j), w', id, own);
  }

  lemma PlanKeepsOwn(w: World, id: ExpId, plan: Plan, env: Inputs, own: bool)
    requires ExpInv(w, id, own) && Active(w.store[id]) && MayPlan(w, id, plan, own)
    ensures var w' := Perform(w, id, plan, env);
            ExpInv(w', id, own) && OwnsAnew(w, id, w'.store[id].status)
  {
    PerformParts(w, id, plan, env);
    var w' := Perform(w, id, plan, env);
    hide Perform, Ended, ExpInv, OwnsAnew, MayLaunch, MayEnd, CreateJob, Active;
    match plan.act {
      case Launch(st, j) =>
        LaunchCase(w, w', id, st, w'.store[id].status, j, own);
      case End(st) =>
        if EndPersists(st, env) {
          EndCase(w, w', id, st, own);
        } else {
          SaveCase(w, w', id, plan.early, own);
        }
      case Save(st) =>
        SaveCase(w, w', id, if env.write then st else plan.early, own);
      case _ =>
        SaveCase(w, w', id, plan.early, own);
    }
  }

  /** An experiment's invariant does not look at the weight fields. */
  lemma Relocate(a: World, b: World, id: ExpId, own: bool)
    requires ExpInv(a, id, own) && id in b.store && b.store[id] == a.store[id] && b.jobs == a.jobs && b.now == a.now
    ensures ExpInv(b, id, own)
  {
  }

  // ---- Every event keeps the invariants ----

  /** A reconcile of an experiment that is not yet initialised initialises it, if a write persists; one of a
      completed experiment changes nothing. */
  lemma IdleStep(w: World, id: ExpId, env: Inputs)
    requires ExpInv(w, id, false) && InputsOk(w.store[id], env) && !Active(w.store[id])
    ensures var w', x := Reconcile(w, id, env), w.store[id].status;
            && w' == WithStatus(w, id, w'.store[id].status)
            && (x.initTime.Some? ==> w' == w)
            && (x.initTime.None? ==> w'.store[id].status in {x, Initialized(x, w.now)})
  {
  }

  lemma SameStatus(w: World, id: ExpId)
    requires id in w.store
    ensures WithStatus(w, id, w.store[id].status) == w
  {
  }

  lemma InitializeKeepsOwn(w: World, id: ExpId, own: bool)
    requires ExpInv(w, id, own) && w.store[id].status.initTime.None?
    ensures ExpInv(WithStatus(w, id, Initialized(w.store[id].status, w.now)), id, own)
  {
    SameJobs(w, id, Initialized(w.store[id].status, w.now));
    assert own ==> forall j :: !HasJob(w, id, j);
  }

  /** A reconcile keeps what holds of its experiment, and whoever holds the target then held it before or may
      acquire it. */
  lemma ReconcileKeepsOwn(w: World, id: ExpId, env: Inputs, own: bool)
    requires ExpInv(w, id, own) && InputsOk(w.store[id], env)
    ensures var w' := Reconcile(w, id, env);
            Local(w, w', id) && ExpInv(w', id, own) && OwnsAnew(w, id, w'.store[id].status)
  {
    ReconcileParts(w, id, env);
    if Active(w.store[id]) {
      hide ExpInv, Perform, Decide, InputsOk, MayPlan, Local, OwnsAnew, Active;
      DecideOk(w, id, env, own);
      PlanKeepsOwn(w, id, Decide(w, id, env), env, own);
    } else {
      IdleKeepsOwn(w, id, env, own);
    }
  }

  lemma IdleKeepsOwn(w: World, id: ExpId, env: Inputs, own: bool)
    requires ExpInv(w, id, own) && InputsOk(w.store[id], env) && !Active(w.store[id])
    ensures var w' := Reconcile(w, id, env);
            ExpInv(w', id, own) && OwnsAnew(w, id, w'.store[id].status)
  {
    IdleStep(w, id, env);
    SameStatus(w, id);
    if w.store[id].status.initTime.None? {
      InitializeKeepsOwn(w, id, own);
    }
    hide Reconcile, InputsOk, JobsInv, QuietInv, LoopsDone, CanAcquire;
  }

  /** An experiment whose entry and jobs are as they were, at the same or a later time. */
  lemma KeptApart(w: World, w': World, o: ExpId, own: bool)
    requires ExpInv(w, o, own) && o in w'.store && w'.store[o] == w.store[o] && w.now <= w'.now
    requires forall j :: HasJob(w', o, j) <==> HasJob(w, o, j)
    requires forall j :: HasJob(w, o, j) && HasJob(w', o, j) ==> w'.jobs[JobKey(o, j)] == w.jobs[JobKey(o, j)]
    ensures ExpInv(w', o, own)
  {
  }

  lemma CreateKeepsOwn(w: World, id: ExpId, spec: Spec, own: bool)
    requires Enabled(w, Created(id, spec)) && (own ==> FreshName(w, id))
    ensures ExpInv(Apply(w, Created(id, spec)), id, own)
  {
    var w' := Apply(w, Created(id, spec));
    assert w'.store[id] == Experiment(spec, NO_STATUS);
    assert forall j :: HasJob(w', id, j) <==> HasJob(w, id, j);
    hide Apply, Enabled, Reconcile, HasJob;
  }

  lemma JobEndKeepsOwn(w: World, key: JobKey, ok: bool, own: bool)
    requires ExpInv(w, key.exp, own) && Enabled(w, JobEnded(key, ok))
    ensures ExpInv(Apply(w, JobEnded(key, ok)), key.exp, own)
  {
  }

  lemma VersionsKeepOwn(w: World, id: ExpId, versions: Option<VersionInfo>, own: bool)
    requires ExpInv(w, id, own) && Enabled(w, VersionsSet(id, versions))
    ensures ExpInv(Apply(w, VersionsSet(id, versions)), id, own)
  {
    assert forall j :: HasJob(Apply(w, VersionsSet(id, versions)), id, j) <==> HasJob(w, id, j);
  }

  lemma HistsKeepOwn(w: World, id: ExpId, hists: string, own: bool)
    requires ExpInv(w, id, own) && Enabled(w, HistsCollected(id, hists))
    ensures ExpInv(Apply(w, HistsCollected(id, hists)), id, own)
  {
  }

  /** Deleting the jobs of an absent experiment spares those of the stored ones. */
  lemma CleanupSpares(w: World, o: ExpId, env: Inputs, id: ExpId)
    requires o !in w.store && id in w.store
    ensures var w' := Reconcile(w, o, env);
            && w'.store == w.store && w'.now == w.now && (forall j :: HasJob(w', id, j) <==> HasJob(w, id, j))
            && forall j :: HasJob(w, id, j) && HasJob(w', id, j) ==> w'.jobs[JobKey(id, j)] == w.jobs[JobKey(id, j)]
  {
  }

  /** What holds of one experiment survives every event, whatever becomes of the others. */
  lemma EventKeepsOwn(w: World, ev: Event, id: ExpId, own: bool)
    requires ExpInv(w, id, own) && Enabled(w, ev) && ev != Deleted(id)
    ensures ExpInv(Apply(w, ev), id, own)
  {
    hide ExpInv, Reconcile, InputsOk, WellFormed, Local;
    InStore(w, id, own);
    var w' := Apply(w, ev);
    match ev {
      case Reconciled(o, env) =>
        if o == id {
          ReconcileKeepsOwn(w, id, env, own);
        } else if o in w.store {
          ReconcileParts(w, o, env);
          OthersKept(w, w', o, id, own);
        } else {
          CleanupSpares(w, o, env, id);
          KeptApart(w, w', id, own);
        }
      case JobEnded(key, ok) =>
        if key.exp == id {
          JobEndKeepsOwn(w, key, ok, own);
        } else {
          KeptApart(w, w', id, own);
        }
      case VersionsSet(o, versions) =>
        if o == id {
          VersionsKeepOwn(w, id, versions, own);
        } else {
          KeptApart(w, w', id, own);
        }
      case HistsCollected(o, hists) =>
        if o == id {
          HistsKeepOwn(w, id, hists, own);
        } else {
          KeptApart(w, w', id, own);
        }
      case _ => KeptApart(w, w', id, own);
    }
  }

  lemma InStore(w: World, id: ExpId, own: bool)
    requires ExpInv(w, id, own)
    ensures id in w.store
  {
  }

  /** No event gives a target a second owner. */
  lemma EventKeepsOwner(w: World, ev: Event)
    requires Inv(w) && Enabled(w, ev)
    ensures OneOwner(Apply(w, ev).store)
  {
    hide Reconcile, ExpInv, InputsOk, WellFormed, OwnsAnew, Local;
    match ev {
      case Reconciled(id, env) =>
        if id in w.store {
          ReconcileKeepsOwn(w, id, env, false);
          OneOwnerKept(w, Apply(w, ev), id);
        } else {
          assert Apply(w, ev).store == w.store by {
            AbsentKeepsStore(w, id, env);
          }
        }
      case _ =>
    }
  }

  lemma AbsentKeepsStore(w: World, id: ExpId, env: Inputs)
    requires id !in w.store
    ensures Reconcile(w, id, env).store == w.store
  {
  }

  lemma EventKeeps(w: World, ev: Event)
    requires Inv(w) && Enabled(w, ev)
    ensures Inv(Apply(w, ev))
  {
    hide ExpInv, Reconcile, InputsOk, WellFormed, OneOwner;
    EventKeepsOwner(w, ev);
    var w' := Apply(w, ev);
    forall id | id in w'.store ensures ExpInv(w', id, false) {
      if id in w.store {
        EventKeepsOwn(w, ev, id, false);
      } else {
        CreateKeepsOwn(w, id, ev.spec, false);
      }
    }
  }

  // ---- Reachable states ----

  /** Every state of every run keeps the invariants, whatever writes are lost. */
  lemma {:induction false} RunKeeps(w: World, evs: seq<Event>)
    requires Inv(w) && IsRun(w, evs)
    ensures Inv(Final(w, evs))
    decreases |evs|
  {
    if evs != [] {
      EventKeeps(w, evs[0]);
      RunKeeps(Apply(w, evs[0]), evs[1..]);
    }
  }

  /** What holds of one experiment holds along every run that does not delete it. */
  lemma {:induction false} RunKeepsOwn(w: World, evs: seq<Event>, id: ExpId, own: bool)
    requires ExpInv(w, id, own) && IsRun(w, evs)
    requires forall i :: 0 <= i < |evs| ==> evs[i] != Deleted(id)
    ensures ExpInv(Final(w, evs), id, own)
    decreases |evs|
  {
    if evs != [] {
      hide ExpInv, Enabled, Apply;
      EventKeepsOwn(w, evs[0], id, own);
      RunKeepsOwn(Apply(w, evs[0]), evs[1..], id, own);
    }
  }

  lemma ReachableInv(w0: World, evs: seq<Event>)
    requires Initial(w0) && IsRun(w0, evs)
    ensures Inv(Final(w0, evs))
  {
    RunKeeps(w0, evs);
  }

  /** An experiment that holds its target and has not completed. */
  predicate Holds(w: World, id: ExpId) {
    id in w.store && Owns(w.store[id]) && w.store[id].status.completed != True
  }

  /** Mutual exclusion: in every reachable state, whatever names are used again, a target has at most one
      owner that has not completed, and only such an owner is in one of the stages between waiting and
      completed. */
  lemma MutualExclusion(w0: World, evs: seq<Event>, a: ExpId, b: ExpId)
    requires Initial(w0) && IsRun(w0, evs)
    requires var w := Final(w0, evs);
             a in w.store && b in w.store && w.store[a].spec.target == w.store[b].spec.target
    ensures var w := Final(w0, evs);
            && (w.store[a].status.stage in {Initializing, Running, Finishing} ==> Holds(w, a))
            && (Holds(w, a) && Holds(w, b) ==> a == b)
  {
    ReachableInv(w0, evs);
    var w := Final(w0, evs);
    assert StatusInv(w.store[a], w.now) && StatusInv(w.store[b], w.now);
  }
}
