/** Handler quiescence: among the stored experiments a target has at most one running handler job, and it is a
    job of the target's holder. Exactly which events end it, and that no others do. */
module Quiescence {
  import opened Stages
  import opened JobNames
  import opened Experiments
  import opened Controller
  import opened Protocol
  import opened Safety
  import Steps
  import Weights

  /** The job runs for an experiment that is stored. */
  predicate Runs(w: World, key: JobKey) {
    key in w.jobs && w.jobs[key] == JobRunning && key.exp in w.store
  }

  ghost predicate Quiescent(w: World) {
    forall j, k :: Runs(w, j) && Runs(w, k) && w.store[j.exp].spec.target == w.store[k.exp].spec.target ==>
      Holds(w, j.exp) && j == k
  }

  // ---- An invariant behind it, whatever names are used again ----

  /** The experiment holds its target, its running job `r` is one that the check looks at, and all others that
      it looks at have completed, none of them the finish job. */
  ghost predicate RunsAlone(w: World, id: ExpId, r: Job)
    requires id in w.store
  {
    && Holds(w, id) && Inspected(w.store[id].spec, r)
    && forall j :: HasJob(w, id, j) && Inspected(w.store[id].spec, j) && j != r ==>
         w.jobs[JobKey(id, j)] == JobComplete && j != FinishJob
  }

  ghost predicate BusyInv(w: World, id: ExpId)
    requires id in w.store
  {
    forall r :: JobIs(w, id, r, JobRunning) ==> RunsAlone(w, id, r)
  }

  ghost predicate QInv(w: World) {
    Inv(w) && forall id :: id in w.store ==> BusyInv(w, id)
  }

  lemma RunsOnce(w: World, id: ExpId, a: Job, b: Job)
    requires id in w.store && BusyInv(w, id) && JobIs(w, id, a, JobRunning) && JobIs(w, id, b, JobRunning)
    ensures a == b && Holds(w, id)
  {
    assert RunsAlone(w, id, a) && RunsAlone(w, id, b);
  }

  lemma AloneIsQuiescent(w: World)
    requires QInv(w)
    ensures Quiescent(w)
  {
    forall j, k | Runs(w, j) && Runs(w, k) && w.store[j.exp].spec.target == w.store[k.exp].spec.target
      ensures Holds(w, j.exp) && j == k
    {
      RunsOnce(w, j.exp, j.job, j.job);
      RunsOnce(w, k.exp, k.job, k.job);
      assert j.exp == k.exp;
      RunsOnce(w, j.exp, j.job, k.job);
    }
  }

  // ---- Lookup errors while a job runs ----

  /** The position of a job in the order in which a reconcile looks at jobs. */
  function Position(j: Job): nat {
    match j
    case StartJob => 0
    case FinishJob => 1
    case LoopJob(k) => 1 + k
  }

  predicate Observable(w: World, id: ExpId)
    requires id in w.store
  {
    Weights.Observe(w.cluster, id.namespace, w.store[id].spec, w.store[id].status.weights).Observed?
  }

  /** The check gets from one loop to a later one: it stops in between where a completed loop job calls for
      weights that cannot be observed. */
  ghost predicate Reached(w: World, id: ExpId, from: nat, k: nat)
    requires id in w.store
  {
    Observable(w, id) || forall i: nat :: from <= i < k ==> !HasJob(w, id, LoopJob(i))
  }

  /** A lookup no later than that of job `r` fails, and the check gets that far. */
  ghost predicate LookupFailsBy(w: World, id: ExpId, errors: set<Job>, r: Job)
    requires id in w.store
  {
    exists e :: e in errors && Inspected(w.store[id].spec, e) && Position(e) <= Position(r)
      && (e.LoopJob? ==> Reached(w, id, 1, e.k))
  }

  /** While job `r` runs, the reconcile gives up the target: a lookup fails by then and a write persists. */
  ghost predicate Releases(w: World, id: ExpId, env: Inputs, r: Job)
    requires id in w.store
  {
    (env.endWrite || env.write) && LookupFailsBy(w, id, env.lookupErrors, r)
  }

  /** The check stops, with the experiment's end in the one case and with its status as it is in the other. */
  predicate StopsWithEndIf(c: Check, ends: bool) {
    c.Stop? && if ends then c.act.End? else c.act.Save? || c.act.Leave? || c.act.Crash?
  }

  ghost predicate SomeLoopFails(w: World, id: ExpId, from: nat, k: nat, errors: set<Job>)
    requires id in w.store
  {
    exists i: nat :: from <= i <= k && LoopJob(i) in errors && Reached(w, id, from, i)
  }

  /** Whether the weights can be observed does not depend on those recorded. */
  lemma ObservableWhatever(w: World, id: ExpId, st: Status)
    requires id in w.store
    ensures Weights.Observe(w.cluster, id.namespace, w.store[id].spec, st.weights).Observed? <==> Observable(w, id)
  {
  }

  lemma {:induction false} LoopsWithErrors(w: World, id: ExpId, st: Status, loop: nat, k: nat, errors: set<Job>)
    requires id in w.store && 1 <= loop <= k <= GetMaxLoops(w.store[id].spec) && JobIs(w, id, LoopJob(k), JobRunning)
    requires forall i: nat :: loop <= i < k && HasJob(w, id, LoopJob(i)) ==> w.jobs[JobKey(id, LoopJob(i))] == JobComplete
    ensures StopsWithEndIf(CheckLoops(w, id, w.store[id].spec, st, loop, errors), SomeLoopFails(w, id, loop, k, errors))
    decreases k - loop
  {
    ObservableWhatever(w, id, st);
    hide Weights.Observe, Observable;
    var c := CheckOne(w, id, w.store[id].spec, st, LoopHandler, loop, errors);
    if LoopJob(loop) in errors {
      assert Reached(w, id, loop, loop);
    } else if loop < k && c.Continue? {
      LoopsWithErrors(w, id, c.st, loop + 1, k, errors);
      LaterLoops(w, id, loop, k, errors);
    }
  }

  lemma LaterLoops(w: World, id: ExpId, loop: nat, k: nat, errors: set<Job>)
    requires id in w.store && loop < k && LoopJob(loop) !in errors
    requires HasJob(w, id, LoopJob(loop)) ==> Observable(w, id)
    ensures SomeLoopFails(w, id, loop, k, errors) <==> SomeLoopFails(w, id, loop + 1, k, errors)
  {
    hide Observable;
    forall i: nat | loop < i <= k ensures Reached(w, id, loop, i) <==> Reached(w, id, loop + 1, i) {
    }
  }

  /** The check of a handler that is not a loop, while job `r` runs. */
  lemma PlainTypeWithErrors(w: World, id: ExpId, t: HandlerType, errors: set<Job>, r: Job)
    requires id in w.store && RunsAlone(w, id, r) && JobIs(w, id, r, JobRunning) && t != LoopHandler
    ensures var st := w.store[id].status;
            var c := CheckType(w, id, w.store[id].spec, st, t, errors);
            if HasHandler(w.store[id].spec, t) && JobOf(t, 0) in errors then c == Stop(End(st.(failed := True)))
            else if JobOf(t, 0) == r then c == Stop(Save(st))
            else c == Continue(st)
  {
    assert HasHandler(w.store[id].spec, t) ==> Inspected(w.store[id].spec, JobOf(t, 0));
  }

  /** The check goes through the types in order, as long as it does not stop. */
  lemma Chain(w: World, id: ExpId, errors: set<Job>)
    requires id in w.store
    ensures var sp, st := w.store[id].spec, w.store[id].status;
            var start, finish := CheckType(w, id, sp, st, StartHandler, errors), CheckType(w, id, sp, st, FinishHandler, errors);
            var c := CheckHandlers(w, id, sp, st, errors);
            && (start.Stop? ==> c == start)
            && (start == Continue(st) && finish.Stop? ==> c == finish)
            && (start == finish == CheckType(w, id, sp, st, RollbackHandler, errors)
                  == CheckType(w, id, sp, st, FailureHandler, errors) == Continue(st) ==>
                  c == CheckType(w, id, sp, st, LoopHandler, errors))
  {
    hide CheckType;
    var sp, st := w.store[id].spec, w.store[id].status;
    var start, finish := CheckType(w, id, sp, st, StartHandler, errors), CheckType(w, id, sp, st, FinishHandler, errors);
    assert CheckTypes(w, id, sp, st, 1, errors) == start;
    assert start == Continue(st) ==> CheckTypes(w, id, sp, st, 2, errors) == finish;
    assert CheckTypes(w, id, sp, st, 2, errors).Stop? ==> CheckTypes(w, id, sp, st, 3, errors) == CheckTypes(w, id, sp, st, 2, errors);
    assert CheckTypes(w, id, sp, st, 3, errors).Stop? ==> CheckTypes(w, id, sp, st, 4, errors) == CheckTypes(w, id, sp, st, 3, errors);
    if start == finish == CheckType(w, id, sp, st, RollbackHandler, errors)
        == CheckType(w, id, sp, st, FailureHandler, errors) == Continue(st) {
      assert CheckTypes(w, id, sp, st, 3, errors) == Continue(st);
      assert CheckTypes(w, id, sp, st, 4, errors) == Continue(st);
    }
  }

  /** The whole check, while job `r` runs. */
  lemma CheckWithErrors(w: World, id: ExpId, errors: set<Job>, r: Job)
    requires id in w.store && RunsAlone(w, id, r) && JobIs(w, id, r, JobRunning)
    ensures StopsWithEndIf(CheckHandlers(w, id, w.store[id].spec, w.store[id].status, errors),
                           LookupFailsBy(w, id, errors, r))
  {
    hide CheckType, CheckHandlers, CheckLoops, CheckOne, Observable, Reached;
    var sp, st := w.store[id].spec, w.store[id].status;
    PlainTypeWithErrors(w, id, StartHandler, errors, r);
    PlainTypeWithErrors(w, id, FinishHandler, errors, r);
    PlainTypeWithErrors(w, id, RollbackHandler, errors, r);
    PlainTypeWithErrors(w, id, FailureHandler, errors, r);
    Chain(w, id, errors);
    if StartJob in errors && HasHandler(sp, StartHandler) {
      assert Inspected(sp, StartJob) && Position(StartJob) <= Position(r);
    } else if r == StartJob {
    } else if FinishJob in errors && HasHandler(sp, FinishHandler) {
      assert Inspected(sp, FinishJob) && Position(FinishJob) <= Position(r);
    } else if r.LoopJob? {
      LoopTypeWithErrors(w, id, errors, r);
      LoopsDecide(w, id, errors, r.k);
    }
  }

  lemma LoopTypeWithErrors(w: World, id: ExpId, errors: set<Job>, r: Job)
    requires id in w.store && RunsAlone(w, id, r) && JobIs(w, id, r, JobRunning) && r.LoopJob?
    ensures StopsWithEndIf(CheckType(w, id, w.store[id].spec, w.store[id].status, LoopHandler, errors),
                           SomeLoopFails(w, id, 1, r.k, errors))
  {
    hide CheckLoops, SomeLoopFails, Holds;
    forall i: nat | 1 <= i < r.k && HasJob(w, id, LoopJob(i)) ensures w.jobs[JobKey(id, LoopJob(i))] == JobComplete {
      assert Inspected(w.store[id].spec, LoopJob(i));
    }
    LoopsWithErrors(w, id, w.store[id].status, 1, r.k, errors);
  }

  lemma LoopsDecide(w: World, id: ExpId, errors: set<Job>, k: nat)
    requires id in w.store && Inspected(w.store[id].spec, LoopJob(k))
    requires !(StartJob in errors && HasHandler(w.store[id].spec, StartHandler))
    requires !(FinishJob in errors && HasHandler(w.store[id].spec, FinishHandler))
    ensures LookupFailsBy(w, id, errors, LoopJob(k)) <==> SomeLoopFails(w, id, 1, k, errors)
  {
    hide Reached;
    if SomeLoopFails(w, id, 1, k, errors) {
      var i: nat :| 1 <= i <= k && LoopJob(i) in errors && Reached(w, id, 1, i);
      assert Inspected(w.store[id].spec, LoopJob(i)) && Position(LoopJob(i)) <= Position(LoopJob(k));
    }
  }

  /** A check that stops is the whole reconcile. */
  lemma StoppedPlan(w: World, id: ExpId, env: Inputs)
    requires id in w.store && InputsOk(w.store[id], env) && Active(w.store[id])
    ensures var c := CheckHandlers(w, id, w.store[id].spec, w.store[id].status, env.lookupErrors);
            c.Stop? ==> Decide(w, id, env) == Plan(w.store[id].status, w.cluster, c.act)
  {
  }

  /** The status with which a check stops is that of the experiment, but for its weights and its failure. */
  lemma StoppedStatus(w: World, id: ExpId, errors: set<Job>)
    requires ExpInv(w, id, false) && Active(w.store[id])
    ensures var st := w.store[id].status;
            match CheckHandlers(w, id, w.store[id].spec, st, errors)
            case Stop(End(st')) => st'.acquired == st.acquired && st'.completed == st.completed && st'.stage == st.stage
            case Stop(Save(st')) => st'.acquired == st.acquired && st'.completed == st.completed
            case _ => true
  {
    hide CheckHandlers;
    CheckHandlersOk(w, id, errors, false);
  }

  /** While one of its jobs runs, an experiment launches nothing, and it gives up its target if and only if a
      job lookup fails no later than that of the running job and a write persists. */
  lemma LookupErrorReleases(w: World, id: ExpId, env: Inputs, r: Job)
    requires ExpInv(w, id, false) && InputsOk(w.store[id], env) && RunsAlone(w, id, r) && JobIs(w, id, r, JobRunning)
    ensures var w' := Reconcile(w, id, env);
            w'.jobs == w.jobs && id in w'.store && (!Holds(w', id) <==> Releases(w, id, env, r))
  {
    hide Reconcile, Decide, CheckHandlers, LookupFailsBy, After, InputsOk, CheckedOk, FinishInv, RunsAlone;
    HolderIsActive(w, id, r);
    CheckWithErrors(w, id, env.lookupErrors, r);
    StoppedStatus(w, id, env.lookupErrors);
    StoppedPlan(w, id, env);
    ReconcileParts(w, id, env);
    var act := Decide(w, id, env).act;
    if act.End? {
      AfterIsRank(Completed, act.st.stage);
    }
  }

  lemma HolderIsActive(w: World, id: ExpId, r: Job)
    requires ExpInv(w, id, false) && RunsAlone(w, id, r)
    ensures Holds(w, id) && Active(w.store[id])
  {
  }

  // ---- Harmless events keep the invariant ----

  /** The event neither creates an experiment under a name for which a job still runs, nor reconciles one that
      gives up its target while its job runs. */
  ghost predicate Harmless(w: World, ev: Event) {
    match ev
    case Created(id, _) => forall j :: !JobIs(w, id, j, JobRunning)
    case Reconciled(id, env) => id in w.store ==> forall r :: JobIs(w, id, r, JobRunning) ==> !Releases(w, id, env, r)
    case _ => true
  }

  /** Nothing of what the invariant says of an experiment has changed. */
  lemma BusyKept(w: World, w': World, id: ExpId)
    requires id in w.store && id in w'.store && BusyInv(w, id)
    requires forall j :: HasJob(w', id, j) <==> HasJob(w, id, j)
    requires forall j :: HasJob(w, id, j) && HasJob(w', id, j) ==> w'.jobs[JobKey(id, j)] == w.jobs[JobKey(id, j)]
    requires w'.store[id].spec == w.store[id].spec.(versionInfo := w'.store[id].spec.versionInfo)
    requires Holds(w, id) ==> Holds(w', id)
    ensures BusyInv(w', id)
  {
    hide Holds;
    forall r | JobIs(w', id, r, JobRunning) ensures RunsAlone(w', id, r) {
      assert JobIs(w, id, r, JobRunning);
      assert forall j :: Inspected(w'.store[id].spec, j) <==> Inspected(w.store[id].spec, j);
    }
  }

  lemma LoopInRange(sp: Spec, k: nat, iterations: nat)
    requires WellFormed(sp) && 0 < iterations <= Total(sp) && iterations == k * GetIterationsPerLoop(sp)
    ensures 1 <= k <= GetMaxLoops(sp)
  {
    Factor(k, GetIterationsPerLoop(sp), GetMaxLoops(sp));
  }

  /** A job that is launched where none runs runs alone. */
  lemma LaunchAlone(w: World, w': World, id: ExpId, st: Status, fin: Status, j: Job)
    requires ExpInv(w, id, false) && Active(w.store[id]) && MayLaunch(w, id, st, j, false)
    requires Becomes(w, w', id, fin, CreateJob(w.jobs, JobKey(id, j)))
    requires SameCore(st, fin) || SameCore(w.store[id].status, fin)
    requires forall i :: !JobIs(w, id, i, JobRunning)
    ensures BusyInv(w', id)
  {
    if j.LoopJob? {
      LoopInRange(w.store[id].spec, j.k, st.iterations);
    }
    assert Holds(w', id) && Inspected(w.store[id].spec, j);
    assert forall i :: HasJob(w', id, i) <==> HasJob(w, id, i) || i == j;
    forall r | JobIs(w', id, r, JobRunning) ensures RunsAlone(w', id, r) {
      assert r == j by {
        assert !JobIs(w, id, r, JobRunning);
      }
    }
  }

  lemma NothingRuns(w: World, w': World, id: ExpId)
    requires id in w'.store && w'.jobs == w.jobs && forall i :: !JobIs(w, id, i, JobRunning)
    ensures BusyInv(w', id)
  {
    assert forall i :: JobIs(w', id, i, JobRunning) ==> JobIs(w, id, i, JobRunning);
  }

  /** With no job running, whatever a reconcile launches runs alone. */
  lemma ReconcileIdle(w: World, id: ExpId, env: Inputs)
    requires Inv(w) && id in w.store && InputsOk(w.store[id], env) && forall j :: !JobIs(w, id, j, JobRunning)
    ensures BusyInv(Reconcile(w, id, env), id)
  {
    hide Reconcile, Decide, InputsOk, MayLaunch, MaySave, MayEnd, BusyInv, SameCore;
    ReconcileParts(w, id, env);
    var w', act := Reconcile(w, id, env), Decide(w, id, env).act;
    assert ExpInv(w, id, false);
    if !Active(w.store[id]) {
      IdleStep(w, id, env);
      NothingRuns(w, w', id);
    } else {
      DecideOk(w, id, env, false);
      if act.Launch? {
        Itself(act.st);
        LaunchAlone(w, w', id, act.st, w'.store[id].status, act.job);
      } else {
        NothingRuns(w, w', id);
      }
    }
  }

  lemma Itself(st: Status)
    ensures SameCore(st, st)
  {
  }

  /** A harmless reconcile keeps the experiment's part of the invariant. */
  lemma ReconcileKeepsBusy(w: World, id: ExpId, env: Inputs)
    requires QInv(w) && id in w.store && InputsOk(w.store[id], env) && Harmless(w, Reconciled(id, env))
    ensures BusyInv(Reconcile(w, id, env), id)
  {
    hide Reconcile, Decide, InputsOk, Releases, RunsAlone, Holds, Inv;
    if r :| JobIs(w, id, r, JobRunning) {
      Steps.ExpOf(w, id);
      LookupErrorReleases(w, id, env, r);
      ReconcileParts(w, id, env);
      BusyKept(w, Reconcile(w, id, env), id);
    } else {
      ReconcileIdle(w, id, env);
    }
  }

  /** When a job ends, no other of its experiment's runs. */
  lemma JobEndKeepsBusy(w: World, key: JobKey, ok: bool)
    requires Enabled(w, JobEnded(key, ok)) && key.exp in w.store && BusyInv(w, key.exp)
    ensures BusyInv(Apply(w, JobEnded(key, ok)), key.exp)
  {
    hide Holds, Inspected, Reconcile;
    var w' := Apply(w, JobEnded(key, ok));
    assert JobIs(w, key.exp, key.job, JobRunning) && !JobIs(w', key.exp, key.job, JobRunning);
    forall r | JobIs(w, key.exp, r, JobRunning) ensures r == key.job {
      RunsOnce(w, key.exp, r, key.job);
    }
    assert forall r :: JobIs(w', key.exp, r, JobRunning) ==> JobIs(w, key.exp, r, JobRunning);
  }

  /** Experiments that an event is not about keep their part of the invariant. */
  lemma ElsewhereBusy(w: World, ev: Event, id: ExpId)
    requires Enabled(w, ev) && id in w.store && id in Apply(w, ev).store && BusyInv(w, id)
    requires !(ev.Reconciled? && ev.id == id) && !(ev.JobEnded? && ev.key.exp == id)
    ensures BusyInv(Apply(w, ev), id)
  {
    hide Reconcile, BusyInv, InputsOk;
    var w' := Apply(w, ev);
    if ev.Reconciled? {
      if ev.id in w.store {
        ReconcileParts(w, ev.id, ev.env);
        assert w'.store[id] == w.store[id];
      } else {
        CleanupSpares(w, ev.id, ev.env, id);
      }
    }
    assert forall j :: HasJob(w', id, j) <==> HasJob(w, id, j);
    BusyKept(w, w', id);
  }

  lemma HarmlessKeeps(w: World, ev: Event)
    requires QInv(w) && Enabled(w, ev) && Harmless(w, ev)
    ensures QInv(Apply(w, ev))
  {
    hide Reconcile, BusyInv, Inv, InputsOk;
    EventKeeps(w, ev);
    var w' := Apply(w, ev);
    forall id | id in w'.store ensures BusyInv(w', id) {
      if ev.Reconciled? && ev.id == id {
        StoreKept(w, ev.id, ev.env);
        ReconcileKeepsBusy(w, id, ev.env);
      } else if ev.JobEnded? && ev.key.exp == id {
        JobEndKeepsBusy(w, ev.key, ev.succeeded);
      } else if ev.Created? && ev.id == id {
        NothingRuns(w, w', id);
      } else {
        StoreOnlyGrowsByCreation(w, ev, id);
        ElsewhereBusy(w, ev, id);
      }
    }
  }

  lemma StoreKept(w: World, id: ExpId, env: Inputs)
    requires id in w.store ==> InputsOk(w.store[id], env)
    ensures Reconcile(w, id, env).store.Keys == w.store.Keys
  {
  }

  lemma StoreOnlyGrowsByCreation(w: World, ev: Event, id: ExpId)
    requires Enabled(w, ev) && id in Apply(w, ev).store && !(ev.Created? && ev.id == id)
    ensures id in w.store
  {
    hide Reconcile, InputsOk;
    if ev.Reconciled? {
      StoreKept(w, ev.id, ev.env);
    }
  }

  // ---- All other events end quiescence ----

  lemma HarmfulBreaks(w: World, ev: Event)
    requires QInv(w) && Enabled(w, ev) && !Harmless(w, ev)
    ensures !Quiescent(Apply(w, ev))
  {
    hide Reconcile, InputsOk, Releases, RunsAlone;
    var w' := Apply(w, ev);
    var r :| JobIs(w, ev.id, r, JobRunning) && (ev.Reconciled? ==> Releases(w, ev.id, ev.env, r));
    if ev.Reconciled? {
      Steps.ExpOf(w, ev.id);
      LookupErrorReleases(w, ev.id, ev.env, r);
    }
    assert Runs(w', JobKey(ev.id, r)) && !Holds(w', ev.id);
  }

  /** From a state with the invariant, an event leads to a quiescent state if and only if it is harmless. */
  lemma QuiescenceStep(w: World, ev: Event)
    requires QInv(w) && Enabled(w, ev)
    ensures Quiescent(Apply(w, ev)) <==> Harmless(w, ev)
    ensures Harmless(w, ev) ==> QInv(Apply(w, ev))
  {
    hide *;
    if Harmless(w, ev) {
      HarmlessKeeps(w, ev);
      AloneIsQuiescent(Apply(w, ev));
    } else {
      HarmfulBreaks(w, ev);
    }
  }

  // ---- Whole runs ----

  /** Every state along the run is quiescent. */
  ghost predicate AlwaysQuiescent(w: World, evs: seq<Event>)
    requires IsRun(w, evs)
    decreases |evs|
  {
    Quiescent(w) && (evs != [] ==> AlwaysQuiescent(Apply(w, evs[0]), evs[1..]))
  }

  /** Every event along the run is harmless where it happens. */
  ghost predicate AllHarmless(w: World, evs: seq<Event>)
    requires IsRun(w, evs)
    decreases |evs|
  {
    evs != [] ==> Harmless(w, evs[0]) && AllHarmless(Apply(w, evs[0]), evs[1..])
  }

  lemma {:induction false} RunQuiescence(w: World, evs: seq<Event>)
    requires QInv(w) && IsRun(w, evs)
    ensures AlwaysQuiescent(w, evs) <==> AllHarmless(w, evs)
    ensures AllHarmless(w, evs) ==> QInv(Final(w, evs))
    decreases |evs|
  {
    hide *;
    RunSteps(w, evs);
    AloneIsQuiescent(w);
    if evs != [] {
      QuiescenceStep(w, evs[0]);
      if Harmless(w, evs[0]) {
        RunQuiescence(Apply(w, evs[0]), evs[1..]);
      }
    }
  }

  lemma RunSteps(w: World, evs: seq<Event>)
    requires IsRun(w, evs)
    ensures evs == [] ==> (AlwaysQuiescent(w, evs) <==> Quiescent(w)) && AllHarmless(w, evs) && Final(w, evs) == w
    ensures evs != [] ==>
      && Enabled(w, evs[0]) && IsRun(Apply(w, evs[0]), evs[1..])
      && (AlwaysQuiescent(w, evs) <==> Quiescent(w) && AlwaysQuiescent(Apply(w, evs[0]), evs[1..]))
      && (AlwaysQuiescent(Apply(w, evs[0]), evs[1..]) ==> Quiescent(Apply(w, evs[0])))
      && (AllHarmless(w, evs) <==> Harmless(w, evs[0]) && AllHarmless(Apply(w, evs[0]), evs[1..]))
      && Final(w, evs) == Final(Apply(w, evs[0]), evs[1..])
  {
    hide Quiescent, Harmless, Apply, Enabled;
  }

  /** Handler quiescence, over all runs whatever: every state is quiescent if and only if no experiment is
      created under a name for which a job still runs, and no lookup error, in the check and with a write that
      persists, makes an experiment give up its target while its job runs. */
  lemma HandlerQuiescence(w0: World, evs: seq<Event>)
    requires Initial(w0) && IsRun(w0, evs)
    ensures AlwaysQuiescent(w0, evs) <==> AllHarmless(w0, evs)
  {
    RunQuiescence(w0, evs);
  }
}
