/** The controller itself: methods that change the instance in memory and the cluster's state in place,
    each tied to the functions of module Controller that the protocol's theorems are about. */
module Reconciler {
  import opened Prelude
  import opened Stages
  import opened JobNames
  import opened Experiments
  import opened Targets
  import opened Controller
  import Metrics
  import Weights

  /** How a step of a reconcile left it: to be continued, ended, or in a nil dereference. */
  datatype Outcome = Proceed | Over | Panicked

  /** Whether an act ends a reconcile normally. */
  function Ending(act: Act): Outcome {
    if act.Crash? then Panicked else Over
  }

  class ExperimentReconciler {
    var store: ExpStore
    var jobs: map<JobKey, JobState>
    var cluster: Weights.Cluster
    var now: int
    var released: seq<ExpId>   // the events sent to ReleaseEvents

    function State(): World
      reads this
    {
      World(store, jobs, cluster, now)
    }

    // ---- Writing the status ----

    /** The store still holds the status that was read, or an early write of this reconcile that shows in
        the status in memory. */
    predicate Tracked(instance: Instance, original: Status)
      reads this, instance
    {
      && instance.id in store && instance.spec.target == store[instance.id].spec.target
      && (store[instance.id].status == original || WrittenEarly(instance.status, original))
    }

    /** A status that is the one read need not be written: the store holds it. */
    predicate InStep(instance: Instance, original: Status)
      reads this, instance
    {
      instance.id in store && (instance.status == original ==> store[instance.id].status == original)
    }

    /** updateStatus: writes only what differs from the status that was read. */
    method UpdateStatus(instance: Instance, original: Status, persists: bool)
      requires InStep(instance, original)
      modifies this`store
      ensures store == Put(old(store), instance.id, instance.status, persists)
    {
      if instance.status != original && persists {
        store := store[instance.id := store[instance.id].(status := instance.status)];
      }
      assert instance.status == original ==> store[instance.id].(status := original) == store[instance.id];
    }

    method EndRequest(instance: Instance, original: Status, env: Inputs)
      requires InStep(instance, original)
      modifies this`store
      ensures State() == Do(old(State()), instance.id, Save(instance.status), env)
    {
      UpdateStatus(instance, original, env.write);
    }

    method AdvanceStage(instance: Instance, to: Stage) returns (advanced: bool)
      modifies instance
      ensures instance.spec == old(instance.spec) && instance.status == Controller.AdvanceStage(old(instance.status), to)
      ensures advanced <==> After(to, old(instance.status.stage))
    {
      if After(to, instance.status.stage) {
        instance.status := instance.status.(stage := to);
        instance.status := instance.status.(completed := False);
        return true;
      }
      return false;
    }

    // ---- Ending ----

    method TriggerNextExperiment(target: string, skip: Option<ExpId>) returns (ghost next: Option<ExpId>)
      modifies this`released
      ensures IsNextWaiting(store, target, skip, now, next)
      ensures released == old(released) + Sent(next)
    {
      var found := NextWaitingExperiment(store, target, skip, now);
      next := found;
      if found.Some? {
        released := released + [found.value];
      }
    }

    /** What the end of an experiment releases: the next one waiting in the store after the first write. */
    ghost predicate Released(w: World, id: ExpId, st: Status, env: Inputs, was: seq<ExpId>)
      requires id in w.store
      reads this
    {
      if After(Completed, st.stage) then
        exists next :: Triggers(w, id, st, env, next) && released == was + Sent(next)
      else released == was
    }

    /** The act has been done in world `w`, and only an end released an experiment. */
    ghost predicate Done(w: World, id: ExpId, act: Act, env: Inputs, was: seq<ExpId>)
      requires id in w.store
      reads this
    {
      State() == Do(w, id, act, env) && if act.End? then Released(w, id, act.st, env, was) else released == was
    }

    method EndExperiment(instance: Instance, original: Status, env: Inputs)
      requires Tracked(instance, original)
      modifies this`store, this`released, instance
      ensures Done(old(State()), instance.id, End(old(instance.status)), env, old(released))
      ensures instance.spec == old(instance.spec)
    {
      hide IsNextWaiting, After;
      ghost var st := instance.status;
      var advanced := AdvanceStage(instance, Completed);
      if advanced {
        instance.status := instance.status.(completed := True);
        UpdateStatus(instance, original, env.endWrite);
        var next := TriggerNextExperiment(instance.spec.target, Some(instance.id));
      }
      ghost var mid := store;
      EndRequest(instance, original, env);
      assert Put(mid, instance.id, Ended(st), env.write) == Put(old(store), instance.id, Ended(st), EndPersists(st, env));
    }

    // ---- Handlers ----

    /** LaunchHandler: a job that exists already is no error. */
    method LaunchHandler(id: ExpId, j: Job, env: Inputs) returns (ok: bool)
      modifies this`jobs
      ensures ok == env.launchOk
      ensures jobs == if ok then CreateJob(old(jobs), JobKey(id, j)) else old(jobs)
    {
      if !env.launchOk {
        return false;
      }
      if JobKey(id, j) !in jobs {
        jobs := jobs[JobKey(id, j) := JobRunning];
      }
      return true;
    }

    /** launchHandlerWrapper; `advance` is the stage a successful launch advances to. */
    method LaunchHandlerWrapper(instance: Instance, original: Status, t: HandlerType, loop: nat, prerequisite: bool,
                                advance: Option<Stage>, env: Inputs) returns (stop: bool)
      requires Tracked(instance, original)
      modifies this`store, this`jobs, this`released, instance
      ensures instance.spec == old(instance.spec)
      ensures stop <==> HasHandler(instance.spec, t) && prerequisite
      ensures !stop ==> State() == old(State()) && instance.status == old(instance.status) && released == old(released)
      ensures stop ==>
        var st := old(instance.status);
        var launched := if advance.Some? then Controller.AdvanceStage(st, advance.value) else st;
        Done(old(State()), instance.id, LaunchJob(st, launched, JobOf(t, loop), env), env, old(released))
    {
      hide Released, HasHandler, After;
      if !HasHandler(instance.spec, t) {
        return false;
      }
      if !prerequisite {
        return false;
      }
      var ok := LaunchHandler(instance.id, JobOf(t, loop), env);
      if !ok {
        EndExperiment(instance, original, env);
        return true;
      }
      if advance.Some? {
        var advanced := AdvanceStage(instance, advance.value);
      }
      instance.status := instance.status.(completed := False);
      EndRequest(instance, original, env);
      return true;
    }

    /** finishExperiment and rollbackExperiment, which differ in the type of the handler. */
    method TerminateExperiment(instance: Instance, original: Status, t: HandlerType, env: Inputs)
      requires Tracked(instance, original)
      modifies this`store, this`jobs, this`released, instance
      ensures var act := Terminate(old(instance.spec), old(instance.status), t, env);
              !act.Crash? && Done(old(State()), instance.id, act, env, old(released))
    {
      var stop := LaunchHandlerWrapper(instance, original, t, 0, true, Some(Finishing), env);
      if !stop {
        EndExperiment(instance, original, env);
      }
    }

    /** A check of handlers has ended as `c` says: nothing but the status in memory has changed, or the
        reconcile is over. */
    ghost predicate Checked(w: World, instance: Instance, c: Check, outcome: Outcome, env: Inputs, was: seq<ExpId>)
      requires instance.id in w.store
      reads this, instance
    {
      match c
      case Continue(st) => outcome == Proceed && State() == w && released == was && instance.status == st
      case Stop(act) => outcome == Ending(act) && Done(w, instance.id, act, env, was)
    }

    method CheckHandlerStatus(instance: Instance, original: Status, t: HandlerType, loop: nat, env: Inputs)
        returns (outcome: Outcome)
      requires Tracked(instance, original)
      modifies this`store, this`released, instance
      ensures instance.spec == old(instance.spec)
      ensures Checked(old(State()), instance,
                      CheckOne(old(State()), instance.id, instance.spec, old(instance.status), t, loop, env.lookupErrors),
                      outcome, env, old(released))
    {
      match GetHandlerStatus(State(), instance.id, JobOf(t, loop), env.lookupErrors) {
        case HandlerRunning =>
          EndRequest(instance, original, env);
          return Over;
        case HandlerComplete =>
          match t {
            case LoopHandler =>
              var r := Weights.UpdateObservedWeights(instance, cluster);
              return match r case Observed(_) => Proceed case Unreadable => Over case NilDereference => Panicked;
            case StartHandler =>
              return Proceed;
            case _ =>
              EndExperiment(instance, original, env);
              return Over;
          }
        case HandlerFailed =>
          instance.status := instance.status.(failed := True);
          EndExperiment(instance, original, env);
          return Over;
        case NotLaunched =>
          return Proceed;
      }
    }

    /** The body of checkHandlersStatus's loop over the handler types. */
    method CheckHandlerType(instance: Instance, original: Status, t: HandlerType, env: Inputs)
        returns (outcome: Outcome)
      requires Tracked(instance, original) && store[instance.id].status == original
      modifies this`store, this`released, instance
      ensures instance.spec == old(instance.spec)
      ensures Checked(old(State()), instance,
                      CheckType(old(State()), instance.id, instance.spec, old(instance.status), t, env.lookupErrors),
                      outcome, env, old(released))
    {
      if !HasHandler(instance.spec, t) {
        return Proceed;
      }
      if t != LoopHandler {
        outcome := CheckHandlerStatus(instance, original, t, 0, env);
        return;
      }
      ghost var w, sp, st := State(), instance.spec, instance.status;
      var loop := 1;
      while loop <= GetMaxLoops(instance.spec)
        invariant loop >= 1 && State() == w && released == old(released) && instance.spec == sp
        invariant CheckLoops(w, instance.id, sp, st, 1, env.lookupErrors)
               == CheckLoops(w, instance.id, sp, instance.status, loop, env.lookupErrors)
      {
        outcome := CheckHandlerStatus(instance, original, t, loop, env);
        if outcome != Proceed {
          return;
        }
        loop := loop + 1;
      }
      return Proceed;
    }

    method CheckHandlersStatus(instance: Instance, original: Status, env: Inputs) returns (outcome: Outcome)
      requires Tracked(instance, original) && store[instance.id].status == original
      modifies this`store, this`released, instance
      ensures instance.spec == old(instance.spec)
      ensures Checked(old(State()), instance,
                      CheckHandlers(old(State()), instance.id, instance.spec, old(instance.status), env.lookupErrors),
                      outcome, env, old(released))
    {
      ghost var w, sp, st := State(), instance.spec, instance.status;
      for i := 0 to |ALL_HANDLER_TYPES|
        invariant State() == w && released == old(released) && instance.spec == sp
        invariant CheckTypes(w, instance.id, sp, st, i, env.lookupErrors) == Continue(instance.status)
      {
        outcome := CheckHandlerType(instance, original, ALL_HANDLER_TYPES[i], env);
        if outcome != Proceed {
          StopsForGood(w, instance.id, sp, st, i + 1, env.lookupErrors);
          return;
        }
      }
      return Proceed;
    }

    // ---- Iterations ----

    /** setStartTimeIfNotSet: a write of its own, whose failure ends the reconcile. */
    method SetStartTimeIfNotSet(instance: Instance, env: Inputs) returns (ok: bool)
      requires instance.id in store
      modifies this`store, instance
      ensures instance.spec == old(instance.spec)
      ensures ok <==> old(instance.status.startTime).Some? || env.startWrite
      ensures old(instance.status.startTime).Some? ==> instance.status == old(instance.status) && store == old(store)
      ensures old(instance.status.startTime).None? ==>
        && instance.status == old(instance.status).(startTime := Some(Stamp(now)))
        && store == Put(old(store), instance.id, instance.status, env.startWrite)
    {
      if instance.status.startTime.None? {
        instance.status := instance.status.(startTime := Some(Stamp(now)));
        if !env.startWrite {
          return false;
        }
        store := store[instance.id := store[instance.id].(status := instance.status)];
      }
      return true;
    }

    /** sufficientTimePassedSincePreviousIteration; a tenth of a second early is close enough. */
    method SufficientTimePassed(instance: Instance) returns (sufficient: bool)
      ensures sufficient <==> SufficientTime(instance.spec, instance.status, now)
    {
      if instance.status.iterations == 0 || instance.status.lastUpdate.None? {
        return true;
      }
      var expectedTime := instance.status.lastUpdate.value + GetIntervalSeconds(instance.spec) * 1000;
      if now < expectedTime {
        var difference := expectedTime - now;
        return difference < 100;
      }
      return true;
    }

    /** The recommendation becomes the winner, if one is identified, and else the baseline; it is written
        only where it changes. */
    method SetVersionRecommendedForPromotion(instance: Instance, currentBaseline: string)
      modifies instance
      ensures instance.spec == old(instance.spec)
      ensures instance.status == Recommended(old(instance.status), currentBaseline)
    {
      var recommendation := currentBaseline;
      if instance.status.analysis.Some? && instance.status.analysis.value.winner.Some? {
        recommendation := instance.status.analysis.value.winner.value;
      }
      if instance.status.recommended.None? {
        instance.status := instance.status.(recommended := Some(recommendation));
      }
      if instance.status.recommended.value != recommendation {
        instance.status := instance.status.(recommended := Some(recommendation));
      }
    }

    /** The plan has been carried out from world `w`. */
    ghost predicate Performed(w: World, id: ExpId, plan: Plan, env: Inputs, was: seq<ExpId>)
      requires id in w.store
      reads this
    {
      Done(w.(store := Put(w.store, id, plan.early, true), cluster := plan.cluster), id, plan.act, env, was)
    }

    /** The end of doIteration: the iteration is counted, and a completed loop launches its handler. */
    method CompleteIteration(instance: Instance, original: Status, env: Inputs)
      requires Tracked(instance, original) && GetIterationsPerLoop(instance.spec) > 0 && instance.spec.versionInfo.Some?
      modifies this`store, this`jobs, this`released, instance
      ensures var act := CloseIteration(old(instance.spec), old(instance.status), now, env);
              !act.Crash? && Done(old(State()), instance.id, act, env, old(released))
    {
      hide Do, Released;
      SetVersionRecommendedForPromotion(instance, instance.spec.versionInfo.value.baseline.name);
      instance.status := instance.status.(iterations := instance.status.iterations + 1, lastUpdate := Some(Stamp(now)));
      instance.status := instance.status.(completed := False);
      var loop := CompletedLoop(instance.spec, instance.status);
      if loop.Some? {
        var quit := LaunchHandlerWrapper(instance, original, LoopHandler, loop.value, true, None, env);
        if quit {
          return;
        }
      }
      EndRequest(instance, original, env);
    }

    /** The part of doIteration from the redistribution of the weights on. */
    method FinishIteration(instance: Instance, original: Status, env: Inputs) returns (outcome: Outcome)
      requires Tracked(instance, original) && GetIterationsPerLoop(instance.spec) > 0 && instance.spec.versionInfo.Some?
      modifies this, instance
      ensures var r := Iterate(old(State()), instance.id, old(instance.spec), old(instance.status), env);
              outcome == Ending(r.1) && Done(old(State()).(cluster := r.0), instance.id, r.1, env, old(released))
    {
      hide Weights.Redistribute, Weights.Observe, CloseIteration, Released;
      var ok, after := Weights.RedistributeWeight(instance, cluster, env.patchOrder, env.patchFailures);
      cluster := after;
      if !ok {
        instance.status := instance.status.(failed := True);
        EndExperiment(instance, original, env);
        return Over;
      }
      var r := Weights.UpdateObservedWeights(instance, cluster);
      match r {
        case NilDereference =>
          return Panicked;
        case Unreadable =>
          instance.status := instance.status.(failed := True);
          EndExperiment(instance, original, env);
          return Over;
        case Observed(_) =>
          CompleteIteration(instance, original, env);
          return Over;
      }
    }

    method DoIteration(instance: Instance, original: Status, env: Inputs) returns (outcome: Outcome)
      requires Tracked(instance, original) && store[instance.id].status == original
      requires instance.status.startTime == original.startTime
      requires GetIterationsPerLoop(instance.spec) > 0 && instance.spec.versionInfo.Some?
      requires env.analysis.Some? ==> AnalysisOk(instance.spec, env.analysis.value)
      modifies this, instance
      ensures
        var plan := Controller.DoIteration(old(State()), instance.id, old(instance.spec), original, old(instance.status), env);
              outcome == Ending(plan.act) && Performed(old(State()), instance.id, plan, env, old(released))
    {
      hide Iterate, Terminate, MustRollback, Released, SufficientTime, MoreIterationsNeeded, CloseIteration, Wrap32,
        EndPersists, Ended;
      assert Put(store, instance.id, original, true) == store;
      var ok := SetStartTimeIfNotSet(instance, env);
      if !ok {
        return Over;
      }
      if !MoreIterationsNeeded(instance.spec, instance.status) {
        TerminateExperiment(instance, original, FinishHandler, env);
        return Over;
      }
      var sufficient := SufficientTimePassed(instance);
      if !sufficient {
        return Over;
      }
      if env.analysis.None? {
        instance.status := instance.status.(failed := True);
        EndExperiment(instance, original, env);
        return Over;
      }
      var analysis := env.analysis.value;
      if instance.status.analysis.Some? {
        analysis := analysis.(hists := instance.status.analysis.value.hists);
      }
      instance.status := instance.status.(analysis := Some(analysis));
      var failed := VersionsMustRollback(instance);
      if |failed| > 0 {
        TerminateExperiment(instance, original, RollbackHandler, env);
        return Over;
      }
      IterateReads(old(State()), State(), instance.id, instance.spec, instance.status, env);
      outcome := FinishIteration(instance, original, env);
    }

    // ---- Deleted experiments ----

    method CleanupDeletedExperiments(undeleted: set<JobKey>)
      modifies this`jobs
      ensures State() == Cleanup(old(State()), undeleted)
    {
      var rest := jobs.Keys;
      while rest != {}
        invariant rest <= old(jobs).Keys && jobs.Keys <= old(jobs).Keys
        invariant forall k :: k in jobs ==> jobs[k] == old(jobs)[k]
        invariant forall k :: k in old(jobs) ==> (k in jobs <==> k in rest || k.exp in store || k in undeleted)
        decreases rest
      {
        var k :| k in rest;
        if k.exp !in store && k !in undeleted {
          jobs := jobs - {k};
        }
        rest := rest - {k};
      }
    }

    /** Every target of a stored experiment, once, with the experiment next waiting for it. */
    ghost predicate Triggered(targets: seq<string>, nexts: seq<Option<ExpId>>, skip: Option<ExpId>)
      reads this
    {
      && Distinct(targets) && (forall t :: t in targets <==> exists e :: e in store && store[e].spec.target == t)
      && |nexts| == |targets| && forall i :: 0 <= i < |targets| ==> IsNextWaiting(store, targets[i], skip, now, nexts[i])
    }

    /** triggerWaitingExperiments: for every target of a stored experiment, once, the next one waiting. */
    method TriggerWaitingExperiments(skip: Option<ExpId>)
        returns (ghost targets: seq<string>, ghost nexts: seq<Option<ExpId>>)
      modifies this`released
      ensures Triggered(targets, nexts, skip)
      ensures released == old(released) + AllSent(nexts)
    {
      hide IsNextWaiting, AllSent, Sent;
      var items := List(store);
      var targetsAlreadyChecked := [];
      nexts := [];
      OneMoreSent(nexts, None);
      for i := 0 to |items|
        invariant Distinct(targetsAlreadyChecked)
        invariant forall e :: e in items[..i] ==> store[e].spec.target in targetsAlreadyChecked
        invariant forall t :: t in targetsAlreadyChecked ==> exists e :: e in store && store[e].spec.target == t
        invariant |nexts| == |targetsAlreadyChecked|
        invariant forall j :: 0 <= j < |nexts| ==> IsNextWaiting(store, targetsAlreadyChecked[j], skip, now, nexts[j])
        invariant released == old(released) + AllSent(nexts)
      {
        var target := store[items[i]].spec.target;
        if target in targetsAlreadyChecked {
          continue;
        }
        targetsAlreadyChecked := targetsAlreadyChecked + [target];
        var next := TriggerNextExperiment(target, skip);
        OneMoreSent(nexts, next);
        nexts := nexts + [next];
      }
      assert items[..|items|] == items;
      targets := targetsAlreadyChecked;
    }

    // ---- One reconcile ----

    /** The part of Reconcile after the start handler. */
    method ReconcileStarted(instance: Instance, original: Status, env: Inputs) returns (outcome: Outcome)
      requires Tracked(instance, original) && store[instance.id].status == original
      requires instance.status.startTime == original.startTime
      requires GetIterationsPerLoop(instance.spec) > 0 && Metrics.WellKeyed(env.metrics)
      requires env.analysis.Some? ==> AnalysisOk(instance.spec, env.analysis.value)
      modifies this, instance
      ensures var plan := DecideStarted(old(State()), instance.id, old(instance.spec), original, old(instance.status), env);
              outcome == Ending(plan.act) && Performed(old(State()), instance.id, plan, env, old(released))
    {
      hide Controller.DoIteration, Weights.Observe, Metrics.ReadNames, Released, VersionInfoValid;
      assert Put(store, instance.id, original, true) == store;
      if Metrics.ShouldReadMetrics(instance.spec, instance.status) {
        var ok, metrics := Metrics.ReadMetrics(env.metrics, instance.id.namespace, instance.spec.criteria.value);
        if !ok {
          instance.status := instance.status.(failed := True);
          EndExperiment(instance, original, env);
          return Over;
        }
        instance.status := instance.status.(metrics := metrics);
        EndRequest(instance, original, env);
        return Over;
      }
      var advanced := AdvanceStage(instance, Running);
      if advanced {
        var r := Weights.UpdateObservedWeights(instance, cluster);
        match r {
          case NilDereference =>
            return Panicked;
          case Unreadable =>
            instance.status := instance.status.(failed := True);
            EndExperiment(instance, original, env);
            return Over;
          case Observed(_) =>
            EndRequest(instance, original, env);
            return Over;
        }
      }
      var valid := IsVersionInfoValid(instance);
      if !valid {
        EndExperiment(instance, original, env);
        return Over;
      }
      assert instance.spec.versionInfo.Some? by {
        VersionsPresent(instance.spec);
      }
      SetVersionRecommendedForPromotion(instance, instance.spec.versionInfo.value.baseline.name);
      outcome := DoIteration(instance, original, env);
    }

    /** The part of Reconcile after the late initialisation of the specification. */
    method ReconcileActive(instance: Instance, original: Status, env: Inputs) returns (outcome: Outcome)
      requires Tracked(instance, original) && store[instance.id].status == original
      requires instance.status.startTime == original.startTime && instance.status.initTime == original.initTime
      requires GetIterationsPerLoop(instance.spec) > 0 && Metrics.WellKeyed(env.metrics)
      requires env.analysis.Some? ==> AnalysisOk(instance.spec, env.analysis.value)
      modifies this, instance
      ensures var plan := DecideActive(old(State()), instance.id, old(instance.spec), original, old(instance.status), env);
              outcome == Ending(plan.act) && Performed(old(State()), instance.id, plan, env, old(released))
    {
      hide DecideStarted, TasksValid, CanAcquire, Released;
      assert Put(store, instance.id, original, true) == store;
      var valid := AreTasksValid(instance.spec);
      if !valid {
        EndExperiment(instance, original, env);
        return Over;
      }
      var acquired := AcquireTarget(store, instance);
      if !acquired {
        EndRequest(instance, original, env);
        return Over;
      }
      var advanced := AdvanceStage(instance, Initializing);
      if advanced {
        EndRequest(instance, original, env);
        return Over;
      }
      var notLaunched := GetHandlerStatus(State(), instance.id, StartJob, StartErrors(env)) == NotLaunched;
      var stop := LaunchHandlerWrapper(instance, original, StartHandler, 0, notLaunched, None, env);
      if stop {
        return Over;
      }
      outcome := ReconcileStarted(instance, original, env);
    }

    /** Reconcile for an experiment that is stored. */
    method ReconcileExperiment(id: ExpId, env: Inputs) returns (outcome: Outcome)
      requires id in store && InputsOk(store[id], env)
      modifies this
      ensures var plan := Decide(old(State()), id, env);
              outcome == Ending(plan.act) && Performed(old(State()), id, plan, env, old(released))
    {
      hide CheckHandlers, DecideActive, Released;
      var instance := new Instance(id, store[id]);
      var original := instance.status;
      assert Put(store, id, original, true) == store;
      if instance.status.initTime.None? {
        instance.status := Initialized(instance.status, now);
        if env.startWrite {
          store := store[id := store[id].(status := instance.status)];
        }
        instance.status := instance.status.(completed := False);
        EndRequest(instance, original, env);
        return Over;
      }
      if instance.status.completed == True {
        EndRequest(instance, original, env);
        return Over;
      }
      outcome := CheckHandlersStatus(instance, original, env);
      if outcome != Proceed {
        return;
      }
      assert WeightsChecked(original, instance.status) by {
        CheckHandlersWeights(old(State()), id, instance.spec, original, env.lookupErrors);
      }
      instance.spec := InitializeSpec(instance.spec);
      outcome := ReconcileActive(instance, original, env);
    }

    /** Reconcile: the cluster's new state is the one the protocol is about, and the outcome is a nil
        dereference exactly when the plan is one. */
    method Reconcile(id: ExpId, env: Inputs) returns (outcome: Outcome)
      requires id in store ==> InputsOk(store[id], env)
      modifies this
      ensures State() == Controller.Reconcile(old(State()), id, env)
      ensures id in old(store) ==> outcome == Ending(Decide(old(State()), id, env).act)
      ensures id in old(store) ==> Performed(old(State()), id, Decide(old(State()), id, env), env, old(released))
      ensures id !in old(store) ==> outcome == Over
      ensures id !in old(store) ==>
        exists targets, nexts :: Triggered(targets, nexts, None) && released == old(released) + AllSent(nexts)
    {
      hide Decide, Released, Triggered, InputsOk;
      if id !in store {
        CleanupDeletedExperiments(env.undeleted);
        ghost var targets, nexts := TriggerWaitingExperiments(None);
        return Over;
      }
      outcome := ReconcileExperiment(id, env);
    }
  }

  /** The check of handlers leaves the times in memory as they were. */
  predicate WeightsChecked(original: Status, st: Status) {
    st == original.(weights := st.weights)
  }

  lemma VersionsPresent(sp: Spec)
    requires VersionInfoValid(sp)
    ensures sp.versionInfo.Some?
  {
  }

  lemma {:induction false} CheckLoopsWeights(w: World, id: ExpId, sp: Spec, st: Status, loop: nat, errors: set<Job>)
    requires CheckLoops(w, id, sp, st, loop, errors).Continue?
    ensures WeightsChecked(st, CheckLoops(w, id, sp, st, loop, errors).st)
    decreases GetMaxLoops(sp) + 1 - loop
  {
    if loop <= GetMaxLoops(sp) {
      CheckLoopsWeights(w, id, sp, CheckOne(w, id, sp, st, LoopHandler, loop, errors).st, loop + 1, errors);
    }
  }

  lemma {:induction false} CheckTypesWeights(w: World, id: ExpId, sp: Spec, st: Status, n: nat, errors: set<Job>)
    requires n <= |ALL_HANDLER_TYPES| && CheckTypes(w, id, sp, st, n, errors).Continue?
    ensures WeightsChecked(st, CheckTypes(w, id, sp, st, n, errors).st)
  {
    if n > 0 {
      CheckTypesWeights(w, id, sp, st, n - 1, errors);
      var st', t := CheckTypes(w, id, sp, st, n - 1, errors).st, ALL_HANDLER_TYPES[n - 1];
      if HasHandler(sp, t) && t == LoopHandler {
        CheckLoopsWeights(w, id, sp, st', 1, errors);
      }
    }
  }

  lemma CheckHandlersWeights(w: World, id: ExpId, sp: Spec, st: Status, errors: set<Job>)
    requires CheckHandlers(w, id, sp, st, errors).Continue?
    ensures WeightsChecked(st, CheckHandlers(w, id, sp, st, errors).st)
  {
    CheckTypesWeights(w, id, sp, st, |ALL_HANDLER_TYPES|, errors);
  }

  function Sent(next: Option<ExpId>): seq<ExpId> {
    if next.Some? then [next.value] else []
  }

  function AllSent(nexts: seq<Option<ExpId>>): seq<ExpId> {
    if nexts == [] then [] else AllSent(nexts[..|nexts| - 1]) + Sent(nexts[|nexts| - 1])
  }

  lemma OneMoreSent(nexts: seq<Option<ExpId>>, next: Option<ExpId>)
    ensures AllSent(nexts + [next]) == AllSent(nexts) + Sent(next)
    ensures AllSent([]) == []
  {
    assert (nexts + [next])[..|nexts|] == nexts;
  }

  /** One of the two writes in the course of a reconcile has been made: it shows in a time that is now set. */
  predicate WrittenEarly(st: Status, original: Status) {
    (original.initTime.None? && st.initTime.Some?) || (original.startTime.None? && st.startTime.Some?)
  }

  lemma {:induction false} StopsForGood(w: World, id: ExpId, sp: Spec, st: Status, n: nat, errors: set<Job>)
    requires n <= |ALL_HANDLER_TYPES| && CheckTypes(w, id, sp, st, n, errors).Stop?
    ensures CheckHandlers(w, id, sp, st, errors) == CheckTypes(w, id, sp, st, n, errors)
    decreases |ALL_HANDLER_TYPES| - n
  {
    if n < |ALL_HANDLER_TYPES| {
      StopsForGood(w, id, sp, st, n + 1, errors);
    }
  }

  /** An iteration reads the weight fields and the clock only. */
  lemma IterateReads(w: World, w': World, id: ExpId, sp: Spec, st: Status, env: Inputs)
    requires GetIterationsPerLoop(sp) > 0 && sp.versionInfo.Some? && w'.cluster == w.cluster && w'.now == w.now
    ensures Iterate(w', id, sp, st, env) == Iterate(w, id, sp, st, env)
  {
  }

  /** The version fails an objective that is to cause a rollback. */
  predicate FailsSome(sp: Spec, a: Analysis, version: string, n: nat)
    requires sp.criteria.Some? && n <= |sp.criteria.value.objectives| && AnalysisOk(sp, a)
  {
    version in a.assessments &&
    exists i :: 0 <= i < n && GetRollbackOnFailure(sp.criteria.value.objectives[i], GetDeploymentPattern(sp))
      && !a.assessments[version][i]
  }

  /** versionsMustRollback: the versions that fail an objective with rollback; the rollback is due exactly
      when there is one. */
  method VersionsMustRollback(instance: Instance) returns (failedVersions: seq<string>)
    requires instance.status.analysis.Some? && AnalysisOk(instance.spec, instance.status.analysis.value)
    ensures |failedVersions| > 0 <==> MustRollback(instance.spec, instance.status.analysis.value)
    ensures instance.spec.criteria.Some? ==> forall v :: v in failedVersions <==>
              FailsSome(instance.spec, instance.status.analysis.value, v, |instance.spec.criteria.value.objectives|)
  {
    failedVersions := [];
    if instance.spec.criteria.None? {
      return;
    }
    var deploymentPattern := GetDeploymentPattern(instance.spec);
    var objectives := instance.spec.criteria.value.objectives;
    var a := instance.status.analysis.value;
    for index := 0 to |objectives|
      invariant forall v :: v in failedVersions <==> FailsSome(instance.spec, a, v, index)
    {
      if GetRollbackOnFailure(objectives[index], deploymentPattern) {
        var rest := a.assessments.Keys;
        while rest != {}
          invariant rest <= a.assessments.Keys
          invariant forall v :: v in failedVersions <==>
            (FailsSome(instance.spec, a, v, index) || (v in a.assessments && v !in rest && !a.assessments[v][index]))
          decreases rest
        {
          var version :| version in rest;
          if !a.assessments[version][index] {
            failedVersions := failedVersions + [version];
          }
          rest := rest - {version};
        }
      }
    }
    if |failedVersions| > 0 {
      assert failedVersions[0] in failedVersions;
    }
    if MustRollback(instance.spec, a) {
      var i, v :| 0 <= i < |objectives| && v in a.assessments
        && GetRollbackOnFailure(objectives[i], deploymentPattern) && !a.assessments[v][i];
      assert FailsSome(instance.spec, a, v, |objectives|);
    }
  }
}
