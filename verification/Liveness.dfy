/** How many reconciles an experiment needs: a rank that no event raises and every reconcile lowers that
    is not held up, and exactly what holds one up. */
module Liveness {
  import opened Prelude
  import opened Stages
  import opened JobNames
  import opened Experiments
  import opened Targets
  import opened Controller
  import opened Protocol
  import opened Safety
  import Metrics
  import Steps
  import Weights

  // ---- The rank ----

  predicate StartPending(w: World, id: ExpId)
    requires id in w.store
  {
    HasHandler(w.store[id].spec, StartHandler) && !HasJob(w, id, StartJob)
  }

  predicate MetricsPending(x: Experiment) {
    Metrics.ShouldReadMetrics(x.spec, x.status)
  }

  function One(b: bool): nat {
    if b then 1 else 0
  }

  /** How much the experiment still has to do; 0 exactly when it has completed. */
  function Remaining(w: World, id: ExpId): int
    requires id in w.store
  {
    var x := w.store[id];
    var n := Total(x.spec);
    if x.status.completed == True then 0
    else if x.status.initTime.None? then n + 8
    else if HasJob(w, id, FinishJob) then 1
    else if x.status.acquired != True then n + 7
    else if x.status.stage == Waiting then n + 6
    else 2 + One(StartPending(w, id)) + One(MetricsPending(x)) + One(x.status.stage == Initializing) + n - x.status.iterations
  }

  lemma RemainingRange(w: World, id: ExpId)
    requires ExpInv(w, id, false)
    ensures 0 <= Remaining(w, id) <= Total(w.store[id].spec) + 8
    ensures Remaining(w, id) == 0 <==> w.store[id].status.completed == True
  {
  }

  // ---- No event raises it ----

  lemma SaveLowers(w: World, w': World, id: ExpId, st: Status, own: bool)
    requires ExpInv(w, id, own) && Active(w.store[id]) && MaySave(w, id, st, own)
    requires Becomes(w, w', id, st, w.jobs)
    ensures Remaining(w', id) <= Remaining(w, id)
    ensures !SameCore(w.store[id].status, st) && !HasJob(w, id, FinishJob) ==> Remaining(w', id) < Remaining(w, id)
  {
  }

  lemma LaunchLowers(w: World, w': World, id: ExpId, st: Status, fin: Status, j: Job, own: bool)
    requires ExpInv(w, id, own) && Active(w.store[id]) && MayLaunch(w, id, st, j, own)
    requires Becomes(w, w', id, fin, CreateJob(w.jobs, JobKey(id, j)))
    requires fin == st || SameCore(w.store[id].status, fin)
    ensures Remaining(w', id) <= Remaining(w, id)
    ensures fin == st && own ==> Remaining(w', id) < Remaining(w, id)
  {
  }

  lemma EndLowers(w: World, w': World, id: ExpId, st: Status, own: bool)
    requires ExpInv(w, id, own) && Active(w.store[id]) && MayEnd(w, id, st, own)
    requires Becomes(w, w', id, Ended(st), w.jobs)
    ensures Remaining(w', id) == 0 < Remaining(w, id)
  {
  }

  lemma PlanLowers(w: World, id: ExpId, plan: Plan, env: Inputs, own: bool)
    requires ExpInv(w, id, own) && Active(w.store[id]) && MayPlan(w, id, plan, own)
    ensures var w' := Perform(w, id, plan, env);
            && Remaining(w', id) <= Remaining(w, id)
            && (env.write && (plan.act.End? || (plan.act.Launch? && own)) ==>
                  Remaining(w', id) < Remaining(w, id))
            && (env.write && plan.act.Save? && !SameCore(w.store[id].status, plan.act.st) && !HasJob(w, id, FinishJob) ==>
                  Remaining(w', id) < Remaining(w, id))
  {
    PerformParts(w, id, plan, env);
    var w' := Perform(w, id, plan, env);
    hide Perform, Ended, ExpInv, MayLaunch, MayEnd, CreateJob, Active, Remaining;
    match plan.act {
      case Launch(st, j) =>
        LaunchLowers(w, w', id, st, w'.store[id].status, j, own);
      case End(st) =>
        if EndPersists(st, env) {
          EndLowers(w, w', id, st, own);
        } else {
          SaveLowers(w, w', id, plan.early, own);
        }
      case Save(st) =>
        SaveLowers(w, w', id, if env.write then st else plan.early, own);
      case _ =>
        SaveLowers(w, w', id, plan.early, own);
    }
  }

  // ---- What holds a reconcile up ----

  predicate SomeJobIs(w: World, id: ExpId, state: JobState) {
    exists key :: key in w.jobs && key.exp == id && w.jobs[key] == state
  }

  predicate WeightsUnreadable(w: World, id: ExpId)
    requires id in w.store
  {
    Weights.Observe(w.cluster, id.namespace, w.store[id].spec, w.store[id].status.weights).Unreadable?
  }

  /** Past the check of its handlers, the experiment waits for its target or for the next iteration. */
  predicate MustWait(w: World, id: ExpId)
    requires id in w.store
  {
    var x := w.store[id];
    var sp := InitializeSpec(x.spec);
    && TasksValid(sp)
    && if x.status.acquired != True then !CanAcquire(w.store, id)
       else
         && x.status.stage == Running && !StartPending(w, id) && !MetricsPending(x) && VersionInfoValid(sp)
         && x.status.iterations < Total(x.spec) && !SufficientTime(sp, x.status, w.now)
  }

  /** The experiment is initialised and a job runs, or its weights cannot be read after its first loop, or
      it waits for its target or its next iteration. */
  predicate HeldUp(w: World, id: ExpId)
    requires id in w.store
  {
    Active(w.store[id]) &&
    if SomeJobIs(w, id, JobRunning) then true
    else if JobIs(w, id, StartJob, JobFailed) || HasJob(w, id, FinishJob) then false
    else if JobIs(w, id, LoopJob(1), JobComplete) && WeightsUnreadable(w, id) then true
    else !SomeJobIs(w, id, JobFailed) && MustWait(w, id)
  }

  // ---- The check of the handlers, exactly ----

  /** Where any loop job exists, the first does. */
  lemma FirstLoop(w: World, id: ExpId, k: nat)
    requires ExpInv(w, id, true) && Active(w.store[id]) && HasJob(w, id, LoopJob(k))
    ensures HasJob(w, id, LoopJob(1))
  {
    var d := GetIterationsPerLoop(w.store[id].spec);
    if k > 1 {
      Grows(k - 1, d);
      assert k * d == (k - 1) * d + d;
      assert HasHandler(w.store[id].spec, TypeOf(LoopJob(k)));
      assert 1 * d <= w.store[id].status.iterations;
    }
  }

  /** How the weights are observed does not depend on those recorded, once there are versions. */
  lemma ObservationStable(w: World, id: ExpId, st: Status, k: nat)
    requires ExpInv(w, id, true) && HasJob(w, id, LoopJob(k))
    ensures Weights.Observe(w.cluster, id.namespace, w.store[id].spec, st.weights)
         == Weights.Observe(w.cluster, id.namespace, w.store[id].spec, w.store[id].status.weights)
    ensures !Weights.Observe(w.cluster, id.namespace, w.store[id].spec, st.weights).NilDereference?
  {
    Weights.NilDereferenceExactly(w.cluster, id.namespace, w.store[id].spec, st.weights);
  }

  predicate StopsWithSave(c: Check) {
    c.Stop? && c.act.Save?
  }

  predicate StopsWithFailure(c: Check) {
    c.Stop? && c.act.End? && c.act.st.failed == True
  }

  /** From this number on, every loop job has completed. */
  ghost predicate LoopsComplete(w: World, id: ExpId, loop: nat) {
    forall k: nat :: loop <= k && HasJob(w, id, LoopJob(k)) ==> JobIs(w, id, LoopJob(k), JobComplete)
  }

  /** From this number on, some loop job is in the state. */
  ghost predicate LoopFrom(w: World, id: ExpId, loop: nat, state: JobState) {
    exists k: nat :: loop <= k && JobIs(w, id, LoopJob(k), state)
  }

  lemma NextLoop(w: World, id: ExpId, loop: nat)
    ensures LoopsComplete(w, id, loop) <==>
      (HasJob(w, id, LoopJob(loop)) ==> JobIs(w, id, LoopJob(loop), JobComplete)) && LoopsComplete(w, id, loop + 1)
    ensures forall s :: LoopFrom(w, id, loop, s) <==> JobIs(w, id, LoopJob(loop), s) || LoopFrom(w, id, loop + 1, s)
  {
    hide HasJob, JobIs;
  }

  lemma NoLoopsBeyond(w: World, id: ExpId, loop: nat)
    requires ExpInv(w, id, true) && loop > GetMaxLoops(w.store[id].spec)
    ensures LoopsComplete(w, id, loop) && forall s :: !LoopFrom(w, id, loop, s)
  {
  }

  /** After a loop job that has not completed, all have. */
  lemma OneIncomplete(w: World, id: ExpId, loop: nat)
    requires ExpInv(w, id, true) && HasJob(w, id, LoopJob(loop)) && !JobIs(w, id, LoopJob(loop), JobComplete)
    ensures !LoopFrom(w, id, loop + 1, JobRunning) && !LoopFrom(w, id, loop + 1, JobFailed)
  {
  }

  lemma {:induction false} LoopsExact(w: World, id: ExpId, st: Status, loop: nat)
    requires ExpInv(w, id, true) && 1 <= loop && !WeightsUnreadable(w, id)
    ensures var c := CheckLoops(w, id, w.store[id].spec, st, loop, {});
            && (c.Continue? <==> LoopsComplete(w, id, loop))
            && (StopsWithSave(c) <==> LoopFrom(w, id, loop, JobRunning))
            && (StopsWithFailure(c) <==> LoopFrom(w, id, loop, JobFailed))
    decreases GetMaxLoops(w.store[id].spec) + 1 - loop
  {
    hide Weights.Observe, ExpInv, LoopsComplete, LoopFrom;
    InStore(w, id, true);
    if loop > GetMaxLoops(w.store[id].spec) {
      NoLoopsBeyond(w, id, loop);
    } else {
      NextLoop(w, id, loop);
      if HasJob(w, id, LoopJob(loop)) {
        ObservationStable(w, id, st, loop);
      }
      var c := CheckOne(w, id, w.store[id].spec, st, LoopHandler, loop, {});
      if c.Continue? {
        LoopsExact(w, id, c.st, loop + 1);
      } else {
        OneIncomplete(w, id, loop);
      }
    }
  }

  lemma LoopsUnreadable(w: World, id: ExpId, st: Status)
    requires ExpInv(w, id, true) && Active(w.store[id]) && WeightsUnreadable(w, id)
    ensures var c := CheckLoops(w, id, w.store[id].spec, st, 1, {});
            if !HasJob(w, id, LoopJob(1)) then c.Continue?
            else match w.jobs[JobKey(id, LoopJob(1))]
                 case JobRunning => StopsWithSave(c)
                 case JobComplete => c == Stop(Leave)
                 case JobFailed => StopsWithFailure(c)
  {
    if HasJob(w, id, LoopJob(1)) {
      ObservationStable(w, id, st, 1);
    } else {
      forall k: nat | HasJob(w, id, LoopJob(k)) ensures false {
        FirstLoop(w, id, k);
      }
      NoLoops(w, id, st, 1);
    }
  }

  lemma {:induction false} NoLoops(w: World, id: ExpId, st: Status, loop: nat)
    requires id in w.store && forall k: nat :: !HasJob(w, id, LoopJob(k))
    ensures CheckLoops(w, id, w.store[id].spec, st, loop, {}) == Continue(st)
    decreases GetMaxLoops(w.store[id].spec) + 1 - loop
  {
    if loop <= GetMaxLoops(w.store[id].spec) {
      assert !HasJob(w, id, LoopJob(loop));
      NoLoops(w, id, st, loop + 1);
    }
  }

  /** The check is a chain: start, then the three types of the finish handler, then the loops. */
  lemma CheckChain(w: World, id: ExpId)
    requires ExpInv(w, id, true) && Active(w.store[id])
    ensures var sp, st := w.store[id].spec, w.store[id].status;
            CheckHandlers(w, id, sp, st, {}) ==
              if JobIs(w, id, StartJob, JobRunning) then Stop(Save(st))
              else if JobIs(w, id, StartJob, JobFailed) then Stop(End(st.(failed := True)))
              else if JobIs(w, id, FinishJob, JobRunning) then Stop(Save(st))
              else if JobIs(w, id, FinishJob, JobComplete) then Stop(End(st))
              else if JobIs(w, id, FinishJob, JobFailed) then Stop(End(st.(failed := True)))
              else CheckType(w, id, sp, st, LoopHandler, {})
  {
    var sp, st := w.store[id].spec, w.store[id].status;
    assert HasJob(w, id, StartJob) ==> HasHandler(sp, TypeOf(StartJob));
    assert HasJob(w, id, FinishJob) ==> HasHandler(sp, TypeOf(FinishJob));
    ChainFrom(w, id, CheckType(w, id, sp, st, StartHandler, {}), CheckType(w, id, sp, st, FinishHandler, {}));
    assert CheckType(w, id, sp, st, StartHandler, {}).Continue? ==> CheckType(w, id, sp, st, StartHandler, {}) == Continue(st);
    assert CheckType(w, id, sp, st, FinishHandler, {}).Continue? ==> CheckType(w, id, sp, st, FinishHandler, {}) == Continue(st);
    assert CheckType(w, id, sp, st, RollbackHandler, {}) == CheckType(w, id, sp, st, FinishHandler, {})
        == CheckType(w, id, sp, st, FailureHandler, {});
  }

  lemma ChainFrom(w: World, id: ExpId, start: Check, finish: Check)
    requires id in w.store
    requires var sp, st := w.store[id].spec, w.store[id].status;
             && CheckType(w, id, sp, st, StartHandler, {}) == start && (start.Continue? ==> start.st == st)
             && CheckType(w, id, sp, st, FinishHandler, {}) == finish && (finish.Continue? ==> finish.st == st)
             && CheckType(w, id, sp, st, RollbackHandler, {}) == finish && CheckType(w, id, sp, st, FailureHandler, {}) == finish
    ensures var sp, st := w.store[id].spec, w.store[id].status;
            CheckHandlers(w, id, sp, st, {}) ==
              if start.Stop? then start else if finish.Stop? then finish else CheckType(w, id, sp, st, LoopHandler, {})
  {
    hide CheckType;
    var sp, st := w.store[id].spec, w.store[id].status;
    assert CheckTypes(w, id, sp, st, 1, {}) == start;
    assert CheckTypes(w, id, sp, st, 2, {}) == if start.Stop? then start else finish;
    assert CheckTypes(w, id, sp, st, 3, {}) == CheckTypes(w, id, sp, st, 2, {});
    assert CheckTypes(w, id, sp, st, 4, {}) == CheckTypes(w, id, sp, st, 2, {});
  }

  /** How the check of the handlers ends, when all lookups work. */
  lemma CheckOutcome(w: World, id: ExpId)
    requires ExpInv(w, id, true) && Active(w.store[id])
    ensures var c := CheckHandlers(w, id, w.store[id].spec, w.store[id].status, {});
            if SomeJobIs(w, id, JobRunning) then StopsWithSave(c) || c == Stop(Leave)
            else if JobIs(w, id, StartJob, JobFailed) || JobIs(w, id, FinishJob, JobFailed) then StopsWithFailure(c)
            else if HasJob(w, id, FinishJob) then c == Stop(End(w.store[id].status))
            else if JobIs(w, id, LoopJob(1), JobComplete) && WeightsUnreadable(w, id) then c == Stop(Leave)
            else if SomeJobIs(w, id, JobFailed) then StopsWithFailure(c)
            else c.Continue?
  {
    hide CheckHandlers, CheckLoops, CheckOne, SomeJobIs, StatusInv, WeightsUnreadable, JobsInv;
    CheckChain(w, id);
    LoopsOutcome(w, id);
    SomeJob(w, id, JobRunning);
    SomeJob(w, id, JobFailed);
  }

  lemma SomeJob(w: World, id: ExpId, state: JobState)
    ensures SomeJobIs(w, id, state) <==>
      JobIs(w, id, StartJob, state) || JobIs(w, id, FinishJob, state) || SomeLoopIs(w, id, state)
  {
    forall j | JobIs(w, id, j, state) ensures SomeJobIs(w, id, state) {
      assert JobKey(id, j) in w.jobs;
    }
    if SomeJobIs(w, id, state) {
      var key :| key in w.jobs && key.exp == id && w.jobs[key] == state;
      assert key == JobKey(id, key.job) && JobIs(w, id, key.job, state);
      match key.job {
        case LoopJob(k) => assert JobIs(w, id, LoopJob(k), state);
        case _ =>
      }
    }
  }

  ghost predicate SomeLoopIs(w: World, id: ExpId, state: JobState) {
    exists k: nat :: JobIs(w, id, LoopJob(k), state)
  }

  lemma LoopsOutcome(w: World, id: ExpId)
    requires ExpInv(w, id, true) && Active(w.store[id])
    ensures var c := CheckType(w, id, w.store[id].spec, w.store[id].status, LoopHandler, {});
            if SomeLoopIs(w, id, JobRunning) then StopsWithSave(c) || c == Stop(Leave)
            else if JobIs(w, id, LoopJob(1), JobComplete) && WeightsUnreadable(w, id) then c == Stop(Leave)
            else if SomeLoopIs(w, id, JobFailed) then StopsWithFailure(c)
            else c.Continue?
  {
    var st := w.store[id].status;
    forall k: nat | HasJob(w, id, LoopJob(k)) ensures HasJob(w, id, LoopJob(1)) && 1 <= k {
      FirstLoop(w, id, k);
    }
    assert (exists k: nat :: HasJob(w, id, LoopJob(k))) ==> HasHandler(w.store[id].spec, LoopHandler) by {
      forall k: nat | HasJob(w, id, LoopJob(k)) ensures HasHandler(w.store[id].spec, LoopHandler) {
        assert TypeOf(LoopJob(k)) == LoopHandler;
      }
    }
    if WeightsUnreadable(w, id) {
      LoopsUnreadable(w, id, st);
    } else {
      LoopsExact(w, id, st, 1);
    }
  }

  // ---- A reconcile makes progress exactly when nothing holds it up ----

  lemma SameRemaining(w: World, w': World, id: ExpId, fin: Status)
    requires id in w.store && Becomes(w, w', id, fin, w.jobs)
    requires SameCore(w.store[id].status, fin) && fin.metrics == w.store[id].status.metrics
    ensures Remaining(w', id) == Remaining(w, id)
  {
  }

  lemma MetricsLower(w: World, w': World, id: ExpId, fin: Status)
    requires ExpInv(w, id, true) && Active(w.store[id]) && Becomes(w, w', id, fin, w.jobs)
    requires SameCore(w.store[id].status, fin)
    requires w.store[id].status.stage in {Initializing, Running} && !HasJob(w, id, FinishJob)
    requires MetricsPending(w.store[id]) && !Metrics.ShouldReadMetrics(w.store[id].spec, fin)
    ensures Remaining(w', id) < Remaining(w, id)
  {
  }

  /** The surroundings let everything through: lookups work and writes persist. */
  predicate Smooth(env: Inputs) {
    env.lookupErrors == {} && !env.startLookupFails && env.startWrite && env.write
  }

  /** The plan lowers what remains, and `held` is false; or it leaves it as it is, and `held` is true. */
  ghost predicate MovesUnless(w: World, id: ExpId, plan: Plan, env: Inputs, held: bool)
    requires id in w.store
  {
    var w' := Perform(w, id, plan, env);
    if held then Remaining(w', id) == Remaining(w, id) else Remaining(w', id) < Remaining(w, id)
  }

  lemma IterationActs(w: World, id: ExpId, sp: Spec, early: Status, st: Status, env: Inputs)
    requires GetIterationsPerLoop(sp) > 0 && sp.versionInfo.Some?
    requires (env.analysis.Some? ==> AnalysisOk(sp, env.analysis.value))
    ensures var act := DueIteration(w, id, sp, early, st, env).act;
            act.End? || act.Launch? || act.Crash? || (act.Save? && act.st.iterations == st.iterations + 1)
  {
  }

  lemma IterationMoves(w: World, id: ExpId, st: Status, env: Inputs)
    requires ExpInv(w, id, true) && Active(w.store[id]) && Settled(w, id) && InputsOk(w.store[id], env) && Smooth(env)
    requires InitializeSpec(w.store[id].spec).versionInfo.Some?
    requires SameCore(w.store[id].status, st) && st.stage == Running && st.metrics == w.store[id].status.metrics
    requires st.lastUpdate == w.store[id].status.lastUpdate
    ensures var x, sp := w.store[id], InitializeSpec(w.store[id].spec);
            MovesUnless(w, id, DoIteration(w, id, sp, x.status, st, env), env,
                        x.status.iterations < Total(x.spec) && !SufficientTime(sp, x.status, w.now))
  {
    var x, sp := w.store[id], InitializeSpec(w.store[id].spec);
    var plan := DoIteration(w, id, sp, x.status, st, env);
    TotalIs(x.spec);
    DoIterationOk(w, id, st, env, true);
    PlanLowers(w, id, plan, env, true);
    var st1 := if st.startTime.None? then st.(startTime := Some(Stamp(w.now))) else st;
    var early := if st.startTime.None? then st1 else x.status;
    if x.status.iterations < Total(x.spec) {
      if SufficientTime(sp, x.status, w.now) {
        IterationActs(w, id, sp, early, st1, env);
        hide DueIteration;
      } else {
        PerformParts(w, id, plan, env);
        SameRemaining(w, Perform(w, id, plan, env), id, early);
      }
    } else {
      hide DueIteration;
    }
  }

  lemma StartedMoves(w: World, id: ExpId, st: Status, env: Inputs)
    requires ExpInv(w, id, true) && Active(w.store[id]) && Settled(w, id) && InputsOk(w.store[id], env) && Smooth(env)
    requires WeightsOnly(w.store[id].status, st) && st.stage in {Initializing, Running} && st.acquired == True
    ensures var x, sp := w.store[id], InitializeSpec(w.store[id].spec);
            MovesUnless(w, id, DecideStarted(w, id, sp, x.status, st, env), env,
                        x.status.stage == Running && !MetricsPending(x) && VersionInfoValid(sp)
                        && x.status.iterations < Total(x.spec) && !SufficientTime(sp, x.status, w.now))
  {
    var x, sp := w.store[id], InitializeSpec(w.store[id].spec);
    var plan := DecideStarted(w, id, sp, x.status, st, env);
    AfterIsRank(Running, st.stage);
    if MetricsPending(x) {
      MetricsMove(w, id, st, env);
    } else if st.stage == Running && VersionInfoValid(sp) {
      assert sp.versionInfo.Some? by {
        VersionsPresent(sp);
      }
      hide VersionInfoValid, DoIteration, SufficientTime;
      assert plan == DoIteration(w, id, sp, x.status, Recommended(st, sp.versionInfo.value.baseline.name), env);
      hide DecideStarted, MovesUnless, JobsInv, QuietInv;
      IterationMoves(w, id, Recommended(st, sp.versionInfo.value.baseline.name), env);
    } else {
      assert !HasJob(w, id, FinishJob) && ExpInv(w, id, true);
      DecideStartedOk(w, id, st, env, true);
      PlanLowers(w, id, plan, env, true);
      hide Perform, DoIteration, Weights.Observe, Remaining, VersionInfoValid, SufficientTime, JobsInv,
        QuietInv, MayPlan;
    }
  }

  /** Reading the metrics is progress: it succeeds and leaves some, or ends the experiment. */
  lemma MetricsMove(w: World, id: ExpId, st: Status, env: Inputs)
    requires ExpInv(w, id, true) && Active(w.store[id]) && Settled(w, id) && InputsOk(w.store[id], env) && Smooth(env)
    requires WeightsOnly(w.store[id].status, st) && st.stage in {Initializing, Running} && st.acquired == True
    requires MetricsPending(w.store[id])
    ensures var x, sp := w.store[id], InitializeSpec(w.store[id].spec);
            MovesUnless(w, id, DecideStarted(w, id, sp, x.status, st, env), env, false)
  {
    hide Perform, Remaining, Metrics.ReadNames, JobsInv, QuietInv, MayPlan;
    var x, sp := w.store[id], InitializeSpec(w.store[id].spec);
    var plan := DecideStarted(w, id, sp, x.status, st, env);
    assert !HasJob(w, id, FinishJob) && ExpInv(w, id, true);
    DecideStartedOk(w, id, st, env, true);
    PlanLowers(w, id, plan, env, true);
    Metrics.ReadLeavesMetrics(env.metrics, id.namespace, sp, st);
    var r := Metrics.ReadNames(env.metrics, id.namespace, Metrics.CriteriaNames(sp.criteria.value));
    if r.Some? {
      PerformParts(w, id, plan, env);
      MetricsLower(w, Perform(w, id, plan, env), id, st.(metrics := r.value));
    }
  }

  lemma VersionsPresent(sp: Spec)
    requires VersionInfoValid(sp)
    ensures sp.versionInfo.Some?
  {
  }

  lemma SettledFacts(w: World, id: ExpId)
    requires ExpInv(w, id, true) && Settled(w, id)
    ensures ExpInv(w, id, true) && Passed(w, id, true) && !HasJob(w, id, FinishJob)
  {
  }

  lemma ActiveMoves(w: World, id: ExpId, st: Status, env: Inputs)
    requires ExpInv(w, id, true) && Active(w.store[id]) && Settled(w, id) && InputsOk(w.store[id], env) && Smooth(env)
    requires WeightsOnly(w.store[id].status, st)
    ensures MovesUnless(w, id, DecideActive(w, id, InitializeSpec(w.store[id].spec), w.store[id].status, st, env), env,
                        MustWait(w, id))
  {
    hide Perform, DecideStarted, Remaining, CanAcquire, TasksValid, VersionInfoValid, SufficientTime, JobsInv,
      QuietInv, Iterated, Settled;
    SettledFacts(w, id);
    AfterIsRank(Initializing, st.stage);
    if TasksValid(InitializeSpec(w.store[id].spec)) && st.acquired == True && st.stage != Waiting && !StartPending(w, id) {
      StartedMoves(w, id, st, env);
    } else {
      WaitingMoves(w, id, st, env);
    }
  }

  /** What happens up to the launch of the start handler is progress, but for waiting for the target. */
  lemma WaitingMoves(w: World, id: ExpId, st: Status, env: Inputs)
    requires ExpInv(w, id, true) && Active(w.store[id]) && Passed(w, id, true) && !HasJob(w, id, FinishJob)
    requires InputsOk(w.store[id], env) && Smooth(env) && WeightsOnly(w.store[id].status, st)
    requires !TasksValid(InitializeSpec(w.store[id].spec)) || st.acquired != True || st.stage == Waiting || StartPending(w, id)
    ensures MovesUnless(w, id, DecideActive(w, id, InitializeSpec(w.store[id].spec), w.store[id].status, st, env), env,
                        MustWait(w, id))
  {
    hide Perform, DecideStarted, Remaining, CanAcquire, TasksValid, VersionInfoValid, SufficientTime, JobsInv,
      QuietInv, Iterated, Settled;
    var x, sp := w.store[id], InitializeSpec(w.store[id].spec);
    var plan := DecideActive(w, id, sp, x.status, st, env);
    AfterIsRank(Initializing, st.stage);
    DecideActiveOk(w, id, st, env, true);
    PlanLowers(w, id, plan, env, true);
    if TasksValid(sp) && st.acquired != True && !CanAcquire(w.store, id) {
      PerformParts(w, id, plan, env);
      SameRemaining(w, Perform(w, id, plan, env), id, st);
    }
  }

  /** With smooth surroundings, a reconcile of an experiment that has not completed lowers what remains to
      be done if and only if nothing holds it up; otherwise it leaves it the same. */
  lemma ProgressExactly(w: World, id: ExpId, env: Inputs)
    requires ExpInv(w, id, true) && InputsOk(w.store[id], env) && Smooth(env) && w.store[id].status.completed != True
    ensures var w' := Reconcile(w, id, env);
            if HeldUp(w, id) then Remaining(w', id) == Remaining(w, id) else Remaining(w', id) < Remaining(w, id)
  {
    var x := w.store[id];
    if Active(x) {
      var plan := Decide(w, id, env);
      CheckOutcome(w, id);
      CheckHandlersOk(w, id, {}, true);
      DecideOk(w, id, env, true);
      PlanLowers(w, id, plan, env, true);
      var c := CheckHandlers(w, id, x.spec, x.status, {});
      if c.Continue? {
        ActiveMoves(w, id, c.st, env);
      } else {
        PerformParts(w, id, plan, env);
        hide CheckHandlers, Perform, Remaining, JobsInv, QuietInv, MustWait, WeightsUnreadable, SomeJobIs;
        if !c.act.End? {
          SameRemaining(w, Perform(w, id, plan, env), id, Perform(w, id, plan, env).store[id].status);
        }
      }
    } else {
      FirstMoves(w, id, env);
    }
  }

  lemma FirstMoves(w: World, id: ExpId, env: Inputs)
    requires ExpInv(w, id, true) && InputsOk(w.store[id], env) && Smooth(env) && w.store[id].status.initTime.None?
    ensures Remaining(Reconcile(w, id, env), id) < Remaining(w, id)
  {
  }

  // ---- The bound ----

  /** The event is a reconcile of the experiment that nothing holds up. */
  predicate Productive(w: World, ev: Event, id: ExpId) {
    ev.Reconciled? && ev.id == id && Smooth(ev.env) && id in w.store && w.store[id].status.completed != True && !HeldUp(w, id)
  }

  function ProductiveCount(w: World, evs: seq<Event>, id: ExpId): nat
    requires IsRun(w, evs)
    decreases |evs|
  {
    if evs == [] then 0 else One(Productive(w, evs[0], id)) + ProductiveCount(Apply(w, evs[0]), evs[1..], id)
  }

  lemma ReconcileNeverRaises(w: World, id: ExpId, env: Inputs)
    requires ExpInv(w, id, false) && InputsOk(w.store[id], env)
    ensures Remaining(Reconcile(w, id, env), id) <= Remaining(w, id)
  {
    var plan := Decide(w, id, env);
    assert Reconcile(w, id, env) == Perform(w, id, plan, env);
    if Active(w.store[id]) {
      DecideOk(w, id, env, false);
      PlanLowers(w, id, plan, env, false);
    } else {
      IdleStep(w, id, env);
      assert forall j :: HasJob(Reconcile(w, id, env), id, j) <==> HasJob(w, id, j);
      hide Reconcile, Decide;
    }
  }

  /** What the rank looks at, the same in both worlds. */
  lemma RemainingKept(w: World, w': World, id: ExpId)
    requires id in w.store && id in w'.store && (forall j :: HasJob(w, id, j) <==> HasJob(w', id, j))
    requires w'.store[id].spec == w.store[id].spec.(versionInfo := w'.store[id].spec.versionInfo)
    requires w'.store[id].status == w.store[id].status.(analysis := w'.store[id].status.analysis)
    ensures Remaining(w', id) == Remaining(w, id)
  {
  }

  /** No event raises the rank of an experiment that stays, whatever names are used again and lookups fail. */
  lemma EventNeverRaises(w: World, ev: Event, id: ExpId)
    requires ExpInv(w, id, false) && Enabled(w, ev) && id in Apply(w, ev).store
    ensures Remaining(Apply(w, ev), id) <= Remaining(w, id)
  {
    if ev.Reconciled? && ev.id == id {
      ReconcileNeverRaises(w, id, ev.env);
    } else {
      ElsewhereKept(w, ev, id);
    }
  }

  lemma ProductiveLowers(w: World, ev: Event, id: ExpId)
    requires ExpInv(w, id, true) && Enabled(w, ev) && id in Apply(w, ev).store
    ensures Remaining(Apply(w, ev), id) + One(Productive(w, ev, id)) <= Remaining(w, id)
  {
    hide Reconcile, HeldUp, Remaining, JobsInv, QuietInv, LoopsDone;
    EventNeverRaises(w, ev, id);
    if Productive(w, ev, id) {
      ProgressExactly(w, id, ev.env);
    }
  }

  lemma ElsewhereKept(w: World, ev: Event, id: ExpId)
    requires Enabled(w, ev) && id in w.store && id in Apply(w, ev).store && !(ev.Reconciled? && ev.id == id)
    ensures Remaining(Apply(w, ev), id) == Remaining(w, id)
  {
    if ev.Reconciled? && ev.id in w.store {
      PerformIsLocal(w, ev.id, Decide(w, ev.id, ev.env), ev.env);
      assert Reconcile(w, ev.id, ev.env).store[id] == w.store[id];
    }
    hide Reconcile, Remaining;
    var w' := Apply(w, ev);
    assert forall j :: HasJob(w, id, j) <==> HasJob(w', id, j);
    RemainingKept(w, w', id);
  }

  lemma {:induction false} ProductiveBound(w: World, evs: seq<Event>, id: ExpId)
    requires ExpInv(w, id, true) && IsRun(w, evs)
    requires forall i :: 0 <= i < |evs| ==> evs[i] != Deleted(id)
    ensures ExpInv(Final(w, evs), id, true)
    ensures ProductiveCount(w, evs, id) + Remaining(Final(w, evs), id) <= Remaining(w, id)
    decreases |evs|
  {
    if evs != [] {
      hide ExpInv, Enabled, Apply, Remaining, Productive;
      EventKeepsOwn(w, evs[0], id, true);
      InStore(w, id, true);
      InStore(Apply(w, evs[0]), id, true);
      ProductiveLowers(w, evs[0], id);
      ProductiveBound(Apply(w, evs[0]), evs[1..], id);
    }
  }

  /** Along any run, whatever else happens in it, an experiment that was created when no job existed under its
      name and is not deleted is reconciled productively at most iterationsPerLoop * maxLoops + 8 times; after
      that many it has completed. */
  lemma CompletesWithinBound(w: World, id: ExpId, spec: Spec, evs: seq<Event>)
    requires Enabled(w, Created(id, spec)) && FreshName(w, id) && IsRun(Apply(w, Created(id, spec)), evs)
    requires forall i :: 0 <= i < |evs| ==> evs[i] != Deleted(id)
    ensures var start, n := Apply(w, Created(id, spec)), Total(spec) + 8;
            && ProductiveCount(start, evs, id) <= n && id in Final(start, evs).store
            && (ProductiveCount(start, evs, id) == n ==> Final(start, evs).store[id].status.completed == True)
  {
    var start := Apply(w, Created(id, spec));
    CreateKeepsOwn(w, id, spec, true);
    ProductiveBound(start, evs, id);
    RemainingRange(start, id);
    RemainingRange(Final(start, evs), id);
  }
}
