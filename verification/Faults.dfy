/** Runs in which things go wrong: a job lookup that fails while the job runs, and a name that is used again
    while jobs of its former bearer remain. */
module Faults {
  import opened Prelude
  import opened Stages
  import opened JobNames
  import opened Experiments
  import opened Controller
  import opened Protocol
  import opened Safety
  import opened Quiescence
  import Liveness
  import Steps
  import Weights

  const E := ExpId("ns", "e")

  /** Surroundings that let everything through. */
  const SMOOTH := Inputs(map[], Some(Analysis(None, None, map[], [])), {}, false, true, [], {}, true, true, true, {})

  const STEP := Reconciled(E, SMOOTH)

  /** A cluster with the one experiment and no weight fields. */
  function At(sp: Spec, st: Status, jobs: map<JobKey, JobState>): World {
    World(map[E := Experiment(sp, st)], jobs, Weights.Cluster(map[], {}), 0)
  }

  function Nowhere(jobs: map<JobKey, JobState>): World {
    World(map[], jobs, Weights.Cluster(map[], {}), 0)
  }

  const INIT := NO_STATUS.(completed := False, failed := False, acquired := False,
                           initTime := Some(0), lastUpdate := Some(0))
  const ACQUIRED := INIT.(acquired := True)
  const STARTED := ACQUIRED.(stage := Initializing)

  // ---- The first reconciles of an experiment without criteria and tasks ----

  predicate Plain(sp: Spec) {
    sp.criteria.None? && WellFormed(sp) && TasksValid(sp)
  }

  lemma Initializes(sp: Spec, jobs: map<JobKey, JobState>)
    requires Plain(sp)
    ensures Reconcile(At(sp, NO_STATUS, jobs), E, SMOOTH) == At(sp, INIT, jobs)
  {
    hide TasksValid;
    PerformParts(At(sp, NO_STATUS, jobs), E, Decide(At(sp, NO_STATUS, jobs), E, SMOOTH), SMOOTH);
  }

  lemma NoJobsThere(sp: Spec, st: Status)
    ensures CheckHandlers(At(sp, st, map[]), E, sp, st, {}) == Continue(st)
  {
    var w := At(sp, st, map[]);
    Steps.PlainTypes(w, E, {});
    Liveness.NoLoops(w, E, st, 1);
  }

  lemma Acquires(sp: Spec)
    requires Plain(sp)
    ensures Reconcile(At(sp, INIT, map[]), E, SMOOTH) == At(sp, ACQUIRED, map[])
  {
    hide CheckHandlers, TasksValid, DecideStarted;
    NoJobsThere(sp, INIT);
    SameTasks(sp);
  }

  lemma Advances(sp: Spec)
    requires Plain(sp)
    ensures Reconcile(At(sp, ACQUIRED, map[]), E, SMOOTH) == At(sp, STARTED, map[])
  {
    hide CheckHandlers, TasksValid, DecideStarted, After;
    NoJobsThere(sp, ACQUIRED);
    SameTasks(sp);
    AfterIsRank(Initializing, Waiting);
  }

  lemma SameTasks(sp: Spec)
    ensures TasksValid(InitializeSpec(sp)) <==> TasksValid(sp)
  {
  }

  // ---- Putting runs together ----

  /** The events lead from one state to the other. */
  ghost predicate Leads(w: World, evs: seq<Event>, w': World) {
    IsRun(w, evs) && Final(w, evs) == w'
  }

  lemma LeadsNowhere(w: World)
    ensures Leads(w, [], w)
  {
  }

  lemma LeadsOn(w: World, ev: Event, mid: World, evs: seq<Event>, w': World)
    requires Enabled(w, ev) && Apply(w, ev) == mid && Leads(mid, evs, w')
    ensures Leads(w, [ev] + evs, w')
  {
    hide Apply, Enabled;
    assert ([ev] + evs)[1..] == evs;
  }

  lemma StepLeadsOn(w: World, mid: World, evs: seq<Event>, w': World)
    requires E in w.store ==> Plain(w.store[E].spec)
    requires Reconcile(w, E, SMOOTH) == mid && Leads(mid, evs, w')
    ensures Leads(w, [STEP] + evs, w')
  {
    hide Reconcile, Leads, TasksValid;
    assert Enabled(w, STEP) && Apply(w, STEP) == mid;
    LeadsOn(w, STEP, mid, evs, w');
  }

  /** Creation and three reconciles bring a plain experiment into the Initializing stage. */
  lemma BringsUp(sp: Spec, evs: seq<Event>, w': World)
    requires Plain(sp) && Leads(At(sp, STARTED, map[]), evs, w')
    ensures Leads(Nowhere(map[]), [Created(E, sp), STEP, STEP, STEP] + evs, w')
  {
    hide Leads, Reconcile, TasksValid;
    Initializes(sp, map[]);
    Acquires(sp);
    Advances(sp);
    StepLeadsOn(At(sp, ACQUIRED, map[]), At(sp, STARTED, map[]), evs, w');
    StepLeadsOn(At(sp, INIT, map[]), At(sp, ACQUIRED, map[]), [STEP] + evs, w');
    StepLeadsOn(At(sp, NO_STATUS, map[]), At(sp, INIT, map[]), [STEP] + ([STEP] + evs), w');
    assert Apply(Nowhere(map[]), Created(E, sp)) == At(sp, NO_STATUS, map[]);
    LeadsOn(Nowhere(map[]), Created(E, sp), At(sp, NO_STATUS, map[]), [STEP] + ([STEP] + ([STEP] + evs)), w');
    assert [Created(E, sp)] + ([STEP] + ([STEP] + ([STEP] + evs))) == [Created(E, sp), STEP, STEP, STEP] + evs;
  }

  // ---- A start handler that runs ----

  /** A conformance experiment with a start handler that has no tasks. */
  const SPEC := Spec("t", None, Conformance, None, map["start" := []], None, None, None)

  const START := JobKey(E, StartJob)

  /** Five events bring the experiment's start handler to run. */
  const TO_START := [Created(E, SPEC), STEP, STEP, STEP] + [STEP]

  lemma Launches()
    ensures Reconcile(At(SPEC, STARTED, map[]), E, SMOOTH) == At(SPEC, STARTED, map[START := JobRunning])
  {
    hide CheckHandlers, TasksValid, DecideStarted, After;
    assert Plain(SPEC) by {
      SpecIsPlain();
    }
    NoJobsThere(SPEC, STARTED);
    SameTasks(SPEC);
    AfterIsRank(Initializing, Initializing);
  }

  lemma SpecIsPlain()
    ensures Plain(SPEC)
  {
  }

  lemma StartRuns()
    ensures Initial(Nowhere(map[])) && Leads(Nowhere(map[]), TO_START, At(SPEC, STARTED, map[START := JobRunning]))
  {
    hide Leads, Reconcile;
    SpecIsPlain();
    Launches();
    var w' := At(SPEC, STARTED, map[START := JobRunning]);
    LeadsNowhere(w');
    StepLeadsOn(At(SPEC, STARTED, map[]), w', [], w');
    assert [STEP] + [] == [STEP];
    BringsUp(SPEC, [STEP], w');
  }

  /** A reachable state in which one failed lookup leaves a running job without a holder of its target. */
  lemma LookupErrorBreaksQuiescence()
    ensures IsRun(Nowhere(map[]), TO_START)
    ensures var w := Final(Nowhere(map[]), TO_START);
            var ev := Reconciled(E, SMOOTH.(lookupErrors := {StartJob}));
            Quiescent(w) && Enabled(w, ev) && !Quiescent(Apply(w, ev))
  {
    hide IsRun, Final, Reconcile, Quiescent;
    StartRuns();
    var w := At(SPEC, STARTED, map[START := JobRunning]);
    assert Final(Nowhere(map[]), TO_START) == w;
    var env := SMOOTH.(lookupErrors := {StartJob});
    StartRunsAlone();
    AloneIsQuiescent(w);
    assert JobIs(w, E, StartJob, JobRunning);
    assert Inspected(SPEC, StartJob) && Position(StartJob) <= Position(StartJob);
    assert LookupFailsBy(w, E, {StartJob}, StartJob);
    QuiescenceStep(w, Reconciled(E, env));
  }

  lemma StartRunsAlone()
    ensures QInv(At(SPEC, STARTED, map[START := JobRunning]))
  {
  }

  /** The job of a deleted experiment runs on under the name of one created anew, which holds nothing. */
  lemma NameReuseBreaksQuiescence()
    ensures IsRun(Nowhere(map[]), TO_START)
    ensures var w := Final(Nowhere(map[]), TO_START);
            && Enabled(w, Deleted(E)) && Enabled(Apply(w, Deleted(E)), Created(E, SPEC))
            && Quiescent(Apply(w, Deleted(E))) && !Quiescent(Apply(Apply(w, Deleted(E)), Created(E, SPEC)))
  {
    hide IsRun, Final;
    StartRuns();
    var w := At(SPEC, STARTED, map[START := JobRunning]);
    assert Final(Nowhere(map[]), TO_START) == w;
    var w' := Apply(Apply(w, Deleted(E)), Created(E, SPEC));
    assert Runs(w', START) && !Holds(w', E);
  }

  // ---- A nil dereference ----

  /** A conformance experiment of one iteration, with a loop handler and a version without a reference. */
  const LOOPING := Spec("t", Some(VersionInfo(Version("v", None), [])), Conformance, None, map["loop" := []], None,
                        Some(Duration(None, Some(1), Some(1))), None)

  /** A canary experiment with the same handler, two versions without references and no deployment pattern. */
  const GAPPED := LOOPING.(versionInfo := Some(VersionInfo(Version("v", None), [Version("c", None)])),
                           testingPattern := Canary)

  const RUNNING := STARTED.(stage := Running, weights := [WeightData("v", 100)])

  const LOOP := JobKey(E, LoopJob(1))

  lemma LoopingIsPlain()
    ensures Plain(LOOPING) && Plain(GAPPED)
  {
  }

  /** The weight of the only version, which has no reference, is taken to be 100. */
  lemma ObservesHundred(current: seq<WeightData>)
    ensures Weights.Observe(Weights.Cluster(map[], {}), "ns", InitializeSpec(LOOPING), current) ==
      Weights.Observed([WeightData("v", 100)])
  {
    var c, vs := Weights.Cluster(map[], {}), InitializeSpec(LOOPING).versionInfo.value.All();
    assert vs == [Version("v", None)] && vs[..|vs| - 1] == [];
    assert Weights.ScanVersions(c, "ns", []) == Some(Weights.Scan([], [], 0));
    var s := Weights.ScanVersions(c, "ns", vs).value;
    assert s.missing == ["v"] && s.observed == [];
    assert s.observed + [WeightData("v", Wrap32(100 - s.total))] == [WeightData("v", 100)];
  }

  lemma GoesRunning()
    ensures Reconcile(At(LOOPING, STARTED, map[]), E, SMOOTH) == At(LOOPING, RUNNING, map[])
  {
    hide CheckHandlers, TasksValid, After, Weights.Observe, DoIteration;
    LoopingIsPlain();
    NoJobsThere(LOOPING, STARTED);
    SameTasks(LOOPING);
    AfterIsRank(Initializing, Initializing);
    AfterIsRank(Running, Initializing);
    ObservesHundred(STARTED.weights);
  }

  lemma VersionIsValid()
    ensures VersionInfoValid(InitializeSpec(LOOPING))
  {
  }

  /** The only iteration completes the only loop. */
  lemma OneIteration()
    ensures var w := At(LOOPING, RUNNING, map[]);
            var plan := DoIteration(w, E, InitializeSpec(LOOPING), RUNNING, Recommended(RUNNING, "v"), SMOOTH);
            plan.act.Launch? && plan.act.job == LoopJob(1) && plan.cluster == w.cluster
  {
    hide Weights.Observe;
    ObservesHundred(RUNNING.weights);
  }

  lemma LaunchesLoop() returns (st: Status)
    ensures Reconcile(At(LOOPING, RUNNING, map[]), E, SMOOTH) == At(LOOPING, st, map[LOOP := JobRunning])
  {
    hide CheckHandlers, TasksValid, After, DoIteration, VersionInfoValid;
    LoopingIsPlain();
    VersionIsValid();
    NoJobsThere(LOOPING, RUNNING);
    SameTasks(LOOPING);
    AfterIsRank(Initializing, Running);
    AfterIsRank(Running, Running);
    OneIteration();
    var w := At(LOOPING, RUNNING, map[]);
    var plan := Decide(w, E, SMOOTH);
    assert plan == DoIteration(w, E, InitializeSpec(LOOPING), RUNNING, Recommended(RUNNING, "v"), SMOOTH);
    st := plan.act.st;
  }

  /** The run: an experiment's loop job completes, the experiment is deleted and another one created under its
      name before the job is. */
  const TO_CRASH := [Created(E, LOOPING), STEP, STEP, STEP]
    + [STEP, STEP, JobEnded(LOOP, true), Deleted(E), Created(E, GAPPED), STEP]

  const REBORN := At(GAPPED, INIT, map[LOOP := JobComplete])

  /** From the running loop job of the first experiment to the second experiment. */
  lemma Reborn(st: Status)
    ensures Leads(At(LOOPING, st, map[LOOP := JobRunning]),
                  [JobEnded(LOOP, true)] + ([Deleted(E)] + ([Created(E, GAPPED)] + ([STEP] + []))), REBORN)
  {
    hide Leads, Reconcile, Plain;
    LoopingIsPlain();
    var done := map[LOOP := JobComplete];
    LeadsNowhere(REBORN);
    Initializes(GAPPED, done);
    StepLeadsOn(At(GAPPED, NO_STATUS, done), REBORN, [], REBORN);
    Creates(done);
    LeadsOn(Nowhere(done), Created(E, GAPPED), At(GAPPED, NO_STATUS, done), [STEP] + [], REBORN);
    assert Apply(At(LOOPING, st, done), Deleted(E)) == Nowhere(done);
    LeadsOn(At(LOOPING, st, done), Deleted(E), Nowhere(done), [Created(E, GAPPED)] + ([STEP] + []), REBORN);
    assert Apply(At(LOOPING, st, map[LOOP := JobRunning]), JobEnded(LOOP, true)) == At(LOOPING, st, done);
    LeadsOn(At(LOOPING, st, map[LOOP := JobRunning]), JobEnded(LOOP, true), At(LOOPING, st, done),
            [Deleted(E)] + ([Created(E, GAPPED)] + ([STEP] + [])), REBORN);
  }

  lemma Creates(jobs: map<JobKey, JobState>)
    ensures Enabled(Nowhere(jobs), Created(E, GAPPED))
    ensures Apply(Nowhere(jobs), Created(E, GAPPED)) == At(GAPPED, NO_STATUS, jobs)
  {
  }

  lemma Crashes()
    ensures Enabled(REBORN, STEP) && Decide(REBORN, E, SMOOTH).act.Crash?
  {
    hide Decide;
    var vs := GAPPED.versionInfo.value.All();
    assert Weights.Missing(vs) == 2 by {
      assert vs == [Version("v", None), Version("c", None)] && vs[..|vs| - 1] == [Version("v", None)];
      assert Weights.Missing([Version("v", None)]) == 1 by {
        assert [Version("v", None)][..0] == [];
      }
    }
    assert JobIs(REBORN, E, LoopJob(1), JobComplete);
    assert Steps.FirstLoopComplete(REBORN, E, 1, GetMaxLoops(GAPPED), {});
    Steps.CrashExactly(REBORN, E, SMOOTH);
  }

  /** The next reconcile of the new experiment finds the completed loop job of the old one, and dereferences
      the deployment pattern it does not have. */
  lemma NameReuseCrashes()
    ensures Initial(Nowhere(map[])) && IsRun(Nowhere(map[]), TO_CRASH)
    ensures var w := Final(Nowhere(map[]), TO_CRASH);
            E in w.store && Enabled(w, STEP) && Decide(w, E, SMOOTH).act.Crash?
  {
    hide Reconcile, Decide, InputsOk, Plain, IsRun, Final;
    LoopingIsPlain();
    var st := LaunchesLoop();
    Reborn(st);
    var rest := [JobEnded(LOOP, true)] + ([Deleted(E)] + ([Created(E, GAPPED)] + ([STEP] + [])));
    StepLeadsOn(At(LOOPING, RUNNING, map[]), At(LOOPING, st, map[LOOP := JobRunning]), rest, REBORN);
    GoesRunning();
    StepLeadsOn(At(LOOPING, STARTED, map[]), At(LOOPING, RUNNING, map[]), [STEP] + rest, REBORN);
    BringsUp(LOOPING, [STEP] + ([STEP] + rest), REBORN);
    assert [Created(E, LOOPING), STEP, STEP, STEP] + ([STEP] + ([STEP] + rest)) == TO_CRASH;
    Crashes();
  }
}
