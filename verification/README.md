# The experiment controller, verified

etc3 is the Kubernetes controller of Iter8 experiments. Each reconcile of an experiment reads its stored
status and does one step: it looks at the experiment's handler jobs, acquires the lock on its target, launches
a handler, reads metrics, advances a stage, runs an iteration or ends the experiment. Many experiments share
one cluster, status writes may be lost, and jobs, weight fields and experiments change in between. This project
models the controller with its surroundings as a transition system and proves what holds in every run of it,
together with the computations a step rests on: metric closure, weight redistribution and observation, the
translation of field paths, job names, condition lists and histogram aggregation.

## How it is organised

| file | what it models |
|---|---|
| `Prelude.dfy`, `Stages.dfy`, `JobNames.dfy` | int32 arithmetic and decimal printing; stage order; the names of handler jobs |
| `Experiments.dfy` | specification, defaults, status, validation |
| `FieldPaths.dfy`, `Weights.dfy` | field paths as JSON Pointers (section 3 of RFC 6901); patches, redistribution and observation of weights |
| `Metrics.dfy` | following metric references with a shared cache |
| `Targets.dfy` | the lock on a target and the choice of the next experiment |
| `Controller.dfy` | one reconcile as a function: what it decides and what it leaves behind |
| `Reconciler.dfy` | the reconciler as a class whose methods change the instance and the cluster's state in place, each proved against `Controller.dfy` |
| `Protocol.dfy`, `Safety.dfy` | runs of many experiments, the invariants of all reachable states, mutual exclusion |
| `Quiescence.dfy` | handler quiescence, and exactly which events end it |
| `Steps.dfy` | stored status, creation of jobs, the terminal hand-off, and exactly when a reconcile dereferences the absent deployment pattern |
| `Outcomes.dfy`, `Iterations.dfy` | what a reconcile leaves behind, case by case: initialisation, start, metrics, weights; iterations, rollback, the pace of iterations |
| `Fairness.dfy`, `Handover.dfy`, `Liveness.dfy` | order of acquisition, hand-over of a target, progress and its bound |
| `Faults.dfy` | runs in which things go wrong: a failed job lookup, and a name used again while jobs of its former bearer remain |
| `NamedJobs.dfy` | job stores by name in step with those by experiment, handler and loop |
| `Conditions.dfy` | the list of conditions and the events recorded with it |
| `Collect.dfy` | aggregation of latency histograms and the run of a collect task |

A `World` is the store of experiments, the handler jobs, the cluster fields that hold weights, and the clock.
`Controller.Decide` gives the plan of a reconcile from the world and the `Inputs` of that reconcile: the metrics
that exist, the analytics service's answer, which job lookups and patches fail, whether a job can be created,
and which of its status writes persist. `Controller.Perform` carries the plan out. `Protocol.Event` adds what
others do: experiments are created and deleted, jobs end, time passes, a start handler sets `versionInfo`, a
collect task stores histograms, anyone changes a weight field. A run is any sequence of events that can happen.

## What is assumed of the surroundings

- Reconciles do not overlap (no concurrency option is set, controllers/experiment_controller.go:246-252), and
  a reconcile reads what was last written.
- A status write may be lost, each one independently; job creations and patches are not undone. A job creation
  that returns an error creates no job.
- `List` succeeds. The code would go on with an empty list (controllers/target.go:78-81).
- The job lookup may fail with an error other than NotFound, which the code takes for a failed handler
  (controllers/handler.go:335-341); the second lookup of the start job, before its launch, may fail where the
  first did not. `Quiescence.LookupErrorReleases` says exactly what such an error does while a job runs.
- The jobs of a stored experiment are not deleted by anyone else, and deleting a job takes effect at once.
- A deleted experiment's name may be used again while its jobs remain. `Protocol.Inv` holds even then; handler
  quiescence and the dereference at controllers/weights.go:366 have conditions of their own. Where a theorem
  needs more, as progress and its bound do, the condition concerns a single experiment: that no job existed
  under its own name when it was created (`Protocol.FreshName`). What then holds of it (`Protocol.ExpInv` with
  `own`) does not depend on what becomes of the others (`Safety.EventKeepsOwn`).
- Target, duration and actions of an experiment do not change; `versionInfo` does not change once the stage is
  Running. Durations respect their declared minimum of 1 (api/v2alpha2/experiment_types.go:245-262), and
  iterationsPerLoop * maxLoops fits an int32, in which the code multiplies (controllers/iterate.go:33).
- An analysis has all its sections, and an assessment for every objective.
- Jobs are identified by experiment, handler and loop. In namespaces without dashes the cluster's store by name
  is in step with this along every run (`NamedJobs.LookupsAgree`).

## Where the code differs from its comments

- The loop handler is also launched after the last loop (controllers/iterate.go:134-147), although a comment
  there (line 139) and api/v2alpha2/defaults.go:122 say it is not. `Steps.JobCreation` allows job maxLoops.
- `InitializeObjectives` assigns to copies and changes nothing (api/v2alpha2/defaults.go:315-326); the default
  takes effect in `GetRollbackOnFailure` instead.
- When weights cannot be read after a completed loop job, the recorded failure is not stored and the experiment
  waits instead of failing (controllers/experiment_controller.go:456-461). It is one of the ways in which
  `Liveness.ProgressExactly` says an experiment can be held up.
- `launchHandlerWrapper` does not try a failure handler when a launch fails, as its comment says it does
  (controllers/experiment_controller.go:498, 531-535).
- Redistribution leaves a field alone whose weight is recorded as the recommended one already, even when the
  field has drifted (controllers/weights.go:122-125); `Weights.RedistributionReachesRecommendation` gives the
  exact condition.

## Where the code does not keep what it is meant to

- Handler quiescence: a job lookup that fails while the job runs gives up the target, and a name used again
  takes over a job that still runs (`Faults.LookupErrorBreaksQuiescence`, `Faults.NameReuseBreaksQuiescence`).
  `Quiescence.HandlerQuiescence` shows over all runs that nothing else does.
- The dereference at controllers/weights.go:366: an experiment created under the name of a deleted one whose
  completed loop job remains can meet it (`Faults.NameReuseCrashes`). `Steps.CrashExactly` gives the condition,
  and `Steps.NeverCrashes` shows that it cannot be met where no loop job remains under a new name.
- The field path of an array's element is not translated to its JSON Pointer (`FieldPaths.ArrayElementIsMissed`).

## Model

| member | source | states |
|---|---|---|
| Safety.MutualExclusion | controllers/target.go:27-92 | in every reachable state, with lost writes, deletions, lookup errors and names used again, a target has at most one acquired experiment that has not completed, and whatever is Initializing, Running or Finishing is that one |
| Iterations.RollsBack | controllers/iterate.go:113-116 | when an iteration is due and some version fails an objective that calls for a rollback, no field moves and no iteration is counted; the finish handler runs, or where there is none or its job cannot be created the experiment ends, not as a failure |
| Iterations.IterationMovesWeights | controllers/iterate.go:118-122 | in a due iteration without rollback a version's field ends at the weight the analysis recommends if and only if it was there, or its object can be patched and the weight differs from the recorded one, which matters only if no loop job has caused the weights to be observed; no other field moves |
| Iterations.WeightsFollow | controllers/iterate.go:118-128 | when patches succeed and recorded weights are those of the fields, every referenced version's field and recorded weight are the recommended one afterwards |
| Iterations.IterationRecorded | controllers/iterate.go:118-151 | the iteration is counted with its time, the analysis, the recommended version and the weights of the fields, and the handler of a completed loop launched; if the weights cannot be observed the experiment fails instead |
| Iterations.OnlyIterationsMoveWeights | controllers/iterate.go:118-122 | of all events only such an iteration, and changes from outside, change a field |
| Iterations.NoRecommendationFails | controllers/weights.go:107-119 | a missing recommendation fails the experiment and moves no field |
| Iterations.IterationsArePaced | controllers/iterate.go:45-65 | along every run the clock readings of an experiment's iterations are more than its interval apart, but for a tenth of a second granted and the second to which times are stored |
| Iterations.CountedOnTime | controllers/iterate.go:166-171 | an iteration is counted only if it is the first or all but a tenth of a second of the interval has passed, and its time is that of the call |
| Iterations.TooEarly | controllers/iterate.go:82-85 | before that nothing is stored but the start time |
| Iterations.LastIterationDone | controllers/iterate.go:78-80 | with all iterations counted the finish handler runs, or the experiment ends, not as a failure |
| Iterations.AnalysisFails | controllers/iterate.go:89-95 | a failed call of the analytics service fails the experiment |
| Iterations.StartTimeSet | controllers/iterate.go:153-164 | the start time is that of the call, and stays |
| Iterations.InvalidVersionsFail | controllers/experiment_controller.go:188-193 | versions that are not valid fail the experiment |
| Outcomes.InitialisationStores | api/v2alpha2/status.go:68-85 | a persisted initialisation stores the time of the call, to the second, and the initial conditions, stage and count |
| Outcomes.HolderInitializes | controllers/experiment_controller.go:146-151 | an acquired experiment advances from Waiting to Initializing, and does nothing else |
| Outcomes.StartHandlerLaunched | controllers/experiment_controller.go:153-162 | a start handler without a job is launched; where the job cannot be created the experiment ends |
| Outcomes.MetricsStored | controllers/experiment_controller.go:166-174 | the metrics stored are exactly those the criteria lead to; if one of these does not exist the experiment fails |
| Outcomes.RunningStored | controllers/experiment_controller.go:176-187 | on the advance to Running the weights of all references are recorded under their versions' names; if they cannot be observed the experiment fails |
| Outcomes.InvalidTasksEnd | controllers/experiment_controller.go:131-136 | a task that is not valid ends the experiment, not as a failure |
| Outcomes.FailedJobFails | controllers/experiment_controller.go:447-472 | in any state that has the invariant, a failed job or lookup that the check comes upon fails the experiment |
| Outcomes.FinishedJobEnds | controllers/experiment_controller.go:447-472 | a completed finish job ends the experiment, not as a failure |
| Quiescence.HandlerQuiescence | controllers/experiment_controller.go:403-549 | over all runs whatever, every state has at most one running handler job per target among stored experiments, belonging to the target's holder, if and only if no experiment is created under a name for which a job runs and no lookup error releases a target while its holder's job runs |
| Quiescence.QuiescenceStep | controllers/experiment_controller.go:403-549 | from a state with the invariant, one event leads to a quiescent state if and only if it is harmless, and then the invariant is kept |
| Quiescence.LookupErrorReleases | controllers/handler.go:335-341 | while its job runs an experiment launches nothing, and it gives up its target if and only if a lookup no later than the running job's is reached and fails and a write persists |
| Safety.EventKeeps | controllers/experiment_controller.go:67-205 | every event keeps the invariants, whatever names are used again: consistent status, a job for every completed loop, a finish job in the Finishing stage, one owner per target |
| Safety.EventKeepsOwn | controllers/experiment_controller.go:67-205 | every event but its deletion keeps what holds of one experiment, whatever holds of the others; if its jobs are its own that they are in step with its status and at most one has not completed |
| Safety.RunKeeps | controllers/experiment_controller.go:67-205 | every run keeps the invariants of all experiments |
| Safety.RunKeepsOwn | controllers/experiment_controller.go:67-205 | every run that does not delete an experiment keeps what holds of it |
| Protocol.DecideOk | controllers/experiment_controller.go:112-205 | whatever the inputs, what a reconcile saves, launches or ends is one of the few steps the protocol allows; if the experiment's jobs are its own it never dereferences the absent deployment pattern |
| Protocol.CheckHandlersOk | controllers/experiment_controller.go:403-477 | a reconcile passes the check of handlers only when every job it looks at is complete and none is the finish job; if the experiment's jobs are its own these are all of them |
| Safety.PlanKeepsOwn | controllers/experiment_controller.go:376-397 | an allowed plan keeps the experiment's invariant whichever of its writes persist |
| Steps.StatusSteps | controllers/experiment_controller.go:277-374 | the stored stage never goes back, TargetAcquired and Failed never revert, a completed experiment changes no more, iterations grow by at most one, other experiments are untouched |
| Steps.NeverCrashes | controllers/weights.go:364-369 | in every state of every run in which no experiment is created under a name for which a loop job remains, no reconcile dereferences the absent deployment pattern |
| Steps.CrashExactly | controllers/experiment_controller.go:419-465 | in any state whatever, a reconcile dereferences the absent deployment pattern if and only if the experiment is active, its start and finish jobs and their lookups let the check go on, the first loop job launched has completed, all references can be read, more than one version has none, and no pattern is given |
| Steps.JobCreation | controllers/iterate.go:134-147 | a job is created only by the target's holder, with all jobs that the check looks at complete; loop job k only when iteration k * iterationsPerLoop completes, after jobs 1 to k-1 and not beyond maxLoops |
| Steps.CompletedLoopsHaveJobs | controllers/iterate.go:134-147 | in every reachable state an active experiment with a loop handler that has stored at least k * iterationsPerLoop iterations has loop job k, writes lost and names used again or not |
| Steps.LoopJobsCount | controllers/iterate.go:134-147 | along any run after an experiment was created with no job under its name, its loop job k exists only if k is at most maxLoops and k * iterationsPerLoop at most one more than the stored iterations |
| Steps.LoopJobsInOrder | controllers/experiment_controller.go:419-424 | along any run that keeps the experiment its loop jobs are created as m+1, m+2, ..., each once, none beyond maxLoops, so that the check of handlers inspects each |
| Steps.DeletedNamesAreFresh | controllers/experiment_controller.go:551-628 | a reconcile of a deleted experiment leaves no job under the names of absent experiments but those whose deletion failed, and the jobs of stored ones as they are |
| Steps.FinishReason | controllers/iterate.go:77-116 | the finish job is created only when the iterations equal iterationsPerLoop * maxLoops or an objective demands a rollback |
| Steps.TerminalOneWay | controllers/experiment_controller.go:329-355 | once the finish job of an experiment with a finish handler exists, a reconcile launches nothing, patches nothing and stores nothing but the experiment's end, or the initial status when the job is another's |
| Steps.TerminalEvent | controllers/experiment_controller.go:445-472 | no other event undoes this |
| Steps.TerminalRun | controllers/experiment_controller.go:403-477 | along any run after the creation of the finish job no job is added, iterations and the hold on the target stand still and the stage stays or becomes Completed |
| Fairness.NoOvertaking | controllers/target.go:44-64 | along every run, names used again included, the acquisitions of one target come in nondecreasing order of initialisation time, and no experiment that still waits was initialised before one that acquired its target |
| Fairness.FirstComeFirstServed | controllers/target.go:44-64 | along every run and by clock readings: targets are acquired in the order of the seconds in which experiments were initialised, and one that still waits was not initialised in an earlier second than any that acquired its target |
| Fairness.TimesOfReconcile | api/v2alpha2/status.go:75-78 | the time of initialisation is that of the call, to the second, and stays |
| Fairness.EventIsFair | controllers/target.go:44-64 | an acquisition overtakes no experiment that was initialised earlier and still waits |
| Handover.ChosenCanAcquire | controllers/target.go:130-162 | in any store the experiment found next passes the lock's test if and only if the skipped one is gone, no contender, or neither an owner nor earlier |
| Handover.ChosenAfterDeletion | controllers/target.go:103-124 | after a deletion, which skips nobody, the chosen experiment can always acquire the target |
| Handover.WaiterAcquires | controllers/experiment_controller.go:127-144 | reconciling a waiting experiment stores the acquisition if and only if the write persists, the check of handlers stops at none, the tasks are valid and the target can be acquired; with invalid tasks its end |
| Handover.CheckPasses | controllers/experiment_controller.go:403-477 | in any state the check of handlers goes on if and only if no lookup fails, all jobs looked at are complete, none is the finish job, and the weights can be observed if there are loop jobs |
| Handover.OwnWaiterIsClear | controllers/experiment_controller.go:127-144 | an experiment whose jobs are all its own has none while it waits, so that the check goes on |
| Handover.SkippedIsIgnored | controllers/target.go:140-144 | the search gives the same in stores that differ only in the experiment it skips, so whichever write of an end is stored |
| Handover.HandOver | controllers/experiment_controller.go:319-324 | whenever an end is stored an event was due; if no other experiment owns the target, as when the ended one held it, and someone waits since before now, the event sent is that of an earliest one, which holds the target after its next reconcile unless its check of handlers stops |
| Liveness.ProgressExactly | controllers/experiment_controller.go:99-205 | with working lookups and writes, a reconcile of an experiment whose jobs are its own lowers the rank of what remains to be done if and only if nothing holds it up, and otherwise leaves it equal |
| Liveness.CheckOutcome | controllers/experiment_controller.go:403-477 | how the check of handlers ends, and whether as a failure, as a function of the states of the jobs |
| Liveness.EventNeverRaises | controllers/experiment_controller.go:67-205 | no event of any kind, with lookup errors and names used again, raises the rank of an experiment that stays |
| Liveness.CompletesWithinBound | controllers/iterate.go:67-151 | along every run, lookup errors, lost writes and names used again included, an experiment created with no job under its name is reconciled productively at most iterationsPerLoop * maxLoops + 8 times, and after that many it has completed |
| Faults.LookupErrorBreaksQuiescence | controllers/handler.go:335-341 | a run from nothing to a quiescent state in which one failed lookup leaves a job running without a holder of its target |
| Faults.NameReuseBreaksQuiescence | controllers/experiment_controller.go:551-567 | a run in which the job of a deleted experiment runs under the name of a new one that holds nothing |
| Faults.NameReuseCrashes | controllers/weights.go:364-369 | a run from nothing, of ten events, after which the next reconcile of an experiment under a used name dereferences the absent deployment pattern |
| Reconciler.ExperimentReconciler.Reconcile | controllers/experiment_controller.go:67-205 | the new state of the cluster is the one the theorems above are about; the dereference of an absent deployment pattern happens exactly when the plan is one; who is triggered |
| Reconciler.ExperimentReconciler.ReconcileExperiment | controllers/experiment_controller.go:99-136 | initialisation with its two writes, the check of handlers, and the rest carry out the plan |
| Reconciler.ExperimentReconciler.ReconcileActive | controllers/experiment_controller.go:127-164 | validation, acquisition, stage and start handler carry out the plan |
| Reconciler.ExperimentReconciler.ReconcileStarted | controllers/experiment_controller.go:166-205 | metrics, first observation, version validation and iteration carry out the plan |
| Reconciler.ExperimentReconciler.UpdateStatus | controllers/experiment_controller.go:384-397 | the store holds the status in memory if the write persists, although equal statuses are not written |
| Reconciler.ExperimentReconciler.AdvanceStage | controllers/experiment_controller.go:277-290 | the stage moves only forward, and the result tells whether it did |
| Reconciler.ExperimentReconciler.EndExperiment | controllers/experiment_controller.go:310-327 | the end is stored if either of its two writes persists; the next experiment is chosen in the store between the two |
| Reconciler.ExperimentReconciler.LaunchHandler | controllers/handler.go:118-176 | an existing job is kept, an absent one created running, an error creates none |
| Reconciler.ExperimentReconciler.LaunchHandlerWrapper | controllers/experiment_controller.go:506-549 | it stops exactly when there is a handler and its prerequisite holds; then the job and the status, or the experiment's end |
| Reconciler.ExperimentReconciler.TerminateExperiment | controllers/experiment_controller.go:329-355 | finish and rollback: launch the terminal handler and advance to Finishing, or end |
| Reconciler.ExperimentReconciler.CheckHandlerStatus | controllers/experiment_controller.go:435-477 | for one job: go on with the status in memory, or one of the ways to stop |
| Reconciler.ExperimentReconciler.CheckHandlersStatus | controllers/experiment_controller.go:403-433 | the loops over handler types and loop numbers end where the recursive check ends |
| Reconciler.ExperimentReconciler.SetStartTimeIfNotSet | controllers/iterate.go:153-164 | a write of its own, whose failure ends the reconcile |
| Reconciler.ExperimentReconciler.SufficientTimePassed | controllers/iterate.go:45-65 | true for the first iteration, and from a tenth of a second before the interval has passed |
| Reconciler.ExperimentReconciler.SetVersionRecommendedForPromotion | api/v2alpha2/status.go:105-131 | the recommendation is the winner, if one is identified, and else the baseline, whatever it was |
| Reconciler.ExperimentReconciler.DoIteration | controllers/iterate.go:67-116 | an iteration carries out the plan up to rollback |
| Reconciler.ExperimentReconciler.FinishIteration | controllers/iterate.go:118-128 | redistribution and observation, with both error exits |
| Reconciler.ExperimentReconciler.CompleteIteration | controllers/iterate.go:130-151 | the iteration is counted and a completed loop launches its handler |
| Reconciler.VersionsMustRollback | controllers/iterate.go:183-205 | it returns exactly the versions that fail an objective with rollback; the list is nonempty if and only if a rollback is due |
| Reconciler.ExperimentReconciler.CleanupDeletedExperiments | controllers/experiment_controller.go:551-628 | the jobs that remain are those of stored experiments and those whose deletion failed |
| Reconciler.ExperimentReconciler.TriggerWaitingExperiments | controllers/target.go:103-124 | every target of a stored experiment is looked at once and its next waiting experiment triggered |
| Reconciler.ExperimentReconciler.TriggerNextExperiment | controllers/target.go:165-178 | the event sent is that of a next waiting experiment, if there is one |
| Targets.ActiveContendersForTarget | controllers/target.go:70-92 | exactly the stored experiments with the target whose Completed condition is False |
| Targets.AcquireTarget | controllers/target.go:27-68 | true only for an owner; the mark is set if and only if no other contender owns the target or started earlier |
| Targets.NextWaitingExperiment | controllers/target.go:130-162 | none when a rival owns the target or none started before now; otherwise a rival no other started before |
| Metrics.ReadNamesExact | controllers/metrics.go:98-147 | reading succeeds if and only if every metric reachable from the criteria exists, and then gives exactly the reachable ones, cycles or not |
| Metrics.FollowExact | controllers/metrics.go:32-75 | what following one reference adds to any closed cache, or the missing metric it runs into |
| Metrics.QualifiedKey | controllers/metrics.go:37-44 | a reference with one slash is its own key, from whatever namespace it is read |
| Metrics.KeyExactly | controllers/metrics.go:37-44 | a reference with one slash names its namespace, any other is a name in the namespace it is read from |
| Metrics.UnqualifiedNames | controllers/metrics.go:98-147 | an unqualified name of the criteria is read from the experiment's namespace; if it is not stored there the read fails |
| Metrics.SampleSizesRead | controllers/metrics.go:69-72 | with a metric its sample size has been read, an unqualified one from the metric's own namespace |
| Metrics.WantedAreRead | controllers/metrics.go:98-147 | reading succeeds if and only if all that request count, rewards, indicators and objectives lead to exists, and gives exactly that |
| Metrics.ReadsWhenNamed | controllers/metrics.go:78-94 | metrics are read if and only if none are stored and the criteria name some |
| Metrics.SkipIsHarmless | controllers/metrics.go:116-139 | a name skipped because it is a key of the cache would have changed nothing |
| Metrics.ReadLeavesMetrics | controllers/metrics.go:78-94 | a successful read leaves metrics behind, so the step does not repeat |
| Metrics.ReadMetric | controllers/metrics.go:32-75 | the recursion over the shared cache terminates, leaves the cache that following the reference gives, and fails when that does |
| Metrics.ReadList | controllers/metrics.go:115-139 | one of the loops over names, skips included, continues the reading of all names |
| Metrics.ReadRequestCount | controllers/metrics.go:108-113 | the request count is read first, if there is one |
| Metrics.ReadMetrics | controllers/metrics.go:98-147 | the loops with their skips read what reading every name in order does |
| Metrics.CopyOut | controllers/metrics.go:141-145 | every cached metric is listed once, no name twice, in any order |
| FieldPaths.TranslationIsPointer | controllers/weights.go:127-129 | for plain names, the three replacements give the JSON Pointer of the path if and only if every index is immediately followed by a field |
| FieldPaths.StrayBracket | controllers/weights.go:127-129 | otherwise a closing bracket is left in the result |
| FieldPaths.ArrayElementIsMissed | controllers/weights.go:127-129 | `.weights[1]` is translated to something that is not its pointer |
| FieldPaths.PointerRoundTrip | controllers/weights.go:220-244 | a pointer made by RFC 6901 parses back to its tokens |
| Experiments.DotMeansField | controllers/validatation.go:64-75 | the test of the first character is the test that the path starts with a field |
| Weights.RedistributionReachesRecommendation | controllers/weights.go:52-149 | for any order of the patches and whichever fail, a version's field ends at its recommendation if and only if the recorded weight differed and the patch succeeds, or the field held it already; fields no version names stay |
| Weights.RedistributeThenObserve | controllers/iterate.go:118-128 | with recorded weights equal to the cluster's, redistribution then observation leaves cluster and recorded weights at the recommendation of every referenced version |
| Weights.FieldMeant | controllers/weights.go:204-216 | the object a reference means, for reads and for patches: in the experiment's namespace if it names none, in its own otherwise, and in none for a cluster-wide kind |
| Weights.ObservedWhereMeant | controllers/weights.go:246-312 | a reference without a namespace gives what the same reference with the experiment's namespace gives from anywhere; one with its own gives the same from everywhere |
| Weights.PatchesNeedRecommendations | controllers/weights.go:105-119 | collecting the patches fails if and only if a version with a field has no recommendation |
| Weights.LookupFirst | controllers/weights.go:161-169 | a version's weight is the first under its name |
| Weights.ObservedWeightsSum | controllers/weights.go:343-375 | with one version lacking a reference the weights name every version once, and sum to 100 if and only if the missing weight fits an int32 |
| Weights.ObservedInOrder | controllers/weights.go:325-374 | with none lacking, the weights list the versions in order, or a field is unreadable |
| Weights.ObservedUnderName | controllers/weights.go:330-356 | a version's observed weight is recorded under its name |
| Weights.NilDereferenceExactly | controllers/weights.go:364-369 | exactly when the observation dereferences an absent deployment pattern |
| Weights.ObservedHasShape | controllers/weights.go:358-369 | observation succeeds if and only if all references are readable and at most one is missing or the split is fixed |
| Weights.AddPatchTo | controllers/weights.go:92-149 | the table of patches changes in place at the version's object only, or an error leaves it |
| Weights.RedistributeWeight | controllers/weights.go:52-90 | the two loops give the redistribution; an error comes before any patch |
| Weights.UpdateObservedWeights | controllers/weights.go:314-375 | the loop gives the observation; on an error the recorded weights stay as they were |
| JobNames.NameClash | controllers/handler.go:286-295 | two job names are equal if and only if handler and loop agree and the joined namespaces and names do |
| Prelude.DecimalValue | controllers/handler.go:286-295 | the decimal number in a loop job's name stands for the loop, without leading zeros |
| JobNames.JobNameInjective | controllers/handler.go:286-295 | in namespaces without dashes a job name determines experiment, handler and loop |
| JobNames.DashesCollide | controllers/handler.go:286-295 | with dashes two experiments can share all their job names |
| JobNames.LookupByName | controllers/handler.go:101-115 | in such namespaces looking up and setting by name is looking up and setting by experiment, handler and loop |
| JobNames.ChangesAgree | controllers/handler.go:165-176 | creation if absent, a change of state and deletions leave the two stores in step |
| NamedJobs.LookupsAgree | controllers/handler.go:324-363 | in every state reachable with experiments in such namespaces, a lookup by name gives what the protocol takes it to give |
| Experiments.JobsCarryHandlerNames | api/v2alpha2/defaults.go:24-38 | finish, rollback and failure share a handler and so a job |
| Experiments.InitializeSpec | api/v2alpha2/defaults.go:336-341 | late initialisation fills in pattern, duration and weight bounds with what the getters return already, and touches nothing else |
| Experiments.LateInitialization | api/v2alpha2/defaults.go:40-63 | what is given is kept, the rest gets the declared defaults, and a second initialisation changes nothing |
| Experiments.VersionsUnique | controllers/validatation.go:92-101 | true if and only if no two versions share a name |
| Experiments.ValidVersions | controllers/validatation.go:80-90 | valid versions: one for conformance and more otherwise, two for canary and A/B, distinct names, one reward for A/B and A/B/n and else none, paths that start with a field |
| Experiments.VersionsValid | controllers/validatation.go:41-78 | conversely these make the versions valid |
| Experiments.AreTasksValid | controllers/validatation.go:103-120 | true if and only if every task names either a task or a script |
| Experiments.IsVersionInfoValid | controllers/validatation.go:41-78 | all five tests, and a failure is recorded if and only if one fails |
| Stages.IndexFrom | api/v2alpha2/constants.go:146-153 | the search finds the first position of the stage, or -1 when it is not listed |
| Stages.AfterIsRank | api/v2alpha2/constants.go:134-144 | comparing positions in the list is the order Waiting, Initializing, Running, Finishing, Completed |
| Conditions.EventsAreChanges | controllers/recorder.go:59-72 | from any list and through any history, the events of a condition type are its marks with consecutive repeats removed |
| Conditions.ChangesDiffer | controllers/recorder.go:59-62 | no event repeats its predecessor, and the last one is the last mark |
| Conditions.MarkChangesOwn | api/v2alpha2/status.go:133-155 | a mark sets its own condition and leaves every other type's status, reason and message |
| Conditions.GetChangesNone | api/v2alpha2/status.go:42-51 | reading a condition, which may append it, changes the status of none |
| Conditions.EachKindOnce | api/v2alpha2/status.go:31-51 | through any history from a list without repeats, every type occurs at most once |
| Conditions.InitializeKeepsUnique | api/v2alpha2/status.go:68-73 | initialisation keeps the types unique if and only if the list was empty |
| Conditions.InitializeTruths | api/v2alpha2/status.go:68-73 | initialisation sets a condition to False unless one of its type is there already, which hides it |
| Conditions.ConditionsAreFields | api/v2alpha2/status.go:42-66 | each condition behaves as a variable that holds the status it was last marked with |
| Conditions.ExperimentStatus.GetCondition | api/v2alpha2/status.go:42-51 | the condition returned is the one in the list, appended as Unknown with the time when absent |
| Conditions.ExperimentStatus.MarkCondition | api/v2alpha2/status.go:138-155 | the shared condition is overwritten in place, its time too; the result tells whether status, reason or message changed; the message combines reason and message |
| Conditions.ExperimentStatus.InitializeStatus | api/v2alpha2/status.go:68-85 | three conditions are appended, whatever is there; times, stage and counter are overwritten |
| Conditions.Recorder.RecordEvent | controllers/recorder.go:63-72 | an event is sent exactly when the mark changes the condition |
| Collect.FoldTotals | taskrunner/tasks/collect/collect.go:157-189 | through any sequence of runs a version has the summed counts and sums, the maximum, the samples in order and the pointwise summed return codes of its own results, and of nothing else |
| Collect.FoldConcat | taskrunner/tasks/collect/collect.go:350-377 | two tasks with a persisted aggregate between them give what one task with both lists of versions gives |
| Collect.MergeConserves | taskrunner/tasks/collect/collect.go:164-181 | count, bucket counts and return codes of a merge are the sums of the parts' |
| Collect.FoldBalanced | taskrunner/tasks/collect/collect.go:157-189 | if count, sum of bucket counts and sum of return codes agree in every result, they agree in every aggregate |
| Collect.Result.Add | taskrunner/tasks/collect/collect.go:164-181 | the merge in place, through references, of results that share nothing |
| Collect.Aggregate | taskrunner/tasks/collect/collect.go:156-189 | the table changes in place for the version only, a nil table is replaced by a new one, and results stay unshared |
| Collect.Run | taskrunner/tasks/collect/collect.go:337-390 | the aggregate of all results is persisted, or nothing when one load test fails or only load is asked for |

## Left out

- The Kubernetes client, REST mapping, JSON and YAML marshalling, JSONPath evaluation and the HTTP call to the analytics service: they appear as reads and writes of the world and as inputs of a reconcile.
- Logging, contexts, leader election, informer caches and the delivery of events and of requeue requests: the runs contain every order of reconciles, so they need none of them; that a reconcile is ever scheduled is not modelled.
- Job templates, labels and environment variables in `LaunchHandler`, and the inverted error test of `readJobSpec` (controllers/handler.go:190): only whether a job is created matters here.
- The readiness task (taskrunner/tasks/readiness/readiness.go), the template engine, the runscript, http and slack tasks, and iter8ctl: outside the controller's protocol.
- Generated deep copies and the builders used only by tests.
- The time, reason and message of conditions outside module Conditions: the status of module Experiments holds the three conditions as values, which `Conditions.ConditionsAreFields` justifies.
- The order of `status.metrics`: the status holds them as a map; `Metrics.CopyOut` says what the list can be.
- The recommendation of a version after a rollback: the code does not set it on that path (controllers/iterate.go:113-116).
- A weight that becomes unreadable within a reconcile, between its patches and its observation, other than through those patches: fields change only between reconciles.
- JSON patch operations that insert into an array, and objects that lack the parent of the patched field: a patch either sets its field or is in the set of patches that fail.
- Collect.FoldTotals: counts are unbounded integers and times are reals, so that overflow, rounding and NaN are not captured.
- Reconciler.ExperimentReconciler.CleanupDeletedExperiments: the intermediate maps from experiment to jobs are not built; labels are taken to name the job's experiment.
- Reconciler.ExperimentReconciler.ReconcileStarted: like `ReconcileActive`, `FinishIteration` and `CompleteIteration` it is a part of a longer function of the source, which the source does not name.
