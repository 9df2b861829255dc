/** The cluster keeps handler jobs by name. In namespaces without dashes this makes no difference: along every
    run the store by name evolves in step with the one by experiment, handler and loop. */
module NamedJobs {
  import opened JobNames
  import opened Controller
  import opened Protocol
  import opened Safety

  type JobsByName = map<string, JobState>

  /** What an event does to the jobs. */
  function JobChange(w: World, ev: Event): Change<JobState>
    requires Enabled(w, ev)
  {
    match ev
    case Reconciled(id, env) =>
      if id in w.store then
        var act := Decide(w, id, env).act;
        if act.Launch? then Create(JobKey(id, act.job), JobRunning) else Keep
      else Delete(set k | k in w.jobs && k.exp !in w.store && k !in env.undeleted)
    case JobEnded(key, ok) => Update(key, if ok then JobComplete else JobFailed)
    case _ => Keep
  }

  lemma EventChanges(w: World, ev: Event)
    requires Enabled(w, ev)
    ensures Apply(w, ev).jobs == Changed(w.jobs, JobChange(w, ev))
  {
    hide Decide, InputsOk;
    if ev.Reconciled? && ev.id in w.store {
      hide Reconcile;
      ReconcileParts(w, ev.id, ev.env);
    }
  }

  /** Experiments are created in namespaces without dashes. */
  predicate Plainly(ev: Event) {
    ev.Created? ==> '-' !in ev.id.namespace
  }

  /** All experiments, and all jobs, are in such namespaces. */
  predicate AllDashFree(w: World) {
    DashFree(w.jobs.Keys) && forall id :: id in w.store ==> '-' !in id.namespace
  }

  lemma EventDashFree(w: World, ev: Event)
    requires Enabled(w, ev) && Plainly(ev) && AllDashFree(w)
    ensures AllDashFree(Apply(w, ev)) && DashFree(w.jobs.Keys + Affected(JobChange(w, ev)))
  {
    hide Decide, Reconcile, InputsOk;
    EventChanges(w, ev);
    forall id | id in Apply(w, ev).store ensures '-' !in id.namespace {
      if ev.Reconciled? {
        assert Apply(w, ev).store.Keys == w.store.Keys;
      }
    }
  }

  /** The store by name after a run. */
  function FinalByName(w: World, evs: seq<Event>, byName: JobsByName): JobsByName
    requires IsRun(w, evs)
    decreases |evs|
  {
    if evs == [] then byName else FinalByName(Apply(w, evs[0]), evs[1..], ChangedByName(byName, JobChange(w, evs[0])))
  }

  lemma {:induction false} RunByName(w: World, evs: seq<Event>, byName: JobsByName)
    requires IsRun(w, evs) && AllDashFree(w) && Named(w.jobs, byName)
    requires forall i :: 0 <= i < |evs| ==> Plainly(evs[i])
    ensures AllDashFree(Final(w, evs)) && Named(Final(w, evs).jobs, FinalByName(w, evs, byName))
    decreases |evs|
  {
    hide Apply, Enabled, JobChange, Named, AllDashFree, DashFree, ChangedByName, Changed;
    if evs != [] {
      EventDashFree(w, evs[0]);
      EventChanges(w, evs[0]);
      ChangesAgree(w.jobs, byName, JobChange(w, evs[0]));
      RunByName(Apply(w, evs[0]), evs[1..], ChangedByName(byName, JobChange(w, evs[0])));
    }
  }

  /** In every reachable state, looking a job up by its name gives what the protocol takes it to give. */
  lemma LookupsAgree(w0: World, evs: seq<Event>, key: JobKey)
    requires Initial(w0) && IsRun(w0, evs) && (forall i :: 0 <= i < |evs| ==> Plainly(evs[i]))
    requires '-' !in key.exp.namespace
    ensures var w, byName := Final(w0, evs), FinalByName(w0, evs, map[]);
            && (JobName(key) in byName <==> key in w.jobs)
            && (key in w.jobs ==> byName[JobName(key)] == w.jobs[key])
  {
    hide IsRun, Final, FinalByName, JobName;
    RunByName(w0, evs, map[]);
    LookupByName(Final(w0, evs).jobs, FinalByName(w0, evs, map[]), key, JobRunning);
  }
}
