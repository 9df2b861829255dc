/** Handing a target over: the experiment chosen to be triggered is one that can acquire it. */
module Handover {
  import opened Prelude
  import opened Stages
  import opened JobNames
  import opened Experiments
  import opened Targets
  import opened Controller
  import opened Protocol
  import opened Safety
  import opened Quiescence
  import Steps
  import Weights

  /** Whether the experiment found next passes the test of the lock depends on the skipped one only: it does
      if and only if that one is gone, has completed, or neither owns the target nor started earlier. */
  lemma ChosenCanAcquire(store: ExpStore, target: string, skip: ExpId, now: int, next: ExpId)
    requires IsNextWaiting(store, target, Some(skip), now, Some(next))
    ensures next in store && store[next].spec.target == target
    ensures CanAcquire(store, next) <==>
      (skip in store && Contends(store[skip], target) ==>
         !Owns(store[skip]) && !Before(store[skip].status.initTime, store[next].status.initTime))
  {
  }

  /** After a deletion nobody is skipped, and the chosen experiment can always acquire the target. */
  lemma ChosenAfterDeletion(store: ExpStore, target: string, now: int, next: ExpId)
    requires IsNextWaiting(store, target, None, now, Some(next))
    ensures next in store && CanAcquire(store, next)
  {
  }

  /** No experiment but `id` owns the target. */
  ghost predicate FreeBut(store: ExpStore, target: string, id: ExpId) {
    forall e :: Rival(store, target, Some(id), e) ==> !Owns(store[e])
  }

  /** A holder has no rival that owns its target. */
  lemma HolderIsAlone(w: World, id: ExpId)
    requires Inv(w) && Holds(w, id)
    ensures FreeBut(w.store, w.store[id].spec.target, id)
  {
  }

  /** The search skips the experiment that ends, so it does not matter which of its writes is stored. */
  lemma SkippedIsIgnored(s: ExpStore, s': ExpStore, target: string, id: ExpId, now: int, next: Option<ExpId>)
    requires forall o :: o != id ==> (o in s <==> o in s') && (o in s ==> s[o] == s'[o])
    ensures IsNextWaiting(s, target, Some(id), now, next) <==> IsNextWaiting(s', target, Some(id), now, next)
    ensures FreeBut(s, target, id) <==> FreeBut(s', target, id)
  {
    assert forall e :: Rival(s, target, Some(id), e) <==> Rival(s', target, Some(id), e);
  }

  /** The check of the experiment's handlers goes on past all of them: no lookup fails, the jobs looked at have
      completed, none of them the finish job, and if there are loop jobs the weights can be observed. */
  ghost predicate Clear(w: World, id: ExpId, errors: set<Job>)
    requires id in w.store
  {
    && Steps.GoesOn(w, id, StartJob, errors) && Steps.GoesOn(w, id, FinishJob, errors)
    && (HasHandler(w.store[id].spec, LoopHandler) ==> ClearLoops(w, id, 1, errors))
  }

  ghost predicate ClearLoops(w: World, id: ExpId, loop: nat, errors: set<Job>)
    requires id in w.store
  {
    forall k: nat :: loop <= k <= GetMaxLoops(w.store[id].spec) ==>
      LoopJob(k) !in errors && (HasJob(w, id, LoopJob(k)) ==> JobIs(w, id, LoopJob(k), JobComplete) && Observable(w, id))
  }

  lemma {:induction false} LoopsPass(w: World, id: ExpId, st: Status, loop: nat, errors: set<Job>)
    requires id in w.store
    ensures CheckLoops(w, id, w.store[id].spec, st, loop, errors).Continue? <==> ClearLoops(w, id, loop, errors)
    decreases GetMaxLoops(w.store[id].spec) + 1 - loop
  {
    ObservableWhatever(w, id, st);
    hide Weights.Observe, Observable;
    var c := CheckOne(w, id, w.store[id].spec, st, LoopHandler, loop, errors);
    if loop <= GetMaxLoops(w.store[id].spec) && c.Continue? {
      LoopsPass(w, id, c.st, loop + 1, errors);
    }
  }

  lemma CheckPasses(w: World, id: ExpId, errors: set<Job>)
    requires id in w.store
    ensures CheckHandlers(w, id, w.store[id].spec, w.store[id].status, errors).Continue? <==> Clear(w, id, errors)
  {
    hide CheckTypes, Steps.GoesOn, CheckLoops, ClearLoops;
    Steps.PlainTypes(w, id, errors);
    LoopsPass(w, id, w.store[id].status, 1, errors);
    LastType(w, id, errors);
  }

  lemma LastType(w: World, id: ExpId, errors: set<Job>)
    requires id in w.store
    ensures var sp, st := w.store[id].spec, w.store[id].status;
            var c := CheckTypes(w, id, sp, st, 4, errors);
            CheckHandlers(w, id, sp, st, errors) == if c.Stop? then c else CheckType(w, id, sp, c.st, LoopHandler, errors)
  {
    hide CheckType;
  }

  /** The check stops at none of the handlers of an experiment under whose name no job exists. */
  lemma NoJobsAreClear(w: World, id: ExpId)
    requires id in w.store && FreshName(w, id)
    ensures Clear(w, id, {})
  {
  }

  /** An experiment whose jobs are all its own has none while it waits for its target. */
  lemma OwnWaiterIsClear(w: World, id: ExpId)
    requires ExpInv(w, id, true) && !Owns(w.store[id])
    ensures Clear(w, id, {})
  {
    assert forall j :: !HasJob(w, id, j);
    NoJobsAreClear(w, id);
  }

  /** Reconciling a waiting experiment records that it acquired its target if and only if the write persists,
      the check of its handlers goes on past all of them, its tasks are valid and it can acquire the target;
      with invalid tasks it ends instead. */
  lemma WaiterAcquires(w: World, id: ExpId, env: Inputs)
    requires Inv(w) && id in w.store && InputsOk(w.store[id], env)
    requires Active(w.store[id]) && !Owns(w.store[id])
    ensures var x, valid := Reconcile(w, id, env).store[id], TasksValid(w.store[id].spec);
            && (Owns(x) <==> env.write && Clear(w, id, env.lookupErrors) && valid && CanAcquire(w.store, id))
            && (Owns(x) ==> Active(x))
            && (env.write && Clear(w, id, env.lookupErrors) && !valid ==> x.status.completed == True)
  {
    hide Decide, Reconcile, InputsOk, Inv, Clear, CanAcquire, TasksValid, After, JobsInv, QuietInv, FinishInv, LoopsDone;
    Steps.ExpOf(w, id);
    ReconcileParts(w, id, env);
    CheckPasses(w, id, env.lookupErrors);
    CheckHandlersOk(w, id, env.lookupErrors, false);
    WaiterPlan(w, id, env);
    var act := Decide(w, id, env).act;
    if act.End? {
      AfterIsRank(Completed, act.st.stage);
    }
  }

  lemma WaiterPlan(w: World, id: ExpId, env: Inputs)
    requires id in w.store && InputsOk(w.store[id], env) && Active(w.store[id])
    ensures var x, plan := w.store[id], Decide(w, id, env);
            var c := CheckHandlers(w, id, x.spec, x.status, env.lookupErrors);
            && (c.Stop? ==> plan == Plan(x.status, w.cluster, c.act))
            && (c.Continue? && c.st.acquired != True ==>
                  plan == Plan(x.status, w.cluster,
                               if !TasksValid(x.spec) then End(c.st)
                               else Save(if CanAcquire(w.store, id) then c.st.(acquired := True) else c.st)))
  {
    hide CheckHandlers, CanAcquire, DecideStarted, TasksValid, InputsOk;
    SameTasks(w.store[id].spec);
  }

  lemma SameTasks(sp: Spec)
    ensures TasksValid(InitializeSpec(sp)) <==> TasksValid(sp)
  {
  }

  /** In this state some experiment other than `id` waits for the target since before now, and nothing in the
      way of the next reconcile of `next` stops it. */
  ghost predicate SomeoneWaits(w: World, target: string, id: ExpId, now: int, waiter: ExpId,
                               next: Option<ExpId>, env: Inputs) {
    && Rival(w.store, target, Some(id), waiter) && Before(w.store[waiter].status.initTime, Some(now)) && env.write
    && (next.Some? && next.value in w.store ==>
          InputsOk(w.store[next.value], env) && TasksValid(w.store[next.value].spec)
          && Clear(w, next.value, env.lookupErrors))
  }

  /** What was found is one that started no later than the waiting one, and it holds the target after its
      next reconcile. */
  ghost predicate HandedOver(w: World, waiter: ExpId, next: Option<ExpId>, env: Inputs) {
    && waiter in w.store && next.Some? && next.value in w.store && InputsOk(w.store[next.value], env)
    && !Before(w.store[waiter].status.initTime, w.store[next.value].status.initTime)
    && Holds(Reconcile(w, next.value, env), next.value)
  }

  /** The same, in a state in which `id` has completed. */
  lemma HandOverIn(w: World, target: string, id: ExpId, now: int, waiter: ExpId, next: Option<ExpId>, env: Inputs)
    requires Inv(w) && id in w.store && w.store[id].status.completed == True
    requires FreeBut(w.store, target, id) && IsNextWaiting(w.store, target, Some(id), now, next)
    requires SomeoneWaits(w, target, id, now, waiter, next, env)
    ensures HandedOver(w, waiter, next, env)
  {
    hide Reconcile, CanAcquire, TasksValid, InputsOk, Clear;
    assert next.Some?;
    assert Rival(w.store, target, Some(id), next.value);
    ChosenCanAcquire(w.store, target, id, now, next.value);
    assert StatusInv(w.store[next.value], w.now);
    WaiterAcquires(w, next.value, env);
  }

  /** The event that a reconcile sends when it ends an experiment. */
  ghost predicate Sends(w: World, id: ExpId, env: Inputs, next: Option<ExpId>)
    requires id in w.store && InputsOk(w.store[id], env)
  {
    var plan := Decide(w, id, env);
    plan.act.End? && After(Completed, plan.act.st.stage)
    && Triggers(w.(store := Put(w.store, id, plan.early, true), cluster := plan.cluster), id, plan.act.st, env, next)
  }

  /** Live hand-over: whenever the end of an experiment is stored, the reconcile sends an event. If no other
      experiment owns the target then, as is the case when the ended one did, and some experiment waits for it
      since before now, then the event is that of one that started no later than any other, and its next
      reconcile in that state acquires the target, whichever of the two writes of the end was stored. */
  lemma HandOver(w: World, id: ExpId, env: Inputs, waiter: ExpId, next: Option<ExpId>, env2: Inputs)
    requires Inv(w) && id in w.store && InputsOk(w.store[id], env) && Active(w.store[id])
    ensures Reconcile(w, id, env).store[id].status.completed == True ==>
      Decide(w, id, env).act.End? && After(Completed, Decide(w, id, env).act.st.stage)
    ensures Owns(w.store[id]) ==> FreeBut(w.store, w.store[id].spec.target, id)
    ensures var w', target := Reconcile(w, id, env), w.store[id].spec.target;
            w'.store[id].status.completed == True && FreeBut(w.store, target, id) && Sends(w, id, env, next)
            && SomeoneWaits(w', target, id, w.now, waiter, next, env2) ==>
              HandedOver(w', waiter, next, env2)
  {
    hide Reconcile, Decide, Inv, SomeoneWaits, HandedOver, IsNextWaiting, FreeBut, After;
    var w', target := Reconcile(w, id, env), w.store[id].spec.target;
    EndIsDecided(w, id, env);
    if Owns(w.store[id]) {
      HolderIsAlone(w, id);
    }
    EventKeeps(w, Reconciled(id, env));
    ReconcileParts(w, id, env);
    if w'.store[id].status.completed == True && FreeBut(w.store, target, id) && Sends(w, id, env, next)
        && SomeoneWaits(w', target, id, w.now, waiter, next, env2) {
      var plan := Decide(w, id, env);
      SkippedIsIgnored(w.store, w'.store, target, id, w.now, next);
      var first := Put(Put(w.store, id, plan.early, true), id, Ended(plan.act.st), env.endWrite);
      SkippedIsIgnored(first, w'.store, target, id, w.now, next);
      HandOverIn(w', target, id, w.now, waiter, next, env2);
    }
  }

  /** An active experiment completes only by an end. */
  lemma EndIsDecided(w: World, id: ExpId, env: Inputs)
    requires Inv(w) && id in w.store && InputsOk(w.store[id], env) && Active(w.store[id])
    ensures Reconcile(w, id, env).store[id].status.completed == True ==>
      Decide(w, id, env).act.End? && After(Completed, Decide(w, id, env).act.st.stage)
  {
    hide Reconcile, Decide, After, JobsInv, QuietInv;
    assert ExpInv(w, id, false);
    DecideOk(w, id, env, false);
    ReconcileParts(w, id, env);
    var act := Decide(w, id, env).act;
    if act.End? {
      AfterIsRank(Completed, act.st.stage);
    }
  }
}
