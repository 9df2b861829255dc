/** The lock on a target and its hand-over (controllers/target.go). */
module Targets {
  import opened Prelude
  import opened JobNames
  import opened Experiments

  type ExpStore = map<ExpId, Experiment>

  /** An experiment that is initialised, not completed, and wants the target. */
  predicate Contends(x: Experiment, target: string) {
    x.spec.target == target && x.status.completed == False
  }

  predicate Owns(x: Experiment) {
    x.status.acquired == True
  }

  /** metav1.Time's Before, false when either time is absent. */
  predicate Before(a: Option<int>, b: Option<int>) {
    a.Some? && b.Some? && a.value < b.value
  }

  /** No other contender owns the target of experiment `id`, or started earlier. */
  predicate CanAcquire(store: ExpStore, id: ExpId)
    requires id in store
  {
    forall o :: o in store && o != id && Contends(store[o], store[id].spec.target) ==>
      !Owns(store[o]) && !Before(store[o].status.initTime, store[id].status.initTime)
  }

  predicate Rival(store: ExpStore, target: string, skip: Option<ExpId>, e: ExpId) {
    e in store && Contends(store[e], target) && skip != Some(e)
  }

  /** What nextWaitingExperiment may return: nothing when a rival owns the target or none started before
      now, and otherwise a rival that no other started before. Ties are broken by the listing order. */
  ghost predicate IsNextWaiting(store: ExpStore, target: string, skip: Option<ExpId>, now: int, next: Option<ExpId>) {
    if exists e :: Rival(store, target, skip, e) && Owns(store[e]) then next.None?
    else match next
      case None => forall e :: Rival(store, target, skip, e) ==> !Before(store[e].status.initTime, Some(now))
      case Some(n) =>
        && Rival(store, target, skip, n) && Before(store[n].status.initTime, Some(now))
        && forall e :: Rival(store, target, skip, e) ==> !Before(store[e].status.initTime, store[n].status.initTime)
  }

  /** Listing the stored experiments, in any order. */
  method List(store: ExpStore) returns (items: seq<ExpId>)
    ensures forall e :: e in items <==> e in store
    ensures Distinct(items)
  {
    items := [];
    var rest := store.Keys;
    while rest != {}
      invariant rest <= store.Keys && Distinct(items)
      invariant forall e :: e in items <==> e in store && e !in rest
      decreases rest
    {
      var e :| e in rest;
      items := items + [e];
      rest := rest - {e};
    }
  }

  method ActiveContendersForTarget(store: ExpStore, target: string) returns (result: seq<ExpId>)
    ensures forall e :: e in result <==> e in store && Contends(store[e], target)
  {
    result := [];
    var items := List(store);
    for i := 0 to |items|
      invariant forall e :: e in result <==> e in items[..i] && e in store && Contends(store[e], target)
    {
      if Contends(store[items[i]], target) {
        result := result + [items[i]];
      }
    }
  }

  /** acquireTarget: true only when the instance already owns the target; otherwise it may mark the
      instance as the owner, to be stored by the caller. */
  method AcquireTarget(store: ExpStore, instance: Instance) returns (acquired: bool)
    requires instance.id in store && instance.spec.target == store[instance.id].spec.target
    requires instance.status.initTime == store[instance.id].status.initTime
    modifies instance
    ensures instance.spec == old(instance.spec)
    ensures acquired <==> old(instance.status.acquired) == True
    ensures instance.status ==
      if old(instance.status.acquired) != True && CanAcquire(store, instance.id)
      then old(instance.status).(acquired := True) else old(instance.status)
  {
    if instance.status.acquired == True {
      return true;
    }
    var shareTarget := ActiveContendersForTarget(store, instance.spec.target);
    var earliest := instance.status.initTime;
    for i := 0 to |shareTarget|
      invariant forall j :: 0 <= j < i && shareTarget[j] != instance.id ==>
        !Owns(store[shareTarget[j]]) && !Before(store[shareTarget[j]].status.initTime, earliest)
      invariant earliest == instance.status.initTime
        || (Before(earliest, instance.status.initTime)
            && exists j :: 0 <= j < i && shareTarget[j] != instance.id && store[shareTarget[j]].status.initTime == earliest)
      invariant instance.status == old(instance.status) && instance.spec == old(instance.spec)
    {
      var e := shareTarget[i];
      if e != instance.id {
        if Owns(store[e]) {
          return false;
        }
        if Before(store[e].status.initTime, earliest) {
          earliest := store[e].status.initTime;
        }
      }
    }
    if !Before(earliest, instance.status.initTime) {
      instance.status := instance.status.(acquired := True);
    }
    return false;
  }

  method NextWaitingExperiment(store: ExpStore, target: string, skip: Option<ExpId>, now: int)
      returns (next: Option<ExpId>)
    ensures IsNextWaiting(store, target, skip, now, next)
  {
    var shareTarget := ActiveContendersForTarget(store, target);
    var earliest := Some(now);
    next := None;
    for i := 0 to |shareTarget|
      invariant forall j :: 0 <= j < i && skip != Some(shareTarget[j]) ==>
        !Owns(store[shareTarget[j]]) && !Before(store[shareTarget[j]].status.initTime, earliest)
      invariant next.None? ==> earliest == Some(now)
      invariant next.Some? ==> Rival(store, target, skip, next.value)
      invariant next.Some? ==> earliest == store[next.value].status.initTime && Before(earliest, Some(now))
    {
      var e := shareTarget[i];
      if skip == Some(e) {
        continue;
      }
      if Owns(store[e]) {
        assert Rival(store, target, skip, e);
        return None;
      }
      if Before(store[e].status.initTime, earliest) {
        earliest := store[e].status.initTime;
        next := Some(e);
      }
    }
  }
}
