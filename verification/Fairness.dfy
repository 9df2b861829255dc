/** Targets are acquired in the order in which experiments were initialised. */
module Fairness {
  import opened Prelude
  import opened JobNames
  import opened Experiments
  import opened Targets
  import opened Controller
  import opened Protocol
  import opened Safety
  import Steps

  datatype Acquisition = Acquisition(id: ExpId, target: string, initTime: int)

  /** The event stores that experiment `id` acquired its target. */
  predicate Acquires(w: World, ev: Event, id: ExpId)
    requires Enabled(w, ev)
  {
    ev.Reconciled? && ev.id == id && id in w.store && !Owns(w.store[id])
    && id in Apply(w, ev).store && Owns(Apply(w, ev).store[id]) && w.store[id].status.initTime.Some?
  }

  function Acquired(w: World, ev: Event): seq<Acquisition>
    requires Enabled(w, ev)
  {
    if ev.Reconciled? && Acquires(w, ev, ev.id) then
      [Acquisition(ev.id, w.store[ev.id].spec.target, w.store[ev.id].status.initTime.value)]
    else []
  }

  /** All acquisitions of a run, in order. */
  function Log(w: World, evs: seq<Event>): seq<Acquisition>
    requires IsRun(w, evs)
    decreases |evs|
  {
    if evs == [] then [] else Acquired(w, evs[0]) + Log(Apply(w, evs[0]), evs[1..])
  }

  predicate InOrder(log: seq<Acquisition>) {
    forall i, j :: 0 <= i < j < |log| && log[i].target == log[j].target ==> log[i].initTime <= log[j].initTime
  }

  /** No waiting experiment was initialised before one that already acquired the same target, and the
      clock is past all of them. */
  predicate NoneOvertaken(w: World, log: seq<Acquisition>) {
    forall i :: 0 <= i < |log| ==>
      && log[i].initTime <= Stamp(w.now)
      && forall o :: o in w.store && w.store[o].spec.target == log[i].target && Active(w.store[o]) && !Owns(w.store[o]) ==>
           log[i].initTime <= w.store[o].status.initTime.value
  }

  lemma PlanAcquires(w: World, id: ExpId, plan: Plan, env: Inputs)
    requires ExpInv(w, id, false) && Active(w.store[id]) && MayPlan(w, id, plan, false) && !Owns(w.store[id])
    ensures var x, y := w.store[id].status, Perform(w, id, plan, env).store[id].status;
            y.initTime == x.initTime && (y.acquired == True ==> x.completed == False && CanAcquire(w.store, id))
  {
  }

  /** What a reconcile may do to an experiment that does not own its target. */
  lemma WaitingStep(w: World, id: ExpId, env: Inputs)
    requires Inv(w) && id in w.store && InputsOk(w.store[id], env) && !Owns(w.store[id])
    ensures var x, y := w.store[id].status, Reconcile(w, id, env).store[id].status;
            && (x.initTime.None? ==> y.acquired != True && (y.initTime.Some? ==> y.initTime.value == Stamp(w.now)))
            && (x.initTime.Some? ==> y.initTime == x.initTime)
            && (y.acquired == True ==> x.initTime.Some? && x.completed == False && CanAcquire(w.store, id))
  {
    var plan := Decide(w, id, env);
    assert Reconcile(w, id, env) == Perform(w, id, plan, env);
    PerformParts(w, id, plan, env);
    assert ExpInv(w, id, false);
    hide Reconcile, Decide, Perform, CanAcquire, JobsInv, MayPlan, InputsOk;
    if Active(w.store[id]) {
      DecideOk(w, id, env, false);
      PlanAcquires(w, id, plan, env);
    } else {
      IdleStep(w, id, env);
    }
  }

  lemma AcquisitionIsFair(w: World, id: ExpId, env: Inputs, log: seq<Acquisition>)
    requires Inv(w) && NoneOvertaken(w, log) && InOrder(log)
    requires Enabled(w, Reconciled(id, env)) && Acquires(w, Reconciled(id, env), id)
    ensures InOrder(log + Acquired(w, Reconciled(id, env)))
    ensures NoneOvertaken(Apply(w, Reconciled(id, env)), log + Acquired(w, Reconciled(id, env)))
  {
    WaitingStep(w, id, env);
    PerformIsLocal(w, id, Decide(w, id, env), env);
    StatusOf(w, id);
    hide Reconcile, Decide, InputsOk, Perform, Inv, InOrder, NoneOvertaken, CanAcquire, Local;
    AcquirerWasFirst(w, Apply(w, Reconciled(id, env)), id, log);
  }

  lemma StatusOf(w: World, id: ExpId)
    requires Inv(w) && id in w.store
    ensures StatusInv(w.store[id], w.now)
  {
  }

  /** Whoever could acquire the target was initialised no later than those that still wait for it. */
  lemma AcquirerWasFirst(w: World, w': World, id: ExpId, log: seq<Acquisition>)
    requires Inv(w) && NoneOvertaken(w, log) && InOrder(log) && id in w.store && Local(w, w', id)
    requires Active(w.store[id]) && !Owns(w.store[id]) && CanAcquire(w.store, id) && Owns(w'.store[id])
    ensures var more := log + [Acquisition(id, w.store[id].spec.target, w.store[id].status.initTime.value)];
            InOrder(more) && NoneOvertaken(w', more)
  {
  }

  /** An experiment still waiting after a reconcile waited before, or has just been initialised. */
  lemma StillWaiting(w: World, id: ExpId, env: Inputs)
    requires Inv(w) && id in w.store && InputsOk(w.store[id], env)
    requires var y := Reconcile(w, id, env).store[id]; Active(y) && !Owns(y)
    ensures var x, y := w.store[id], Reconcile(w, id, env).store[id];
            && y.spec == x.spec && !Owns(x)
            && if x.status.initTime.Some? then Active(x) && y.status.initTime == x.status.initTime
               else y.status.initTime.value == Stamp(w.now)
  {
    Steps.StatusSteps(w, id, env);
    WaitingStep(w, id, env);
  }

  lemma OtherReconcileIsFair(w: World, id: ExpId, env: Inputs, log: seq<Acquisition>)
    requires Inv(w) && NoneOvertaken(w, log) && id in w.store && InputsOk(w.store[id], env)
    ensures NoneOvertaken(Reconcile(w, id, env), log)
  {
    var w' := Reconcile(w, id, env);
    PerformIsLocal(w, id, Decide(w, id, env), env);
    assert w'.now == w.now && w'.store == w.store[id := w.store[id].(status := w'.store[id].status)];
    if Active(w'.store[id]) && !Owns(w'.store[id]) {
      StillWaiting(w, id, env);
    }
    hide Reconcile, Decide, InputsOk, Inv;
    forall i, o | 0 <= i < |log| && o in w'.store && w'.store[o].spec.target == log[i].target && Active(w'.store[o])
        && !Owns(w'.store[o])
      ensures log[i].initTime <= w'.store[o].status.initTime.value
    {
      assert o != id ==> w'.store[o] == w.store[o];
    }
  }

  lemma EventIsFair(w: World, ev: Event, log: seq<Acquisition>)
    requires Inv(w) && Enabled(w, ev) && NoneOvertaken(w, log) && InOrder(log)
    ensures InOrder(log + Acquired(w, ev)) && NoneOvertaken(Apply(w, ev), log + Acquired(w, ev))
  {
    hide Reconcile, Inv, InOrder, NoneOvertaken;
    assert log + [] == log;
    match ev {
      case Reconciled(id, env) =>
        if Acquires(w, ev, id) {
          AcquisitionIsFair(w, id, env, log);
        } else if id in w.store {
          OtherReconcileIsFair(w, id, env, log);
        } else {
          OtherEventIsFair(w, ev, log);
        }
      case _ =>
        OtherEventIsFair(w, ev, log);
    }
  }

  lemma OtherEventIsFair(w: World, ev: Event, log: seq<Acquisition>)
    requires Enabled(w, ev) && NoneOvertaken(w, log) && !(ev.Reconciled? && ev.id in w.store)
    ensures NoneOvertaken(Apply(w, ev), log)
  {
  }

  lemma {:induction false} RunIsFair(w: World, evs: seq<Event>, log: seq<Acquisition>)
    requires Inv(w) && IsRun(w, evs) && NoneOvertaken(w, log) && InOrder(log)
    ensures InOrder(log + Log(w, evs)) && NoneOvertaken(Final(w, evs), log + Log(w, evs))
    decreases |evs|
  {
    hide *;
    LogSteps(w, evs);
    if evs == [] {
      assert log + Log(w, evs) == log;
    } else {
      var w', log' := Apply(w, evs[0]), log + Acquired(w, evs[0]);
      EventIsFair(w, evs[0], log);
      EventKeeps(w, evs[0]);
      RunIsFair(w', evs[1..], log');
      assert log' + Log(w', evs[1..]) == log + (Acquired(w, evs[0]) + Log(w', evs[1..]));
    }
  }

  lemma LogSteps(w: World, evs: seq<Event>)
    requires IsRun(w, evs)
    ensures evs == [] ==> Log(w, evs) == [] && Final(w, evs) == w
    ensures evs != [] ==> Enabled(w, evs[0]) && IsRun(Apply(w, evs[0]), evs[1..])
    ensures evs != [] ==> Log(w, evs) == Acquired(w, evs[0]) + Log(Apply(w, evs[0]), evs[1..])
    ensures evs != [] ==> Final(w, evs) == Final(Apply(w, evs[0]), evs[1..])
  {
  }

  /** Along every run, whatever names are used again, the acquisitions of one target come in nondecreasing
      order of initialisation time, and an experiment that still waits at the end was initialised no earlier
      than any that acquired its target. */
  lemma NoOvertaking(w0: World, evs: seq<Event>)
    requires Initial(w0) && IsRun(w0, evs)
    ensures InOrder(Log(w0, evs)) && NoneOvertaken(Final(w0, evs), Log(w0, evs))
  {
    RunIsFair(w0, evs, []);
    assert [] + Log(w0, evs) == Log(w0, evs);
  }

  // ---- The same by the clock ----

  /** The clock readings at which experiments were initialised last. */
  type Readings = map<ExpId, int>

  function Read(w: World, ev: Event, rs: Readings): Readings
    requires Enabled(w, ev)
  {
    if ev.Reconciled? && ev.id in w.store && w.store[ev.id].status.initTime.None?
        && ev.id in Apply(w, ev).store && Apply(w, ev).store[ev.id].status.initTime.Some? then rs[ev.id := w.now]
    else rs
  }

  function FinalReadings(w: World, evs: seq<Event>, rs: Readings): Readings
    requires IsRun(w, evs)
    decreases |evs|
  {
    if evs == [] then rs else FinalReadings(Apply(w, evs[0]), evs[1..], Read(w, evs[0], rs))
  }

  /** An acquisition, with the clock reading at which the experiment was initialised. */
  datatype Turn = Turn(id: ExpId, target: string, since: int)

  function TurnTaken(w: World, ev: Event, rs: Readings): seq<Turn>
    requires Enabled(w, ev)
  {
    if ev.Reconciled? && Acquires(w, ev, ev.id) then
      [Turn(ev.id, w.store[ev.id].spec.target, if ev.id in rs then rs[ev.id] else 0)]
    else []
  }

  function Turns(w: World, evs: seq<Event>, rs: Readings): seq<Turn>
    requires IsRun(w, evs)
    decreases |evs|
  {
    if evs == [] then [] else TurnTaken(w, evs[0], rs) + Turns(Apply(w, evs[0]), evs[1..], Read(w, evs[0], rs))
  }

  /** The stored times are those of the readings, to the second. */
  predicate Clocked(w: World, rs: Readings) {
    forall id :: id in w.store && w.store[id].status.initTime.Some? ==>
                   id in rs && TimeOf(w.store[id].status.initTime, rs[id])
  }

  /** Whoever owns its target has taken a turn since it was initialised. */
  predicate OwnersServed(w: World, rs: Readings, turns: seq<Turn>) {
    forall id :: id in w.store && Owns(w.store[id]) ==> id in rs && Turn(id, w.store[id].spec.target, rs[id]) in turns
  }

  /** The turns are those of the log, with times that are the readings to the second. */
  predicate SameTurns(log: seq<Acquisition>, turns: seq<Turn>) {
    && |log| == |turns|
    && forall i :: 0 <= i < |log| ==> log[i].target == turns[i].target && TimeOf(Some(log[i].initTime), turns[i].since)
  }

  /** What a reconcile makes of the time of initialisation and of the hold on the target. */
  lemma TimesOfReconcile(w: World, id: ExpId, env: Inputs)
    requires Inv(w) && id in w.store && InputsOk(w.store[id], env)
    ensures var x, y := w.store[id], Reconcile(w, id, env).store[id];
            && y.spec == x.spec
            && (x.status.initTime.Some? ==> y.status.initTime == x.status.initTime)
            && (x.status.initTime.None? ==> !Owns(x) && !Owns(y))
            && (x.status.initTime.None? && y.status.initTime.Some? ==> TimeOf(y.status.initTime, w.now))
  {
    hide Reconcile, InputsOk, LoopsDone, FinishInv, Initialized;
    Steps.StatusSteps(w, id, env);
    Steps.ExpOf(w, id);
    if w.store[id].status.initTime.None? {
      WaitingStep(w, id, env);
    }
  }

  lemma ClockedReconcile(w: World, id: ExpId, env: Inputs, rs: Readings)
    requires Inv(w) && id in w.store && InputsOk(w.store[id], env) && Clocked(w, rs)
    ensures Clocked(Reconcile(w, id, env), Read(w, Reconciled(id, env), rs))
    ensures SameTurns(Acquired(w, Reconciled(id, env)), TurnTaken(w, Reconciled(id, env), rs))
  {
    hide Reconcile, Inv, InputsOk, TimeOf;
    TimesOfReconcile(w, id, env);
    ReconcileParts(w, id, env);
  }

  lemma ServedReconcile(w: World, id: ExpId, env: Inputs, rs: Readings, turns: seq<Turn>)
    requires Inv(w) && id in w.store && InputsOk(w.store[id], env) && Clocked(w, rs) && OwnersServed(w, rs, turns)
    ensures var ev := Reconciled(id, env);
            OwnersServed(Reconcile(w, id, env), Read(w, ev, rs), turns + TurnTaken(w, ev, rs))
  {
    hide Reconcile, Inv, InputsOk, TimeOf;
    TimesOfReconcile(w, id, env);
    ReconcileParts(w, id, env);
    var ev, w' := Reconciled(id, env), Reconcile(w, id, env);
    forall o | o in w'.store && Owns(w'.store[o])
      ensures o in Read(w, ev, rs)
      ensures Turn(o, w'.store[o].spec.target, Read(w, ev, rs)[o]) in turns + TurnTaken(w, ev, rs)
    {
      assert o != id ==> w'.store[o] == w.store[o];
    }
  }

  lemma ClockedOther(w: World, ev: Event, rs: Readings, turns: seq<Turn>)
    requires Enabled(w, ev) && Clocked(w, rs) && OwnersServed(w, rs, turns) && !(ev.Reconciled? && ev.id in w.store)
    ensures Clocked(Apply(w, ev), rs) && OwnersServed(Apply(w, ev), rs, turns)
    ensures Read(w, ev, rs) == rs && Acquired(w, ev) == [] && TurnTaken(w, ev, rs) == []
  {
    hide Reconcile, InputsOk, TimeOf, WellFormed;
    if ev.Reconciled? {
      AbsentKeepsStore(w, ev.id, ev.env);
    }
  }

  lemma ClockedEvent(w: World, ev: Event, rs: Readings, turns: seq<Turn>)
    requires Inv(w) && Enabled(w, ev) && Clocked(w, rs) && OwnersServed(w, rs, turns)
    ensures Clocked(Apply(w, ev), Read(w, ev, rs))
    ensures OwnersServed(Apply(w, ev), Read(w, ev, rs), turns + TurnTaken(w, ev, rs))
    ensures SameTurns(Acquired(w, ev), TurnTaken(w, ev, rs))
  {
    hide Reconcile, Inv, InputsOk, Clocked, OwnersServed, Read, TurnTaken, Acquired, WellFormed;
    if ev.Reconciled? && ev.id in w.store {
      ClockedReconcile(w, ev.id, ev.env, rs);
      ServedReconcile(w, ev.id, ev.env, rs, turns);
    } else {
      ClockedOther(w, ev, rs, turns);
      assert turns + [] == turns;
    }
  }

  lemma {:induction false} RunIsClocked(w: World, evs: seq<Event>, rs: Readings, turns: seq<Turn>)
    requires Inv(w) && IsRun(w, evs) && Clocked(w, rs) && OwnersServed(w, rs, turns)
    ensures Clocked(Final(w, evs), FinalReadings(w, evs, rs))
    ensures OwnersServed(Final(w, evs), FinalReadings(w, evs, rs), turns + Turns(w, evs, rs))
    ensures SameTurns(Log(w, evs), Turns(w, evs, rs))
    decreases |evs|
  {
    hide Inv, Enabled, Apply, Clocked, OwnersServed, Acquired, TurnTaken, Read, TimeOf;
    if evs == [] {
      assert turns + Turns(w, evs, rs) == turns;
    } else {
      var w', rs', more := Apply(w, evs[0]), Read(w, evs[0], rs), turns + TurnTaken(w, evs[0], rs);
      ClockedEvent(w, evs[0], rs, turns);
      EventKeeps(w, evs[0]);
      RunIsClocked(w', evs[1..], rs', more);
      assert more + Turns(w', evs[1..], rs') == turns + (TurnTaken(w, evs[0], rs) + Turns(w', evs[1..], rs'));
    }
  }

  function Second(reading: int): int {
    reading / 1000
  }

  /** Times in order are readings in order, to the second. */
  lemma SecondsInOrder(s: int, t: int, a: int, b: int)
    requires TimeOf(Some(s), a) && TimeOf(Some(t), b) && s <= t
    ensures Second(a) <= Second(b)
  {
  }

  /** The experiment is initialised and still waits for its target. */
  predicate Waits(w: World, id: ExpId) {
    id in w.store && Active(w.store[id]) && !Owns(w.store[id])
  }

  predicate SharesTarget(w: World, a: ExpId, b: ExpId) {
    a in w.store && b in w.store && w.store[a].spec.target == w.store[b].spec.target
  }

  lemma TurnsInOrder(log: seq<Acquisition>, turns: seq<Turn>, i: nat, j: nat)
    requires SameTurns(log, turns) && InOrder(log) && i < j < |turns| && turns[i].target == turns[j].target
    ensures Second(turns[i].since) <= Second(turns[j].since)
  {
    hide TimeOf;
    SecondsInOrder(log[i].initTime, log[j].initTime, turns[i].since, turns[j].since);
  }

  lemma WaitersLater(w: World, rs: Readings, log: seq<Acquisition>, turns: seq<Turn>, a: ExpId, i: nat)
    requires SameTurns(log, turns) && NoneOvertaken(w, log) && Clocked(w, rs)
    requires Waits(w, a) && i < |turns| && turns[i].target == w.store[a].spec.target
    ensures a in rs && Second(turns[i].since) <= Second(rs[a])
  {
    hide TimeOf;
    SecondsInOrder(log[i].initTime, w.store[a].status.initTime.value, turns[i].since, rs[a]);
  }

  lemma OwnersEarlier(w: World, rs: Readings, log: seq<Acquisition>, turns: seq<Turn>, a: ExpId, b: ExpId)
    requires SameTurns(log, turns) && NoneOvertaken(w, log) && Clocked(w, rs) && OwnersServed(w, rs, turns)
    requires Waits(w, a) && SharesTarget(w, a, b) && Owns(w.store[b])
    ensures a in rs && b in rs && Second(rs[b]) <= Second(rs[a])
  {
    var i :| 0 <= i < |turns| && turns[i] == Turn(b, w.store[b].spec.target, rs[b]);
    hide SameTurns, NoneOvertaken, Clocked, OwnersServed;
    WaitersLater(w, rs, log, turns, a, i);
  }

  /** Targets have been acquired in the order of the seconds in which their experiments were initialised. */
  predicate TurnsOrdered(turns: seq<Turn>) {
    forall i, j :: 0 <= i < j < |turns| && turns[i].target == turns[j].target ==>
      Second(turns[i].since) <= Second(turns[j].since)
  }

  /** No experiment that still waits was initialised in an earlier second than one that acquired its target. */
  ghost predicate NoneSkipped(w: World, rs: Readings, turns: seq<Turn>) {
    forall a, i :: Waits(w, a) && 0 <= i < |turns| && turns[i].target == w.store[a].spec.target ==>
      a in rs && Second(turns[i].since) <= Second(rs[a])
  }

  /** Nor was it initialised in an earlier second than one that is stored and owns, or has owned, the target. */
  ghost predicate OwnersWereFirst(w: World, rs: Readings) {
    forall a, b :: Waits(w, a) && SharesTarget(w, a, b) && Owns(w.store[b]) ==>
      a in rs && b in rs && Second(rs[b]) <= Second(rs[a])
  }

  lemma TurnsKept(w: World, rs: Readings, log: seq<Acquisition>, turns: seq<Turn>)
    requires SameTurns(log, turns) && InOrder(log) && NoneOvertaken(w, log)
    requires Clocked(w, rs) && OwnersServed(w, rs, turns)
    ensures TurnsOrdered(turns) && NoneSkipped(w, rs, turns) && OwnersWereFirst(w, rs)
  {
    hide SameTurns, InOrder, NoneOvertaken, Clocked, OwnersServed, Second;
    forall i, j | 0 <= i < j < |turns| && turns[i].target == turns[j].target
      ensures Second(turns[i].since) <= Second(turns[j].since)
    {
      TurnsInOrder(log, turns, i, j);
    }
    forall a, i | Waits(w, a) && 0 <= i < |turns| && turns[i].target == w.store[a].spec.target
      ensures a in rs && Second(turns[i].since) <= Second(rs[a])
    {
      WaitersLater(w, rs, log, turns, a, i);
    }
    forall a, b | Waits(w, a) && SharesTarget(w, a, b) && Owns(w.store[b])
      ensures a in rs && b in rs && Second(rs[b]) <= Second(rs[a])
    {
      OwnersEarlier(w, rs, log, turns, a, b);
    }
  }

  /** First come, first served, along every run and by the clock. */
  lemma FirstComeFirstServed(w0: World, evs: seq<Event>)
    requires Initial(w0) && IsRun(w0, evs)
    ensures var w, rs, turns := Final(w0, evs), FinalReadings(w0, evs, map[]), Turns(w0, evs, map[]);
            TurnsOrdered(turns) && NoneSkipped(w, rs, turns) && OwnersWereFirst(w, rs)
  {
    hide IsRun, Final, Turns, FinalReadings, Log, Initial, SameTurns, InOrder, NoneOvertaken, Clocked, OwnersServed, Inv;
    NoOvertaking(w0, evs);
    StartsClocked(w0);
    RunIsClocked(w0, evs, map[], []);
    assert [] + Turns(w0, evs, map[]) == Turns(w0, evs, map[]);
    TurnsKept(Final(w0, evs), FinalReadings(w0, evs, map[]), Log(w0, evs), Turns(w0, evs, map[]));
  }

  lemma StartsClocked(w0: World)
    requires Initial(w0)
    ensures Inv(w0) && Clocked(w0, map[]) && OwnersServed(w0, map[], [])
  {
  }
}
