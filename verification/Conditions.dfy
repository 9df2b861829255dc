/** The list of conditions in an experiment's status and the events recorded with it
    (api/v2alpha2/status.go, controllers/recorder.go). */
module Conditions {
  import opened Prelude
  import opened Stages
  import opened Experiments

  /** ExperimentConditionType. */
  datatype Kind = ExperimentCompleted | ExperimentFailed | TargetAcquired

  /** A condition; its time is that of its last mark, or of its appending. */
  datatype Entry = Entry(kind: Kind, truth: Truth, reason: Option<string>, message: Option<string>, time: int)

  type Entries = seq<Entry>

  /** What a condition is marked with. */
  datatype Mark = Mark(truth: Truth, reason: string, message: string)

  // ---- The list as a value ----

  /** The position of the first condition of the kind; the length of the list if there is none. */
  function Find(es: Entries, kind: Kind): (i: nat)
    ensures i <= |es| && (i < |es| ==> es[i].kind == kind) && forall j :: 0 <= j < i ==> es[j].kind != kind
  {
    if es == [] || es[0].kind == kind then 0 else 1 + Find(es[1..], kind)
  }

  /** The search finds the first position whose kind matches. */
  lemma FindFirst(es: Entries, kind: Kind, i: nat)
    requires i <= |es| && (i < |es| ==> es[i].kind == kind) && forall j :: 0 <= j < i ==> es[j].kind != kind
    ensures Find(es, kind) == i
  {
  }

  /** GetCondition: an absent condition is appended as Unknown. */
  function Got(es: Entries, kind: Kind, now: int): (r: Entries)
    ensures Find(r, kind) == Find(es, kind) < |r| && es <= r
  {
    if Find(es, kind) < |es| then es
    else
      var r := es + [Entry(kind, Unknown, None, None, now)];
      FindFirst(r, kind, |es|);
      r
  }

  function Marked(es: Entries, kind: Kind, m: Mark, now: int): Entries {
    Got(es, kind, now)[Find(es, kind) := Entry(kind, m.truth, Some(m.reason), Some(m.message), now)]
  }

  /** What the condition of the kind was last marked with, if it was. */
  function LastMark(es: Entries, kind: Kind): Option<Mark> {
    var i := Find(es, kind);
    if i < |es| && es[i].reason.Some? && es[i].message.Some?
    then Some(Mark(es[i].truth, es[i].reason.value, es[i].message.value)) else None
  }

  /** The condition's status, Unknown when it is absent. */
  function TruthOf(es: Entries, kind: Kind): Truth {
    if Find(es, kind) < |es| then es[Find(es, kind)].truth else Unknown
  }

  function InitialEntries(es: Entries, now: int): Entries {
    es + [Entry(ExperimentCompleted, False, None, None, now),
          Entry(ExperimentFailed, False, None, None, now),
          Entry(TargetAcquired, False, None, None, now)]
  }

  predicate OncePerKind(es: Entries) {
    forall i, j :: 0 <= i < j < |es| ==> es[i].kind != es[j].kind
  }

  // ---- What the operations do to the list ----

  /** Marking a condition sets it, and leaves every other kind of condition as it was. */
  lemma MarkChangesOwn(es: Entries, kind: Kind, m: Mark, now: int, other: Kind)
    ensures var r := Marked(es, kind, m, now);
            && LastMark(r, kind) == Some(m) && TruthOf(r, kind) == m.truth
            && (other != kind ==> LastMark(r, other) == LastMark(es, other) && TruthOf(r, other) == TruthOf(es, other))
            && (OncePerKind(r) <==> OncePerKind(es))
            && (forall i :: 0 <= i < |es| && es[i].kind != kind ==> r[i] == es[i])
  {
    var g, i := Got(es, kind, now), Find(es, kind);
    GetChangesNone(es, kind, now, kind);
    GetChangesNone(es, kind, now, other);
    SetChangesOwn(g, i, Entry(kind, m.truth, Some(m.reason), Some(m.message), now), kind);
    SetChangesOwn(g, i, Entry(kind, m.truth, Some(m.reason), Some(m.message), now), other);
    assert Marked(es, kind, m, now) == g[i := Entry(kind, m.truth, Some(m.reason), Some(m.message), now)];
    hide *;
  }

  /** Overwriting a condition with one of its kind. */
  lemma SetChangesOwn(es: Entries, i: nat, e: Entry, other: Kind)
    requires i < |es| && es[i].kind == e.kind && Find(es, e.kind) == i
    ensures var r := es[i := e];
            && (other == e.kind ==> TruthOf(r, other) == e.truth)
            && (other == e.kind && e.reason.Some? && e.message.Some? ==>
                  LastMark(r, other) == Some(Mark(e.truth, e.reason.value, e.message.value)))
            && (other != e.kind ==> LastMark(r, other) == LastMark(es, other) && TruthOf(r, other) == TruthOf(es, other))
            && (OncePerKind(r) <==> OncePerKind(es))
            && (forall j :: 0 <= j < |es| && es[j].kind != e.kind ==> r[j] == es[j])
  {
    hide Find;
    SameKinds(es, es[i := e], other);
  }

  /** Reading a condition changes the status of none. */
  lemma GetChangesNone(es: Entries, kind: Kind, now: int, other: Kind)
    ensures var r := Got(es, kind, now);
            && LastMark(r, other) == LastMark(es, other) && TruthOf(r, other) == TruthOf(es, other)
            && (OncePerKind(r) <==> OncePerKind(es))
  {
  }

  lemma SameKinds(a: Entries, b: Entries, kind: Kind)
    requires |a| == |b| && forall i :: 0 <= i < |a| ==> a[i].kind == b[i].kind
    ensures Find(a, kind) == Find(b, kind)
    ensures OncePerKind(a) <==> OncePerKind(b)
  {
  }

  /** What a mark overwrites, and when that changes it. */
  lemma MarkedStep(es: Entries, kind: Kind, m: Mark, now: int)
    ensures var e, i := Entry(kind, m.truth, Some(m.reason), Some(m.message), now), Find(es, kind);
            && Marked(es, kind, m, now) == Got(es, kind, now)[i := e]
            && (LastMark(es, kind) == Some(m) <==> Got(es, kind, now)[i].(time := now) == e)
  {
  }

  /** None of the three conditions is there. */
  predicate NoneYet(es: Entries) {
    Find(es, ExperimentCompleted) == Find(es, ExperimentFailed) == Find(es, TargetAcquired) == |es|
  }

  /** InitializeStatus keeps the conditions unique if and only if there are none before it. */
  lemma InitializeKeepsUnique(es: Entries, now: int)
    ensures OncePerKind(InitialEntries(es, now)) <==> es == []
    ensures NoneYet(es) <==> es == []
  {
    var r := InitialEntries(es, now);
    if es != [] {
      var n := |es|;
      assert r[0] == es[0] && r[n].kind == ExperimentCompleted && r[n + 1].kind == ExperimentFailed
        && r[n + 2].kind == TargetAcquired;
      assert Find(es, es[0].kind) == 0;
    }
  }

  /** Initialisation sets an absent condition to False, and is hidden by one that is there already. */
  lemma InitializeTruths(es: Entries, now: int, kind: Kind)
    ensures TruthOf(InitialEntries(es, now), kind) == if Find(es, kind) < |es| then TruthOf(es, kind) else False
  {
    var r, n := InitialEntries(es, now), |es|;
    FindFirst(r, kind, if Find(es, kind) < n then Find(es, kind)
                       else match kind case ExperimentCompleted => n case ExperimentFailed => n + 1 case TargetAcquired => n + 2);
  }

  // ---- Histories of the list, and the events they emit ----

  datatype Op = Get(kind: Kind, now: int) | MarkAs(kind: Kind, mark: Mark, now: int)

  datatype Event = Event(kind: Kind, mark: Mark)

  /** recordEvent reports a mark when it changes the condition. */
  function Reports(es: Entries, kind: Kind, m: Mark): seq<Event> {
    if LastMark(es, kind) == Some(m) then [] else [Event(kind, m)]
  }

  function After(es: Entries, ops: seq<Op>): Entries
    decreases |ops|
  {
    if ops == [] then es
    else match ops[0]
      case Get(kind, now) => After(Got(es, kind, now), ops[1..])
      case MarkAs(kind, m, now) => After(Marked(es, kind, m, now), ops[1..])
  }

  function Emitted(es: Entries, ops: seq<Op>): seq<Event>
    decreases |ops|
  {
    if ops == [] then []
    else match ops[0]
      case Get(kind, now) => Emitted(Got(es, kind, now), ops[1..])
      case MarkAs(kind, m, now) => Reports(es, kind, m) + Emitted(Marked(es, kind, m, now), ops[1..])
  }

  /** The marks of one kind, in order. */
  function MarksOf(ops: seq<Op>, kind: Kind): seq<Mark>
    decreases |ops|
  {
    if ops == [] then []
    else (if ops[0].MarkAs? && ops[0].kind == kind then [ops[0].mark] else []) + MarksOf(ops[1..], kind)
  }

  function EventsOf(evs: seq<Event>, kind: Kind): seq<Mark>
    decreases |evs|
  {
    if evs == [] then [] else (if evs[0].kind == kind then [evs[0].mark] else []) + EventsOf(evs[1..], kind)
  }

  /** The sequence without those that repeat their predecessor; `last` precedes the first. */
  function Changes(last: Option<Mark>, ms: seq<Mark>): seq<Mark>
    decreases |ms|
  {
    if ms == [] then []
    else (if last == Some(ms[0]) then [] else [ms[0]]) + Changes(Some(ms[0]), ms[1..])
  }

  lemma {:induction false} EventsOfAppend(a: seq<Event>, b: seq<Event>, kind: Kind)
    ensures EventsOf(a + b, kind) == EventsOf(a, kind) + EventsOf(b, kind)
    decreases |a|
  {
    if a == [] {
      assert a + b == b;
    } else {
      assert (a + b)[1..] == a[1..] + b;
      EventsOfAppend(a[1..], b, kind);
    }
  }

  lemma ReportsOf(es: Entries, k: Kind, m: Mark, kind: Kind)
    ensures EventsOf(Reports(es, k, m), kind) == if k == kind && LastMark(es, kind) != Some(m) then [m] else []
  {
  }

  /** One mark of a history. */
  lemma HistoryStep(es: Entries, ops: seq<Op>, kind: Kind)
    requires ops != [] && ops[0].MarkAs?
    ensures Emitted(es, ops) == Reports(es, ops[0].kind, ops[0].mark) + Emitted(Marked(es, ops[0].kind, ops[0].mark, ops[0].now), ops[1..])
    ensures ops[0].kind != kind ==> MarksOf(ops, kind) == MarksOf(ops[1..], kind)
    ensures ops[0].kind == kind ==> MarksOf(ops, kind) == [ops[0].mark] + MarksOf(ops[1..], kind)
  {
  }

  lemma ChangesStep(last: Option<Mark>, m: Mark, ms: seq<Mark>)
    ensures Changes(last, [m] + ms) == (if last == Some(m) then [] else [m]) + Changes(Some(m), ms)
  {
  }

  /** From any list and through any history, the events of a kind are its marks with consecutive
      repeats removed. */
  lemma {:induction false} EventsAreChanges(es: Entries, ops: seq<Op>, kind: Kind)
    ensures EventsOf(Emitted(es, ops), kind) == Changes(LastMark(es, kind), MarksOf(ops, kind))
    decreases |ops|
  {
    if ops != [] {
      var rest := ops[1..];
      match ops[0] {
        case Get(k, now) =>
          GetChangesNone(es, k, now, kind);
          EventsAreChanges(Got(es, k, now), rest, kind);
          assert [] + MarksOf(rest, kind) == MarksOf(rest, kind);
        case MarkAs(k, m, now) =>
          MarkChangesOwn(es, k, m, now, kind);
          EventsAreChanges(Marked(es, k, m, now), rest, kind);
          EventsOfAppend(Reports(es, k, m), Emitted(Marked(es, k, m, now), rest), kind);
          ReportsOf(es, k, m, kind);
          HistoryStep(es, ops, kind);
          ChangesStep(LastMark(es, kind), m, MarksOf(rest, kind));
          hide *;
          var later := EventsOf(Emitted(Marked(es, k, m, now), rest), kind);
          assert [] + later == later;
      }
    }
  }

  /** No event repeats the one before it, and each differs from what the history began with. */
  lemma {:induction false} ChangesDiffer(last: Option<Mark>, ms: seq<Mark>)
    ensures var cs := Changes(last, ms);
            && (cs != [] ==> last != Some(cs[0]))
            && forall i :: 0 <= i < |cs| - 1 ==> cs[i] != cs[i + 1]
    ensures ms != [] ==> var cs := Changes(last, ms);
            if cs == [] then last == Some(ms[|ms| - 1]) else cs[|cs| - 1] == ms[|ms| - 1]
    decreases |ms|
  {
    if ms != [] {
      ChangesDiffer(Some(ms[0]), ms[1..]);
      var cs, tail := Changes(last, ms), Changes(Some(ms[0]), ms[1..]);
      assert cs == tail || (cs[0] == ms[0] && cs[1..] == tail);
    }
  }

  /** From an empty list, initialised or not, every condition occurs at most once through any history. */
  lemma {:induction false} EachKindOnce(es: Entries, ops: seq<Op>)
    requires OncePerKind(es)
    ensures OncePerKind(After(es, ops))
    decreases |ops|
  {
    if ops != [] {
      match ops[0] {
        case Get(k, now) =>
          GetChangesNone(es, k, now, k);
          EachKindOnce(Got(es, k, now), ops[1..]);
        case MarkAs(k, m, now) =>
          MarkChangesOwn(es, k, m, now, k);
          EachKindOnce(Marked(es, k, m, now), ops[1..]);
      }
    }
  }

  /** The last status a kind is marked with in a history, else the one given. */
  function LastTruth(before: Truth, ms: seq<Mark>): Truth {
    if ms == [] then before else ms[|ms| - 1].truth
  }

  /** Each condition is a variable of its own, as the three fields of module Experiments' Status take them
      to be: a history leaves in it the status it was last marked with. */
  lemma {:induction false} ConditionsAreFields(es: Entries, ops: seq<Op>, kind: Kind)
    ensures TruthOf(After(es, ops), kind) == LastTruth(TruthOf(es, kind), MarksOf(ops, kind))
    decreases |ops|
  {
    if ops != [] {
      match ops[0] {
        case Get(k, now) =>
          GetChangesNone(es, k, now, kind);
          ConditionsAreFields(Got(es, k, now), ops[1..], kind);
        case MarkAs(k, m, now) =>
          MarkChangesOwn(es, k, m, now, kind);
          ConditionsAreFields(Marked(es, k, m, now), ops[1..], kind);
          hide Marked, TruthOf, After;
          var ms, tail := MarksOf(ops, kind), MarksOf(ops[1..], kind);
          assert tail != [] ==> ms[|ms| - 1] == tail[|tail| - 1];
      }
    }
  }

  // ---- The methods, on conditions that are shared by reference ----

  class Condition {
    const kind: Kind
    var truth: Truth
    var reason: Option<string>
    var message: Option<string>
    var lastTransitionTime: int

    constructor (kind: Kind, truth: Truth, now: int)
      ensures this.kind == kind && Value() == Entry(kind, truth, None, None, now)
    {
      this.kind := kind;
      this.truth := truth;
      reason, message := None, None;
      lastTransitionTime := now;
    }

    function Value(): Entry
      reads this
    {
      Entry(kind, truth, reason, message, lastTransitionTime)
    }

    /** The part of MarkCondition that compares and sets the fields of the condition. */
    method Update(truth: Truth, reason: string, message: string, now: int) returns (updated: bool)
      modifies this
      ensures updated <==> old(Value()).(time := now) != Entry(kind, truth, Some(reason), Some(message), now)
      ensures Value() == Entry(kind, truth, Some(reason), Some(message), now)
    {
      updated := truth != this.truth || this.reason.None? || this.message.None?
        || reason != this.reason.value || message != this.message.value;
      this.truth := truth;
      this.reason := Some(reason);
      this.message := Some(message);
      this.lastTransitionTime := now;
    }
  }

  ghost function Values(cs: seq<Condition>): (es: Entries)
    reads cs
    ensures |es| == |cs| && forall i :: 0 <= i < |es| ==> es[i] == cs[i].Value()
  {
    seq(|cs|, i requires 0 <= i < |cs| reads cs => cs[i].Value())
  }

  /** The status of an experiment, as far as its conditions and their initialisation go. */
  class ExperimentStatus {
    var conditions: seq<Condition>
    var message: Option<string>
    var initTime: Option<int>
    var lastUpdateTime: Option<int>
    var stage: Option<Stage>
    var completedIterations: Option<int>

    constructor ()
      ensures Valid() && View() == [] && message == None
      ensures initTime == lastUpdateTime == completedIterations == None && stage == None
    {
      conditions, message := [], None;
      initTime, lastUpdateTime, stage, completedIterations := None, None, None, None;
    }

    /** No condition stands in the list twice. */
    predicate Valid()
      reads this`conditions
    {
      Distinct(conditions)
    }

    ghost function View(): (es: Entries)
      reads this`conditions, conditions
      ensures |es| == |conditions| && forall i :: 0 <= i < |es| ==> es[i] == conditions[i].Value()
    {
      Values(conditions)
    }

    method AddCondition(kind: Kind, truth: Truth, now: int) returns (c: Condition)
      requires Valid()
      modifies this`conditions
      ensures Valid() && fresh(c) && conditions == old(conditions) + [c]
      ensures View() == old(View()) + [Entry(kind, truth, None, None, now)]
    {
      c := new Condition(kind, truth, now);
      conditions := conditions + [c];
    }

    /** The condition returned is the one in the list, so that a change to it is a change of the list. */
    method GetCondition(kind: Kind, now: int) returns (c: Condition)
      requires Valid()
      modifies this`conditions
      ensures Valid() && View() == Got(old(View()), kind, now)
      ensures conditions[Find(old(View()), kind)] == c && c.kind == kind && (c in old(conditions) || fresh(c))
      ensures old(conditions) <= conditions && forall d :: d in conditions ==> d in old(conditions) || fresh(d)
    {
      for i := 0 to |conditions|
        invariant forall j :: 0 <= j < i ==> View()[j].kind != kind
        invariant conditions == old(conditions) && View() == old(View())
      {
        if conditions[i].kind == kind {
          FindFirst(View(), kind, i);
          return conditions[i];
        }
      }
      FindFirst(View(), kind, |conditions|);
      c := AddCondition(kind, Unknown, now);
    }

    method MarkCondition(kind: Kind, truth: Truth, reason: string, conditionMessage: string, now: int)
        returns (updated: bool)
      requires Valid()
      modifies this`conditions, this`message, conditions
      ensures Valid() && View() == Marked(old(View()), kind, Mark(truth, reason, conditionMessage), now)
      ensures updated <==> LastMark(old(View()), kind) != Some(Mark(truth, reason, conditionMessage))
      ensures message == Some(if |conditionMessage| > 0 then reason + ": " + conditionMessage else reason)
      ensures old(conditions) <= conditions && forall d :: d in conditions ==> d in old(conditions) || fresh(d)
    {
      var statusMessage := reason;
      if |conditionMessage| > 0 {
        statusMessage := statusMessage + ": " + conditionMessage;
      }
      message := Some(statusMessage);
      var c := GetCondition(kind, now);
      MarkedStep(old(View()), kind, Mark(truth, reason, conditionMessage), now);
      hide *;
      updated := UpdateIn(c, Find(old(View()), kind), truth, reason, conditionMessage, now);
    }

    /** Updating the condition at a position of the list changes the list there only. */
    method UpdateIn(c: Condition, ghost i: nat, truth: Truth, reason: string, message: string, now: int)
        returns (updated: bool)
      requires Valid() && i < |conditions| && conditions[i] == c
      modifies c
      ensures View() == old(View())[i := Entry(c.kind, truth, Some(reason), Some(message), now)]
      ensures updated <==> old(View())[i].(time := now) != Entry(c.kind, truth, Some(reason), Some(message), now)
    {
      assert forall j :: 0 <= j < |conditions| && j != i ==> conditions[j] != c;
      updated := c.Update(truth, reason, message, now);
    }

    /** The conditions are appended, whatever is there; the rest is overwritten. */
    method InitializeStatus(now: int)
      requires Valid()
      modifies this`conditions, this`initTime, this`lastUpdateTime, this`stage, this`completedIterations
      ensures Valid() && View() == InitialEntries(old(View()), now)
      ensures initTime == lastUpdateTime == Some(now) && stage == Some(Waiting) && completedIterations == Some(0)
    {
      hide View, Valid;
      var completed := AddCondition(ExperimentCompleted, False, now);
      var failed := AddCondition(ExperimentFailed, False, now);
      var acquired := AddCondition(TargetAcquired, False, now);
      initTime, lastUpdateTime, stage, completedIterations := Some(now), Some(now), Some(Waiting), Some(0);
    }
  }

  class Recorder {
    var events: seq<Event>   // what the event recorder was sent

    /** recordEvent: a mark is reported only when it changes the condition. */
    method RecordEvent(status: ExperimentStatus, kind: Kind, truth: Truth, reason: string, message: string, now: int)
      requires status.Valid()
      modifies this, status`conditions, status`message, status.conditions
      ensures status.Valid() && status.View() == Marked(old(status.View()), kind, Mark(truth, reason, message), now)
      ensures events == old(events) + Reports(old(status.View()), kind, Mark(truth, reason, message))
      ensures old(status.conditions) <= status.conditions
      ensures forall d :: d in status.conditions ==> d in old(status.conditions) || fresh(d)
    {
      var ok := status.MarkCondition(kind, truth, reason, message, now);
      if ok {
        events := events + [Event(kind, Mark(truth, reason, message))];
      }
    }
  }
}
