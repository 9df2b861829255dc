/** Aggregating latency histograms of load-test runs (taskrunner/tasks/collect/collect.go). */
module Collect {
  import opened Prelude

  datatype Sample = Sample(start: real, end: real, count: int)

  /** The content of a Result; its return codes may be a nil map. */
  datatype Totals = Totals(count: int, max: real, sum: real, data: seq<Sample>, codes: Option<map<string, int>>)

  /** Results by version. */
  type Histograms = map<string, Totals>

  // ---- Aggregation as a function ----

  function CodeCount(m: map<string, int>, code: string): int {
    if code in m then m[code] else 0
  }

  function AddCodes(m: map<string, int>, n: map<string, int>): map<string, int> {
    map code | code in m.Keys + n.Keys :: CodeCount(m, code) + CodeCount(n, code)
  }

  function MergeCodes(a: Option<map<string, int>>, b: Option<map<string, int>>): Option<map<string, int>> {
    if a.None? then b else if b.None? then a else Some(AddCodes(a.value, b.value))
  }

  function Larger(x: real, y: real): real {
    if x < y then y else x
  }

  function Merge(a: Totals, b: Totals): Totals {
    Totals(a.count + b.count, Larger(a.max, b.max), a.sum + b.sum, a.data + b.data, MergeCodes(a.codes, b.codes))
  }

  function Aggregated(h: Histograms, version: string, r: Totals): Histograms {
    h[version := if version in h then Merge(h[version], r) else r]
  }

  datatype VersionRun = VersionRun(version: string, result: Totals)

  /** Aggregating runs in order. */
  function Fold(h: Histograms, runs: seq<VersionRun>): Histograms {
    if runs == [] then h
    else Aggregated(Fold(h, runs[..|runs| - 1]), runs[|runs| - 1].version, runs[|runs| - 1].result)
  }

  // ---- What the totals of a version are ----

  /** The results that bear on a version: what was there, and its runs. */
  function Contributions(h: Histograms, runs: seq<VersionRun>, version: string): seq<Totals> {
    if runs == [] then (if version in h then [h[version]] else [])
    else
      var before, last := Contributions(h, runs[..|runs| - 1], version), runs[|runs| - 1];
      if last.version == version then before + [last.result] else before
  }

  function SumCounts(rs: seq<Totals>): int {
    if rs == [] then 0 else SumCounts(rs[..|rs| - 1]) + rs[|rs| - 1].count
  }

  function SumSums(rs: seq<Totals>): real {
    if rs == [] then 0.0 else SumSums(rs[..|rs| - 1]) + rs[|rs| - 1].sum
  }

  function AllData(rs: seq<Totals>): seq<Sample> {
    if rs == [] then [] else AllData(rs[..|rs| - 1]) + rs[|rs| - 1].data
  }

  function Responses(r: Totals, code: string): int {
    if r.codes.None? then 0 else CodeCount(r.codes.value, code)
  }

  function SumResponses(rs: seq<Totals>, code: string): int {
    if rs == [] then 0 else SumResponses(rs[..|rs| - 1], code) + Responses(rs[|rs| - 1], code)
  }

  predicate IsMax(m: real, rs: seq<Totals>) {
    (forall r :: r in rs ==> r.max <= m) && exists r :: r in rs && r.max == m
  }

  /** The totals sum, or collect, all the results that bear on the version. */
  predicate Totalled(t: Totals, rs: seq<Totals>) {
    t.count == SumCounts(rs) && t.sum == SumSums(rs) && t.data == AllData(rs) && IsMax(t.max, rs)
  }

  lemma TotalledMore(t: Totals, rs: seq<Totals>, r: Totals)
    requires Totalled(t, rs)
    ensures Totalled(Merge(t, r), rs + [r])
  {
  }

  lemma TotalledOne(r: Totals)
    ensures Totalled(r, [r])
  {
  }

  lemma ResponsesMore(t: Totals, rs: seq<Totals>, r: Totals, code: string)
    requires Responses(t, code) == SumResponses(rs, code)
    ensures Responses(Merge(t, r), code) == SumResponses(rs + [r], code)
  {
  }

  /** Through any sequence of runs, a version's totals are the summed counts and sums, the maximum, the
      samples in order and the pointwise sums of the return codes of what bears on that version and of
      nothing else; a version that nothing bears on is absent. */
  lemma {:induction false} FoldTotals(h: Histograms, runs: seq<VersionRun>, version: string)
    ensures var rs, after := Contributions(h, runs, version), Fold(h, runs);
            && (version in after <==> rs != [])
            && (version in after ==> Totalled(after[version], rs))
            && (version in after ==> forall code :: Responses(after[version], code) == SumResponses(rs, code))
    decreases |runs|
  {
    if runs == [] {
      if version in h {
        TotalledOne(h[version]);
        OneResponse(h[version]);
      }
    } else {
      var init, last := runs[..|runs| - 1], runs[|runs| - 1];
      FoldTotals(h, init, version);
      var rs, before, after := Contributions(h, init, version), Fold(h, init), Fold(h, runs);
      FoldStep(h, runs, version);
      hide Fold, Contributions, Totalled, Merge, Responses, SumResponses;
      if last.version == version {
        if version in before {
          TotalledMore(before[version], rs, last.result);
          forall code ensures Responses(Merge(before[version], last.result), code) == SumResponses(rs + [last.result], code) {
            ResponsesMore(before[version], rs, last.result, code);
          }
        } else {
          TotalledOne(last.result);
          OneResponse(last.result);
          assert rs + [last.result] == [last.result];
        }
      }
    }
  }

  lemma OneResponse(r: Totals)
    ensures forall code :: Responses(r, code) == SumResponses([r], code)
  {
  }

  lemma FoldStep(h: Histograms, runs: seq<VersionRun>, version: string)
    requires runs != []
    ensures var init, last := runs[..|runs| - 1], runs[|runs| - 1];
            var before, after := Fold(h, init), Fold(h, runs);
            && (version in after <==> version in before || version == last.version)
            && (version in after && version != last.version ==> after[version] == before[version])
            && (version == last.version ==>
                  after[version] == if version in before then Merge(before[version], last.result) else last.result)
            && Contributions(h, runs, version) ==
                  Contributions(h, init, version) + if last.version == version then [last.result] else []
  {
  }

  /** Persisting between two tasks makes no difference: the second goes on where the first ended. */
  lemma {:induction false} FoldConcat(h: Histograms, a: seq<VersionRun>, b: seq<VersionRun>)
    ensures Fold(Fold(h, a), b) == Fold(h, a + b)
    decreases |b|
  {
    if b == [] {
      assert a + b == a;
    } else {
      assert (a + b)[..|a + b| - 1] == a + b[..|b| - 1];
      FoldConcat(h, a, b[..|b| - 1]);
    }
  }

  // ---- Conservation ----

  ghost function SumMap(m: map<string, int>): int
    decreases |m|
  {
    if m == map[] then 0
    else
      var k :| k in m;
      m[k] + SumMap(m - {k})
  }

  /** The sum does not depend on the order in which entries are taken. */
  lemma {:induction false} SumMapTake(m: map<string, int>, k: string)
    requires k in m
    ensures SumMap(m) == m[k] + SumMap(m - {k})
    decreases |m|
  {
    var c: string :| c in m && SumMap(m) == m[c] + SumMap(m - {c});
    if c != k {
      SumMapTake(m - {c}, k);
      SumMapTake(m - {k}, c);
      assert m - {c} - {k} == m - {k} - {c};
    }
  }

  lemma AddCodesTake(m: map<string, int>, n: map<string, int>, k: string)
    requires k in n
    ensures var all, fewer := AddCodes(m, n), AddCodes(m, n - {k});
            && k in all && all[k] == CodeCount(m, k) + n[k] && all - {k} == fewer - {k}
            && (if k in m then k in fewer && fewer[k] == m[k] else fewer - {k} == fewer)
  {
  }

  lemma {:induction false} SumMapAdd(m: map<string, int>, n: map<string, int>)
    ensures SumMap(AddCodes(m, n)) == SumMap(m) + SumMap(n)
    decreases |n|
  {
    if n == map[] {
      assert AddCodes(m, n) == m;
    } else {
      var k :| k in n;
      AddCodesTake(m, n, k);
      SumMapAdd(m, n - {k});
      SumMapTake(n, k);
      SumMapTake(AddCodes(m, n), k);
      if k in m {
        SumMapTake(AddCodes(m, n - {k}), k);
      }
      hide AddCodes, SumMap;
    }
  }

  function BucketTotal(data: seq<Sample>): int {
    if data == [] then 0 else BucketTotal(data[..|data| - 1]) + data[|data| - 1].count
  }

  lemma {:induction false} BucketTotalAppend(a: seq<Sample>, b: seq<Sample>)
    ensures BucketTotal(a + b) == BucketTotal(a) + BucketTotal(b)
    decreases |b|
  {
    if b == [] {
      assert a + b == a;
    } else {
      assert (a + b)[..|a + b| - 1] == a + b[..|b| - 1];
      BucketTotalAppend(a, b[..|b| - 1]);
    }
  }

  ghost function CodeTotal(codes: Option<map<string, int>>): int {
    if codes.None? then 0 else SumMap(codes.value)
  }

  /** The count, the sum of the bucket counts and the sum of the return codes agree. */
  ghost predicate Balanced(r: Totals) {
    r.count == BucketTotal(r.data) == CodeTotal(r.codes)
  }

  /** All three are conserved by a merge: each is the sum of the parts'. */
  lemma MergeConserves(a: Totals, b: Totals)
    ensures var r := Merge(a, b);
            && r.count == a.count + b.count && BucketTotal(r.data) == BucketTotal(a.data) + BucketTotal(b.data)
            && CodeTotal(r.codes) == CodeTotal(a.codes) + CodeTotal(b.codes)
  {
    BucketTotalAppend(a.data, b.data);
    if a.codes.Some? && b.codes.Some? {
      SumMapAdd(a.codes.value, b.codes.value);
    }
  }

  lemma {:induction false} FoldBalanced(h: Histograms, runs: seq<VersionRun>)
    requires forall v :: v in h ==> Balanced(h[v])
    requires forall i :: 0 <= i < |runs| ==> Balanced(runs[i].result)
    ensures forall v :: v in Fold(h, runs) ==> Balanced(Fold(h, runs)[v])
    decreases |runs|
  {
    if runs != [] {
      var init, last := runs[..|runs| - 1], runs[|runs| - 1];
      FoldBalanced(h, init);
      if last.version in Fold(h, init) {
        MergeConserves(Fold(h, init)[last.version], last.result);
      }
    }
  }

  // ---- The methods, on results shared by reference ----

  class CodeTable {
    var counts: map<string, int>

    constructor (counts: map<string, int>)
      ensures this.counts == counts
    {
      this.counts := counts;
    }
  }

  class Result {
    var count: int
    var max: real
    var sum: real
    var data: seq<Sample>
    var codes: CodeTable?

    constructor (t: Totals)
      ensures Value() == t && (codes != null ==> fresh(codes))
    {
      count, max, sum, data := t.count, t.max, t.sum, t.data;
      new;
      codes := null;
      if t.codes.Some? {
        codes := new CodeTable(t.codes.value);
      }
    }

    /** The result and its return codes lie in the set, or both outside it. */
    ghost predicate Within(objects: set<object>)
      reads this
    {
      this in objects && (codes != null ==> codes in objects)
    }

    ghost predicate Outside(objects: set<object>)
      reads this
    {
      this !in objects && (codes != null ==> codes !in objects)
    }

    function Value(): Totals
      reads this, codes
    {
      Totals(count, max, sum, data, if codes == null then None else Some(codes.counts))
    }

    /** The addition of the return codes, key by key. */
    method AddRetCodes(other: CodeTable)
      requires codes != null && codes != other
      modifies codes
      ensures codes.counts == AddCodes(old(codes.counts), other.counts)
    {
      var rest := other.counts.Keys;
      while rest != {}
        invariant rest <= other.counts.Keys
        invariant codes.counts.Keys == old(codes.counts).Keys + (other.counts.Keys - rest)
        invariant forall k :: k in codes.counts ==>
          codes.counts[k] == CodeCount(old(codes.counts), k) + if k in rest then 0 else CodeCount(other.counts, k)
        decreases rest
      {
        var key :| key in rest;
        codes.counts := codes.counts[key := CodeCount(codes.counts, key) + other.counts[key]];
        rest := rest - {key};
      }
    }

    /** Adding a new result, which hands over its return codes when there were none. */
    method Add(newResult: Result)
      requires this != newResult && (codes != null ==> codes != newResult.codes)
      modifies this, codes
      ensures Value() == Merge(old(Value()), old(newResult.Value()))
      ensures codes == if old(codes) == null then newResult.codes else old(codes)
    {
      count := count + newResult.count;
      max := Larger(max, newResult.max);
      sum := sum + newResult.sum;
      data := data + newResult.data;
      if codes == null {
        codes := newResult.codes;
      } else if newResult.codes != null {
        AddRetCodes(newResult.codes);
      }
    }
  }

  class ResultTable {
    var results: map<string, Result>
    ghost var Repr: set<object>

    constructor ()
      ensures Valid() && fresh(Repr) && results == map[] && View() == map[]
    {
      results := map[];
      Repr := {this};
    }

    /** No two versions share any part of their results. */
    ghost predicate Valid()
      reads this, Repr
    {
      && this in Repr
      && (forall v :: v in results ==> results[v] in Repr && results[v].Within(Repr))
      && forall v, w :: v in results && w in results && v != w ==>
           results[v] != results[w] && (results[v].codes != null ==> results[v].codes != results[w].codes)
    }

    function View(): (h: Histograms)
      requires Valid()
      reads this, Repr
      ensures h.Keys == results.Keys && forall v :: v in results ==> h[v] == results[v].Value()
    {
      map v | v in results :: results[v].Value()
    }

    /** Return codes that no version has yet may be taken over. */
    ghost method Adopt(codes: CodeTable?)
      requires Valid() && (codes != null ==> codes !in Repr)
      modifies this`Repr
      ensures Valid() && View() == old(View())
      ensures forall v :: v in results ==> results[v].codes == null || results[v].codes != codes
      ensures Repr == if codes == null then old(Repr) else old(Repr) + {codes}
    {
      if codes != null {
        Repr := Repr + {codes};
      }
    }

    /** Adding to one version's result leaves the others as they are. */
    method AddAt(version: string, newResult: Result)
      requires Valid() && version in results && results[version] != newResult
      requires newResult.codes != null ==> results[version].codes != newResult.codes
      modifies results[version], results[version].codes
      ensures results[version].Value() == Merge(old(results[version].Value()), old(newResult.Value()))
      ensures results[version].codes == if old(results[version].codes) == null then newResult.codes else old(results[version].codes)
      ensures forall v :: v in results && v != version ==>
        results[v].Value() == old(results[v].Value()) && results[v].codes == old(results[v].codes)
    {
      hide Merge;
      var updatedResult := results[version];
      updatedResult.Add(newResult);
    }

    /** Adding a result whose return codes have been adopted already. */
    method AddToExisting(version: string, newResult: Result)
      requires Valid() && version in results && newResult !in Repr
      requires newResult.codes != null ==> newResult.codes in Repr
      requires forall v :: v in results ==> results[v].codes == null || results[v].codes != newResult.codes
      modifies results[version], results[version].codes
      ensures Valid() && View() == Aggregated(old(View()), version, old(newResult.Value()))
    {
      hide View, Merge, Result.Value;
      AddAt(version, newResult);
    }

    method Put(version: string, newResult: Result)
      requires Valid() && version !in results && newResult.Outside(Repr)
      modifies Repr
      ensures Valid() && View() == Aggregated(old(View()), version, old(newResult.Value()))
      ensures forall o :: o in Repr ==> o in old(Repr) || o == newResult || o == newResult.codes
    {
      results := results[version := newResult];
      Repr := Repr + if newResult.codes == null then {newResult} else {newResult, newResult.codes};
    }
  }

  /** aggregate: adds to the version's result in place, or puts the new one into the table. */
  method Aggregate(oldResults: ResultTable?, version: string, newResult: Result) returns (t: ResultTable)
    requires oldResults != null ==> oldResults.Valid() && newResult.Outside(oldResults.Repr)
    modifies if oldResults == null then {} else oldResults.Repr
    ensures t.Valid() && (if oldResults == null then fresh(t) else t == oldResults)
    ensures oldResults == null ==> t.View() == map[version := old(newResult.Value())]
    ensures oldResults != null ==> t.View() == Aggregated(old(oldResults.View()), version, old(newResult.Value()))
    ensures forall o :: o in t.Repr ==>
      o == newResult || o == newResult.codes || fresh(o) || (oldResults != null && o in old(oldResults.Repr))
  {
    if oldResults == null {
      t := new ResultTable();
      t.Put(version, newResult);
      return;
    }
    t := oldResults;
    if version in t.results {
      t.Adopt(newResult.codes);
      t.AddToExisting(version, newResult);
    } else {
      t.Put(version, newResult);
    }
  }

  // ---- The collect task ----

  /** The experiment's status, as far as the task reads and writes it. */
  class StoredHistograms {
    var hists: Option<Histograms>
  }

  /** The results of the first n versions. */
  function Runs(versions: seq<string>, outcomes: seq<Option<Totals>>, n: nat): (runs: seq<VersionRun>)
    requires n <= |versions| == |outcomes| && forall j :: 0 <= j < n ==> outcomes[j].Some?
  {
    if n == 0 then [] else Runs(versions, outcomes, n - 1) + [VersionRun(versions[n - 1], outcomes[n - 1].value)]
  }

  lemma FoldRun(h: Histograms, versions: seq<string>, outcomes: seq<Option<Totals>>, n: nat)
    requires 0 < n <= |versions| == |outcomes| && forall j :: 0 <= j < n ==> outcomes[j].Some?
    ensures Fold(h, Runs(versions, outcomes, n)) ==
      Aggregated(Fold(h, Runs(versions, outcomes, n - 1)), versions[n - 1], outcomes[n - 1].value)
  {
  }

  /** Reading the stored histograms into results of their own. */
  method Load(h: Histograms) returns (t: ResultTable)
    ensures t.Valid() && t.View() == h && fresh(t.Repr)
  {
    hide ResultTable.View, Result.Value;
    t := new ResultTable();
    var rest := h.Keys;
    while rest != {}
      invariant rest <= h.Keys && t.Valid() && fresh(t.Repr)
      invariant t.View() == map v | v in h && v !in rest :: h[v]
      decreases rest
    {
      var v :| v in rest;
      var r := new Result(h[v]);
      t.Put(v, r);
      rest := rest - {v};
    }
  }

  /** Aggregating a result just read from a file, which nothing else refers to. */
  method AggregateNew(oldResults: ResultTable, version: string, result: Totals) returns (t: ResultTable)
    requires oldResults.Valid()
    modifies oldResults.Repr
    ensures t.Valid() && fresh(t.Repr - old(oldResults.Repr))
    ensures t.View() == Aggregated(old(oldResults.View()), version, result)
  {
    hide Aggregated, ResultTable.View, ResultTable.Valid;
    var data := new Result(result);
    t := Aggregate(oldResults, version, data);
  }

  /** The loop of the task's run: the load tests one by one, until one fails. */
  method AggregateAll(table: ResultTable, versions: seq<string>, outcomes: seq<Option<Totals>>, loadOnly: bool)
      returns (ok: bool, t: ResultTable)
    requires |versions| == |outcomes| && table.Valid()
    modifies table.Repr
    ensures ok <==> forall j :: 0 <= j < |outcomes| ==> outcomes[j].Some?
    ensures ok && !loadOnly ==> t.Valid() && t.View() == Fold(old(table.View()), Runs(versions, outcomes, |versions|))
  {
    hide Aggregated, ResultTable.View, ResultTable.Valid;
    t := table;
    for j := 0 to |versions|
      invariant t.Valid() && fresh(t.Repr - old(table.Repr))
      invariant forall i :: 0 <= i < j ==> outcomes[i].Some?
      invariant !loadOnly ==> t.View() == Fold(old(table.View()), Runs(versions, outcomes, j))
    {
      if outcomes[j].None? {
        return false, t;
      }
      if !loadOnly {
        t := AggregateNew(t, versions[j], outcomes[j].value);
        FoldRun(old(table.View()), versions, outcomes, j + 1);
      }
    }
    return true, t;
  }

  /** The task's run; `outcomes` are the load tests' results, None for one that fails. It persists the
      aggregate of all of them or, when one fails or only load is asked for, nothing. */
  method Run(exp: StoredHistograms, versions: seq<string>, outcomes: seq<Option<Totals>>, loadOnly: bool)
      returns (ok: bool)
    requires |versions| == |outcomes|
    modifies exp
    ensures ok <==> forall j :: 0 <= j < |outcomes| ==> outcomes[j].Some?
    ensures !ok || loadOnly ==> exp.hists == old(exp.hists)
    ensures ok && !loadOnly ==>
      var h := if old(exp.hists).Some? then old(exp.hists).value else map[];
      exp.hists == Some(Fold(h, Runs(versions, outcomes, |versions|)))
  {
    hide Fold, Runs, ResultTable.View, ResultTable.Valid;
    var fortioData := new ResultTable();
    if !loadOnly && exp.hists.Some? {
      fortioData := Load(exp.hists.value);
    }
    ok, fortioData := AggregateAll(fortioData, versions, outcomes, loadOnly);
    if ok && !loadOnly {
      exp.hists := Some(fortioData.View());
    }
  }
}
