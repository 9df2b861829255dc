/** Reading the metrics an experiment's criteria name, and those they refer to (controllers/metrics.go).
    A metric is stored under "namespace/name", the text ReadMetric uses as its cache key. */
module Metrics {
  import opened Prelude
  import opened Experiments

  type Store = map<string, Metric>

  // ---- Names and keys ----

  /** strings.Split(s, "/"). */
  function Split(s: string): (parts: seq<string>)
    ensures |parts| == 1 + Slashes(s)
  {
    if s == [] then [""]
    else
      var rest := Split(s[1..]);
      if s[0] == '/' then [""] + rest else [[s[0]] + rest[0]] + rest[1..]
  }

  function Slashes(s: string): nat {
    if s == [] then 0 else (if s[0] == '/' then 1 else 0) + Slashes(s[1..])
  }

  /** The key a reference stands for when it is read from the given namespace. */
  function Key(namespace: string, name: string): string {
    var parts := Split(name);
    if |parts| == 2 then parts[0] + "/" + parts[1] else namespace + "/" + name
  }

  /** Stored metrics have one slash in their key: neither a namespace nor a name can hold one. */
  predicate WellKeyed(store: Store) {
    forall k :: k in store ==> Slashes(k) == 1
  }

  lemma {:induction false} NoSlashSplit(s: string)
    requires Slashes(s) == 0
    ensures Split(s) == [s]
  {
    if s != [] {
      NoSlashSplit(s[1..]);
      assert [s[0]] + s[1..] == s;
    }
  }

  lemma {:induction false} QualifiedSplit(s: string)
    requires Slashes(s) == 1
    ensures Split(s)[0] + "/" + Split(s)[1] == s
  {
    if s[0] == '/' {
      NoSlashSplit(s[1..]);
      assert "/" + s[1..] == s;
    } else {
      QualifiedSplit(s[1..]);
      var r := Split(s[1..]);
      assert [s[0]] + s[1..] == s;
      assert ([s[0]] + r[0]) + "/" + r[1] == [s[0]] + (r[0] + "/" + r[1]);
    }
  }

  /** A reference with exactly one slash is its own key, whatever the namespace it is read from. */
  lemma QualifiedKey(namespace: string, name: string)
    requires Slashes(name) == 1
    ensures Key(namespace, name) == name
  {
    QualifiedSplit(name);
  }

  lemma {:induction false} SlashesCounted(s: string)
    ensures Slashes(s) == multiset(s)['/']
  {
    if s != [] {
      SlashesCounted(s[1..]);
      assert s == [s[0]] + s[1..];
    }
  }

  /** Where a reference leads that is read from a namespace: with one slash it names the namespace itself, and
      otherwise it is a name in that namespace. */
  lemma KeyExactly(namespace: string, name: string)
    ensures Key(namespace, name) == if multiset(name)['/'] == 1 then name else namespace + "/" + name
  {
    SlashesCounted(name);
    if Slashes(name) == 1 {
      QualifiedKey(namespace, name);
    }
  }

  // ---- Following sampleSize references ----

  /** The key of the metric that metric `k` refers to, resolved in k's own namespace. */
  function Next(store: Store, k: string): Option<string> {
    if k in store && store[k].sampleSize.Some? then Some(Key(store[k].namespace, store[k].sampleSize.value)) else None
  }

  /** The key reached from `k` by following n references. */
  ghost function Nth(store: Store, k: string, n: nat): Option<string>
    decreases n
  {
    if n == 0 then Some(k)
    else match Next(store, k)
      case None => None
      case Some(b) => Nth(store, b, n - 1)
  }

  ghost predicate Reaches(store: Store, k: string, b: string) {
    exists n: nat :: Nth(store, k, n) == Some(b)
  }

  predicate Within(cache: Store, store: Store) {
    forall k :: k in cache ==> k in store && cache[k] == store[k]
  }

  /** ReadMetric as a function of the cache: the cache it leaves, or None when a metric is missing. */
  function Follow(store: Store, cache: Store, k: string): (r: Option<Store>)
    decreases store.Keys - cache.Keys
  {
    if k in cache then Some(cache)
    else if k !in store then None
    else
      var cache' := cache[k := store[k]];
      assert k in store.Keys - cache.Keys && k !in store.Keys - cache'.Keys;
      match Next(store, k)
      case None => Some(cache')
      case Some(b) => Follow(store, cache', b)
  }

  /** Every reference out of the cache stays in it, except to the key still to be read. */
  ghost predicate ClosedBut(store: Store, cache: Store, pending: Option<string>) {
    forall a :: a in cache && Next(store, a).Some? ==> Next(store, a).value in cache || Next(store, a) == pending
  }

  lemma ReachStep(store: Store, k: string, m: string, b: string)
    requires Next(store, k) == Some(m) && Reaches(store, m, b)
    ensures Reaches(store, k, b)
  {
    var n: nat :| Nth(store, m, n) == Some(b);
    assert Nth(store, k, n + 1) == Some(b);
  }

  lemma ReachSelf(store: Store, k: string)
    ensures Reaches(store, k, k)
  {
    assert Nth(store, k, 0) == Some(k);
  }

  lemma {:induction false} FollowExact(store: Store, cache: Store, k: string)
    requires Within(cache, store) && ClosedBut(store, cache, Some(k))
    ensures var r := Follow(store, cache, k);
            match r
            case Some(m) =>
              && Within(m, store) && ClosedBut(store, m, None) && cache.Keys <= m.Keys && k in m
              && forall b :: b in m && b !in cache ==> Reaches(store, k, b)
            case None => exists b :: b !in store && Reaches(store, k, b)
    decreases store.Keys - cache.Keys
  {
    ReachSelf(store, k);
    if k !in cache && k in store {
      var cache' := cache[k := store[k]];
      assert k in store.Keys - cache.Keys && k !in store.Keys - cache'.Keys;
      var next := Next(store, k);
      if next.Some? {
        FollowExact(store, cache', next.value);
        forall b | Reaches(store, next.value, b) ensures Reaches(store, k, b) {
          ReachStep(store, k, next.value, b);
        }
      }
    }
  }

  lemma {:induction false} ClosedReach(store: Store, m: Store, k: string, b: string, n: nat)
    requires Within(m, store) && ClosedBut(store, m, None) && k in m && Nth(store, k, n) == Some(b)
    ensures b in m
    decreases n
  {
    if n > 0 {
      ClosedReach(store, m, Next(store, k).value, b, n - 1);
    }
  }

  // ---- Reading all the names of the criteria ----

  function ReadNames(store: Store, namespace: string, names: seq<string>): Option<Store> {
    if names == [] then Some(map[])
    else match ReadNames(store, namespace, names[..|names| - 1])
      case None => None
      case Some(m) => Follow(store, m, Key(namespace, names[|names| - 1]))
  }

  /** Some name of the list leads to this key. */
  ghost predicate Needed(store: Store, namespace: string, names: seq<string>, b: string) {
    exists i :: 0 <= i < |names| && Reaches(store, Key(namespace, names[i]), b)
  }

  /** What reading a list of names leaves, or why it fails. */
  ghost predicate ReadOutcome(store: Store, namespace: string, names: seq<string>, r: Option<Store>) {
    match r
    case Some(m) =>
      && Within(m, store) && ClosedBut(store, m, None)
      && (forall i :: 0 <= i < |names| ==> Key(namespace, names[i]) in m)
      && (forall b :: b in m ==> Needed(store, namespace, names, b))
    case None => exists b :: b !in store && Needed(store, namespace, names, b)
  }

  lemma NeededMore(store: Store, namespace: string, names: seq<string>, name: string, b: string)
    ensures Needed(store, namespace, names, b) ==> Needed(store, namespace, names + [name], b)
    ensures Reaches(store, Key(namespace, name), b) ==> Needed(store, namespace, names + [name], b)
  {
    var more := names + [name];
    if Needed(store, namespace, names, b) {
      var i :| 0 <= i < |names| && Reaches(store, Key(namespace, names[i]), b);
      assert more[i] == names[i];
    }
    assert more[|names|] == name;
  }

  lemma ReadOneMore(store: Store, namespace: string, names: seq<string>, name: string, m: Store)
    requires ReadOutcome(store, namespace, names, Some(m))
    ensures ReadOutcome(store, namespace, names + [name], Follow(store, m, Key(namespace, name)))
  {
    var more := names + [name];
    FollowExact(store, m, Key(namespace, name));
    forall b ensures Needed(store, namespace, names, b) ==> Needed(store, namespace, more, b)
             ensures Reaches(store, Key(namespace, name), b) ==> Needed(store, namespace, more, b) {
      NeededMore(store, namespace, names, name, b);
    }
    assert forall i :: 0 <= i < |more| ==> more[i] == if i < |names| then names[i] else name;
  }

  lemma {:induction false} ReadNamesClosed(store: Store, namespace: string, names: seq<string>)
    ensures ReadOutcome(store, namespace, names, ReadNames(store, namespace, names))
  {
    if names != [] {
      var init, name := names[..|names| - 1], names[|names| - 1];
      assert init + [name] == names;
      ReadNamesClosed(store, namespace, init);
      var before := ReadNames(store, namespace, init);
      if before.Some? {
        ReadOneMore(store, namespace, init, name, before.value);
      } else {
        var b :| b !in store && Needed(store, namespace, init, b);
        NeededMore(store, namespace, init, name, b);
      }
    }
  }

  /** Reading succeeds exactly when every metric some criteria name leads to exists, and then yields
      exactly those metrics. Cyclic references change nothing. */
  lemma {:induction false} ReadNamesExact(store: Store, namespace: string, names: seq<string>)
    ensures ReadNames(store, namespace, names).Some? <==> forall b :: Needed(store, namespace, names, b) ==> b in store
    ensures var r := ReadNames(store, namespace, names);
            r.Some? ==> Within(r.value, store) && forall b :: b in r.value <==> Needed(store, namespace, names, b)
  {
    ReadNamesClosed(store, namespace, names);
    var r := ReadNames(store, namespace, names);
    if r.Some? {
      forall b | Needed(store, namespace, names, b) ensures b in r.value {
        var i :| 0 <= i < |names| && Reaches(store, Key(namespace, names[i]), b);
        var n: nat :| Nth(store, Key(namespace, names[i]), n) == Some(b);
        ClosedReach(store, r.value, Key(namespace, names[i]), b, n);
      }
    }
  }

  /** An unqualified name is looked for in the experiment's own namespace, and nowhere else. */
  lemma UnqualifiedNames(store: Store, namespace: string, names: seq<string>, i: nat)
    requires i < |names| && '/' !in names[i]
    ensures var k, r := namespace + "/" + names[i], ReadNames(store, namespace, names);
            (k !in store ==> r.None?) && (r.Some? ==> k in r.value && r.value[k] == store[k])
  {
    KeyExactly(namespace, names[i]);
    ReachSelf(store, Key(namespace, names[i]));
    ReadNamesExact(store, namespace, names);
    assert Needed(store, namespace, names, Key(namespace, names[i]));
  }

  /** With a metric its sample size has been read: an unqualified one from the metric's own namespace. */
  lemma SampleSizesRead(store: Store, namespace: string, names: seq<string>, k: string)
    requires ReadNames(store, namespace, names).Some? && k in ReadNames(store, namespace, names).value
    ensures var m := ReadNames(store, namespace, names).value;
            && k in store && m[k] == store[k]
            && (store[k].sampleSize.Some? ==>
                  var s := store[k].sampleSize.value;
                  && ('/' !in s ==> store[k].namespace + "/" + s in m)
                  && (multiset(s)['/'] == 1 ==> s in m))
  {
    hide ReadNames, Key, Needed;
    ReadNamesClosed(store, namespace, names);
    if store[k].sampleSize.Some? {
      assert Next(store, k).Some?;
      KeyExactly(store[k].namespace, store[k].sampleSize.value);
    }
  }

  /** The names in the order ReadMetrics takes them. */
  function CriteriaNames(c: Criteria): seq<string> {
    (if c.requestCount.Some? then [c.requestCount.value] else [])
    + c.rewards + c.indicators + ObjectiveNames(c.objectives)
  }

  function ObjectiveNames(objectives: seq<Objective>): (r: seq<string>)
    ensures |r| == |objectives| && forall i :: 0 <= i < |r| ==> r[i] == objectives[i].metric
  {
    seq(|objectives|, i requires 0 <= i < |objectives| => objectives[i].metric)
  }

  predicate ShouldReadMetrics(sp: Spec, st: Status) {
    |st.metrics| == 0 && sp.criteria.Some?
    && !(sp.criteria.value.requestCount.None? && |sp.criteria.value.indicators| == 0
         && |sp.criteria.value.objectives| == 0 && |sp.criteria.value.rewards| == 0)
  }

  /** The criteria name the metric: as the request count, a reward, an indicator or in an objective. */
  predicate Named(c: Criteria, name: string) {
    || c.requestCount == Some(name) || name in c.rewards || name in c.indicators
    || exists o :: o in c.objectives && o.metric == name
  }

  lemma NamesAreNamed(c: Criteria, name: string)
    ensures name in CriteriaNames(c) <==> Named(c, name)
  {
    var objectives := ObjectiveNames(c.objectives);
    assert name in objectives <==> exists o :: o in c.objectives && o.metric == name by {
      if o :| o in c.objectives && o.metric == name {
        var i :| 0 <= i < |c.objectives| && c.objectives[i] == o;
        assert objectives[i] == name;
      }
    }
  }

  /** A metric the criteria name leads to this key. */
  ghost predicate Wanted(store: Store, namespace: string, c: Criteria, b: string) {
    exists name :: Named(c, name) && Reaches(store, Key(namespace, name), b)
  }

  /** Reading the metrics of the criteria succeeds if and only if all that are wanted exist, and then these are what
      has been read. */
  lemma WantedAreRead(store: Store, namespace: string, c: Criteria)
    ensures var r := ReadNames(store, namespace, CriteriaNames(c));
            && (r.Some? <==> forall b :: Wanted(store, namespace, c, b) ==> b in store)
            && (r.Some? ==> forall b :: b in r.value <==> Wanted(store, namespace, c, b))
            && (r.Some? ==> forall b :: b in r.value ==> b in store && r.value[b] == store[b])
  {
    hide ReadNames, CriteriaNames, Reaches, Key, Named;
    var names := CriteriaNames(c);
    ReadNamesExact(store, namespace, names);
    forall b ensures Wanted(store, namespace, c, b) <==> Needed(store, namespace, names, b) {
      if Wanted(store, namespace, c, b) {
        var name :| Named(c, name) && Reaches(store, Key(namespace, name), b);
        NamesAreNamed(c, name);
        var i :| 0 <= i < |names| && names[i] == name;
        assert Reaches(store, Key(namespace, names[i]), b);
      }
      if Needed(store, namespace, names, b) {
        var i :| 0 <= i < |names| && Reaches(store, Key(namespace, names[i]), b);
        NamesAreNamed(c, names[i]);
      }
    }
  }

  /** Metrics are read while none are stored, if the criteria name any. */
  lemma ReadsWhenNamed(sp: Spec, st: Status)
    ensures ShouldReadMetrics(sp, st) <==>
      st.metrics == map[] && sp.criteria.Some? && exists name :: Named(sp.criteria.value, name)
  {
    if sp.criteria.Some? {
      var c := sp.criteria.value;
      if c.requestCount.Some? {
        assert Named(c, c.requestCount.value);
      } else if |c.rewards| > 0 {
        assert Named(c, c.rewards[0]);
      } else if |c.indicators| > 0 {
        assert Named(c, c.indicators[0]);
      } else if |c.objectives| > 0 {
        assert Named(c, c.objectives[0].metric);
      }
    }
  }

  /** A successful read leaves metrics behind, so the step that reads them never repeats. */
  lemma ReadLeavesMetrics(store: Store, namespace: string, sp: Spec, st: Status)
    requires ShouldReadMetrics(sp, st)
    ensures var r := ReadNames(store, namespace, CriteriaNames(sp.criteria.value));
            r.Some? ==> !ShouldReadMetrics(sp, st.(metrics := r.value))
  {
    var names := CriteriaNames(sp.criteria.value);
    assert names != [];
    ReadNamesClosed(store, namespace, names);
    var r := ReadNames(store, namespace, names);
    if r.Some? {
      assert Key(namespace, names[0]) in r.value;
    }
  }

  // ---- The methods, with the cache they share ----

  class MetricCache {
    var entries: Store
    constructor ()
      ensures entries == map[]
    {
      entries := map[];
    }
  }

  /** ReadMetric: adds to the shared cache while it recurses. */
  method ReadMetric(store: Store, namespace: string, name: string, cache: MetricCache) returns (ok: bool)
    modifies cache
    ensures var r := Follow(store, old(cache.entries), Key(namespace, name));
            ok == r.Some? && (ok ==> cache.entries == r.value)
    decreases store.Keys - cache.entries.Keys
  {
    var ns, nm := namespace, name;
    var splt := Split(name);
    if |splt| == 2 {
      ns, nm := splt[0], splt[1];
    }
    var key := ns + "/" + nm;
    if key in cache.entries {
      return true;
    }
    if key !in store {
      return false;
    }
    var metric := store[key];
    ghost var before := cache.entries;
    cache.entries := cache.entries[key := metric];
    assert key in store.Keys - before.Keys && key !in store.Keys - cache.entries.Keys;
    if metric.sampleSize.Some? {
      ok := ReadMetric(store, metric.namespace, metric.sampleSize.value, cache);
      return;
    }
    return true;
  }

  /** What has been read so far agrees with reading the first i names. */
  ghost predicate ReadSoFar(store: Store, namespace: string, names: seq<string>, i: nat, cache: Store) {
    i <= |names| && ReadNames(store, namespace, names[..i]) == Some(cache)
  }

  lemma ReadOne(store: Store, namespace: string, names: seq<string>, i: nat, cache: Store)
    requires i < |names| && ReadSoFar(store, namespace, names, i, cache)
    ensures ReadNames(store, namespace, names[..i + 1]) == Follow(store, cache, Key(namespace, names[i]))
  {
    assert names[..i + 1][..i] == names[..i];
  }

  /** A name that already is a key of the cache would be read without effect: the callers' skips
      leave the result as it is. */
  lemma SkipIsHarmless(store: Store, namespace: string, names: seq<string>, i: nat, cache: Store)
    requires WellKeyed(store) && i < |names| && ReadSoFar(store, namespace, names, i, cache) && names[i] in cache
    ensures ReadSoFar(store, namespace, names, i + 1, cache)
  {
    ReadNamesClosed(store, namespace, names[..i]);
    QualifiedKey(namespace, names[i]);
    ReadOne(store, namespace, names, i, cache);
  }

  lemma {:induction false} FailureStays(store: Store, namespace: string, names: seq<string>, i: nat)
    requires i <= |names| && ReadNames(store, namespace, names[..i]).None?
    ensures ReadNames(store, namespace, names).None?
    decreases |names|
  {
    if i == |names| {
      assert names[..i] == names;
    } else {
      var init := names[..|names| - 1];
      assert init[..i] == names[..i];
      FailureStays(store, namespace, init, i);
    }
  }

  /** The list stands in the names from the given position on. */
  ghost predicate Section(names: seq<string>, from: nat, list: seq<string>) {
    from + |list| <= |names| && names[from..from + |list|] == list
  }

  /** One of the three loops of ReadMetrics, over part of the criteria's names. */
  method ReadList(store: Store, namespace: string, list: seq<string>, cache: MetricCache,
                  ghost names: seq<string>, ghost from: nat) returns (ok: bool)
    requires WellKeyed(store) && Section(names, from, list)
    requires ReadSoFar(store, namespace, names, from, cache.entries)
    modifies cache
    ensures ok ==> ReadSoFar(store, namespace, names, from + |list|, cache.entries)
    ensures !ok ==> ReadNames(store, namespace, names).None?
  {
    hide ReadNames, Follow, Key, WellKeyed;
    for j := 0 to |list|
      invariant ReadSoFar(store, namespace, names, from + j, cache.entries)
    {
      assert list[j] == names[from + j];
      if list[j] !in cache.entries {
        ReadOne(store, namespace, names, from + j, cache.entries);
        ok := ReadMetric(store, namespace, list[j], cache);
        if !ok {
          FailureStays(store, namespace, names, from + j + 1);
          return;
        }
      } else {
        SkipIsHarmless(store, namespace, names, from + j, cache.entries);
      }
    }
    return true;
  }

  function First(c: Criteria): nat {
    if c.requestCount.Some? then 1 else 0
  }

  /** Where each kind of criterion stands in the list of names. */
  lemma CriteriaSections(c: Criteria)
    ensures var names, i := CriteriaNames(c), First(c);
            var j := i + |c.rewards|;
            var k := j + |c.indicators|;
            && |names| == k + |c.objectives| && names[..|names|] == names
            && (c.requestCount.Some? ==> names[0] == c.requestCount.value)
            && Section(names, i, c.rewards) && Section(names, j, c.indicators)
            && Section(names, k, ObjectiveNames(c.objectives))
  {
  }

  method ReadMetrics(store: Store, namespace: string, c: Criteria) returns (ok: bool, metrics: Store)
    requires WellKeyed(store)
    ensures var r := ReadNames(store, namespace, CriteriaNames(c));
            ok == r.Some? && (ok ==> metrics == r.value)
  {
    hide *;
    metrics := map[];
    var cache := new MetricCache();
    ghost var names, i := CriteriaNames(c), First(c);
    CriteriaSections(c);
    ok := ReadRequestCount(store, namespace, c, cache);
    if ok {
      ok := ReadList(store, namespace, c.rewards, cache, names, i);
    }
    if ok {
      ok := ReadList(store, namespace, c.indicators, cache, names, i + |c.rewards|);
    }
    if ok {
      ok := ReadList(store, namespace, ObjectiveNames(c.objectives), cache, names, i + |c.rewards| + |c.indicators|);
    }
    if ok {
      AllRead(store, namespace, names, cache.entries);
      metrics := cache.entries;
    }
  }

  lemma AllRead(store: Store, namespace: string, names: seq<string>, cache: Store)
    requires ReadSoFar(store, namespace, names, |names|, cache)
    ensures ReadNames(store, namespace, names) == Some(cache)
  {
    assert names[..|names|] == names;
  }

  /** The request count, when the criteria name one, is read first and without a skip. */
  method ReadRequestCount(store: Store, namespace: string, c: Criteria, cache: MetricCache) returns (ok: bool)
    requires cache.entries == map[]
    modifies cache
    ensures ok ==> ReadSoFar(store, namespace, CriteriaNames(c), First(c), cache.entries)
    ensures !ok ==> ReadNames(store, namespace, CriteriaNames(c)).None?
  {
    ghost var names := CriteriaNames(c);
    CriteriaSections(c);
    ok := true;
    if c.requestCount.Some? {
      ReadOne(store, namespace, names, 0, map[]);
      ok := ReadMetric(store, namespace, c.requestCount.value, cache);
      if !ok {
        FailureStays(store, namespace, names, 1);
      }
    }
  }

  datatype MetricInfo = MetricInfo(name: string, obj: Metric)

  /** Copying the cache into status.metrics, in whatever order the map is ranged over: every entry
      once, no key twice. */
  method CopyOut(cache: Store) returns (infos: seq<MetricInfo>)
    ensures |infos| == |cache|
    ensures forall i, j :: 0 <= i < j < |infos| ==> infos[i].name != infos[j].name
    ensures forall i :: 0 <= i < |infos| ==> infos[i].name in cache && infos[i].obj == cache[infos[i].name]
  {
    infos := [];
    var rest := cache.Keys;
    while rest != {}
      invariant rest <= cache.Keys && |infos| + |rest| == |cache|
      invariant forall i, j :: 0 <= i < j < |infos| ==> infos[i].name != infos[j].name
      invariant forall i :: 0 <= i < |infos| ==>
        infos[i].name in cache && infos[i].name !in rest && infos[i].obj == cache[infos[i].name]
      decreases rest
    {
      var name :| name in rest;
      infos := infos + [MetricInfo(name, cache[name])];
      rest := rest - {name};
    }
  }
}
