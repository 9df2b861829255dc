/** The names of handler jobs (controllers/handler.go) and when two jobs share one. */
module JobNames {
  import opened Prelude

  datatype ExpId = ExpId(namespace: string, name: string)

  /** The jobs an experiment can have: finish, rollback and failure share one handler. */
  datatype Job = StartJob | FinishJob | LoopJob(k: nat)

  datatype JobKey = JobKey(exp: ExpId, job: Job)

  function HandlerOf(j: Job): string {
    match j
    case StartJob => "start"
    case FinishJob => "finish"
    case LoopJob(_) => "loop"
  }

  /** The handler, and for a loop its number, as jobName appends them. */
  function Suffix(j: Job): string {
    match j
    case LoopJob(k) => HandlerOf(j) + "-" + Decimal(k)
    case _ => HandlerOf(j)
  }

  function Prefix(e: ExpId): string {
    e.namespace + "-" + e.name
  }

  function JobName(key: JobKey): string {
    Prefix(key.exp) + "-" + Suffix(key.job)
  }

  lemma SameTail<T>(a: seq<T>, b: seq<T>, s: seq<T>, t: seq<T>)
    requires a + s == b + t && |s| == |t|
    ensures a == b && s == t
  {
    assert |a| == |b|;
    assert (a + s)[..|a|] == a && (b + t)[..|a|] == b;
    assert (a + s)[|a|..] == s && (b + t)[|a|..] == t;
  }

  lemma DigitsAfterDash(a: string, s: string)
    requires forall c :: c in s ==> IsDigit(c)
    ensures var x := a + "-" + s; x[|a|] == '-' && forall i :: |a| < i < |x| ==> x[i] != '-'
  {
    var x := a + "-" + s;
    forall i | |a| < i < |x| ensures x[i] != '-' {
      assert x[i] == s[i - |a| - 1];
      assert x[i] in s;
    }
  }

  /** Equal texts that end in a dash and digits end in the same digits. */
  lemma {:induction false} SameDigits(a: string, b: string, s: string, t: string)
    requires a + "-" + s == b + "-" + t
    requires (forall c :: c in s ==> IsDigit(c)) && (forall c :: c in t ==> IsDigit(c))
    ensures a == b && s == t
  {
    DigitsAfterDash(a, s);
    DigitsAfterDash(b, t);
    assert |a| == |b|;
    SameTail(a + "-", b + "-", s, t);
    SameTail(a, b, "-", "-");
  }

  /** The last character of a job name tells the handlers apart. */
  lemma LastCharacter(key: JobKey)
    ensures JobName(key) != []
    ensures var c := JobName(key)[|JobName(key)| - 1];
            match key.job case StartJob => c == 't' case FinishJob => c == 'h' case LoopJob(_) => IsDigit(c)
  {
  }

  lemma {:induction false} LoopClash(a: ExpId, b: ExpId, m: nat, n: nat)
    requires JobName(JobKey(a, LoopJob(m))) == JobName(JobKey(b, LoopJob(n)))
    ensures Prefix(a) == Prefix(b) && m == n
  {
    hide Decimal, Prefix;
    var p, q := Prefix(a) + "-loop", Prefix(b) + "-loop";
    assert Prefix(a) + "-" + ("loop" + "-" + Decimal(m)) == p + "-" + Decimal(m);
    assert Prefix(b) + "-" + ("loop" + "-" + Decimal(n)) == q + "-" + Decimal(n);
    SameDigits(p, q, Decimal(m), Decimal(n));
    DecimalInjective(m, n);
    SameTail(Prefix(a), Prefix(b), "-loop", "-loop");
  }

  /** Two jobs have one name exactly when they are the same handler and loop of experiments whose
      namespaces and names join to the same text. */
  lemma {:induction false} NameClash(a: JobKey, b: JobKey)
    ensures JobName(a) == JobName(b) <==> Prefix(a.exp) == Prefix(b.exp) && a.job == b.job
  {
    if JobName(a) == JobName(b) {
      LastCharacter(a);
      LastCharacter(b);
      if a.job.LoopJob? {
        LoopClash(a.exp, b.exp, a.job.k, b.job.k);
      } else {
        SameTail(Prefix(a.exp) + "-", Prefix(b.exp) + "-", Suffix(a.job), Suffix(b.job));
        SameTail(Prefix(a.exp), Prefix(b.exp), "-", "-");
      }
    }
  }

  lemma {:induction false} DashFreePrefix(a: ExpId, b: ExpId)
    requires '-' !in a.namespace && '-' !in b.namespace && Prefix(a) == Prefix(b)
    ensures a == b
  {
    var x, y := Prefix(a), Prefix(b);
    var m, n := |a.namespace|, |b.namespace|;
    assert x[m] == '-' && y[n] == '-';
    assert forall i :: 0 <= i < m ==> x[i] == a.namespace[i] && x[i] in a.namespace;
    assert forall i :: 0 <= i < n ==> y[i] == b.namespace[i] && y[i] in b.namespace;
    assert m == n;
    assert x[..m] == a.namespace && y[..n] == b.namespace;
    assert x[m + 1..] == a.name && y[n + 1..] == b.name;
  }

  /** In namespaces without dashes a job name determines the experiment, the handler and the loop. */
  lemma JobNameInjective(a: JobKey, b: JobKey)
    requires '-' !in a.exp.namespace && '-' !in b.exp.namespace && JobName(a) == JobName(b)
    ensures a == b
  {
    NameClash(a, b);
    DashFreePrefix(a.exp, b.exp);
  }

  /** Kubernetes namespaces may contain dashes; then two experiments can share all their jobs. */
  lemma DashesCollide(j: Job)
    ensures JobName(JobKey(ExpId("a-b", "c"), j)) == JobName(JobKey(ExpId("a", "b-c"), j))
  {
  }

  // ---- A job store keyed by name behaves like one keyed by experiment, handler and loop ----

  predicate DashFree(keys: set<JobKey>) {
    forall k :: k in keys ==> '-' !in k.exp.namespace
  }

  /** The store as the cluster holds it, keyed by job name. */
  ghost predicate Named<V>(jobs: map<JobKey, V>, byName: map<string, V>) {
    && (forall k :: k in jobs ==> JobName(k) in byName && byName[JobName(k)] == jobs[k])
    && (forall s :: s in byName ==> exists k :: k in jobs && JobName(k) == s)
  }

  /** Looking a job up by name finds exactly the job of that key, and creating it by name
      keeps the two stores in step. */
  lemma LookupByName<V>(jobs: map<JobKey, V>, byName: map<string, V>, key: JobKey, v: V)
    requires Named(jobs, byName) && DashFree(jobs.Keys + {key})
    ensures JobName(key) in byName <==> key in jobs
    ensures key in jobs ==> byName[JobName(key)] == jobs[key]
    ensures Named(jobs[key := v], byName[JobName(key) := v])
  {
    hide JobName;
    forall k | k in jobs && JobName(k) == JobName(key) ensures k == key {
      assert k in jobs.Keys + {key};
      JobNameInjective(k, key);
    }
    var jobs', byName' := jobs[key := v], byName[JobName(key) := v];
    forall s | s in byName' ensures exists k :: k in jobs' && JobName(k) == s {
      if s == JobName(key) {
        assert key in jobs';
      } else {
        var k :| k in jobs && JobName(k) == s;
        assert k in jobs';
      }
    }
  }

  /** What can happen to the jobs: nothing; a job is created unless it is there; a job that is there gets
      another state; jobs are deleted. */
  datatype Change<V> = Keep | Create(key: JobKey, v: V) | Update(key: JobKey, v: V) | Delete(keys: set<JobKey>)

  function Affected<V>(c: Change<V>): set<JobKey> {
    match c
    case Keep => {}
    case Create(key, _) => {key}
    case Update(key, _) => {key}
    case Delete(keys) => keys
  }

  function Changed<V>(jobs: map<JobKey, V>, c: Change<V>): map<JobKey, V> {
    match c
    case Keep => jobs
    case Create(key, v) => if key in jobs then jobs else jobs[key := v]
    case Update(key, v) => jobs[key := v]
    case Delete(keys) => jobs - keys
  }

  /** The same change of the store that the cluster holds. */
  function ChangedByName<V>(byName: map<string, V>, c: Change<V>): map<string, V> {
    match c
    case Keep => byName
    case Create(key, v) => if JobName(key) in byName then byName else byName[JobName(key) := v]
    case Update(key, v) => byName[JobName(key) := v]
    case Delete(keys) => byName - set k | k in keys :: JobName(k)
  }

  lemma DeleteByName<V>(jobs: map<JobKey, V>, byName: map<string, V>, keys: set<JobKey>)
    requires Named(jobs, byName) && DashFree(jobs.Keys + keys)
    ensures Named(jobs - keys, byName - set k | k in keys :: JobName(k))
  {
    hide JobName;
    var names := set k | k in keys :: JobName(k);
    forall k | k in jobs && JobName(k) in names ensures k in keys {
      var other :| other in keys && JobName(other) == JobName(k);
      assert k in jobs.Keys + keys && other in jobs.Keys + keys;
      JobNameInjective(k, other);
    }
    forall s | s in byName - names ensures exists k :: k in jobs - keys && JobName(k) == s {
      var k :| k in jobs && JobName(k) == s;
      assert k in keys ==> s in names;
      assert k in jobs - keys;
    }
  }

  /** Whatever happens to the jobs, the two stores stay in step. */
  lemma ChangesAgree<V>(jobs: map<JobKey, V>, byName: map<string, V>, c: Change<V>)
    requires Named(jobs, byName) && DashFree(jobs.Keys + Affected(c))
    ensures Named(Changed(jobs, c), ChangedByName(byName, c))
  {
    hide JobName;
    match c {
      case Keep =>
      case Create(key, v) => LookupByName(jobs, byName, key, v);
      case Update(key, v) => LookupByName(jobs, byName, key, v);
      case Delete(keys) => DeleteByName(jobs, byName, keys);
    }
  }
}
