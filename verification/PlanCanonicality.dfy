/**
 The plan does not depend on the order of the declared lists: caches, checks, the
 dependencies and artifacts of a check, the environment name lists and the bindings.
 The arguments of a command and the artifact contracts keep their declared order.
 */
module PlanCanonicality {
  import opened Common
  import opened Order
  import opened ConfigModel
  import opened PathIsolation
  import opened PlanSpec
  import opened IntoPlan

  predicate Permutes(p: seq<nat>, n: nat) {
    && |p| == n && Unique(p)
    && (forall i :: 0 <= i < n ==> p[i] < n)
    && (forall j :: 0 <= j < n ==> j in p)
  }

  predicate MovedBy<T(==)>(a: seq<T>, b: seq<T>, p: seq<nat>) {
    Permutes(p, |a|) && |b| == |a| && forall i :: 0 <= i < |a| ==> b[i] == a[p[i]]
  }

  /** `b` lists the items of `a` in some order. */
  ghost predicate Shuffled<T>(a: seq<T>, b: seq<T>) {
    exists p :: MovedBy(a, b, p)
  }

  ghost predicate CheckShuffled(a: CheckConfig, b: CheckConfig) {
    && a.(dependsOn := b.dependsOn, artifacts := b.artifacts) == b
    && Shuffled(a.dependsOn, b.dependsOn) && Shuffled(a.artifacts, b.artifacts)
  }

  ghost predicate ChecksMovedBy(a: seq<CheckConfig>, b: seq<CheckConfig>, p: seq<nat>) {
    Permutes(p, |a|) && |b| == |a| && forall i :: 0 <= i < |a| ==> CheckShuffled(a[p[i]], b[i])
  }

  ghost predicate ChecksShuffled(a: seq<CheckConfig>, b: seq<CheckConfig>) {
    exists p :: ChecksMovedBy(a, b, p)
  }

  ghost predicate EnvironmentShuffled(a: EnvironmentConfig, b: EnvironmentConfig) {
    && a.fixed == b.fixed && Shuffled(a.allow, b.allow) && Shuffled(a.remoteSecretOnly, b.remoteSecretOnly)
    && Shuffled(a.runtimeInternal, b.runtimeInternal)
  }

  /** The same declarations in another order. */
  ghost predicate Reordered(a: Config, b: Config) {
    && a.(environment := b.environment, caches := b.caches, checks := b.checks) == b
    && EnvironmentShuffled(a.environment, b.environment)
    && Shuffled(a.caches, b.caches)
    && ChecksShuffled(a.checks, b.checks)
  }

  // ---------------------------------------------------------------------------
  // What reordering keeps
  // ---------------------------------------------------------------------------

  lemma MovedKeeps<T>(a: seq<T>, b: seq<T>, p: seq<nat>)
    requires MovedBy(a, b, p)
    ensures Elements(a) == Elements(b) && (forall x :: x in a <==> x in b) && (Unique(a) <==> Unique(b))
  {
    forall x
      ensures x in a <==> x in b
    {
      if x in a {
        var j :| 0 <= j < |a| && a[j] == x;
        assert j in p;
        var i :| 0 <= i < |p| && p[i] == j;
        assert b[i] == x;
      }
    }
    if Unique(b) {
      forall j, k | 0 <= j < k < |a|
        ensures a[j] != a[k]
      {
        assert j in p && k in p;
        var l :| 0 <= l < |p| && p[l] == j;
        var m :| 0 <= m < |p| && p[m] == k;
        assert b[l] == a[j] && b[m] == a[k];
      }
    }
  }

  lemma ShuffledKeeps<T>(a: seq<T>, b: seq<T>)
    requires Shuffled(a, b)
    ensures |a| == |b| && Elements(a) == Elements(b) && (forall x :: x in a <==> x in b) && (Unique(a) <==> Unique(b))
  {
    var p :| MovedBy(a, b, p);
    MovedKeeps(a, b, p);
  }

  lemma ShuffledKeys<T>(a: seq<T>, b: seq<T>, key: T -> string)
    requires Shuffled(a, b)
    ensures Elements(Keys(a, key)) == Elements(Keys(b, key)) && (Unique(Keys(a, key)) <==> Unique(Keys(b, key)))
  {
    var p :| MovedBy(a, b, p);
    MovedKeeps(Keys(a, key), Keys(b, key), p);
  }

  lemma CachesKept(a: seq<Cache>, b: seq<Cache>, result: seq<Cache>)
    requires Shuffled(a, b)
    ensures PlansCaches(a, result) <==> PlansCaches(b, result)
  {
    ShuffledKeeps(a, b);
    ShuffledKeys(a, b, (c: Cache) => c.id);
    ShuffledKeys(a, b, (c: Cache) => c.mountPath);
    assert Keys(a, (c: Cache) => c.mountPath) == Mounts(a) && Keys(b, (c: Cache) => c.mountPath) == Mounts(b);
  }

  lemma CanonicalKept(a: CheckConfig, b: CheckConfig)
    requires CheckShuffled(a, b)
    ensures Canonical(a) == Canonical(b)
  {
    assert Elements(a.dependsOn) == Elements(b.dependsOn) by {
      ShuffledKeeps(a.dependsOn, b.dependsOn);
    }
    assert Elements(a.artifacts) == Elements(b.artifacts) by {
      ShuffledKeeps(a.artifacts, b.artifacts);
    }
    SortAllSame(a.dependsOn, b.dependsOn);
    SortAllSame(a.artifacts, b.artifacts);
  }

  lemma GoodCheckKept(a: CheckConfig, b: CheckConfig)
    requires CheckShuffled(a, b)
    ensures GoodCheck(a) <==> GoodCheck(b)
  {
    ShuffledKeeps(a.dependsOn, b.dependsOn);
    ShuffledKeeps(a.artifacts, b.artifacts);
    assert ValidCheck(a) <==> ValidCheck(b);
    ContractsKept(a, b);
  }

  lemma ContractsKept(a: CheckConfig, b: CheckConfig)
    requires a.artifactContracts == b.artifactContracts && forall x :: x in a.artifacts <==> x in b.artifacts
    ensures GoodContracts(a) <==> GoodContracts(b)
  {
    assert forall c :: GoodContract(c, a.artifacts) <==> GoodContract(c, b.artifacts);
  }

  /** Every check has its counterpart. */
  lemma CheckMoved(a: seq<CheckConfig>, b: seq<CheckConfig>, p: seq<nat>, c: CheckConfig)
    requires ChecksMovedBy(a, b, p)
    ensures c in a ==> exists d :: d in b && CheckShuffled(c, d)
    ensures c in b ==> exists d :: d in a && CheckShuffled(d, c)
  {
    if c in a {
      var j :| 0 <= j < |a| && a[j] == c;
      assert j in p;
      var i :| 0 <= i < |p| && p[i] == j;
      assert b[i] in b && CheckShuffled(c, b[i]);
    }
    if c in b {
      var i :| 0 <= i < |b| && b[i] == c;
      assert a[p[i]] in a && CheckShuffled(a[p[i]], c);
    }
  }

  lemma CheckIdsMoved(a: seq<CheckConfig>, b: seq<CheckConfig>, p: seq<nat>)
    requires ChecksMovedBy(a, b, p)
    ensures Elements(CheckIds(a)) == Elements(CheckIds(b)) && (Unique(CheckIds(a)) <==> Unique(CheckIds(b)))
  {
    MovedKeeps(CheckIds(a), CheckIds(b), p);
  }

  /** What the plan depends on in a check. */
  predicate Alike(c: CheckConfig, d: CheckConfig) {
    c.id == d.id && c.required == d.required && Canonical(c) == Canonical(d) && (GoodCheck(c) <==> GoodCheck(d))
  }

  predicate Counterpart(checks: seq<CheckConfig>, c: CheckConfig) {
    exists d :: d in checks && Alike(d, c)
  }

  lemma Counterparts(a: seq<CheckConfig>, b: seq<CheckConfig>, p: seq<nat>)
    requires ChecksMovedBy(a, b, p)
    ensures forall c :: c in a ==> Counterpart(b, c)
    ensures forall c :: c in b ==> Counterpart(a, c)
  {
    forall c | c in a
      ensures Counterpart(b, c)
    {
      CheckMoved(a, b, p, c);
      var d :| d in b && CheckShuffled(c, d);
      CanonicalKept(c, d);
      GoodCheckKept(c, d);
      assert Alike(d, c);
    }
    forall c | c in b
      ensures Counterpart(a, c)
    {
      CheckMoved(a, b, p, c);
      var d :| d in a && CheckShuffled(d, c);
      CanonicalKept(d, c);
      GoodCheckKept(d, c);
      assert Alike(d, c);
    }
  }

  lemma GoodChecksHalf(a: seq<CheckConfig>, b: seq<CheckConfig>)
    requires GoodChecks(a) && |a| == |b| && Unique(CheckIds(b))
    requires (forall c :: c in a ==> Counterpart(b, c)) && forall c :: c in b ==> Counterpart(a, c)
    ensures GoodChecks(b)
  {
    var c :| c in a && c.required;
    assert Counterpart(b, c);
    forall d | d in b
      ensures GoodCheck(d)
    {
      assert Counterpart(a, d);
    }
  }

  lemma GoodChecksKept(a: seq<CheckConfig>, b: seq<CheckConfig>, p: seq<nat>)
    requires ChecksMovedBy(a, b, p)
    ensures GoodChecks(a) <==> GoodChecks(b)
  {
    CheckIdsMoved(a, b, p);
    Counterparts(a, b, p);
    if GoodChecks(a) {
      GoodChecksHalf(a, b);
    }
    if GoodChecks(b) {
      GoodChecksHalf(b, a);
    }
  }

  lemma IndexHalf(a: seq<CheckConfig>, b: seq<CheckConfig>, index: map<string, NormalizedCheck>)
    requires IsIndex(a, index) && Elements(CheckIds(a)) == Elements(CheckIds(b))
    requires forall c :: c in b ==> Counterpart(a, c)
    ensures IsIndex(b, index)
  {
    forall c | c in b
      ensures c.id in index && index[c.id] == Canonical(c)
    {
      assert Counterpart(a, c);
    }
  }

  lemma IndexKept(a: seq<CheckConfig>, b: seq<CheckConfig>, p: seq<nat>, index: map<string, NormalizedCheck>)
    requires ChecksMovedBy(a, b, p)
    ensures IsIndex(a, index) <==> IsIndex(b, index)
  {
    CheckIdsMoved(a, b, p);
    Counterparts(a, b, p);
    if IsIndex(a, index) {
      IndexHalf(a, b, index);
    }
    if IsIndex(b, index) {
      IndexHalf(b, a, index);
    }
  }

  lemma ChecksKept(a: seq<CheckConfig>, b: seq<CheckConfig>, result: seq<NormalizedCheck>)
    requires ChecksShuffled(a, b)
    ensures PlansChecks(a, result) <==> PlansChecks(b, result)
  {
    var p :| ChecksMovedBy(a, b, p);
    assert GoodChecks(a) <==> GoodChecks(b) by {
      GoodChecksKept(a, b, p);
    }
    forall index
      ensures IsIndex(a, index) <==> IsIndex(b, index)
    {
      IndexKept(a, b, p, index);
    }
  }

  lemma ListsKept(version: string, a: EnvironmentConfig, b: EnvironmentConfig)
    requires EnvironmentShuffled(a, b)
    ensures GoodLists(version, a) <==> GoodLists(version, b)
    ensures Elements(a.allow) == Elements(b.allow) && Elements(a.remoteSecretOnly) == Elements(b.remoteSecretOnly)
  {
    ShuffledKeeps(a.allow, b.allow);
    ShuffledKeeps(a.remoteSecretOnly, b.remoteSecretOnly);
    ShuffledKeeps(a.runtimeInternal, b.runtimeInternal);
  }

  lemma BindingsKept(a: seq<Binding>, b: seq<Binding>, caches: seq<Cache>, result: seq<InternalEnvironment>)
    requires Shuffled(a, b)
    ensures (forall x :: x in a ==> GoodBinding(x, caches)) <==> (forall x :: x in b ==> GoodBinding(x, caches))
    ensures Unique(BindingNames(a)) <==> Unique(BindingNames(b))
    ensures Elements(BindingNames(a)) == Elements(BindingNames(b))
    ensures IsInternal(a, caches, result) <==> IsInternal(b, caches, result)
  {
    ShuffledKeeps(a, b);
    ShuffledKeys(a, b, (x: Binding) => x.name);
  }

  lemma EnvironmentKept(version: string, a: EnvironmentConfig, b: EnvironmentConfig, caches: seq<Cache>,
                        digest: Digest<string>, result: NormalizedEnvironment)
    requires EnvironmentShuffled(a, b)
    ensures PlansEnvironment(version, a, caches, digest, result) <==> PlansEnvironment(version, b, caches, digest, result)
  {
    ListsKept(version, a, b);
    BindingsKept(a.runtimeInternal, b.runtimeInternal, caches, result.runtimeInternal);
    SortAllSame(a.allow, b.allow);
    SortAllSame(a.remoteSecretOnly, b.remoteSecretOnly);
  }

  /** The rest of the plan does not look at the reordered lists. */
  lemma PlanHalf(a: Config, b: Config, digest: Digest<string>, plan: Plan)
    requires a.(environment := b.environment, caches := b.caches, checks := b.checks) == b
    requires IsPlan(a, digest, plan)
    requires PlansCaches(b.caches, plan.caches) && PlansChecks(b.checks, plan.checks)
    requires PlansEnvironment(b.schemaVersion, b.environment, plan.caches, digest, plan.environment)
    ensures IsPlan(b, digest, plan)
  {
    assert GoodTopLevel(b);
  }

  lemma PlanKept(a: Config, b: Config, digest: Digest<string>, plan: Plan)
    requires Reordered(a, b)
    ensures IsPlan(a, digest, plan) <==> IsPlan(b, digest, plan)
  {
    CachesKept(a.caches, b.caches, plan.caches);
    ChecksKept(a.checks, b.checks, plan.checks);
    EnvironmentKept(a.schemaVersion, a.environment, b.environment, plan.caches, digest, plan.environment);
    if IsPlan(a, digest, plan) {
      PlanHalf(a, b, digest, plan);
    } else if IsPlan(b, digest, plan) {
      PlanHalf(b, a, digest, plan);
    }
  }

  /** Reordering the declarations changes neither whether `into_plan` succeeds nor what it
      returns. */
  lemma PlanIsCanonical(a: Config, b: Config, digest: Digest<string>, planDigest: Digest<Plan>,
                        r: Result<Envelope, ConfigError>, s: Result<Envelope, ConfigError>)
    requires Reordered(a, b)
    requires Outcome(a, digest, planDigest, r) && Outcome(b, digest, planDigest, s)
    ensures r.Ok? <==> s.Ok?
    ensures r.Ok? ==> r.value == s.value
  {
    if r.Ok? {
      PlanKept(a, b, digest, r.value.plan);
    }
    if s.Ok? {
      PlanKept(a, b, digest, s.value.plan);
    }
    if r.Ok? && s.Ok? {
      PlanUnique(b, digest, r.value.plan, s.value.plan);
    }
  }
}
