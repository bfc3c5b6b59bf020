/**
 `into_plan` and the normalizations it runs (src/config.rs:321-585, 699-790, 830-908),
 as the loops of the source, proved to produce exactly the plan of the configuration.
 */
module PlanNormalization {
  import opened Common
  import opened Order
  import opened ConfigModel
  import opened CheckGraph
  import CheckOrder
  import opened PathIsolation
  import opened PlanSpec

  lemma UniqueExtends<T>(s: seq<T>, x: T)
    requires Unique(s)
    ensures Unique(s + [x]) <==> x !in s
  {
    if x in s {
      var i :| 0 <= i < |s| && s[i] == x;
      assert (s + [x])[i] == (s + [x])[|s|];
    }
  }

  lemma UniqueTake<T>(s: seq<T>, n: nat)
    requires n <= |s| && !Unique(s[..n])
    ensures !Unique(s)
  {
    var i, j :| 0 <= i < j < n && s[..n][i] == s[..n][j];
    assert s[i] == s[j];
  }

  lemma KeysPrefix<T>(items: seq<T>, key: T -> string, i: nat)
    requires i < |items|
    ensures Keys(items, key)[..i] == Keys(items[..i], key)
    ensures Keys(items, key)[..i + 1] == Keys(items[..i], key) + [key(items[i])]
    ensures items[..i + 1] == items[..i] + [items[i]]
  {
  }

  /** What the first offending value of a list makes `unique_sorted` report. */
  predicate FirstFault(field: string, invalid: string, values: seq<string>, valid: string -> bool, error: ConfigError) {
    exists i :: 0 <= i < |values| && FaultAt(field, invalid, values, valid, error, i)
  }

  predicate FaultAt(field: string, invalid: string, values: seq<string>, valid: string -> bool, error: ConfigError,
                    i: nat)
    requires i < |values|
  {
    && Unique(values[..i]) && (forall v :: v in values[..i] ==> valid(v))
    && (if valid(values[i]) then values[i] in values[..i] && error == DuplicateValue(field)
        else error == InvalidField(invalid))
  }

  /** `unique_sorted`: `invalid` is the field its validator reports. */
  method UniqueSorted(field: string, invalid: string, values: seq<string>, valid: string -> bool)
    returns (r: Result<seq<string>, ConfigError>)
    ensures r.Ok? <==> Unique(values) && forall v :: v in values ==> valid(v)
    ensures r.Ok? ==> r.value == SortAll(values)
    ensures r.Err? ==> FirstFault(field, invalid, values, valid, r.error)
  {
    var unique: set<string> := {};
    for i := 0 to |values|
      invariant unique == Elements(values[..i]) && Unique(values[..i])
      invariant forall v :: v in values[..i] ==> valid(v)
    {
      var value := values[i];
      assert values[..i + 1] == values[..i] + [value];
      UniqueExtends(values[..i], value);
      if !valid(value) {
        assert FaultAt(field, invalid, values, valid, InvalidField(invalid), i);
        return Err(InvalidField(invalid));
      }
      if value in unique {
        UniqueTake(values, i + 1);
        assert FaultAt(field, invalid, values, valid, DuplicateValue(field), i);
        return Err(DuplicateValue(field));
      }
      unique := unique + {value};
    }
    assert values[..|values|] == values;
    var sorted := SortSet(unique);
    AscendingUnique(sorted, SortAll(values));
    return Ok(sorted);
  }

  /** The items of a map in the order of their keys. */
  function InOrder<T>(ids: seq<string>, byId: map<string, T>): seq<T>
    requires forall i :: 0 <= i < |ids| ==> ids[i] in byId
  {
    seq(|ids|, i requires 0 <= i < |ids| => byId[ids[i]])
  }

  // ---------------------------------------------------------------------------
  // Caches
  // ---------------------------------------------------------------------------

  /** The caches taken so far, by id, with their mounts. */
  ghost predicate CachesTaken(caches: seq<Cache>, byId: map<string, Cache>, mounts: set<string>) {
    && (forall c :: c in caches ==> GoodCache(c) && c.id in byId && byId[c.id] == c)
    && (forall id :: id in byId ==> byId[id] in caches && byId[id].id == id)
    && mounts == Elements(Mounts(caches))
    && Unique(CacheIds(caches)) && Unique(Mounts(caches))
  }

  lemma TakenIds(caches: seq<Cache>, byId: map<string, Cache>, mounts: set<string>)
    requires CachesTaken(caches, byId, mounts)
    ensures Elements(CacheIds(caches)) == byId.Keys
  {
    forall id
      ensures id in CacheIds(caches) <==> id in byId
    {
      if id in CacheIds(caches) {
        var i :| 0 <= i < |caches| && CacheIds(caches)[i] == id;
        assert caches[i] in caches;
      }
      if id in byId {
        var i :| 0 <= i < |caches| && caches[i] == byId[id];
        assert CacheIds(caches)[i] == id;
      }
    }
  }

  lemma BadPrefix(caches: seq<Cache>, n: nat)
    requires n <= |caches|
    requires !(forall c :: c in caches[..n] ==> GoodCache(c)) || !Unique(CacheIds(caches[..n])) || !Unique(Mounts(caches[..n]))
    ensures !GoodCaches(caches)
  {
    assert CacheIds(caches)[..n] == CacheIds(caches[..n]) && Mounts(caches)[..n] == Mounts(caches[..n]);
    if !Unique(CacheIds(caches[..n])) {
      UniqueTake(CacheIds(caches), n);
    } else if !Unique(Mounts(caches[..n])) {
      UniqueTake(Mounts(caches), n);
    } else {
      var c :| c in caches[..n] && !GoodCache(c);
      assert c in caches;
    }
  }

  /** The loop body of `normalize_caches`. */
  method TakeCache(ghost taken: seq<Cache>, cache: Cache, byId: map<string, Cache>, mounts: set<string>)
    returns (r: Result<(map<string, Cache>, set<string>), ConfigError>)
    requires CachesTaken(taken, byId, mounts)
    ensures r.Ok? ==> CachesTaken(taken + [cache], r.value.0, r.value.1)
    ensures r.Err? ==> !GoodCache(cache) || !Unique(CacheIds(taken + [cache])) || !Unique(Mounts(taken + [cache]))
  {
    TakenIds(taken, byId, mounts);
    assert CacheIds(taken + [cache]) == CacheIds(taken) + [cache.id];
    assert Mounts(taken + [cache]) == Mounts(taken) + [cache.mountPath];
    UniqueExtends(CacheIds(taken), cache.id);
    UniqueExtends(Mounts(taken), cache.mountPath);
    if !ValidIdentifier(cache.id) {
      return Err(InvalidField("cache.id"));
    }
    if !ValidPath(cache.mountPath) || cache.mountPath == "." {
      return Err(InvalidField("cache.mount_path"));
    }
    if cache.id in byId {
      assert cache.id in Elements(CacheIds(taken));
      return Err(DuplicateId("cache.id", cache.id));
    }
    if cache.mountPath in mounts {
      return Err(DuplicateValue("cache.mount_path"));
    }
    var byId' := byId[cache.id := cache];
    assert cache.id !in Elements(CacheIds(taken));
    return Ok((byId', mounts + {cache.mountPath}));
  }

  /** `normalize_caches`. */
  method NormalizeCaches(caches: seq<Cache>) returns (r: Result<seq<Cache>, ConfigError>)
    ensures r.Ok? <==> GoodCaches(caches)
    ensures r.Ok? ==> IsCaches(caches, r.value)
  {
    if |caches| > MAX_CACHES {
      return Err(TooManyItems("caches", |caches|, MAX_CACHES));
    }
    var byId: map<string, Cache> := map[];
    var mounts: set<string> := {};
    for i := 0 to |caches|
      invariant CachesTaken(caches[..i], byId, mounts)
    {
      assert caches[..i + 1] == caches[..i] + [caches[i]];
      var taken := TakeCache(caches[..i], caches[i], byId, mounts);
      if taken.Err? {
        assert caches[i] in caches[..i + 1];
        BadPrefix(caches, i + 1);
        return Err(taken.error);
      }
      byId, mounts := taken.value.0, taken.value.1;
    }
    assert caches[..|caches|] == caches;
    var ids := SortSet(byId.Keys);
    assert forall i :: 0 <= i < |ids| ==> ids[i] in Elements(ids);
    var result := InOrder(ids, byId);
    OrderedCaches(caches, byId, mounts, ids);
    return Ok(result);
  }

  lemma OrderedCaches(caches: seq<Cache>, byId: map<string, Cache>, mounts: set<string>, ids: seq<string>)
    requires CachesTaken(caches, byId, mounts) && Ascending(ids) && Elements(ids) == byId.Keys
    requires forall i :: 0 <= i < |ids| ==> ids[i] in byId
    ensures IsCaches(caches, InOrder(ids, byId))
  {
    var result := InOrder(ids, byId);
    assert CacheIds(result) == ids;
    forall c
      ensures c in result <==> c in caches
    {
      if c in caches {
        assert c.id in Elements(ids);
        var i :| 0 <= i < |ids| && ids[i] == c.id;
        assert result[i] == c;
      }
    }
  }

  // ---------------------------------------------------------------------------
  // Checks
  // ---------------------------------------------------------------------------

  /** `validate_check`. */
  method ValidateCheck(c: CheckConfig) returns (r: Result<(), ConfigError>)
    ensures r.Ok? <==> ValidCheck(c)
  {
    if !ValidIdentifier(c.id) {
      return Err(InvalidField("check.id"));
    }
    if |c.argv| == 0 || |c.argv| > MAX_ARGV_PARTS {
      return Err(InvalidField("check.argv"));
    }
    for i := 0 to |c.argv|
      invariant forall k :: 0 <= k < i ==> ValidText(c.argv[k])
    {
      if !ValidText(c.argv[i]) {
        return Err(InvalidField("check.argv"));
      }
    }
    if !ValidPath(c.workingDirectory) {
      return Err(InvalidField("check.working_directory"));
    }
    if !(1 <= c.timeoutSeconds <= MAX_TIMEOUT_SECONDS) {
      return Err(OutOfRange("check.timeout_seconds", 1, MAX_TIMEOUT_SECONDS, c.timeoutSeconds));
    }
    return Ok(());
  }

  /** `validate_artifact_contracts`. */
  method ValidateContracts(c: CheckConfig) returns (r: Result<(), ConfigError>)
    ensures r.Ok? <==> GoodContracts(c)
  {
    var paths: set<string> := {};
    ghost var key := (a: ArtifactContract) => a.path;
    ghost var all := ContractPaths(c.artifactContracts);
    for i := 0 to |c.artifactContracts|
      invariant paths == Elements(all[..i]) && Unique(all[..i])
      invariant forall k :: 0 <= k < i ==> GoodContract(c.artifactContracts[k], c.artifacts)
    {
      var a := c.artifactContracts[i];
      assert a in c.artifactContracts && all[i] == a.path && all[..i + 1] == all[..i] + [a.path];
      UniqueExtends(all[..i], a.path);
      if !ValidPath(a.path) || a.path == "." || a.path !in c.artifacts {
        return Err(InvalidField("check.artifact_contracts.path"));
      }
      if a.path in paths {
        UniqueTake(all, i + 1);
        return Err(DuplicateValue("check.artifact_contracts.path"));
      }
      paths := paths + {a.path};
      if !(1 <= a.maxBytes <= MAX_ARTIFACT_BYTES) {
        return Err(OutOfRange("check.artifact_contracts.max_bytes", 1, MAX_ARTIFACT_BYTES, a.maxBytes));
      }
      var maximum := match a.kind case RegularFile => 1 case Directory => MAX_DIRECTORY_ENTRIES;
      if !(1 <= a.maxEntries <= maximum) {
        return Err(OutOfRange("check.artifact_contracts.max_entries", 1, maximum, a.maxEntries));
      }
    }
    assert all[..|all|] == all;
    return Ok(());
  }

  function SortCheck(c: CheckConfig): CheckConfig {
    c.(dependsOn := SortAll(c.dependsOn), artifacts := SortAll(c.artifacts))
  }

  /** `normalize_check`. */
  function NormalizeCheck(c: CheckConfig): NormalizedCheck {
    NormalizedCheck(
      c.id, c.required, c.argv, c.workingDirectory, c.timeoutSeconds,
      c.dependsOn, c.artifacts, Produced(c.artifactContracts, c.id))
  }

  /** The loop body of `normalize_checks` up to the insertion. */
  method SortedCheck(c: CheckConfig) returns (r: Result<CheckConfig, ConfigError>)
    ensures r.Ok? <==> GoodCheck(c)
    ensures r.Ok? ==> r.value == SortCheck(c)
  {
    var valid := ValidateCheck(c);
    if valid.Err? {
      return Err(valid.error);
    }
    var dependsOn := UniqueSorted("check.depends_on", "check.depends_on", c.dependsOn, s => ValidIdentifier(s));
    if dependsOn.Err? {
      return Err(dependsOn.error);
    }
    var artifacts := UniqueSorted("check.artifacts", "check.artifacts", c.artifacts, s => ValidPath(s));
    if artifacts.Err? {
      return Err(artifacts.error);
    }
    assert forall a :: a in c.artifacts <==> a in Elements(artifacts.value);
    if "." in artifacts.value {
      assert "." in Elements(artifacts.value);
      assert "." in c.artifacts && !GoodArtifact(".");
      return Err(InvalidField("check.artifacts"));
    }
    var check := c.(dependsOn := dependsOn.value, artifacts := artifacts.value);
    var contracts := ValidateContracts(check);
    assert GoodContracts(check) <==> GoodContracts(c);
    if contracts.Err? {
      return Err(contracts.error);
    }
    return Ok(check);
  }

  /** The checks taken so far, by id. */
  ghost predicate ChecksTaken(checks: seq<CheckConfig>, byId: map<string, CheckConfig>) {
    && (forall c :: c in checks ==> GoodCheck(c) && c.id in byId && byId[c.id] == SortCheck(c))
    && byId.Keys == Elements(CheckIds(checks))
    && Unique(CheckIds(checks))
  }

  /** The loop of `normalize_checks`. */
  method IndexChecks(checks: seq<CheckConfig>) returns (r: Result<map<string, CheckConfig>, ConfigError>)
    ensures r.Ok? <==> (forall c :: c in checks ==> GoodCheck(c)) && Unique(CheckIds(checks))
    ensures r.Ok? ==> ChecksTaken(checks, r.value)
  {
    var byId: map<string, CheckConfig> := map[];
    ghost var ids := CheckIds(checks);
    for i := 0 to |checks|
      invariant ChecksTaken(checks[..i], byId)
    {
      var c := checks[i];
      KeysPrefix(checks, (c: CheckConfig) => c.id, i);
      assert CheckIds(checks[..i + 1]) == CheckIds(checks[..i]) + [c.id];
      UniqueExtends(CheckIds(checks[..i]), c.id);
      var check := SortedCheck(c);
      if check.Err? {
        assert c in checks;
        return Err(check.error);
      }
      if c.id in byId {
        assert c.id in Elements(CheckIds(checks[..i]));
        assert ids[..i + 1] == CheckIds(checks[..i + 1]);
        UniqueTake(ids, i + 1);
        return Err(DuplicateId("check.id", c.id));
      }
      ExtendTaken(checks[..i], byId, c);
      byId := byId[c.id := check.value];
    }
    assert checks[..|checks|] == checks;
    return Ok(byId);
  }

  lemma ExtendTaken(taken: seq<CheckConfig>, byId: map<string, CheckConfig>, c: CheckConfig)
    requires ChecksTaken(taken, byId) && GoodCheck(c) && c.id !in byId
    ensures ChecksTaken(taken + [c], byId[c.id := SortCheck(c)])
  {
    assert CheckIds(taken + [c]) == CheckIds(taken) + [c.id];
    assert c.id !in Elements(CheckIds(taken));
    UniqueExtends(CheckIds(taken), c.id);
    forall x | x in taken
      ensures x.id != c.id
    {
      assert x.id in byId;
    }
  }

  function Index(byId: map<string, CheckConfig>): map<string, NormalizedCheck> {
    map x | x in byId :: NormalizeCheck(byId[x])
  }

  predicate WellIndexed(byId: map<string, CheckConfig>) {
    forall x :: x in byId ==> Ascending(byId[x].dependsOn) && byId[x].id == x
  }

  lemma TakenIsIndex(checks: seq<CheckConfig>, byId: map<string, CheckConfig>)
    requires ChecksTaken(checks, byId)
    ensures IsIndex(checks, Index(byId)) && WellIndexed(byId)
  {
    forall x | x in byId
      ensures Ascending(byId[x].dependsOn) && byId[x].id == x
    {
      assert x in Elements(CheckIds(checks));
      var i :| 0 <= i < |checks| && CheckIds(checks)[i] == x;
      assert checks[i] in checks;
    }
  }

  /** The dependency order of the checks, in canonical form. */
  method ScheduleChecks(byId: map<string, CheckConfig>) returns (r: Result<seq<NormalizedCheck>, ConfigError>)
    requires WellIndexed(byId)
    ensures r.Ok? <==> ValidGraph(GraphOf(Index(byId))) && Acyclic(GraphOf(Index(byId)))
    ensures r.Ok? ==> IsSchedule(Index(byId), r.value)
    ensures r.Err? && r.error.DependencyCycle? ==>
      && Ascending(r.error.checks)
      && forall x :: x in r.error.checks <==> x in byId && ReachesCycle(GraphOf(Index(byId)), x)
  {
    var g: Graph := map x | x in byId :: byId[x].dependsOn;
    assert g == GraphOf(Index(byId));
    var valid := CheckOrder.ValidateDependencies(g);
    if valid.Err? {
      match valid.error
      case SelfDependency(check) => return Err(SelfDependency(check));
      case UnknownDependency(check, dependency) => return Err(UnknownDependency(check, dependency));
    }
    var order := CheckOrder.TopologicalOrder(g);
    if order.Err? {
      return Err(DependencyCycle(order.error));
    }
    OrderedChecks(byId, order.value);
    return Ok(InOrder(order.value, Index(byId)));
  }

  lemma OrderedChecks(byId: map<string, CheckConfig>, o: seq<string>)
    requires WellIndexed(byId) && ValidGraph(GraphOf(Index(byId))) && IsLeastOrder(GraphOf(Index(byId)), o)
    ensures forall i :: 0 <= i < |o| ==> o[i] in Index(byId)
    ensures IsSchedule(Index(byId), InOrder(o, Index(byId)))
  {
    assert forall i :: 0 <= i < |o| ==> o[i] in Elements(o);
    assert NormalizedIds(InOrder(o, Index(byId))) == o;
  }

  /** `normalize_checks`. */
  method NormalizeChecks(checks: seq<CheckConfig>) returns (r: Result<seq<NormalizedCheck>, ConfigError>)
    ensures r.Ok? <==> GoodChecks(checks) && HasSchedule(checks)
    ensures r.Ok? ==> IsChecks(checks, r.value)
  {
    if |checks| == 0 {
      return Err(NoChecks);
    }
    if |checks| > MAX_CHECKS {
      return Err(TooManyItems("checks", |checks|, MAX_CHECKS));
    }
    var required := HasRequired(checks);
    if !required {
      return Err(NoRequiredChecks);
    }
    var byId := IndexChecks(checks);
    if byId.Err? {
      return Err(byId.error);
    }
    r := OrderChecks(checks, byId.value);
  }

  method OrderChecks(ghost checks: seq<CheckConfig>, byId: map<string, CheckConfig>)
    returns (r: Result<seq<NormalizedCheck>, ConfigError>)
    requires ChecksTaken(checks, byId)
    ensures r.Ok? <==> HasSchedule(checks)
    ensures r.Ok? ==> IsChecks(checks, r.value)
  {
    ghost var index := Index(byId);
    assert IsIndex(checks, index) && WellIndexed(byId) by {
      TakenIsIndex(checks, byId);
    }
    r := ScheduleChecks(byId);
    if r.Err? {
      NoSchedule(checks, index);
    } else {
      assert IsChecks(checks, r.value);
    }
  }

  method HasRequired(checks: seq<CheckConfig>) returns (found: bool)
    ensures found <==> exists c :: c in checks && c.required
  {
    for i := 0 to |checks|
      invariant forall k :: 0 <= k < i ==> !checks[k].required
    {
      if checks[i].required {
        assert checks[i] in checks;
        return true;
      }
    }
    return false;
  }

  /** A graph with an execution order is acyclic, so a rejected graph has no schedule. */
  lemma NoSchedule(checks: seq<CheckConfig>, index: map<string, NormalizedCheck>)
    requires IsIndex(checks, index) && !(ValidGraph(GraphOf(index)) && Acyclic(GraphOf(index)))
    ensures !HasSchedule(checks)
  {
    forall result
      ensures !IsChecks(checks, result)
    {
      if IsChecks(checks, result) {
        var other :| IsIndex(checks, other) && IsSchedule(other, result);
        IndexUnique(checks, index, other);
        OrderIsAcyclic(GraphOf(index), NormalizedIds(result));
        assert false;
      }
    }
  }
}
