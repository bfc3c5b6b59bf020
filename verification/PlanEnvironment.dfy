/**
 `normalize_environment` (src/config.rs:830-908): one set of names collects every
 declaration while the lists are validated, resolved and sorted.
 */
module PlanEnvironment {
  import opened Common
  import opened Order
  import opened ConfigModel
  import opened PlanSpec
  import opened PlanNormalization

  function FixedNames(fixed: seq<FixedEnvironment>): seq<string> {
    Keys(fixed, (f: FixedEnvironment) => f.name)
  }

  function InternalNames(internals: seq<InternalEnvironment>): seq<string> {
    Keys(internals, (i: InternalEnvironment) => i.name)
  }

  ghost predicate FixedFrom(fixed: map<string, string>, digest: Digest<string>, names: seq<string>,
                            result: seq<FixedEnvironment>)
  {
    && FixedNames(result) == names
    && forall f :: f in result ==> f.name in fixed && digest(fixed[f.name]) == Some(f.valueDigest)
  }

  /** The loop over the fixed variables. */
  method NormalizeFixed(fixed: map<string, string>, digest: Digest<string>, names: set<string>)
    returns (r: Result<(seq<FixedEnvironment>, set<string>), ConfigError>)
    ensures r.Ok? <==> GoodFixed(fixed, digest) && fixed.Keys !! names
    ensures r.Ok? ==> IsFixed(fixed, digest, r.value.0) && r.value.1 == names + fixed.Keys
  {
    var keys := SortSet(fixed.Keys);
    var result: seq<FixedEnvironment> := [];
    var names' := names;
    assert Elements(keys[..0]) == {};
    for i := 0 to |keys|
      invariant FixedFrom(fixed, digest, keys[..i], result)
      invariant names' == names + Elements(keys[..i])
      invariant forall k :: 0 <= k < i ==> GoodFixedAt(fixed, digest, names, keys[k])
    {
      var name := keys[i];
      assert name in Elements(keys);
      assert keys[..i + 1] == keys[..i] + [name];
      assert name !in Elements(keys[..i]) by {
        AscendingOnce(keys, i);
      }
      if !ValidEnvironmentName(name) {
        return Err(InvalidField("environment.allow"));
      }
      if !ValidText(fixed[name]) {
        return Err(InvalidField("environment.fixed"));
      }
      if name in names' {
        assert name in fixed.Keys && name in names;
        return Err(DuplicateValue("environment"));
      }
      names' := names' + {name};
      var value := digest(fixed[name]);
      if value.None? {
        return Err(DigestFailure);
      }
      assert FixedNames(result + [FixedEnvironment(name, value.value)]) == FixedNames(result) + [name];
      result := result + [FixedEnvironment(name, value.value)];
    }
    assert keys[..|keys|] == keys;
    FixedComplete(fixed, digest, keys, result);
    forall name | name in fixed
      ensures GoodFixedAt(fixed, digest, names, name)
    {
      assert name in Elements(keys);
    }
    return Ok((result, names'));
  }

  predicate GoodFixedAt(fixed: map<string, string>, digest: Digest<string>, names: set<string>, name: string) {
    name in fixed && ValidEnvironmentName(name) && ValidText(fixed[name]) && digest(fixed[name]).Some? && name !in names
  }

  lemma AscendingOnce(keys: seq<string>, i: nat)
    requires Ascending(keys) && i < |keys|
    ensures keys[i] !in keys[..i]
  {
    LessIrreflexive(keys[i]);
  }

  lemma FixedComplete(fixed: map<string, string>, digest: Digest<string>, keys: seq<string>,
                      result: seq<FixedEnvironment>)
    requires Ascending(keys) && Elements(keys) == fixed.Keys && FixedFrom(fixed, digest, keys, result)
    ensures IsFixed(fixed, digest, result)
  {
    forall f: FixedEnvironment | f.name in fixed && digest(fixed[f.name]) == Some(f.valueDigest)
      ensures f in result
    {
      assert f.name in Elements(keys);
      var i :| 0 <= i < |keys| && keys[i] == f.name;
      assert FixedNames(result)[i] == result[i].name;
      assert result[i] in result;
    }
  }

  // ---------------------------------------------------------------------------
  // Bindings to caches
  // ---------------------------------------------------------------------------

  /** The mount of every cache. */
  method CacheTargets(caches: seq<Cache>) returns (targets: map<string, string>)
    requires Ascending(CacheIds(caches))
    ensures targets.Keys == Elements(CacheIds(caches))
    ensures forall c :: c in caches ==> c.id in targets && targets[c.id] == c.mountPath
  {
    targets := map[];
    var ids := CacheIds(caches);
    for i := 0 to |caches|
      invariant targets.Keys == Elements(ids[..i])
      invariant forall k :: 0 <= k < i ==> caches[k].id in targets && targets[caches[k].id] == caches[k].mountPath
    {
      AscendingOnce(ids, i);
      assert ids[..i + 1] == ids[..i] + [caches[i].id];
      assert forall k :: 0 <= k < i ==> ids[..i][k] == caches[k].id;
      targets := targets[caches[i].id := caches[i].mountPath];
    }
    assert ids[..|caches|] == ids;
  }

  ghost predicate InternalFrom(bindings: seq<Binding>, caches: seq<Cache>, result: seq<InternalEnvironment>) {
    && |result| == |bindings|
    && forall k :: 0 <= k < |bindings| ==> IsTarget(bindings[k], caches, result[k])
  }

  /** The loop over the bindings. */
  method NormalizeInternal(bindings: seq<Binding>, caches: seq<Cache>, names: set<string>)
    returns (r: Result<(seq<InternalEnvironment>, set<string>), ConfigError>)
    requires Ascending(CacheIds(caches))
    ensures r.Ok? <==>
      && (forall b :: b in bindings ==> GoodBinding(b, caches))
      && Unique(BindingNames(bindings)) && Elements(BindingNames(bindings)) !! names
    ensures r.Ok? ==> InternalFrom(bindings, caches, r.value.0) && r.value.1 == names + Elements(BindingNames(bindings))
  {
    var targets := CacheTargets(caches);
    var result: seq<InternalEnvironment> := [];
    var names' := names;
    ghost var all := BindingNames(bindings);
    for i := 0 to |bindings|
      invariant InternalFrom(bindings[..i], caches, result)
      invariant names' == names + Elements(all[..i]) && Unique(all[..i]) && Elements(all[..i]) !! names
      invariant forall k :: 0 <= k < i ==> GoodBinding(bindings[k], caches)
    {
      var b := bindings[i];
      assert b in bindings && all[i] == b.name && all[..i + 1] == all[..i] + [b.name];
      UniqueExtends(all[..i], b.name);
      if !ValidEnvironmentName(b.name) {
        return Err(InvalidField("environment.allow"));
      }
      if !ValidIdentifier(b.cacheId) {
        return Err(InvalidField("environment.runtime_internal.cache_id"));
      }
      if b.name in names' {
        assert b.name in Elements(all);
        if b.name !in names {
          UniqueTake(all, i + 1);
        }
        return Err(DuplicateValue("environment"));
      }
      names' := names' + {b.name};
      if b.cacheId !in targets {
        assert b.cacheId !in Elements(CacheIds(caches));
        return Err(UnknownEnvironmentCache(b.name, b.cacheId));
      }
      assert b.cacheId in Elements(CacheIds(caches));
      var target := InternalEnvironment(b.name, b.cacheId, "/workspace/" + targets[b.cacheId]);
      TargetFound(b, caches, targets);
      result := result + [target];
      assert bindings[..i + 1] == bindings[..i] + [b];
    }
    assert all[..|bindings|] == all && bindings[..|bindings|] == bindings;
    return Ok((result, names'));
  }

  lemma TargetFound(b: Binding, caches: seq<Cache>, targets: map<string, string>)
    requires forall c :: c in caches ==> c.id in targets && targets[c.id] == c.mountPath
    requires b.cacheId in CacheIds(caches) && b.cacheId in targets
    ensures IsTarget(b, caches, InternalEnvironment(b.name, b.cacheId, "/workspace/" + targets[b.cacheId]))
  {
    var i :| 0 <= i < |caches| && CacheIds(caches)[i] == b.cacheId;
    assert caches[i] in caches;
  }

  /** The sorting by name: the names are distinct. */
  method SortInternal(items: seq<InternalEnvironment>) returns (r: seq<InternalEnvironment>)
    requires Unique(InternalNames(items))
    ensures Ascending(InternalNames(r)) && forall x :: x in r <==> x in items
  {
    var byName: map<string, InternalEnvironment> := map[];
    for i := 0 to |items|
      invariant forall k :: 0 <= k < i ==> items[k].name in byName && byName[items[k].name] == items[k]
      invariant forall n :: n in byName ==> byName[n] in items && byName[n].name == n
    {
      forall k | 0 <= k < i
        ensures items[k].name != items[i].name
      {
        assert InternalNames(items)[k] != InternalNames(items)[i];
      }
      byName := byName[items[i].name := items[i]];
    }
    var names := SortSet(byName.Keys);
    assert forall i :: 0 <= i < |names| ==> names[i] in Elements(names);
    r := InOrder(names, byName);
    assert InternalNames(r) == names;
    forall x | x in items
      ensures x in r
    {
      assert x.name in Elements(names);
      var i :| 0 <= i < |names| && names[i] == x.name;
      assert r[i] == x;
    }
  }

  lemma InternalComplete(bindings: seq<Binding>, caches: seq<Cache>, items: seq<InternalEnvironment>)
    requires InternalFrom(bindings, caches, items) && Unique(BindingNames(bindings)) && Ascending(CacheIds(caches))
    ensures Unique(InternalNames(items))
    ensures forall i :: i in items <==> exists b :: b in bindings && IsTarget(b, caches, i)
  {
    assert InternalNames(items) == BindingNames(bindings);
    forall i
      ensures i in items <==> exists b :: b in bindings && IsTarget(b, caches, i)
    {
      if i in items {
        var k :| 0 <= k < |items| && items[k] == i;
        assert bindings[k] in bindings && IsTarget(bindings[k], caches, i);
      }
      if exists b :: b in bindings && IsTarget(b, caches, i) {
        var b :| b in bindings && IsTarget(b, caches, i);
        var k :| 0 <= k < |bindings| && bindings[k] == b;
        TargetUnique(b, caches, i, items[k]);
      }
    }
  }

  lemma TargetUnique(b: Binding, caches: seq<Cache>, x: InternalEnvironment, y: InternalEnvironment)
    requires IsTarget(b, caches, x) && IsTarget(b, caches, y) && Ascending(CacheIds(caches))
    ensures x == y
  {
    var c :| c in caches && c.id == b.cacheId && x.containerTarget == "/workspace/" + c.mountPath;
    var d :| d in caches && d.id == b.cacheId && y.containerTarget == "/workspace/" + d.mountPath;
    var i :| 0 <= i < |caches| && caches[i] == c;
    var j :| 0 <= j < |caches| && caches[j] == d;
    assert CacheIds(caches)[i] == CacheIds(caches)[j];
    LessIrreflexive(c.id);
  }

  // ---------------------------------------------------------------------------
  // The whole environment
  // ---------------------------------------------------------------------------

  /** The two name lists and the schema version's rules. */
  method NormalizeLists(version: string, e: EnvironmentConfig)
    returns (r: Result<(seq<string>, seq<string>), ConfigError>)
    ensures r.Ok? <==> GoodLists(version, e)
    ensures r.Ok? ==> r.value.0 == SortAll(e.allow) && r.value.1 == SortAll(e.remoteSecretOnly)
  {
    var inherit := UniqueSorted("environment.allow", "environment.allow", e.allow, s => ValidEnvironmentName(s));
    if inherit.Err? {
      return Err(inherit.error);
    }
    var remote := UniqueSorted("environment.remote_secret_only", "environment.allow", e.remoteSecretOnly,
                               s => ValidEnvironmentName(s));
    if remote.Err? {
      return Err(remote.error);
    }
    EmptyTogether(e.allow);
    EmptyTogether(e.remoteSecretOnly);
    if version == "1.0" && (|e.fixed| != 0 || |e.runtimeInternal| != 0 || |remote.value| != 0) {
      return Err(InvalidField("environment"));
    }
    if version != "1.0" && |inherit.value| != 0 {
      return Err(InvalidField("environment.allow"));
    }
    return Ok((inherit.value, remote.value));
  }

  lemma EmptyTogether(values: seq<string>)
    ensures |SortAll(values)| == 0 <==> values == []
  {
    if values != [] {
      assert values[0] in Elements(SortAll(values));
    }
  }

  /** The loop that adds the remote-only names. */
  method AddRemote(remote: seq<string>, names: set<string>) returns (r: Result<(), ConfigError>)
    requires Ascending(remote)
    ensures r.Ok? <==> Elements(remote) !! names
  {
    var names' := names;
    for i := 0 to |remote|
      invariant names' == names + Elements(remote[..i]) && Elements(remote[..i]) !! names
    {
      assert remote[i] in Elements(remote);
      AscendingOnce(remote, i);
      if remote[i] in names' {
        return Err(DuplicateValue("environment"));
      }
      names' := names' + {remote[i]};
      assert remote[..i + 1] == remote[..i] + [remote[i]];
    }
    assert remote[..|remote|] == remote;
    return Ok(());
  }

  /** `normalize_environment`. */
  method NormalizeEnvironment(version: string, e: EnvironmentConfig, caches: seq<Cache>, digest: Digest<string>)
    returns (r: Result<NormalizedEnvironment, ConfigError>)
    requires Ascending(CacheIds(caches))
    ensures r.Ok? <==> GoodEnvironment(version, e, caches, digest)
    ensures r.Ok? ==> IsEnvironment(e, caches, digest, r.value)
  {
    var lists := NormalizeLists(version, e);
    if lists.Err? {
      return Err(lists.error);
    }
    var names := Elements(lists.value.0);
    var fixed := NormalizeFixed(e.fixed, digest, names);
    if fixed.Err? {
      return Err(fixed.error);
    }
    var internals := NormalizeInternal(e.runtimeInternal, caches, fixed.value.1);
    if internals.Err? {
      return Err(internals.error);
    }
    var remote := AddRemote(lists.value.1, internals.value.1);
    if remote.Err? {
      return Err(remote.error);
    }
    InternalComplete(e.runtimeInternal, caches, internals.value.0);
    var sorted := SortInternal(internals.value.0);
    return Ok(NormalizedEnvironment(lists.value.0, fixed.value.0, sorted, lists.value.1));
  }
}
