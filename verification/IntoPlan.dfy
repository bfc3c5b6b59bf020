/**
 `into_plan` (src/config.rs:321-432, 528-585): the validations and normalizations in the
 order of the source. It succeeds exactly when the configuration has a plan whose
 digest exists, and returns that plan.
 */
module IntoPlan {
  import opened Common
  import opened ConfigModel
  import opened PathIsolation
  import opened PlanSpec
  import opened PlanNormalization
  import opened PlanEnvironment

  /** `validate_top_level`. */
  method ValidateTopLevel(c: Config) returns (r: Result<(), ConfigError>)
    ensures r.Ok? <==> GoodTopLevel(c)
  {
    if c.schemaVersion !in {"1.0", "1.1", "1.2", "1.3"} {
      return Err(UnsupportedSchemaVersion(c.schemaVersion));
    }
    if !ValidProject(c.project) {
      return Err(InvalidField("project"));
    }
    if !ValidImage(c.runtime.image) {
      return Err(InvalidField("runtime.image"));
    }
    if !(1 <= c.runtime.cpuCount <= MAX_CPU_COUNT) {
      return Err(OutOfRange("runtime.cpu_count", 1, MAX_CPU_COUNT, c.runtime.cpuCount));
    }
    if !(64 <= c.runtime.memoryMib <= MAX_MEMORY_MIB) {
      return Err(OutOfRange("runtime.memory_mib", 64, MAX_MEMORY_MIB, c.runtime.memoryMib));
    }
    if !(1 <= c.runtime.pidsLimit <= MAX_PIDS) {
      return Err(OutOfRange("runtime.pids_limit", 1, MAX_PIDS, c.runtime.pidsLimit));
    }
    if !ValidPath(c.receipt.output) || c.receipt.output == "." {
      return Err(InvalidField("receipt.output"));
    }
    if !(1 <= c.receipt.freshnessSeconds <= MAX_FRESHNESS_SECONDS) {
      return Err(OutOfRange("receipt.freshness_seconds", 1, MAX_FRESHNESS_SECONDS, c.receipt.freshnessSeconds));
    }
    return Ok(());
  }

  /** `normalize_runtime`. */
  method NormalizeRuntime(version: string, runtime: Runtime) returns (r: Result<Runtime, ConfigError>)
    ensures r.Ok? <==> GoodRuntime(version, runtime)
    ensures r.Ok? ==> r.value == runtime
  {
    var pull, swap := None, None;
    if version == "1.3" {
      if runtime.pullPolicy.None? || runtime.swapMode.None? {
        return Err(MissingRuntimeCapabilityPolicy);
      }
      pull, swap := runtime.pullPolicy, runtime.swapMode;
    } else if runtime.pullPolicy.Some? {
      return Err(InvalidField("runtime.pull_policy"));
    } else if runtime.swapMode.Some? {
      return Err(InvalidField("runtime.swap_mode"));
    }
    return Ok(Runtime(runtime.kind, runtime.image, runtime.cpuCount, runtime.memoryMib, runtime.pidsLimit,
                      runtime.network, pull, swap));
  }

  // ---------------------------------------------------------------------------
  // Storage
  // ---------------------------------------------------------------------------

  /** `u64::checked_add`. */
  function CheckedAdd(a: Option<nat>, b: nat): Option<nat> {
    if a.Some? && a.value + b <= U64_MAX then Some(a.value + b) else None
  }

  lemma {:induction false} ContractBytesGrow(contracts: seq<NormalizedContract>, n: nat)
    requires n <= |contracts|
    ensures ContractBytes(contracts[..n]) <= ContractBytes(contracts)
    decreases |contracts|
  {
    if n < |contracts| {
      var m := |contracts| - 1;
      ContractBytesGrow(contracts[..m], n);
      assert contracts[..m][..n] == contracts[..n];
    } else {
      assert contracts[..n] == contracts;
    }
  }

  lemma {:induction false} ArtifactBytesGrow(checks: seq<NormalizedCheck>, n: nat)
    requires n <= |checks|
    ensures ArtifactBytes(checks[..n]) <= ArtifactBytes(checks)
    decreases |checks|
  {
    if n < |checks| {
      var m := |checks| - 1;
      ArtifactBytesGrow(checks[..m], n);
      assert checks[..m][..n] == checks[..n];
    } else {
      assert checks[..n] == checks;
    }
  }

  /** The checked sum over all contracts: none exactly when the sum needs more than 64
      bits. */
  method SumArtifacts(checks: seq<NormalizedCheck>) returns (total: Option<nat>)
    ensures total == if ArtifactBytes(checks) <= U64_MAX then Some(ArtifactBytes(checks)) else None
  {
    total := Some(0);
    for i := 0 to |checks|
      invariant total == Some(ArtifactBytes(checks[..i])) && ArtifactBytes(checks[..i]) <= U64_MAX
    {
      var contracts := checks[i].artifactContracts;
      assert checks[..i + 1][..i] == checks[..i];
      for j := 0 to |contracts|
        invariant total == Some(ArtifactBytes(checks[..i]) + ContractBytes(contracts[..j])) && total.value <= U64_MAX
      {
        assert contracts[..j + 1][..j] == contracts[..j];
        total := CheckedAdd(total, contracts[j].maxBytes);
        if total.None? {
          ContractBytesGrow(contracts, j + 1);
          ArtifactBytesGrow(checks, i + 1);
          return None;
        }
      }
      assert contracts[..|contracts|] == contracts;
    }
    assert checks[..|checks|] == checks;
  }

  /** `normalize_storage`: 64-bit sums accept exactly what unbounded sums would. */
  method NormalizeStorage(version: string, storage: Option<StorageConfig>, checks: seq<NormalizedCheck>)
    returns (r: Result<Option<NormalizedStorage>, ConfigError>)
    ensures r.Ok? <==> GoodStorage(version, storage, checks)
    ensures r.Ok? ==> r.value == StorageOf(version, storage, checks)
  {
    if version != "1.2" && version != "1.3" {
      if storage.Some? {
        return Err(InvalidField("storage"));
      }
      return Ok(None);
    }
    if storage.None? {
      return Err(MissingStoragePolicy);
    }
    var s := storage.value;
    if !(1 <= s.minFreeBytes <= MAX_STORAGE_BYTES) {
      return Err(OutOfRange("storage.min_free_bytes", 1, MAX_STORAGE_BYTES, s.minFreeBytes));
    }
    if !(MIN_RECEIPT_JOURNAL_RESERVE_BYTES <= s.receiptJournalReserveBytes <= MAX_STORAGE_BYTES) {
      return Err(OutOfRange("storage.receipt_journal_reserve_bytes", MIN_RECEIPT_JOURNAL_RESERVE_BYTES,
                            MAX_STORAGE_BYTES, s.receiptJournalReserveBytes));
    }
    if !(s.maxCacheGrowthBytes <= MAX_STORAGE_BYTES) {
      return Err(OutOfRange("storage.max_cache_growth_bytes", 0, MAX_STORAGE_BYTES, s.maxCacheGrowthBytes));
    }
    var artifacts := SumArtifacts(checks);
    if artifacts.None? {
      return Err(InvalidField("storage.max_artifact_bytes"));
    }
    var required := CheckedAdd(Some(s.minFreeBytes), s.receiptJournalReserveBytes);
    required := CheckedAdd(required, s.maxCacheGrowthBytes);
    required := CheckedAdd(required, artifacts.value);
    if required.None? {
      return Err(InvalidField("storage"));
    }
    if required.value > MAX_STORAGE_BYTES {
      return Err(OutOfRange("storage.required_free_bytes", 1, MAX_STORAGE_BYTES, required.value));
    }
    return Ok(Some(NormalizedStorage(s.minFreeBytes, s.receiptJournalReserveBytes, s.maxCacheGrowthBytes,
                                     artifacts.value)));
  }

  // ---------------------------------------------------------------------------
  // The plan
  // ---------------------------------------------------------------------------

  ghost predicate Refused(c: Config, digest: Digest<string>, planDigest: Digest<Plan>) {
    forall plan :: IsPlan(c, digest, plan) ==> planDigest(plan).None?
  }

  lemma RefusedByCaches(c: Config, digest: Digest<string>, planDigest: Digest<Plan>, caches: seq<Cache>)
    requires IsCaches(c.caches, caches) && !GoodEnvironment(c.schemaVersion, c.environment, caches, digest)
    ensures Refused(c, digest, planDigest)
  {
    if plan: Plan :| IsPlan(c, digest, plan) {
      CachesUnique(c.caches, caches, plan.caches);
      assert false;
    }
  }

  lemma RefusedByChecks(c: Config, digest: Digest<string>, planDigest: Digest<Plan>, caches: seq<Cache>,
                        checks: seq<NormalizedCheck>)
    requires IsCaches(c.caches, caches) && IsChecks(c.checks, checks)
    requires !GoodStorage(c.schemaVersion, c.storage, checks) || !Isolated(Claims(c.receipt.output, caches, checks))
    ensures Refused(c, digest, planDigest)
  {
    if plan: Plan :| IsPlan(c, digest, plan) {
      CachesUnique(c.caches, caches, plan.caches);
      ChecksUnique(c.checks, checks, plan.checks);
      assert false;
    }
  }

  lemma RefusedByDigest(c: Config, digest: Digest<string>, planDigest: Digest<Plan>, plan: Plan)
    requires IsPlan(c, digest, plan) && planDigest(plan).None?
    ensures Refused(c, digest, planDigest)
  {
    forall other | IsPlan(c, digest, other)
      ensures planDigest(other).None?
    {
      PlanUnique(c, digest, plan, other);
    }
  }

  /** What `into_plan` may return. */
  ghost predicate Outcome(c: Config, digest: Digest<string>, planDigest: Digest<Plan>,
                          r: Result<Envelope, ConfigError>)
  {
    match r
    case Ok(e) =>
      && IsPlan(c, digest, e.plan) && planDigest(e.plan) == Some(e.planDigest)
      && e.fixedEnvironment == c.environment.fixed
    case Err(_) => Refused(c, digest, planDigest)
  }

  /** The parts of the plan up to the checks. */
  ghost predicate IsParts(c: Config, digest: Digest<string>, caches: seq<Cache>, runtime: Runtime,
                          environment: NormalizedEnvironment, checks: seq<NormalizedCheck>)
  {
    && GoodTopLevel(c)
    && PlansCaches(c.caches, caches)
    && GoodRuntime(c.schemaVersion, c.runtime) && runtime == c.runtime
    && PlansEnvironment(c.schemaVersion, c.environment, caches, digest, environment)
    && PlansChecks(c.checks, checks)
  }

  method NormalizeParts(c: Config, digest: Digest<string>, ghost planDigest: Digest<Plan>)
    returns (r: Result<(seq<Cache>, Runtime, NormalizedEnvironment, seq<NormalizedCheck>), ConfigError>)
    requires GoodTopLevel(c)
    ensures r.Ok? ==> IsParts(c, digest, r.value.0, r.value.1, r.value.2, r.value.3)
    ensures r.Err? ==> Refused(c, digest, planDigest)
  {
    var caches := NormalizeCaches(c.caches);
    if caches.Err? {
      return Err(caches.error);
    }
    var runtime := NormalizeRuntime(c.schemaVersion, c.runtime);
    if runtime.Err? {
      return Err(runtime.error);
    }
    var environment := NormalizeEnvironment(c.schemaVersion, c.environment, caches.value, digest);
    if environment.Err? {
      RefusedByCaches(c, digest, planDigest, caches.value);
      return Err(environment.error);
    }
    var checks := NormalizeChecks(c.checks);
    if checks.Err? {
      RefusedBySchedule(c, digest, planDigest);
      return Err(checks.error);
    }
    return Ok((caches.value, runtime.value, environment.value, checks.value));
  }

  lemma RefusedBySchedule(c: Config, digest: Digest<string>, planDigest: Digest<Plan>)
    requires !GoodChecks(c.checks) || !HasSchedule(c.checks)
    ensures Refused(c, digest, planDigest)
  {
  }

  /** The storage policy, the isolation of paths and the digest. */
  method CompletePlan(c: Config, digest: Digest<string>, planDigest: Digest<Plan>, caches: seq<Cache>,
                      runtime: Runtime, environment: NormalizedEnvironment, checks: seq<NormalizedCheck>)
    returns (r: Result<Envelope, ConfigError>)
    requires IsParts(c, digest, caches, runtime, environment, checks)
    ensures Outcome(c, digest, planDigest, r)
  {
    var storage := NormalizeStorage(c.schemaVersion, c.storage, checks);
    if storage.Err? {
      RefusedByChecks(c, digest, planDigest, caches, checks);
      return Err(storage.error);
    }
    var isolated := ValidatePathIsolation(c.receipt.output, caches, checks);
    if isolated.Err? {
      RefusedByChecks(c, digest, planDigest, caches, checks);
      return Err(isolated.error);
    }
    var plan := Plan(c.schemaVersion, c.project, runtime, c.receipt, environment, caches, storage.value, checks);
    var sum := planDigest(plan);
    if sum.None? {
      RefusedByDigest(c, digest, planDigest, plan);
      return Err(DigestFailure);
    }
    return Ok(Envelope(sum.value, plan, c.environment.fixed));
  }

  /** `into_plan`. */
  method IntoPlan(c: Config, digest: Digest<string>, planDigest: Digest<Plan>)
    returns (r: Result<Envelope, ConfigError>)
    ensures Outcome(c, digest, planDigest, r)
  {
    var top := ValidateTopLevel(c);
    if top.Err? {
      return Err(top.error);
    }
    var parts := NormalizeParts(c, digest, planDigest);
    if parts.Err? {
      return Err(parts.error);
    }
    r := CompletePlan(c, digest, planDigest, parts.value.0, parts.value.1, parts.value.2, parts.value.3);
  }
}
