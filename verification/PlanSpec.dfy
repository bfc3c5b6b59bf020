/**
 What the plan of a configuration is (src/config.rs:321-585, 699-790, 830-908), stated
 without the order in which the source goes through the declared lists.
 */
module PlanSpec {
  import opened Common
  import opened Order
  import opened ConfigModel
  import opened CheckGraph
  import opened PathIsolation

  /** `canonical_digest` of a value; the encoding may fail. */
  type Digest<!T> = T -> Option<string>

  // ---------------------------------------------------------------------------
  // Caches
  // ---------------------------------------------------------------------------

  predicate GoodCache(c: Cache) {
    ValidIdentifier(c.id) && ValidPath(c.mountPath) && c.mountPath != "."
  }

  function CacheIds(caches: seq<Cache>): seq<string> {
    Keys(caches, (c: Cache) => c.id)
  }

  predicate GoodCaches(caches: seq<Cache>) {
    && |caches| <= MAX_CACHES
    && (forall c :: c in caches ==> GoodCache(c))
    && Unique(CacheIds(caches)) && Unique(Mounts(caches))
  }

  /** The same caches, ascending by id. */
  ghost predicate IsCaches(caches: seq<Cache>, result: seq<Cache>) {
    Ascending(CacheIds(result)) && forall c :: c in result <==> c in caches
  }

  lemma CachesUnique(caches: seq<Cache>, a: seq<Cache>, b: seq<Cache>)
    requires IsCaches(caches, a) && IsCaches(caches, b)
    ensures a == b
  {
    KeyedUnique(a, b, (c: Cache) => c.id);
  }

  // ---------------------------------------------------------------------------
  // Checks
  // ---------------------------------------------------------------------------

  predicate GoodContract(a: ArtifactContract, artifacts: seq<string>) {
    && ValidPath(a.path) && a.path != "." && a.path in artifacts
    && 1 <= a.maxBytes <= MAX_ARTIFACT_BYTES
    && 1 <= a.maxEntries <= (match a.kind case RegularFile => 1 case Directory => MAX_DIRECTORY_ENTRIES)
  }

  function ContractPaths(contracts: seq<ArtifactContract>): seq<string> {
    Keys(contracts, (a: ArtifactContract) => a.path)
  }

  predicate GoodArtifact(path: string) {
    ValidPath(path) && path != "."
  }

  predicate ValidCheck(c: CheckConfig) {
    && ValidIdentifier(c.id)
    && 1 <= |c.argv| <= MAX_ARGV_PARTS
    && (forall i :: 0 <= i < |c.argv| ==> ValidText(c.argv[i]))
    && ValidPath(c.workingDirectory)
    && 1 <= c.timeoutSeconds <= MAX_TIMEOUT_SECONDS
  }

  predicate GoodContracts(c: CheckConfig) {
    && (forall a :: a in c.artifactContracts ==> GoodContract(a, c.artifacts))
    && Unique(ContractPaths(c.artifactContracts))
  }

  predicate GoodCheck(c: CheckConfig) {
    && ValidCheck(c)
    && Unique(c.dependsOn) && (forall d :: d in c.dependsOn ==> ValidIdentifier(d))
    && Unique(c.artifacts) && (forall a :: a in c.artifacts ==> GoodArtifact(a))
    && GoodContracts(c)
  }

  function CheckIds(checks: seq<CheckConfig>): seq<string> {
    Keys(checks, (c: CheckConfig) => c.id)
  }

  predicate GoodChecks(checks: seq<CheckConfig>) {
    && 0 < |checks| <= MAX_CHECKS
    && (exists c :: c in checks && c.required)
    && (forall c :: c in checks ==> GoodCheck(c))
    && Unique(CheckIds(checks))
  }

  /** A check with its lists sorted and its contracts naming their producer. */
  function Canonical(c: CheckConfig): NormalizedCheck {
    NormalizedCheck(
      c.id, c.required, c.argv, c.workingDirectory, c.timeoutSeconds,
      SortAll(c.dependsOn), SortAll(c.artifacts), Produced(c.artifactContracts, c.id))
  }

  function Produced(contracts: seq<ArtifactContract>, id: string): seq<NormalizedContract> {
    seq(|contracts|, i requires 0 <= i < |contracts| =>
      var a := contracts[i]; NormalizedContract(a.path, a.kind, a.maxBytes, a.maxEntries, id))
  }

  /** Every declared check in canonical form, by its id. */
  ghost predicate IsIndex(checks: seq<CheckConfig>, index: map<string, NormalizedCheck>) {
    && index.Keys == Elements(CheckIds(checks))
    && forall c :: c in checks ==> c.id in index && index[c.id] == Canonical(c)
  }

  function GraphOf(index: map<string, NormalizedCheck>): Graph {
    map x | x in index :: index[x].dependsOn
  }

  function NormalizedIds(checks: seq<NormalizedCheck>): seq<string> {
    Keys(checks, (c: NormalizedCheck) => c.id)
  }

  ghost predicate IsLeastOrder(g: Graph, o: seq<string>) {
    IsOrder(g, o) && forall p :: IsOrder(g, p) ==> LexAtMost(o, p)
  }

  /** The canonical checks in the least execution order of a valid, acyclic graph. */
  ghost predicate IsChecks(checks: seq<CheckConfig>, result: seq<NormalizedCheck>) {
    exists index :: IsIndex(checks, index) && IsSchedule(index, result)
  }

  ghost predicate HasSchedule(checks: seq<CheckConfig>) {
    exists result :: IsChecks(checks, result)
  }

  ghost predicate IsSchedule(index: map<string, NormalizedCheck>, result: seq<NormalizedCheck>) {
    && ValidGraph(GraphOf(index))
    && IsLeastOrder(GraphOf(index), NormalizedIds(result))
    && forall c :: c in result ==> c.id in index && index[c.id] == c
  }

  lemma IndexedCheck(checks: seq<CheckConfig>, index: map<string, NormalizedCheck>, x: string) returns (c: CheckConfig)
    requires IsIndex(checks, index) && x in index
    ensures c in checks && index[x] == Canonical(c)
  {
    assert x in Elements(CheckIds(checks));
    var i :| 0 <= i < |checks| && CheckIds(checks)[i] == x;
    c := checks[i];
  }

  lemma IndexUnique(checks: seq<CheckConfig>, a: map<string, NormalizedCheck>, b: map<string, NormalizedCheck>)
    requires IsIndex(checks, a) && IsIndex(checks, b)
    ensures a == b
  {
    forall x | x in a
      ensures x in b && a[x] == b[x]
    {
      var i :| 0 <= i < |checks| && CheckIds(checks)[i] == x;
      assert checks[i] in checks;
    }
  }

  lemma {:induction false} LexAntisymmetric(a: seq<string>, b: seq<string>)
    requires LexAtMost(a, b) && LexAtMost(b, a)
    ensures a == b
  {
    if a != [] && b != [] {
      if a[0] != b[0] {
        LessAsymmetric(a[0], b[0]);
      }
      LessIrreflexive(a[0]);
      LexAntisymmetric(a[1..], b[1..]);
      assert a == [a[0]] + a[1..] && b == [b[0]] + b[1..];
    }
  }

  lemma ChecksUnique(checks: seq<CheckConfig>, a: seq<NormalizedCheck>, b: seq<NormalizedCheck>)
    requires IsChecks(checks, a) && IsChecks(checks, b)
    ensures a == b
  {
    var x :| IsIndex(checks, x) && IsSchedule(x, a);
    var y :| IsIndex(checks, y) && IsSchedule(y, b);
    IndexUnique(checks, x, y);
    ScheduleUnique(x, a, b);
  }

  lemma ScheduleUnique(index: map<string, NormalizedCheck>, a: seq<NormalizedCheck>, b: seq<NormalizedCheck>)
    requires IsSchedule(index, a) && IsSchedule(index, b)
    ensures a == b
  {
    LexAntisymmetric(NormalizedIds(a), NormalizedIds(b));
    assert |NormalizedIds(a)| == |a| && |NormalizedIds(b)| == |b|;
    forall i | 0 <= i < |a|
      ensures a[i] == b[i]
    {
      assert NormalizedIds(a)[i] == a[i].id && NormalizedIds(b)[i] == b[i].id;
      assert a[i] in a && b[i] in b;
    }
  }

  // ---------------------------------------------------------------------------
  // Storage
  // ---------------------------------------------------------------------------

  function ContractBytes(contracts: seq<NormalizedContract>): nat {
    if contracts == [] then 0
    else ContractBytes(contracts[..|contracts| - 1]) + contracts[|contracts| - 1].maxBytes
  }

  function ArtifactBytes(checks: seq<NormalizedCheck>): nat {
    if checks == [] then 0
    else ArtifactBytes(checks[..|checks| - 1]) + ContractBytes(checks[|checks| - 1].artifactContracts)
  }

  /** The storage policy fits: the sums are those of unbounded integers. */
  predicate GoodStorage(version: string, storage: Option<StorageConfig>, checks: seq<NormalizedCheck>) {
    if version != "1.2" && version != "1.3" then storage.None?
    else
      && storage.Some?
      && var s := storage.value;
        && 1 <= s.minFreeBytes <= MAX_STORAGE_BYTES
        && MIN_RECEIPT_JOURNAL_RESERVE_BYTES <= s.receiptJournalReserveBytes <= MAX_STORAGE_BYTES
        && s.maxCacheGrowthBytes <= MAX_STORAGE_BYTES
        && s.minFreeBytes + s.receiptJournalReserveBytes + s.maxCacheGrowthBytes + ArtifactBytes(checks)
           <= MAX_STORAGE_BYTES
  }

  function StorageOf(version: string, storage: Option<StorageConfig>, checks: seq<NormalizedCheck>)
    : Option<NormalizedStorage>
  {
    if (version != "1.2" && version != "1.3") || storage.None? then None
    else
      var s := storage.value;
      Some(NormalizedStorage(s.minFreeBytes, s.receiptJournalReserveBytes, s.maxCacheGrowthBytes, ArtifactBytes(checks)))
  }

  // ---------------------------------------------------------------------------
  // Environment
  // ---------------------------------------------------------------------------

  function BindingNames(bindings: seq<Binding>): seq<string> {
    Keys(bindings, (b: Binding) => b.name)
  }

  predicate GoodBinding(b: Binding, caches: seq<Cache>) {
    ValidEnvironmentName(b.name) && ValidIdentifier(b.cacheId) && b.cacheId in CacheIds(caches)
  }

  predicate GoodFixed(fixed: map<string, string>, digest: Digest<string>) {
    forall name :: name in fixed ==>
      ValidEnvironmentName(name) && ValidText(fixed[name]) && digest(fixed[name]).Some?
  }

  predicate GoodLists(version: string, e: EnvironmentConfig) {
    && Unique(e.allow) && (forall n :: n in e.allow ==> ValidEnvironmentName(n))
    && Unique(e.remoteSecretOnly) && (forall n :: n in e.remoteSecretOnly ==> ValidEnvironmentName(n))
    && (version == "1.0" ==> |e.fixed| == 0 && e.runtimeInternal == [] && e.remoteSecretOnly == [])
    && (version != "1.0" ==> e.allow == [])
  }

  /** Every name is valid and declared once, in one list only, and the lists are those
      the schema version allows. */
  predicate GoodEnvironment(version: string, e: EnvironmentConfig, caches: seq<Cache>, digest: Digest<string>) {
    && GoodLists(version, e)
    && GoodFixed(e.fixed, digest)
    && (forall b :: b in e.runtimeInternal ==> GoodBinding(b, caches))
    && Unique(BindingNames(e.runtimeInternal))
    && Elements(e.allow) !! e.fixed.Keys
    && Elements(BindingNames(e.runtimeInternal)) !! Elements(e.allow) + e.fixed.Keys
    && Elements(e.remoteSecretOnly) !! Elements(e.allow) + e.fixed.Keys + Elements(BindingNames(e.runtimeInternal))
  }

  /** The binding with the container path of its cache. */
  predicate IsTarget(b: Binding, caches: seq<Cache>, i: InternalEnvironment) {
    && i.name == b.name && i.cacheId == b.cacheId
    && exists c :: c in caches && c.id == b.cacheId && i.containerTarget == "/workspace/" + c.mountPath
  }

  ghost predicate IsFixed(fixed: map<string, string>, digest: Digest<string>, result: seq<FixedEnvironment>) {
    && Ascending(Keys(result, (f: FixedEnvironment) => f.name))
    && forall f :: f in result <==> f.name in fixed && digest(fixed[f.name]) == Some(f.valueDigest)
  }

  ghost predicate IsInternal(bindings: seq<Binding>, caches: seq<Cache>, result: seq<InternalEnvironment>) {
    && Ascending(Keys(result, (i: InternalEnvironment) => i.name))
    && forall i :: i in result <==> exists b :: b in bindings && IsTarget(b, caches, i)
  }

  ghost predicate IsEnvironment(e: EnvironmentConfig, caches: seq<Cache>, digest: Digest<string>,
                                result: NormalizedEnvironment)
  {
    && result.inherit == SortAll(e.allow)
    && result.remoteSecretOnly == SortAll(e.remoteSecretOnly)
    && IsFixed(e.fixed, digest, result.fixed)
    && IsInternal(e.runtimeInternal, caches, result.runtimeInternal)
  }

  lemma EnvironmentUnique(e: EnvironmentConfig, caches: seq<Cache>, digest: Digest<string>,
                          a: NormalizedEnvironment, b: NormalizedEnvironment)
    requires IsEnvironment(e, caches, digest, a) && IsEnvironment(e, caches, digest, b)
    ensures a == b
  {
    KeyedUnique(a.fixed, b.fixed, (f: FixedEnvironment) => f.name);
    KeyedUnique(a.runtimeInternal, b.runtimeInternal, (i: InternalEnvironment) => i.name);
  }

  // ---------------------------------------------------------------------------
  // The plan
  // ---------------------------------------------------------------------------

  predicate GoodTopLevel(c: Config) {
    && c.schemaVersion in {"1.0", "1.1", "1.2", "1.3"}
    && ValidProject(c.project)
    && ValidImage(c.runtime.image)
    && 1 <= c.runtime.cpuCount <= MAX_CPU_COUNT
    && 64 <= c.runtime.memoryMib <= MAX_MEMORY_MIB
    && 1 <= c.runtime.pidsLimit <= MAX_PIDS
    && ValidPath(c.receipt.output) && c.receipt.output != "."
    && 1 <= c.receipt.freshnessSeconds <= MAX_FRESHNESS_SECONDS
  }

  predicate GoodRuntime(version: string, runtime: Runtime) {
    if version == "1.3" then runtime.pullPolicy.Some? && runtime.swapMode.Some?
    else runtime.pullPolicy.None? && runtime.swapMode.None?
  }

  ghost predicate PlansCaches(caches: seq<Cache>, result: seq<Cache>) {
    GoodCaches(caches) && IsCaches(caches, result)
  }

  ghost predicate PlansEnvironment(version: string, e: EnvironmentConfig, caches: seq<Cache>, digest: Digest<string>,
                                   result: NormalizedEnvironment)
  {
    GoodEnvironment(version, e, caches, digest) && IsEnvironment(e, caches, digest, result)
  }

  ghost predicate PlansChecks(checks: seq<CheckConfig>, result: seq<NormalizedCheck>) {
    GoodChecks(checks) && IsChecks(checks, result)
  }

  /** `plan` is the plan of an acceptable configuration. */
  ghost predicate IsPlan(c: Config, digest: Digest<string>, plan: Plan) {
    && GoodTopLevel(c)
    && plan.schemaVersion == c.schemaVersion && plan.project == c.project && plan.receipt == c.receipt
    && GoodRuntime(c.schemaVersion, c.runtime) && plan.runtime == c.runtime
    && PlansCaches(c.caches, plan.caches)
    && PlansEnvironment(c.schemaVersion, c.environment, plan.caches, digest, plan.environment)
    && PlansChecks(c.checks, plan.checks)
    && GoodStorage(c.schemaVersion, c.storage, plan.checks)
    && plan.storage == StorageOf(c.schemaVersion, c.storage, plan.checks)
    && Isolated(Claims(c.receipt.output, plan.caches, plan.checks))
  }

  /** A configuration has at most one plan. */
  lemma PlanUnique(c: Config, digest: Digest<string>, a: Plan, b: Plan)
    requires IsPlan(c, digest, a) && IsPlan(c, digest, b)
    ensures a == b
  {
    CachesUnique(c.caches, a.caches, b.caches);
    ChecksUnique(c.checks, a.checks, b.checks);
    EnvironmentUnique(c.environment, a.caches, digest, a.environment, b.environment);
  }
}
