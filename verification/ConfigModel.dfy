/**
 The configuration and the execution plan (src/config.rs:38-289), and the pure
 validators of texts, identifiers and relative paths (src/config.rs:792-828, 910-980).
 Machine integers are modelled as `nat`; every field is range checked by the source.
 */
module ConfigModel {
  import opened Common

  const MAX_CHECKS := 128
  const MAX_CACHES := 32
  const MAX_ARGV_PARTS := 64
  const MAX_STRING_BYTES := 4096
  const MAX_TIMEOUT_SECONDS := 86_400
  const MAX_MEMORY_MIB := 262_144
  const MAX_CPU_COUNT := 256
  const MAX_PIDS := 65_536
  const MAX_STORAGE_BYTES := 1_099_511_627_776
  const MIN_RECEIPT_JOURNAL_RESERVE_BYTES := 4_096
  const MAX_FRESHNESS_SECONDS := 31_536_000
  const MAX_ARTIFACT_BYTES := 1_073_741_824
  const MAX_DIRECTORY_ENTRIES := 10_000

  datatype RuntimeKind = DockerCompatible | Host
  datatype RuntimePullPolicy = Never
  datatype RuntimeSwapMode = Disabled
  datatype ArtifactKind = RegularFile | Directory

  /** The declared and the normalized runtime have the same fields. */
  datatype Runtime = Runtime(
    kind: RuntimeKind, image: string, cpuCount: nat, memoryMib: nat, pidsLimit: nat, network: bool,
    pullPolicy: Option<RuntimePullPolicy>, swapMode: Option<RuntimeSwapMode>)

  datatype Receipt = Receipt(output: string, freshnessSeconds: nat)
  datatype Cache = Cache(id: string, mountPath: string)
  datatype Binding = Binding(name: string, cacheId: string)

  datatype EnvironmentConfig = EnvironmentConfig(
    allow: seq<string>, fixed: map<string, string>, runtimeInternal: seq<Binding>,
    remoteSecretOnly: seq<string>)

  datatype StorageConfig = StorageConfig(minFreeBytes: nat, receiptJournalReserveBytes: nat, maxCacheGrowthBytes: nat)
  datatype ArtifactContract = ArtifactContract(path: string, kind: ArtifactKind, maxBytes: nat, maxEntries: nat)

  datatype CheckConfig = CheckConfig(
    id: string, required: bool, argv: seq<string>, workingDirectory: string, timeoutSeconds: nat,
    dependsOn: seq<string>, artifacts: seq<string>, artifactContracts: seq<ArtifactContract>)

  datatype Config = Config(
    schemaVersion: string, project: string, runtime: Runtime, receipt: Receipt,
    environment: EnvironmentConfig, caches: seq<Cache>, storage: Option<StorageConfig>,
    checks: seq<CheckConfig>)

  datatype FixedEnvironment = FixedEnvironment(name: string, valueDigest: string)
  datatype InternalEnvironment = InternalEnvironment(name: string, cacheId: string, containerTarget: string)

  datatype NormalizedEnvironment = NormalizedEnvironment(
    inherit: seq<string>, fixed: seq<FixedEnvironment>, runtimeInternal: seq<InternalEnvironment>,
    remoteSecretOnly: seq<string>)

  datatype NormalizedStorage = NormalizedStorage(
    minFreeBytes: nat, receiptJournalReserveBytes: nat, maxCacheGrowthBytes: nat, maxArtifactBytes: nat)

  datatype NormalizedContract = NormalizedContract(
    path: string, kind: ArtifactKind, maxBytes: nat, maxEntries: nat, producerCheck: string)

  datatype NormalizedCheck = NormalizedCheck(
    id: string, required: bool, argv: seq<string>, workingDirectory: string, timeoutSeconds: nat,
    dependsOn: seq<string>, artifacts: seq<string>, artifactContracts: seq<NormalizedContract>)

  datatype Plan = Plan(
    schemaVersion: string, project: string, runtime: Runtime, receipt: Receipt,
    environment: NormalizedEnvironment, caches: seq<Cache>, storage: Option<NormalizedStorage>,
    checks: seq<NormalizedCheck>)

  datatype Envelope = Envelope(planDigest: string, plan: Plan, fixedEnvironment: map<string, string>)

  datatype ConfigError =
    | UnsupportedSchemaVersion(version: string)
    | InvalidField(field: string)
    | OutOfRange(field: string, minimum: nat, maximum: nat, actual: nat)
    | TooManyItems(field: string, actual: nat, maximum: nat)
    | DuplicateId(field: string, id: string)
    | DuplicateValue(field: string)
    | NoChecks
    | NoRequiredChecks
    | SelfDependency(check: string)
    | UnknownDependency(check: string, dependency: string)
    | DependencyCycle(checks: seq<string>)
    | DuplicateArtifact(artifact: string)
    | PathOverlap(first: string, second: string)
    | MissingStoragePolicy
    | MissingRuntimeCapabilityPolicy
    | UnknownEnvironmentCache(name: string, cacheId: string)
    | DigestFailure

  // ---------------------------------------------------------------------------
  // Texts and identifiers
  // ---------------------------------------------------------------------------

  function Utf8Width(c: char): nat {
    if c as int < 0x80 then 1
    else if c as int < 0x800 then 2
    else if c as int < 0x1_0000 then 3
    else 4
  }

  function ByteLength(s: string): nat {
    if s == [] then 0 else Utf8Width(s[0]) + ByteLength(s[1..])
  }

  predicate IsControl(c: char) {
    c as int < 0x20 || 0x7F <= c as int < 0xA0
  }

  predicate ValidText(s: string) {
    s != [] && ByteLength(s) <= MAX_STRING_BYTES && forall i :: 0 <= i < |s| ==> !IsControl(s[i])
  }

  predicate IsAlphabetic(c: char) {
    'a' <= c <= 'z' || 'A' <= c <= 'Z'
  }

  predicate ValidIdentifier(s: string) {
    && ValidText(s)
    && ByteLength(s) <= 64
    && (forall i :: 0 <= i < |s| ==> IsAlphabetic(s[i]) || IsDigit(s[i]) || s[i] in "-_.")
    && s != "." && s != ".."
  }

  predicate ValidEnvironmentName(s: string) {
    && ValidText(s)
    && (s[0] == '_' || IsAlphabetic(s[0]))
    && forall i :: 1 <= i < |s| ==> s[i] == '_' || IsAlphabetic(s[i]) || IsDigit(s[i])
  }

  predicate IsWhitespace(c: char) {
    var n := c as int;
    || 0x9 <= n <= 0xD || n in {0x20, 0x85, 0xA0, 0x1680, 0x2028, 0x2029, 0x202F, 0x205F, 0x3000}
    || 0x2000 <= n <= 0x200A
  }

  predicate Contains(s: string, part: string) {
    exists i :: 0 <= i <= |s| && part <= s[i..]
  }

  /** `name@sha256:` followed by 64 lower-case hexadecimal digits. */
  predicate ValidImage(s: string) {
    && ValidText(s)
    && |s| > 72
    && var name, digest := s[..|s| - 72], s[|s| - 72..];
      && "@sha256:" <= digest
      && (forall i :: 8 <= i < 72 ==> IsDigit(digest[i]) || 'a' <= digest[i] <= 'f')
      && !(exists i :: 0 <= i < |name| && IsWhitespace(name[i]))
      && '@' !in name && !Contains(name, "://") && '\\' !in name
  }

  // ---------------------------------------------------------------------------
  // Relative paths
  // ---------------------------------------------------------------------------

  /** The segments between slashes. */
  function Split(s: string): (r: seq<string>)
    ensures r != []
  {
    if s == [] then [""]
    else if s[0] == '/' then [""] + Split(s[1..])
    else
      var rest := Split(s[1..]);
      [[s[0]] + rest[0]] + rest[1..]
  }

  predicate PlainSegment(segment: string) {
    segment != [] && segment != "." && segment != ".."
  }

  /** `validate_relative_path`. */
  predicate ValidPath(s: string) {
    && ValidText(s)
    && (s == "."
        || (&& s[0] != '/' && s[0] != '~' && '\\' !in s && ':' !in s
            && forall i :: 0 <= i < |Split(s)| ==> PlainSegment(Split(s)[i])))
  }

  predicate ValidProject(s: string) {
    var segments := Split(s);
    |segments| == 2 && ValidIdentifier(segments[0]) && ValidIdentifier(segments[1])
  }
}
