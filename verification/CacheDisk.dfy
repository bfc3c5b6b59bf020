/**
 The managed cache on disk, as promotion and recovery see it (src/cache.rs).

 One entry directory holds the payload `data`, the payload parked under the
 journaled backup name, the journaled staging directory, the generation
 manifest and the completion marker. Every payload and every manifest file
 carries a tag `gen` saying which generation it belongs to. The tag is history:
 no decision below reads it, because the old and the new manifest may have
 identical text (the generation number is chosen by the operator).
 */
module CacheDisk {
  import opened Common

  /** A payload directory. A recursive delete that stops half way leaves it damaged. */
  datatype Tree = Tree(gen: nat, intact: bool)

  datatype Manifest = Manifest(
    schemaVersion: string,
    keyDigest: string,
    planDigest: string,
    generation: nat,
    state: string)

  /** Bytes of a manifest file, seen through the JSON decoder: text that does not
      decode, or text that decodes to `manifest`; `spelling` tells apart the byte
      strings that decode alike. */
  datatype Text = Junk(raw: string) | Doc(manifest: Manifest, spelling: string)

  datatype File = File(text: Text, gen: nat)

  /** Bytes of a marker file: COMPLETE_BYTES, or anything else. */
  datatype Marker = CompleteBytes | OtherBytes(raw: string)

  datatype Staging = Staging(data: Option<Tree>, manifest: Option<File>)

  datatype Entry = Entry(
    data: Option<Tree>,
    backup: Option<Tree>,
    staging: Option<Staging>,
    manifest: Option<File>,
    marker: Option<Marker>)

  /** One journal record. `previousManifest` carries the history tag of the saved
      text so that restoring it restores the tag; decisions compare texts only. */
  datatype Record = Record(
    key: string,
    plan: string,
    generation: nat,
    gen: nat,
    hadCurrent: bool,
    previousMarker: Option<Marker>,
    previousManifest: Option<File>)

  /** The journal file. A crash while it is being written leaves text that does
      not decode; `size` is its length in bytes. */
  datatype Journal = NoJournal | TornJournal | Written(records: seq<Record>, size: nat)

  datatype Disk = Disk(entries: map<string, Entry>, journal: Journal)

  const GENERATION_SCHEMA_VERSION := "1.0"
  const MAX_JOURNAL_BYTES := 1_048_576

  function TextOf(f: Option<File>): Option<Text> {
    match f
    case None => None
    case Some(file) => Some(file.text)
  }

  // ---------------------------------------------------------------------------
  // Validation of entries
  // ---------------------------------------------------------------------------

  predicate IsLowerHex(c: char) {
    '0' <= c <= '9' || 'a' <= c <= 'f'
  }

  /** `validated_digest_hex` succeeds. */
  predicate ValidDigest(digest: string) {
    && |digest| == 71
    && digest[..7] == "sha256:"
    && forall i :: 7 <= i < 71 ==> IsLowerHex(digest[i])
  }

  /** `validate_completed_entry` accepts the entry stored under `key`. */
  predicate Accepts(key: string, e: Entry) {
    && e.data.Some?
    && e.marker == Some(CompleteBytes)
    && e.manifest.Some?
    && e.manifest.value.text.Doc?
    && var m := e.manifest.value.text.manifest;
    && ValidDigest(m.planDigest)
    && m.schemaVersion == GENERATION_SCHEMA_VERSION
    && m.keyDigest == key
    && m.state == "complete"
  }

  /** `entry_status`: `Ok(true)` for Complete, `Ok(false)` for Incomplete. */
  function EntryStatus(e: Entry): Result<bool, string> {
    match e.marker
    case None => Ok(false)
    case Some(OtherBytes(_)) => Err("UnexpectedEntry")
    case Some(CompleteBytes) =>
      match e.manifest
      case None => Ok(true)
      case Some(File(Junk(_), _)) => Err("Io")
      case Some(File(Doc(m, _), _)) =>
        if m.state == "complete" then Ok(true) else Err("GenerationMismatch")
  }

  /** What a successful `prepare_entry` established about the entry it locked:
      its status was readable, and a complete entry had a payload to copy. */
  predicate Preparable(e: Entry) {
    && EntryStatus(e).Ok?
    && (EntryStatus(e).value ==> e.data.Some?)
  }

  /** An entry handed out for use has an intact payload and the manifest of that
      very payload. */
  predicate Coherent(key: string, e: Entry) {
    Accepts(key, e) ==> e.data.value.intact && e.manifest.value.gen == e.data.value.gen
  }

  // ---------------------------------------------------------------------------
  // The manifests a promotion writes
  // ---------------------------------------------------------------------------

  function StagingManifest(r: Record): Manifest {
    Manifest(GENERATION_SCHEMA_VERSION, r.key, r.plan, r.generation, "staging")
  }

  function NewManifest(r: Record): File {
    File(Doc(StagingManifest(r).(state := "complete"), "canonical"), r.gen)
  }

  /** The staging directory `prepare_entry` leaves behind. */
  function PreparedStaging(r: Record): Staging {
    Staging(Some(Tree(r.gen, true)), Some(File(Doc(StagingManifest(r), "canonical"), r.gen)))
  }

  // ---------------------------------------------------------------------------
  // Filesystem calls
  // ---------------------------------------------------------------------------

  datatype Op =
    | ReplaceStagingManifest
    | MoveDataToBackup
    | RemoveMarker
    | RemoveManifest
    | MoveStagedData
    | MoveStagedManifest
    | WriteMarker
    | RemoveBackup
    | RemoveStaging
    | RemoveData
    | MoveBackupToData
    | RestoreManifest
    | RestoreMarker

  /** Effect of a call that succeeds; `None` when it fails and changes nothing. */
  function Effect(op: Op, r: Record, e: Entry): Option<Entry> {
    match op
    case ReplaceStagingManifest =>
      if e.staging.Some? && e.staging.value.manifest.Some? && e.staging.value.manifest.value.text.Doc? then
        var f := e.staging.value.manifest.value;
        var complete := File(Doc(f.text.manifest.(state := "complete"), "canonical"), f.gen);
        Some(e.(staging := Some(e.staging.value.(manifest := Some(complete)))))
      else None
    case MoveDataToBackup =>
      if e.data.Some? && e.backup.None? then Some(e.(data := None, backup := e.data)) else None
    case RemoveMarker => Some(e.(marker := None))
    case RemoveManifest => Some(e.(manifest := None))
    case MoveStagedData =>
      if e.data.None? && e.staging.Some? && e.staging.value.data.Some? then
        Some(e.(data := e.staging.value.data, staging := Some(e.staging.value.(data := None))))
      else None
    case MoveStagedManifest =>
      if e.staging.Some? && e.staging.value.manifest.Some? then
        Some(e.(manifest := e.staging.value.manifest, staging := Some(e.staging.value.(manifest := None))))
      else None
    case WriteMarker => if e.marker.None? then Some(e.(marker := Some(CompleteBytes))) else None
    case RemoveBackup => Some(e.(backup := None))
    case RemoveStaging => Some(e.(staging := None))
    case RemoveData => Some(e.(data := None))
    case MoveBackupToData =>
      if e.data.None? && e.backup.Some? then Some(e.(data := e.backup, backup := None)) else None
    case RestoreManifest => Some(e.(manifest := r.previousManifest))
    case RestoreMarker => Some(e.(marker := r.previousMarker))
  }

  /** A payload directory after a recursive delete that did not finish. */
  predicate DeleteDebris(before: Option<Tree>, after: Option<Tree>) {
    || after == before
    || after == None
    || (before.Some? && after == Some(before.value.(intact := false)))
  }

  /** `after` is what a call may leave behind when it is interrupted: nothing done,
      everything done, a partly deleted directory, or a partly written file (whose
      contents are then arbitrary). Renames and `atomic_replace` are atomic. */
  predicate Debris(op: Op, r: Record, e: Entry, after: Entry) {
    || after == e
    || Effect(op, r, e) == Some(after)
    || match op
       case RemoveData => after == e.(data := after.data) && DeleteDebris(e.data, after.data)
       case RemoveBackup => after == e.(backup := after.backup) && DeleteDebris(e.backup, after.backup)
       case RemoveStaging =>
         && after == e.(staging := after.staging)
         && e.staging.Some? && after.staging.Some?
         && DeleteDebris(e.staging.value.data, after.staging.value.data)
         && (after.staging.value.manifest == e.staging.value.manifest || after.staging.value.manifest.None?)
       case WriteMarker => e.marker.None? && after == e.(marker := after.marker)
       case RestoreManifest =>
         && after == e.(manifest := after.manifest)
         && (r.previousManifest.Some? || after.manifest.None?)
         && (TextOf(after.manifest) == TextOf(r.previousManifest) ==> after.manifest == r.previousManifest)
       case RestoreMarker =>
         && after == e.(marker := after.marker)
         && (r.previousMarker.Some? || after.marker.None?)
       case _ => false
  }

  // ---------------------------------------------------------------------------
  // The calls each procedure makes for one entry
  // ---------------------------------------------------------------------------

  /** Body of the loop of `execute_promotion`. */
  function PromotionOps(r: Record): seq<Op> {
    [ReplaceStagingManifest] + (if r.hadCurrent then [MoveDataToBackup] else []) + LandingOps()
  }

  function LandingOps(): seq<Op> {
    [RemoveMarker, RemoveManifest, MoveStagedData, MoveStagedManifest, WriteMarker]
  }

  /** Body of the loop of `finalize_promotion`; also the roll-forward of recovery. */
  function CleanupOps(): seq<Op> {
    [RemoveBackup, RemoveStaging]
  }

  function RollbackOps(): seq<Op> {
    [RemoveData, RemoveMarker, RemoveManifest] + RestoreOps()
  }

  function RestoreOps(): seq<Op> {
    [MoveBackupToData, RestoreManifest, RestoreMarker, RemoveStaging]
  }

  datatype RecoveryError = PromotionUncertain | InvalidData | LockBusy | IoFailure

  /** `current_generation_is_complete`. */
  function CurrentIsComplete(r: Record, e: Entry): Result<bool, RecoveryError> {
    if e.data.None? || e.marker != Some(CompleteBytes) then Ok(false)
    else
      match e.manifest
      case None => Ok(false)
      case Some(File(Junk(_), _)) => Err(InvalidData)
      case Some(File(Doc(m, _), _)) =>
        Ok(m.schemaVersion == GENERATION_SCHEMA_VERSION
           && m.keyDigest == r.key
           && m.planDigest == r.plan
           && m.generation == r.generation
           && m.state == "complete")
  }

  /** `current_matches_previous`. */
  predicate CurrentMatchesPrevious(r: Record, e: Entry) {
    e.data.Some? && e.marker == r.previousMarker && TextOf(e.manifest) == TextOf(r.previousManifest)
  }

  /** What recovery decides for one journaled entry (src/cache.rs:712-745). */
  function RecoveryPlan(r: Record, e: Entry): Result<seq<Op>, RecoveryError> {
    match CurrentIsComplete(r, e)
    case Err(error) => Err(error)
    case Ok(true) => Ok(CleanupOps())
    case Ok(false) =>
      if r.hadCurrent then
        if e.backup.Some? then Ok(RollbackOps())
        else if CurrentMatchesPrevious(r, e) then Ok([RemoveStaging])
        else Err(PromotionUncertain)
      else if e.backup.None? && e.data.None? then Ok([RemoveMarker, RemoveManifest, RemoveStaging])
      else Err(PromotionUncertain)
  }
}
