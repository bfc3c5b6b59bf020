/**
 Promotion, crashes and recovery as a transition system over whole runs.

 A run interleaves filesystem calls of promotion, finalization and recovery with
 interruptions. An interruption may strike at any moment, also inside recovery and
 inside a recursive delete, and leaves only the disk. The invariant is stated per
 journaled entry as one of a few shapes; that a procedure keeps every entry in a
 shape through every prefix of its calls is the weakest precondition `Safe`.
 */
module CachePromotion {
  import opened Common
  import opened CacheDisk

  // ---------------------------------------------------------------------------
  // Shapes of one journaled entry: `r` its record, `b` the entry before promotion
  // ---------------------------------------------------------------------------

  /** Nothing is kept under the journaled backup and staging names. */
  predicate Tidy(e: Entry) {
    e.backup.None? && e.staging.None?
  }

  /** What `create_promotion_journal` recorded about the entry `b`. */
  predicate Recorded(r: Record, b: Entry) {
    && Preparable(b)
    && Tidy(b)
    && r.hadCurrent == b.data.Some?
    && r.previousMarker == b.marker
    && r.previousManifest == b.manifest
    && ValidDigest(r.plan)
    && (b.data.Some? ==> r.gen != b.data.value.gen)
  }

  /** No call has moved anything of the entry. */
  predicate Untouched(b: Entry, e: Entry) {
    e.data == b.data && e.backup.None? && e.manifest == b.manifest && e.marker == b.marker
  }

  /** The old payload is parked, or there was none and there is none now. */
  predicate Parked(b: Entry, e: Entry) {
    e.data.None? && e.backup == b.data
  }

  /** A payload of the new generation is in place without its marker; it is damaged
      only while a rollback deletes it. */
  predicate Landing(r: Record, b: Entry, e: Entry) {
    && e.data.Some? && e.data.value.gen == r.gen
    && (e.data.value.intact || r.hadCurrent)
    && e.backup == b.data
    && e.marker != Some(CompleteBytes)
    && (e.manifest.None? || e.manifest == Some(NewManifest(r)))
  }

  /** The new generation is complete. */
  predicate Installed(r: Record, e: Entry) {
    && e.data == Some(Tree(r.gen, true))
    && e.manifest == Some(NewManifest(r))
    && e.marker == Some(CompleteBytes)
  }

  /** A rollback has put the old payload back and is restoring the two files,
      the manifest first. */
  predicate Restoring(r: Record, b: Entry, e: Entry) {
    && r.hadCurrent && e.data == b.data && e.backup.None?
    && (e.marker.None? || (e.manifest == b.manifest && b.marker.Some?))
    && (TextOf(e.manifest) == TextOf(b.manifest) ==> e.manifest == b.manifest)
  }

  /** Where a record stands relative to the record promotion had reached: promotion
      had finished with it, was working on it, or had not come to it. `clean` says that
      no recovery has started since the journal was written. */
  datatype Zone = Behind | Front(clean: bool) | Ahead(clean: bool)

  predicate Shape(z: Zone, r: Record, b: Entry, e: Entry) {
    match z
    case Behind => Installed(r, e) && !MayDrop(r, e)
    case Front(clean) =>
      && (|| Untouched(b, e)
          || Parked(b, e)
          || (Landing(r, b, e) && (clean ==> e.data.value.intact))
          || Installed(r, e)
          || (!clean && Restoring(r, b, e)))
      && (clean && MayDrop(r, e) ==> Untouched(b, e))
    case Ahead(clean) =>
      Untouched(b, e) || (!clean && !r.hadCurrent && Parked(b, e))
  }

  /** `Drop` of a prepared entry deletes the staging directory only while the manifest
      in it has the entry's own identity and still says "staging". */
  predicate MayDrop(r: Record, e: Entry) {
    && e.staging.Some?
    && e.staging.value.manifest.Some?
    && e.staging.value.manifest.value.text.Doc?
    && e.staging.value.manifest.value.text.manifest == StagingManifest(r)
  }

  // ---------------------------------------------------------------------------
  // Weakest precondition of a list of calls that may stop anywhere
  // ---------------------------------------------------------------------------

  datatype Goal = MustInstall | MustTidy | MustTidyInstalled

  predicate Reached(goal: Goal, r: Record, e: Entry) {
    match goal
    case MustInstall => Installed(r, e)
    case MustTidy => Tidy(e)
    case MustTidyInstalled => Installed(r, e) && Tidy(e)
  }

  /** Each of the calls `ops` succeeds unless it is interrupted; wherever they are
      interrupted the entry stays in a shape, and after all of them the goal is reached. */
  ghost predicate Safe(z: Zone, ops: seq<Op>, goal: Goal, r: Record, b: Entry, e: Entry)
    decreases |ops|
  {
    && Shape(z, r, b, e)
    && (if ops == [] then Reached(goal, r, e)
        else
          && (forall after :: Debris(ops[0], r, e, after) ==> Shape(z, r, b, after))
          && Effect(ops[0], r, e).Some? && Safe(z, ops[1..], goal, r, b, Effect(ops[0], r, e).value))
  }

  /** An entry in a shape never offers a mix of generations. */
  lemma ShapeIsCoherent(z: Zone, r: Record, b: Entry, e: Entry)
    requires Recorded(r, b) && Coherent(r.key, b) && Shape(z, r, b, e)
    ensures Coherent(r.key, e)
  {
  }

  /** Last known good: the old payload is in place or parked until the new generation
      is complete. */
  lemma ShapeKeepsOld(z: Zone, r: Record, b: Entry, e: Entry)
    requires Recorded(r, b) && Shape(z, r, b, e)
    ensures r.hadCurrent ==> e.data == b.data || e.backup == b.data || Installed(r, e)
  {
  }

  lemma CleanupIsSafe(r: Record, b: Entry, e: Entry)
    requires Recorded(r, b) && Shape(Behind, r, b, e)
    ensures Safe(Behind, CleanupOps(), MustTidyInstalled, r, b, e)
  {
    var e1 := Effect(RemoveBackup, r, e).value;
    var e2 := Effect(RemoveStaging, r, e1).value;
    assert CleanupOps()[1..] == [RemoveStaging] && [RemoveStaging][1..] == [];
    assert Safe(Behind, [], MustTidyInstalled, r, b, e2);
    assert Safe(Behind, [RemoveStaging], MustTidyInstalled, r, b, e1);
  }

  lemma PromotionIsSafe(r: Record, b: Entry, e: Entry)
    requires Recorded(r, b)
    requires Untouched(b, e) && e.staging == Some(PreparedStaging(r))
    ensures Safe(Front(true), PromotionOps(r), MustInstall, r, b, e)
  {
    var e1 := Effect(ReplaceStagingManifest, r, e).value;
    assert PromotionOps(r)[0] == ReplaceStagingManifest;
    var tail := LandingOps();
    if r.hadCurrent {
      assert PromotionOps(r)[1..] == [MoveDataToBackup] + tail;
      var e2 := Effect(MoveDataToBackup, r, e1).value;
      LandingIsSafe(r, b, e2);
      assert ([MoveDataToBackup] + tail)[1..] == tail;
      assert Safe(Front(true), [MoveDataToBackup] + tail, MustInstall, r, b, e1);
    } else {
      assert PromotionOps(r)[1..] == tail;
      LandingIsSafe(r, b, e1);
    }
  }

  /** The calls after the old payload is out of the way. */
  lemma LandingIsSafe(r: Record, b: Entry, e: Entry)
    requires Recorded(r, b) && Parked(b, e)
    requires e.staging == Some(Staging(Some(Tree(r.gen, true)), Some(NewManifest(r))))
    ensures Safe(Front(true), LandingOps(), MustInstall, r, b, e)
  {
    var ops := LandingOps();
    var e1 := Effect(RemoveMarker, r, e).value;
    var e2 := Effect(RemoveManifest, r, e1).value;
    var e3 := Effect(MoveStagedData, r, e2).value;
    assert ops[1..] == [RemoveManifest, MoveStagedData, MoveStagedManifest, WriteMarker];
    assert ops[1..][1..] == [MoveStagedData, MoveStagedManifest, WriteMarker];
    assert ops[1..][1..][1..] == [MoveStagedManifest, WriteMarker];
    MarkingIsSafe(r, b, e3);
    assert Safe(Front(true), [MoveStagedData, MoveStagedManifest, WriteMarker], MustInstall, r, b, e2);
    assert Safe(Front(true), ops[1..], MustInstall, r, b, e1);
  }

  /** The calls after the new payload is in place. */
  lemma MarkingIsSafe(r: Record, b: Entry, e: Entry)
    requires Recorded(r, b) && Landing(r, b, e) && e.data.value.intact && e.marker.None?
    requires e.staging == Some(Staging(None, Some(NewManifest(r))))
    ensures Safe(Front(true), [MoveStagedManifest, WriteMarker], MustInstall, r, b, e)
  {
    var e1 := Effect(MoveStagedManifest, r, e).value;
    var e2 := Effect(WriteMarker, r, e1).value;
    assert [MoveStagedManifest, WriteMarker][1..] == [WriteMarker] && [WriteMarker][1..] == [];
    assert Safe(Front(true), [], MustInstall, r, b, e2);
    assert Safe(Front(true), [WriteMarker], MustInstall, r, b, e1);
  }

  lemma RollbackIsSafe(r: Record, b: Entry, e: Entry)
    requires Recorded(r, b) && r.hadCurrent
    requires e.backup.Some? && (Parked(b, e) || Landing(r, b, e))
    ensures Safe(Front(false), RollbackOps(), MustTidy, r, b, e)
  {
    var ops := RollbackOps();
    var e1 := Effect(RemoveData, r, e).value;
    var e2 := Effect(RemoveMarker, r, e1).value;
    var e3 := Effect(RemoveManifest, r, e2).value;
    RestoringIsSafe(r, b, e3);
    assert ops[1..] == [RemoveMarker, RemoveManifest, MoveBackupToData, RestoreManifest, RestoreMarker, RemoveStaging];
    assert ops[1..][1..] == [RemoveManifest, MoveBackupToData, RestoreManifest, RestoreMarker, RemoveStaging];
    assert ops[1..][1..][1..] == [MoveBackupToData, RestoreManifest, RestoreMarker, RemoveStaging];
    assert Parked(b, e1) && Parked(b, e2) && Parked(b, e3);
    assert Safe(Front(false), ops[1..][1..], MustTidy, r, b, e2);
    assert Safe(Front(false), ops[1..], MustTidy, r, b, e1);
    forall after | Debris(RemoveData, r, e, after)
      ensures Shape(Front(false), r, b, after)
    {
      assert after == e || Parked(b, after) || Landing(r, b, after);
    }
  }

  /** The calls of a rollback after the new payload and its files are gone. */
  lemma RestoringIsSafe(r: Record, b: Entry, e: Entry)
    requires Recorded(r, b) && r.hadCurrent
    requires Parked(b, e) && e.marker.None? && e.manifest.None?
    ensures Safe(Front(false), RestoreOps(), MustTidy, r, b, e)
  {
    var ops := RestoreOps();
    var e4 := Effect(MoveBackupToData, r, e).value;
    var e5 := Effect(RestoreManifest, r, e4).value;
    var e6 := Effect(RestoreMarker, r, e5).value;
    var e7 := Effect(RemoveStaging, r, e6).value;
    assert ops[1..] == [RestoreManifest, RestoreMarker, RemoveStaging];
    assert ops[1..][1..] == [RestoreMarker, RemoveStaging];
    assert ops[1..][1..][1..] == [RemoveStaging];
    assert Safe(Front(false), [], MustTidy, r, b, e7);
    assert Safe(Front(false), [RemoveStaging], MustTidy, r, b, e6);
    assert Safe(Front(false), [RestoreMarker, RemoveStaging], MustTidy, r, b, e5);
    assert Safe(Front(false), [RestoreManifest, RestoreMarker, RemoveStaging], MustTidy, r, b, e4);
  }

  /** Whatever recovery decides to do about an entry in a shape is safe. */
  lemma RecoveryIsSafe(z: Zone, r: Record, b: Entry, e: Entry)
    requires z != Front(true) && z != Ahead(true)
    requires Recorded(r, b) && Shape(z, r, b, e) && RecoveryPlan(r, e).Ok?
    ensures Safe(z, RecoveryPlan(r, e).value, MustTidy, r, b, e)
  {
    var ops := RecoveryPlan(r, e).value;
    if CurrentIsComplete(r, e) == Ok(true) {
      RollForwardIsSafe(z, r, b, e);
    } else if r.hadCurrent && e.backup.Some? {
      RollbackIsSafe(r, b, e);
    } else if r.hadCurrent {
      assert Untouched(b, e) || Restoring(r, b, e);
      assert ops == [RemoveStaging] && ops[1..] == [];
      assert Safe(z, [], MustTidy, r, b, Effect(RemoveStaging, r, e).value);
    } else {
      var e1 := Effect(RemoveMarker, r, e).value;
      var e2 := Effect(RemoveManifest, r, e1).value;
      var e3 := Effect(RemoveStaging, r, e2).value;
      assert Parked(b, e) && Parked(b, e1) && Parked(b, e2);
      assert ops[1..] == [RemoveManifest, RemoveStaging] && ops[1..][1..] == [RemoveStaging];
      assert [RemoveStaging][1..] == [];
      assert Safe(z, [], MustTidy, r, b, e3);
      assert Safe(z, [RemoveStaging], MustTidy, r, b, e2);
      assert Safe(z, ops[1..], MustTidy, r, b, e1);
    }
  }

  /** Recovery also rolls "forward" an old generation whose manifest has the journaled
      identity; nothing of it is parked then. */
  lemma RollForwardIsSafe(z: Zone, r: Record, b: Entry, e: Entry)
    requires z != Front(true) && z != Ahead(true)
    requires Recorded(r, b) && Shape(z, r, b, e) && CurrentIsComplete(r, e) == Ok(true)
    ensures Safe(z, CleanupOps(), MustTidy, r, b, e)
  {
    var e1 := Effect(RemoveBackup, r, e).value;
    var e2 := Effect(RemoveStaging, r, e1).value;
    assert Installed(r, e) || Untouched(b, e) || Restoring(r, b, e);
    assert CleanupOps()[1..] == [RemoveStaging] && [RemoveStaging][1..] == [];
    assert Safe(z, [], MustTidy, r, b, e2);
    assert Safe(z, [RemoveStaging], MustTidy, r, b, e1);
  }

  // ---------------------------------------------------------------------------
  // The transition system
  // ---------------------------------------------------------------------------

  datatype Stage = Executing | Finalizing | Recovering

  /** `Busy(stage, i, ops)`: the process holding the promotion lock is at journal
      record `i` with the calls `ops` still to make for it. */
  datatype Control = Idle | Busy(stage: Stage, i: nat, ops: seq<Op>)

  /** `base` remembers the entries as they were when the journal was written, `front`
      the record promotion had reached, and `clean` that no recovery has started since:
      history that no step reads. */
  datatype Sys = Sys(disk: Disk, base: map<string, Entry>, front: nat, clean: bool, control: Control)

  function ZoneOf(k: nat, front: nat, clean: bool): Zone {
    if k < front then Behind else if k == front then Front(clean) else Ahead(clean)
  }

  predicate DistinctKeys(records: seq<Record>) {
    forall i, j :: 0 <= i < j < |records| ==> records[i].key != records[j].key
  }

  predicate Journaled(records: seq<Record>, key: string) {
    exists i :: 0 <= i < |records| && records[i].key == key
  }

  function FindRecord(records: seq<Record>, key: string): (found: Option<Record>)
    ensures found.Some? ==> found.value in records && found.value.key == key
    ensures found.None? ==> !Journaled(records, key)
  {
    if records == [] then None
    else if records[0].key == key then Some(records[0])
    else FindRecord(records[1..], key)
  }

  /** The entries with a freshly prepared staging directory for every record; staging
      and backup names are new, so nothing is parked under them. */
  function Prepare(entries: map<string, Entry>, records: seq<Record>): (out: map<string, Entry>)
    requires DistinctKeys(records)
    ensures out.Keys == entries.Keys
    ensures forall k :: k in entries && !Journaled(records, k) ==> out[k] == entries[k]
    ensures forall i :: 0 <= i < |records| && records[i].key in entries ==>
      out[records[i].key] == entries[records[i].key].(staging := Some(PreparedStaging(records[i])))
  {
    map k | k in entries :: match FindRecord(records, k)
      case None => entries[k]
      case Some(r) => entries[k].(staging := Some(PreparedStaging(r)))
  }

  /** What `create_promotion_journal` checks before it writes the journal. */
  predicate CanBegin(entries: map<string, Entry>, records: seq<Record>) {
    && records != []
    && DistinctKeys(records)
    && forall i :: 0 <= i < |records| ==> records[i].key in entries && Recorded(records[i], entries[records[i].key])
  }

  predicate Begin(s: Sys, t: Sys) {
    && s.control.Idle? && s.disk.journal.NoJournal?
    && t.disk.journal.Written? && var records := t.disk.journal.records;
    && CanBegin(s.disk.entries, records)
    && t == Sys(Disk(Prepare(s.disk.entries, records), t.disk.journal), s.disk.entries, 0, true,
                Busy(Executing, 0, PromotionOps(records[0])))
  }

  /** The journal write is interrupted. */
  predicate BeginTorn(s: Sys, t: Sys, records: seq<Record>) {
    && s.control.Idle? && s.disk.journal.NoJournal?
    && CanBegin(s.disk.entries, records)
    && t == s.(disk := Disk(Prepare(s.disk.entries, records), TornJournal))
  }

  predicate BeginRecovery(s: Sys, t: Sys) {
    && s.control.Idle? && s.disk.journal.Written? && s.disk.journal.records != []
    && s.disk.journal.size <= MAX_JOURNAL_BYTES
    && var r := s.disk.journal.records[0];
    && r.key in s.disk.entries
    && RecoveryPlan(r, s.disk.entries[r.key]).Ok?
    && t == s.(clean := false, control := Busy(Recovering, 0, RecoveryPlan(r, s.disk.entries[r.key]).value))
  }

  predicate AtRecord(s: Sys) {
    && s.control.Busy? && s.disk.journal.Written?
    && s.control.i < |s.disk.journal.records|
    && s.disk.journal.records[s.control.i].key in s.disk.entries
  }

  /** The next filesystem call succeeds. */
  predicate Call(s: Sys, t: Sys) {
    && AtRecord(s) && s.control.ops != []
    && var r := s.disk.journal.records[s.control.i];
    && Effect(s.control.ops[0], r, s.disk.entries[r.key]).Some?
    && var e := Effect(s.control.ops[0], r, s.disk.entries[r.key]).value;
    && t == s.(disk := s.disk.(entries := s.disk.entries[r.key := e]), control := s.control.(ops := s.control.ops[1..]))
  }

  /** The process dies or gives up: at a record possibly leaving the debris of the
      call it was making. */
  predicate Interrupt(s: Sys, t: Sys) {
    && s.control.Busy?
    && t == s.(disk := t.disk, control := Idle)
    && (|| t.disk == s.disk
        || (&& AtRecord(s) && s.control.ops != []
            && var r := s.disk.journal.records[s.control.i];
            && r.key in t.disk.entries
            && Debris(s.control.ops[0], r, s.disk.entries[r.key], t.disk.entries[r.key])
            && t.disk == s.disk.(entries := s.disk.entries[r.key := t.disk.entries[r.key]])))
  }

  /** All calls for record `i` are made: go on to the next one, to finalization, or
      remove the journal. Recovery gives up at an entry it refuses. */
  predicate Advance(s: Sys, t: Sys) {
    && AtRecord(s) && s.control.ops == []
    && var records := s.disk.journal.records;
    && var i := s.control.i + 1;
    && if i < |records| then
         && records[i].key in s.disk.entries
         && match s.control.stage
            case Executing => t == s.(front := i, control := Busy(Executing, i, PromotionOps(records[i])))
            case Finalizing => t == s.(control := Busy(Finalizing, i, CleanupOps()))
            case Recovering =>
              match RecoveryPlan(records[i], s.disk.entries[records[i].key])
              case Ok(ops) => t == s.(control := Busy(Recovering, i, ops))
              case Err(_) => t == s.(control := Idle)
       else if s.control.stage.Executing? then
         t == s.(front := i, control := Busy(Finalizing, 0, CleanupOps()))
       else
         t == s.(disk := s.disk.(journal := NoJournal), control := Idle)
  }

  /** A promotion that failed without a crash drops a prepared entry. */
  predicate Drop(s: Sys, t: Sys, i: nat) {
    && s.control.Idle? && s.disk.journal.Written? && i < |s.disk.journal.records|
    && var r := s.disk.journal.records[i];
    && r.key in s.disk.entries && r.key in t.disk.entries
    && MayDrop(r, s.disk.entries[r.key])
    && Debris(RemoveStaging, r, s.disk.entries[r.key], t.disk.entries[r.key])
    && t == s.(disk := s.disk.(entries := s.disk.entries[r.key := t.disk.entries[r.key]]))
  }

  /** The same when the journal could not be written completely. */
  predicate DropTorn(s: Sys, t: Sys, r: Record) {
    && s.control.Idle? && s.disk.journal.TornJournal?
    && r.key in s.disk.entries && r.key in t.disk.entries
    && MayDrop(r, s.disk.entries[r.key])
    && Debris(RemoveStaging, r, s.disk.entries[r.key], t.disk.entries[r.key])
    && t == s.(disk := s.disk.(entries := s.disk.entries[r.key := t.disk.entries[r.key]]))
  }

  ghost predicate Next(s: Sys, t: Sys) {
    || Begin(s, t)
    || (exists records :: BeginTorn(s, t, records))
    || BeginRecovery(s, t)
    || Call(s, t)
    || Interrupt(s, t)
    || Advance(s, t)
    || (exists i :: Drop(s, t, i))
    || (exists r :: DropTorn(s, t, r))
  }

  // ---------------------------------------------------------------------------
  // The invariant
  // ---------------------------------------------------------------------------

  ghost predicate EntryInv(s: Sys, k: nat, r: Record, b: Entry, e: Entry) {
    && Recorded(r, b) && Coherent(r.key, b)
    && var z := ZoneOf(k, s.front, s.clean);
    && Shape(z, r, b, e)
    && match s.control
       case Idle => true
       case Busy(Executing, i, ops) =>
         && (k == i ==> Safe(z, ops, MustInstall, r, b, e))
         && (k > i ==> e.staging == Some(PreparedStaging(r)))
       case Busy(Finalizing, i, ops) =>
         && (k < i ==> Tidy(e))
         && (k == i ==> Safe(z, ops, MustTidyInstalled, r, b, e))
       case Busy(Recovering, i, ops) =>
         && (k < i ==> Tidy(e))
         && (k == i ==> Safe(z, ops, MustTidy, r, b, e))
  }

  /** Where control is agrees with the history. */
  predicate ControlInv(s: Sys, n: nat) {
    match s.control
    case Idle => true
    case Busy(Executing, i, _) => i < n && s.clean && s.front == i
    case Busy(Finalizing, i, _) => i < n && s.clean && s.front == n
    case Busy(Recovering, i, _) => i < n && !s.clean
  }

  predicate Quiet(key: string, e: Entry) {
    Coherent(key, e) && Tidy(e)
  }

  ghost predicate Inv(s: Sys) {
    match s.disk.journal
    case NoJournal =>
      s.control.Idle? && forall k :: k in s.disk.entries ==> Quiet(k, s.disk.entries[k])
    case TornJournal =>
      s.control.Idle? && forall k :: k in s.disk.entries ==> Coherent(k, s.disk.entries[k])
    case Written(records, _) =>
      && records != [] && DistinctKeys(records)
      && s.base.Keys == s.disk.entries.Keys
      && ControlInv(s, |records|)
      && (forall k :: k in s.disk.entries && !Journaled(records, k) ==>
            s.disk.entries[k] == s.base[k] && Quiet(k, s.base[k]))
      && (forall i :: 0 <= i < |records| ==>
            && records[i].key in s.disk.entries
            && EntryInv(s, i, records[i], s.base[records[i].key], s.disk.entries[records[i].key]))
  }

  // ---------------------------------------------------------------------------
  // Every step keeps the invariant
  // ---------------------------------------------------------------------------

  lemma JournaledAt(records: seq<Record>, i: nat)
    requires i < |records|
    ensures Journaled(records, records[i].key)
  {
  }

  lemma BeginKeepsInv(s: Sys, t: Sys)
    requires Inv(s) && Begin(s, t)
    ensures Inv(t)
  {
    var records := t.disk.journal.records;
    forall i | 0 <= i < |records|
      ensures EntryInv(t, i, records[i], t.base[records[i].key], t.disk.entries[records[i].key])
    {
      PromotionIsSafe(records[i], t.base[records[i].key], t.disk.entries[records[i].key]);
    }
  }

  lemma BeginTornKeepsInv(s: Sys, t: Sys, records: seq<Record>)
    requires Inv(s) && BeginTorn(s, t, records)
    ensures Inv(t)
  {
    forall k | k in t.disk.entries
      ensures Coherent(k, t.disk.entries[k])
    {
      if Journaled(records, k) {
        var i :| 0 <= i < |records| && records[i].key == k;
        assert t.disk.entries[k] == s.disk.entries[k].(staging := Some(PreparedStaging(records[i])));
      }
    }
  }

  lemma BeginRecoveryKeepsInv(s: Sys, t: Sys)
    requires Inv(s) && BeginRecovery(s, t)
    ensures Inv(t)
  {
    var records := s.disk.journal.records;
    forall j | 0 <= j < |records|
      ensures EntryInv(t, j, records[j], s.base[records[j].key], s.disk.entries[records[j].key])
    {
      var r := records[j];
      assert EntryInv(s, j, r, s.base[r.key], s.disk.entries[r.key]);
      if j == 0 {
        RecoveryIsSafe(ZoneOf(0, s.front, false), r, s.base[r.key], s.disk.entries[r.key]);
      }
    }
  }

  /** Changing one journaled entry leaves the others' part of the invariant alone. */
  lemma OneEntryKeepsInv(s: Sys, t: Sys, i: nat)
    requires Inv(s) && s.disk.journal.Written? && i < |s.disk.journal.records|
    requires var key := s.disk.journal.records[i].key;
      && key in t.disk.entries
      && t.disk == s.disk.(entries := s.disk.entries[key := t.disk.entries[key]])
    requires t.base == s.base && ControlInv(t, |s.disk.journal.records|)
    requires var r := s.disk.journal.records[i];
      EntryInv(t, i, r, t.base[r.key], t.disk.entries[r.key])
    requires forall j :: 0 <= j < |s.disk.journal.records| && j != i ==>
      var r := s.disk.journal.records[j];
      EntryInv(t, j, r, s.base[r.key], s.disk.entries[r.key])
    ensures Inv(t)
  {
    var records := s.disk.journal.records;
    JournaledAt(records, i);
    forall j | 0 <= j < |records| && j != i
      ensures t.disk.entries[records[j].key] == s.disk.entries[records[j].key]
    {
      assert records[j].key != records[i].key;
    }
  }

  lemma CallKeepsInv(s: Sys, t: Sys)
    requires Inv(s) && Call(s, t)
    ensures Inv(t)
  {
    OneEntryKeepsInv(s, t, s.control.i);
  }

  lemma InterruptKeepsInv(s: Sys, t: Sys)
    requires Inv(s) && Interrupt(s, t)
    ensures Inv(t)
  {
    if t.disk != s.disk {
      OneEntryKeepsInv(s, t, s.control.i);
    }
  }

  lemma ShapeSurvivesDrop(z: Zone, r: Record, b: Entry, e: Entry, after: Entry)
    requires Recorded(r, b) && Shape(z, r, b, e) && Debris(RemoveStaging, r, e, after)
    ensures Shape(z, r, b, after)
  {
    assert after == e.(staging := after.staging);
    assert MayDrop(r, after) ==> MayDrop(r, e);
  }

  lemma DropKeepsInv(s: Sys, t: Sys, i: nat)
    requires Inv(s) && Drop(s, t, i)
    ensures Inv(t)
  {
    var r := s.disk.journal.records[i];
    assert EntryInv(s, i, r, s.base[r.key], s.disk.entries[r.key]);
    ShapeSurvivesDrop(ZoneOf(i, s.front, s.clean), r, s.base[r.key], s.disk.entries[r.key], t.disk.entries[r.key]);
    OneEntryKeepsInv(s, t, i);
  }

  lemma DropTornKeepsInv(s: Sys, t: Sys, r: Record)
    requires Inv(s) && DropTorn(s, t, r)
    ensures Inv(t)
  {
    assert Coherent(r.key, s.disk.entries[r.key]);
  }

  /** Moving on to another record: only the obligations of that record are new. */
  lemma AdvanceEntryInv(s: Sys, t: Sys, j: nat)
    requires Inv(s) && Advance(s, t) && t.disk == s.disk && j < |s.disk.journal.records|
    ensures var r := s.disk.journal.records[j];
      EntryInv(t, j, r, s.base[r.key], s.disk.entries[r.key])
  {
    var r := s.disk.journal.records[j];
    var b, e := s.base[r.key], s.disk.entries[r.key];
    assert EntryInv(s, j, r, b, e);
    if t.control.Busy? && j == t.control.i {
      match t.control.stage {
        case Executing => PromotionIsSafe(r, b, e);
        case Finalizing => CleanupIsSafe(r, b, e);
        case Recovering => RecoveryIsSafe(ZoneOf(j, s.front, false), r, b, e);
      }
    }
  }

  lemma AdvanceKeepsInv(s: Sys, t: Sys)
    requires Inv(s) && Advance(s, t)
    ensures Inv(t)
  {
    var records := s.disk.journal.records;
    if t.disk == s.disk {
      forall j | 0 <= j < |records|
        ensures EntryInv(t, j, records[j], s.base[records[j].key], s.disk.entries[records[j].key])
      {
        AdvanceEntryInv(s, t, j);
      }
    } else {
      forall k | k in t.disk.entries
        ensures Quiet(k, t.disk.entries[k])
      {
        if Journaled(records, k) {
          var j :| 0 <= j < |records| && records[j].key == k;
          assert EntryInv(s, j, records[j], s.base[k], s.disk.entries[k]);
          ShapeIsCoherent(ZoneOf(j, s.front, s.clean), records[j], s.base[k], s.disk.entries[k]);
        }
      }
    }
  }

  lemma NextKeepsInv(s: Sys, t: Sys)
    requires Inv(s) && Next(s, t)
    ensures Inv(t)
  {
    if Begin(s, t) {
      BeginKeepsInv(s, t);
    } else if BeginRecovery(s, t) {
      BeginRecoveryKeepsInv(s, t);
    } else if Call(s, t) {
      CallKeepsInv(s, t);
    } else if Interrupt(s, t) {
      InterruptKeepsInv(s, t);
    } else if Advance(s, t) {
      AdvanceKeepsInv(s, t);
    } else if exists records :: BeginTorn(s, t, records) {
      var records :| BeginTorn(s, t, records);
      BeginTornKeepsInv(s, t, records);
    } else if exists i :: Drop(s, t, i) {
      var i :| Drop(s, t, i);
      DropKeepsInv(s, t, i);
    } else {
      var r :| DropTorn(s, t, r);
      DropTornKeepsInv(s, t, r);
    }
  }

  // ---------------------------------------------------------------------------
  // Whole runs
  // ---------------------------------------------------------------------------

  /** No promotion under way, and every usable entry is a generation of its own. */
  predicate Initial(s: Sys) {
    s.control.Idle? && s.disk.journal.NoJournal? && forall k :: k in s.disk.entries ==> Quiet(k, s.disk.entries[k])
  }

  ghost predicate StepAt(states: seq<Sys>, n: nat)
    requires n + 1 < |states|
  {
    Next(states[n], states[n + 1])
  }

  ghost predicate Run(states: seq<Sys>) {
    && states != [] && Initial(states[0])
    && forall n: nat :: n + 1 < |states| ==> StepAt(states, n)
  }

  lemma ExtendRun(run: seq<Sys>, t: Sys)
    requires Run(run) && Next(run[|run| - 1], t)
    ensures Run(run + [t])
  {
    var longer := run + [t];
    forall n: nat | n + 1 < |longer|
      ensures StepAt(longer, n)
    {
      if n + 1 < |run| {
        assert StepAt(run, n);
      }
    }
  }

  lemma {:induction false} RunKeepsInv(states: seq<Sys>, n: nat)
    requires Run(states) && n < |states|
    ensures Inv(states[n])
  {
    if n > 0 {
      RunKeepsInv(states, n - 1);
      assert StepAt(states, n - 1);
      NextKeepsInv(states[n - 1], states[n]);
    }
  }

  /** In every state of every run, an entry that validation accepts has an intact
      payload and the manifest of that payload's generation. */
  lemma NoMixedGenerations(states: seq<Sys>, n: nat, key: string)
    requires Run(states) && n < |states| && key in states[n].disk.entries
    requires Accepts(key, states[n].disk.entries[key])
    ensures var e := states[n].disk.entries[key];
      e.data.value.intact && e.manifest.value.gen == e.data.value.gen
  {
    var s := states[n];
    RunKeepsInv(states, n);
    if s.disk.journal.Written? && Journaled(s.disk.journal.records, key) {
      var i :| 0 <= i < |s.disk.journal.records| && s.disk.journal.records[i].key == key;
      assert EntryInv(s, i, s.disk.journal.records[i], s.base[key], s.disk.entries[key]);
      ShapeIsCoherent(ZoneOf(i, s.front, s.clean), s.disk.journal.records[i], s.base[key], s.disk.entries[key]);
    }
  }

  /** A journal is only ever written by `Begin`, and then stays as it is. */
  lemma JournalStays(s: Sys, t: Sys)
    requires Next(s, t) && t.disk.journal.Written?
    ensures if s.disk.journal.Written? then t.disk.journal == s.disk.journal && t.base == s.base else Begin(s, t)
  {
    if exists i :: Drop(s, t, i) {
      var i :| Drop(s, t, i);
      assert t == s.(disk := s.disk.(entries := t.disk.entries));
    } else if Advance(s, t) {
      assert t.disk == s.disk || t.disk == s.disk.(journal := NoJournal);
    } else if Interrupt(s, t) {
      assert t.disk == s.disk.(entries := t.disk.entries);
    } else if Call(s, t) {
      assert t.disk == s.disk.(entries := t.disk.entries);
    }
  }

  /** While a journal exists, `base` holds the entries of the state it was written in. */
  lemma {:induction false} BaseIsHistory(states: seq<Sys>, n: nat) returns (m: nat)
    requires Run(states) && n < |states| && states[n].disk.journal.Written?
    ensures m < n && states[m].disk.journal.NoJournal?
    ensures states[m].disk.entries == states[n].base
    ensures forall i :: m < i <= n ==> states[i].disk.journal == states[n].disk.journal
  {
    assert if states[n - 1].disk.journal.Written?
           then states[n].disk.journal == states[n - 1].disk.journal && states[n].base == states[n - 1].base
           else states[n - 1].disk.journal.NoJournal? && states[n].base == states[n - 1].disk.entries by {
      assert StepAt(states, n - 1);
      JournalStays(states[n - 1], states[n]);
    }
    if states[n - 1].disk.journal.Written? {
      m := BaseIsHistory(states, n - 1);
    } else {
      m := n - 1;
    }
  }

  /** Last known good: in every state of every run with a journal, each journaled entry
      that had a payload when the journal was written (state `m`) still has exactly that
      payload in place or under its backup name, unless its new generation is complete;
      an entry that is not journaled is exactly as it was. */
  lemma LastKnownGood(states: seq<Sys>, n: nat, key: string) returns (m: nat)
    requires Run(states) && n < |states| && states[n].disk.journal.Written?
    requires key in states[n].disk.entries
    ensures m < n && states[m].disk.journal.NoJournal? && key in states[m].disk.entries
    ensures forall i :: m < i <= n ==> states[i].disk.journal == states[n].disk.journal
    ensures var b, e := states[m].disk.entries[key], states[n].disk.entries[key];
      if Journaled(states[n].disk.journal.records, key) then
        exists r :: r in states[n].disk.journal.records && r.key == key
          && (b.data.Some? ==> e.data == b.data || e.backup == b.data || (Installed(r, e) && Accepts(key, e)))
      else e == b
  {
    m := BaseIsHistory(states, n);
    RunKeepsInv(states, n);
    var s := states[n];
    if Journaled(s.disk.journal.records, key) {
      var i :| 0 <= i < |s.disk.journal.records| && s.disk.journal.records[i].key == key;
      var r := s.disk.journal.records[i];
      assert EntryInv(s, i, r, s.base[key], s.disk.entries[key]);
      ShapeKeepsOld(ZoneOf(i, s.front, s.clean), r, s.base[key], s.disk.entries[key]);
    }
  }
}
