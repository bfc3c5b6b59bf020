/**
 Runs in which recovery does not restore what was there: it refuses after an interrupted
 rollback and for a journal over the size limit, and it deletes the manifest of an entry
 that had no payload. Each is shown for every entry it can happen to.
 */
module CacheRefusals {
  import opened Common
  import opened CacheDisk
  import opened CachePromotion
  import opened CacheRecovery

  /** A cache with one entry and its record, before a promotion. */
  predicate Ready(b: Entry, r: Record) {
    Quiet(r.key, b) && Recorded(r, b)
  }

  function Start(b: Entry, r: Record): Sys {
    Sys(Disk(map[r.key := b], NoJournal), map[r.key := b], 0, true, Idle)
  }

  /** The cache under the journal of that promotion. */
  function Under(b: Entry, r: Record, size: nat, e: Entry, clean: bool, control: Control): Sys {
    Sys(Disk(map[r.key := e], Written([r], size)), map[r.key := b], 0, clean, control)
  }

  function Executes(ops: seq<Op>): Control {
    Busy(Executing, 0, ops)
  }

  function Recovers(ops: seq<Op>): Control {
    Busy(Recovering, 0, ops)
  }

  function PreparedEntry(b: Entry, r: Record): Entry {
    b.(staging := Some(PreparedStaging(r)))
  }

  /** A run that has come to the state `t`. */
  ghost predicate RunTo(states: seq<Sys>, start: Sys, t: Sys) {
    Run(states) && states[0] == start && states[|states| - 1] == t
  }

  lemma Begins(b: Entry, r: Record, size: nat) returns (states: seq<Sys>)
    requires Ready(b, r)
    ensures RunTo(states, Start(b, r), Under(b, r, size, PreparedEntry(b, r), true, Executes(PromotionOps(r))))
  {
    var t := Under(b, r, size, PreparedEntry(b, r), true, Executes(PromotionOps(r)));
    assert FindRecord([r], r.key) == Some(r);
    assert Prepare(map[r.key := b], [r]) == map[r.key := PreparedEntry(b, r)];
    assert Begin(Start(b, r), t);
    ExtendRun([Start(b, r)], t);
    states := [Start(b, r)] + [t];
  }

  lemma Calls(states: seq<Sys>, b: Entry, r: Record, size: nat, e: Entry, clean: bool, stage: Stage, op: Op,
              rest: seq<Op>, after: Entry)
    returns (longer: seq<Sys>)
    requires RunTo(states, Start(b, r), Under(b, r, size, e, clean, Busy(stage, 0, [op] + rest)))
    requires Effect(op, r, e) == Some(after)
    ensures RunTo(longer, Start(b, r), Under(b, r, size, after, clean, Busy(stage, 0, rest)))
  {
    var s := Under(b, r, size, e, clean, Busy(stage, 0, [op] + rest));
    var t := Under(b, r, size, after, clean, Busy(stage, 0, rest));
    assert ([op] + rest)[1..] == rest;
    assert s.disk.entries[r.key := after] == t.disk.entries;
    assert Call(s, t);
    ExtendRun(states, t);
    longer := states + [t];
  }

  lemma Dies(states: seq<Sys>, b: Entry, r: Record, size: nat, e: Entry, clean: bool, control: Control)
    returns (longer: seq<Sys>)
    requires control.Busy? && RunTo(states, Start(b, r), Under(b, r, size, e, clean, control))
    ensures RunTo(longer, Start(b, r), Under(b, r, size, e, clean, Idle))
  {
    var t := Under(b, r, size, e, clean, Idle);
    assert Interrupt(Under(b, r, size, e, clean, control), t);
    ExtendRun(states, t);
    longer := states + [t];
  }

  lemma StartsRecovery(states: seq<Sys>, b: Entry, r: Record, size: nat, e: Entry, clean: bool, ops: seq<Op>)
    returns (longer: seq<Sys>)
    requires size <= MAX_JOURNAL_BYTES && RecoveryPlan(r, e) == Ok(ops)
    requires RunTo(states, Start(b, r), Under(b, r, size, e, clean, Idle))
    ensures RunTo(longer, Start(b, r), Under(b, r, size, e, false, Recovers(ops)))
  {
    var t := Under(b, r, size, e, false, Recovers(ops));
    assert BeginRecovery(Under(b, r, size, e, clean, Idle), t);
    ExtendRun(states, t);
    longer := states + [t];
  }

  /** Recovery of a journal with one record. */
  lemma RecoverSingle(b: Entry, r: Record, size: nat, e: Entry, clean: bool)
    requires size <= MAX_JOURNAL_BYTES
    ensures var plan := RecoveryPlan(r, e);
      var (result, d) := Recover(Under(b, r, size, e, clean, Idle).disk, {});
      && (plan.Err? ==> result == Err(plan.error))
      && (plan.Ok? && Apply(plan.value, r, e).0 ==>
            result == Ok(()) && d == Disk(map[r.key := Apply(plan.value, r, e).1], NoJournal))
  {
    var entries := map[r.key := e];
    assert LockError([r], 1, entries, {}) == None && LockError([r], 0, entries, {}) == None;
    var plan := RecoveryPlan(r, e);
    if plan.Ok? && Apply(plan.value, r, e).0 {
      var out := entries[r.key := Apply(plan.value, r, e).1];
      assert out == map[r.key := Apply(plan.value, r, e).1];
      assert RecoverFrom([r], 1, out) == (Ok(()), out);
    }
  }

  /** The journal may be larger than recovery accepts: creation does not check its size. */
  lemma OversizedJournalIsRefused(b: Entry, r: Record, size: nat) returns (states: seq<Sys>)
    requires Ready(b, r) && size > MAX_JOURNAL_BYTES
    ensures RunTo(states, Start(b, r), Under(b, r, size, PreparedEntry(b, r), true, Idle))
    ensures var d := states[|states| - 1].disk; Recover(d, {}) == (Err(PromotionUncertain), d)
  {
    states := Begins(b, r, size);
    states := Dies(states, b, r, size, PreparedEntry(b, r), true, Executes(PromotionOps(r)));
  }

  /** An entry without a payload that has a manifest loses it when its promotion stops at
      the first call and recovery cleans up. */
  lemma FirstTimeManifestIsLost(b: Entry, r: Record, size: nat) returns (states: seq<Sys>)
    requires Ready(b, r) && size <= MAX_JOURNAL_BYTES && b.data.None? && b.manifest.Some?
    ensures RunTo(states, Start(b, r), Under(b, r, size, PreparedEntry(b, r), true, Idle))
    ensures Recover(states[|states| - 1].disk, {}) == (Ok(()), Disk(map[r.key := Restored(r, b)], NoJournal))
    ensures Restored(r, b) != b
  {
    states := Begins(b, r, size);
    states := Dies(states, b, r, size, PreparedEntry(b, r), true, Executes(PromotionOps(r)));
    RecoverSingle(b, r, size, PreparedEntry(b, r), true);
    ApplyEmptying(r, PreparedEntry(b, r));
  }

  function ParkedEntry(b: Entry, r: Record): Entry {
    Entry(None, b.data, Some(Staging(Some(Tree(r.gen, true)), Some(NewManifest(r)))), b.manifest, b.marker)
  }

  /** The old payload is parked and the process dies. */
  lemma Parks(b: Entry, r: Record, size: nat) returns (states: seq<Sys>)
    requires Ready(b, r) && b.data.Some?
    ensures RunTo(states, Start(b, r), Under(b, r, size, ParkedEntry(b, r), true, Idle))
  {
    var rest := [MoveDataToBackup] + LandingOps();
    var e0 := PreparedEntry(b, r);
    var e1 := e0.(staging := Some(e0.staging.value.(manifest := Some(NewManifest(r)))));
    assert PromotionOps(r) == [ReplaceStagingManifest] + rest;
    states := Begins(b, r, size);
    states := Calls(states, b, r, size, e0, true, Executing, ReplaceStagingManifest, rest, e1);
    states := Calls(states, b, r, size, e1, true, Executing, MoveDataToBackup, LandingOps(), ParkedEntry(b, r));
    states := Dies(states, b, r, size, ParkedEntry(b, r), true, Executes(LandingOps()));
  }

  /** The payload is back and its files are not. */
  function HalfBack(b: Entry, r: Record): Entry {
    ParkedEntry(b, r).(data := b.data, backup := None, manifest := None, marker := None)
  }

  /** Recovery rolls the parked entry back and dies half way. */
  lemma RollsHalfBack(b: Entry, r: Record, size: nat) returns (states: seq<Sys>)
    requires Ready(b, r) && b.data.Some? && size <= MAX_JOURNAL_BYTES
    ensures RunTo(states, Start(b, r), Under(b, r, size, HalfBack(b, r), false, Idle))
  {
    var e0 := ParkedEntry(b, r);
    var e2 := e0.(marker := None);
    var e3 := e2.(manifest := None);
    var rest4 := [RestoreManifest, RestoreMarker, RemoveStaging];
    var rest2 := [RemoveManifest] + RestoreOps();
    var rest1 := [RemoveMarker] + rest2;
    assert RollbackOps() == [RemoveData] + rest1 && RestoreOps() == [MoveBackupToData] + rest4;
    states := Parks(b, r, size);
    states := StartsRecovery(states, b, r, size, e0, true, RollbackOps());
    states := Calls(states, b, r, size, e0, false, Recovering, RemoveData, rest1, e0);
    states := Calls(states, b, r, size, e0, false, Recovering, RemoveMarker, rest2, e2);
    states := Calls(states, b, r, size, e2, false, Recovering, RemoveManifest, RestoreOps(), e3);
    states := Calls(states, b, r, size, e3, false, Recovering, MoveBackupToData, rest4, HalfBack(b, r));
    states := Dies(states, b, r, size, HalfBack(b, r), false, Recovers(rest4));
  }

  /** A rollback that is interrupted after the payload was renamed back makes recovery
      refuse, for every entry that had a payload and a marker or a manifest. */
  lemma InterruptedRollbackIsRefused(b: Entry, r: Record, size: nat) returns (states: seq<Sys>)
    requires Ready(b, r) && size <= MAX_JOURNAL_BYTES && b.data.Some? && (b.marker.Some? || b.manifest.Some?)
    ensures RunTo(states, Start(b, r), Under(b, r, size, HalfBack(b, r), false, Idle))
    ensures Recover(states[|states| - 1].disk, {}).0 == Err(PromotionUncertain)
  {
    states := RollsHalfBack(b, r, size);
    RecoverSingle(b, r, size, HalfBack(b, r), false);
  }

  // ---------------------------------------------------------------------------
  // Such entries exist
  // ---------------------------------------------------------------------------

  function SampleDigest(): string {
    "sha256:" + seq(64, i => 'a')
  }

  function SampleManifest(): File {
    File(Doc(Manifest(GENERATION_SCHEMA_VERSION, "key", SampleDigest(), 1, "complete"), "canonical"), 1)
  }

  /** A complete entry, and one that has only a manifest. */
  function CompleteEntry(): Entry {
    Entry(Some(Tree(1, true)), None, None, Some(SampleManifest()), Some(CompleteBytes))
  }

  function BareEntry(): Entry {
    Entry(None, None, None, Some(SampleManifest()), None)
  }

  function RecordFor(b: Entry): Record {
    Record("key", SampleDigest(), 2, 2, b.data.Some?, b.marker, b.manifest)
  }

  /** Concrete runs for all three. */
  lemma RecoveryFailsSomewhere() returns (rollback: seq<Sys>, oversized: seq<Sys>, lost: seq<Sys>)
    ensures Run(rollback) && Crashed(rollback[|rollback| - 1])
    ensures rollback[|rollback| - 1].disk.journal.size == 100
    ensures Recover(rollback[|rollback| - 1].disk, {}).0 == Err(PromotionUncertain)
    ensures Run(oversized) && Crashed(oversized[|oversized| - 1])
    ensures Recover(oversized[|oversized| - 1].disk, {}).0 == Err(PromotionUncertain)
    ensures Run(lost) && Crashed(lost[|lost| - 1]) && lost[0].disk.entries == map["key" := BareEntry()]
    ensures Recover(lost[|lost| - 1].disk, {}).0.Ok?
    ensures Recover(lost[|lost| - 1].disk, {}).1.entries == map["key" := Entry(None, None, None, None, None)]
  {
    assert SampleDigest()[..7] == "sha256:";
    rollback := InterruptedRollbackIsRefused(CompleteEntry(), RecordFor(CompleteEntry()), 100);
    oversized := OversizedJournalIsRefused(CompleteEntry(), RecordFor(CompleteEntry()), MAX_JOURNAL_BYTES + 1);
    lost := FirstTimeManifestIsLost(BareEntry(), RecordFor(BareEntry()), 100);
  }
}
