/**
 The promotion procedures of `ManagedCache` (src/cache.rs:545-748) as code over
 the disk, with a fault schedule that may stop them at any filesystem call. The
 ghost field `run` records every state the disk goes through; `Valid` says that it
 is a run of the transition system, so the theorems about runs speak about every
 moment of these methods.
 */
module ManagedCache {
  import opened Common
  import opened CacheDisk
  import opened CachePromotion
  import opened CacheRecovery

  /** What happens at a filesystem call: it goes ahead, or the procedure stops there,
      leaving `debris` if that call can leave it. */
  datatype Fault = Go | Stop(debris: Entry)

  /** One entry as `prepare_entry` handed it to the caller. */
  datatype Prepared = Prepared(key: string, plan: string, generation: nat, gen: nat)

  datatype PromotionOutcome = NotAttempted | Completed

  datatype PromotionError = GenerationMismatch | Recovery(error: RecoveryError) | Stopped

  /** No call fails or is interrupted. */
  ghost predicate NoFault(faults: (nat, Op) -> Fault) {
    forall i, op :: faults(i, op) == Go
  }

  class ManagedCache {
    var entries: map<string, Entry>
    var journal: Journal
    ghost var run: seq<Sys>

    ghost function Now(): Sys
      requires run != []
      reads this
    {
      run[|run| - 1]
    }

    /** The run goes on under the same journal. */
    twostate predicate Going()
      reads this
    {
      old(run) <= run && (old(run) != [] ==> Now().base == old(Now().base))
    }

    ghost predicate Recording()
      reads this
    {
      run != [] && Run(run) && Now().disk == Disk(entries, journal)
    }

    /** Nobody is inside a promotion procedure. */
    ghost predicate Valid()
      reads this
    {
      Recording() && Now().control.Idle?
    }

    /** The procedure `stage` is about to make the calls `ops` for record `i`. */
    ghost predicate Inside(stage: Stage, i: nat, ops: seq<Op>)
      reads this
    {
      && Recording() && journal.Written? && i < |journal.records|
      && journal.records[i].key in entries
      && Now().control == Busy(stage, i, ops)
    }

    constructor (entries: map<string, Entry>)
      requires forall k :: k in entries ==> Quiet(k, entries[k])
      ensures Valid() && this.entries == entries && journal == NoJournal
    {
      this.entries := entries;
      journal := NoJournal;
      run := [Sys(Disk(entries, NoJournal), entries, 0, true, Idle)];
    }

    /** One filesystem call of the procedure in progress. */
    method Perform(op: Op, i: nat, fault: Fault, ghost stage: Stage, ghost rest: seq<Op>) returns (ok: bool)
      requires Inside(stage, i, [op] + rest)
      modifies this`entries, this`run
      ensures Going()
      ensures ok <==> fault.Go?
      ensures ok ==>
        && Inside(stage, i, rest)
        && Effect(op, journal.records[i], old(entries)[journal.records[i].key]).Some?
        && entries == old(entries)[journal.records[i].key
             := Effect(op, journal.records[i], old(entries)[journal.records[i].key]).value]
      ensures !ok ==> Valid()
    {
      var r := journal.records[i];
      var e := entries[r.key];
      ghost var s := Now();
      assert AtRecord(s) && s.control.ops[0] == op && s.control.ops[1..] == rest;
      assert Effect(op, r, e).Some? by {
        CallWorks(stage, i, op, rest);
      }
      ok := fault.Go?;
      if ok {
        entries := entries[r.key := Effect(op, r, e).value];
      } else if fault.Stop? && Debris(op, r, e, fault.debris) {
        entries := entries[r.key := fault.debris];
      }
      ghost var t := s.(disk := Disk(entries, journal), control := if ok then Busy(stage, i, rest) else Idle);
      assert Run(run + [t]) by {
        assert if ok then Call(s, t) else Interrupt(s, t);
        ExtendRun(run, t);
      }
      run := run + [t];
    }

    /** A call that nothing interrupts succeeds: what it needs is there. */
    lemma CallWorks(stage: Stage, i: nat, op: Op, rest: seq<Op>)
      requires Inside(stage, i, [op] + rest)
      ensures Effect(op, journal.records[i], entries[journal.records[i].key]).Some?
    {
      RunKeepsInv(run, |run| - 1);
      var s, r := Now(), journal.records[i];
      assert EntryInv(s, i, r, s.base[r.key], entries[r.key]);
    }

    /** All calls for record `i` are made and the procedure goes on. */
    ghost method GoOn(t: Sys)
      requires Recording() && Advance(Now(), t) && t.disk == Disk(entries, journal)
      modifies this`run
      ensures Going() && Recording() && Now() == t
    {
      ExtendRun(run, t);
      run := run + [t];
    }

    /** Body of the loop of `finalize_promotion`, and the roll-forward of recovery. */
    method CleanUp(i: nat, faults: (nat, Op) -> Fault, ghost stage: Stage) returns (ok: bool)
      requires Inside(stage, i, CleanupOps())
      modifies this`entries, this`run
      ensures Going()
      ensures ok ==> Inside(stage, i, []) && entries == old(entries)[journal.records[i].key
        := old(entries)[journal.records[i].key].(backup := None, staging := None)]
      ensures !ok ==> Valid() && exists op :: faults(i, op) != Go
    {
      assert CleanupOps() == [RemoveBackup] + [RemoveStaging];
      ok := Perform(RemoveBackup, i, faults(i, RemoveBackup), stage, [RemoveStaging]);
      if ok {
        assert [RemoveStaging] == [RemoveStaging] + [];
        ok := Perform(RemoveStaging, i, faults(i, RemoveStaging), stage, []);
      }
    }

    /** Body of the loop of `execute_promotion`, up to the point where the old payload is
        out of the way. */
    method ParkOne(i: nat, faults: (nat, Op) -> Fault) returns (ok: bool)
      requires journal.Written? && i < |journal.records|
      requires Inside(Executing, i, PromotionOps(journal.records[i]))
      modifies this`entries, this`run
      ensures Going()
      ensures ok ==> Inside(Executing, i, LandingOps())
      ensures !ok ==> Valid() && exists op :: faults(i, op) != Go
    {
      var r := journal.records[i];
      ghost var rest := if r.hadCurrent then [MoveDataToBackup] + LandingOps() else LandingOps();
      assert PromotionOps(r) == [ReplaceStagingManifest] + rest;
      ok := Perform(ReplaceStagingManifest, i, faults(i, ReplaceStagingManifest), Executing, rest);
      if ok && r.hadCurrent {
        ok := Perform(MoveDataToBackup, i, faults(i, MoveDataToBackup), Executing, LandingOps());
      }
    }

    /** The rest of that body. */
    method LandOne(i: nat, faults: (nat, Op) -> Fault) returns (ok: bool)
      requires Inside(Executing, i, LandingOps())
      modifies this`entries, this`run
      ensures Going()
      ensures ok ==> Inside(Executing, i, [])
      ensures !ok ==> Valid() && exists op :: faults(i, op) != Go
    {
      ghost var install := [MoveStagedData, MoveStagedManifest, WriteMarker];
      ghost var rest := [RemoveManifest] + install;
      assert LandingOps() == [RemoveMarker] + rest;
      ok := Perform(RemoveMarker, i, faults(i, RemoveMarker), Executing, rest);
      if !ok { return; }
      ok := Perform(RemoveManifest, i, faults(i, RemoveManifest), Executing, install);
      if !ok { return; }
      ok := InstallOne(i, faults);
    }

    /** The staged payload and manifest move in and the marker is written. */
    method InstallOne(i: nat, faults: (nat, Op) -> Fault) returns (ok: bool)
      requires Inside(Executing, i, [MoveStagedData, MoveStagedManifest, WriteMarker])
      modifies this`entries, this`run
      ensures Going()
      ensures ok ==> Inside(Executing, i, [])
      ensures !ok ==> Valid() && exists op :: faults(i, op) != Go
    {
      ghost var t2 := [WriteMarker];
      ghost var t1 := [MoveStagedManifest] + t2;
      assert [MoveStagedData, MoveStagedManifest, WriteMarker] == [MoveStagedData] + t1 && t2 == [WriteMarker] + [];
      ok := Perform(MoveStagedData, i, faults(i, MoveStagedData), Executing, t1);
      if !ok { return; }
      ok := Perform(MoveStagedManifest, i, faults(i, MoveStagedManifest), Executing, t2);
      if !ok { return; }
      ok := Perform(WriteMarker, i, faults(i, WriteMarker), Executing, []);
    }

    /** `execute_promotion`. */
    method ExecutePromotion(faults: (nat, Op) -> Fault) returns (ok: bool)
      requires journal.Written? && journal.records != []
      requires Inside(Executing, 0, PromotionOps(journal.records[0]))
      modifies this`entries, this`run
      ensures Going()
      ensures ok ==> Inside(Finalizing, 0, CleanupOps())
      ensures !ok ==> Valid()
      ensures NoFault(faults) ==> ok
    {
      var i := 0;
      while true
        invariant Going()
        invariant i < |journal.records| && Inside(Executing, i, PromotionOps(journal.records[i]))
        decreases |journal.records| - i
      {
        ok := ParkOne(i, faults);
        if !ok { return; }
        ok := LandOne(i, faults);
        if !ok { return; }
        ghost var s := Now();
        if i + 1 == |journal.records| {
          GoOn(s.(front := i + 1, control := Busy(Finalizing, 0, CleanupOps())));
          assert journal.records[0].key in entries by { KeysStay(); }
          return;
        }
        assert journal.records[i + 1].key in entries by { KeysStay(); }
        i := i + 1;
        GoOn(s.(front := i, control := Busy(Executing, i, PromotionOps(journal.records[i]))));
      }
    }

    lemma KeysStay()
      requires Recording() && journal.Written?
      ensures forall i :: 0 <= i < |journal.records| ==> journal.records[i].key in entries
    {
      RunKeepsInv(run, |run| - 1);
    }

    /** Every journaled entry is exactly its new generation, every other one as it was. */
    ghost predicate AllNew(records: seq<Record>)
      requires run != []
      reads this
    {
      && entries.Keys == Now().base.Keys
      && Promoted(records, entries)
      && (forall k :: k in entries && !Journaled(records, k) ==> entries[k] == Now().base[k])
    }

    lemma FinishedIsNew()
      requires journal.Written? && journal.records != [] && Inside(Finalizing, |journal.records| - 1, [])
      ensures AllNew(journal.records)
    {
      var s, records := Now(), journal.records;
      RunKeepsInv(run, |run| - 1);
      forall i | 0 <= i < |records|
        ensures entries[records[i].key] == ExactlyNew(records[i])
      {
        assert EntryInv(s, i, records[i], s.base[records[i].key], entries[records[i].key]);
      }
    }

    /** `finalize_promotion`. */
    method FinalizePromotion(faults: (nat, Op) -> Fault, journalFault: bool) returns (ok: bool)
      requires journal.Written? && Inside(Finalizing, 0, CleanupOps())
      modifies this`entries, this`journal, this`run
      ensures Going() && Valid()
      ensures journal == if ok then NoJournal else old(journal)
      ensures ok ==> AllNew(old(journal).records)
      ensures NoFault(faults) && !journalFault ==> ok
    {
      var i := 0;
      while true
        invariant Going() && journal == old(journal)
        invariant Inside(Finalizing, i, CleanupOps())
        decreases |journal.records| - i
      {
        ok := CleanUp(i, faults, Finalizing);
        if !ok { return; }
        i := i + 1;
        ghost var s := Now();
        if i == |journal.records| {
          FinishedIsNew();
          break;
        }
        assert journal.records[i].key in entries by { KeysStay(); }
        GoOn(s.(control := Busy(Finalizing, i, CleanupOps())));
      }
      ok := RemoveJournal(journalFault);
    }

    /** `remove_if_present` of the journal, the last call of both procedures. */
    method RemoveJournal(fault: bool) returns (ok: bool)
      requires Recording() && journal.Written?
      requires Now().control.Busy? && !Now().control.stage.Executing? && Now().control.ops == []
      requires Now().control.i + 1 == |journal.records| && journal.records[Now().control.i].key in entries
      modifies this`journal, this`run
      ensures Going() && Valid()
      ensures ok == !fault
      ensures journal == if ok then NoJournal else old(journal)
    {
      ghost var s := Now();
      ok := !fault;
      if ok {
        journal := NoJournal;
        ExtendRun(run, s.(disk := Disk(entries, NoJournal), control := Idle));
        run := run + [s.(disk := Disk(entries, NoJournal), control := Idle)];
      } else {
        assert Interrupt(s, s.(control := Idle));
        ExtendRun(run, s.(control := Idle));
        run := run + [s.(control := Idle)];
      }
    }

    /** Recovery has decided what to do about record `i` and starts on it. */
    ghost method Enter(i: nat, ops: seq<Op>)
      requires journal.Written? && i < |journal.records| && journal.records[i].key in entries
      requires journal.size <= MAX_JOURNAL_BYTES
      requires if i == 0 then Valid() else Inside(Recovering, i - 1, [])
      requires RecoveryPlan(journal.records[i], entries[journal.records[i].key]) == Ok(ops)
      modifies this`run
      ensures Going() && Inside(Recovering, i, ops)
    {
      var s := Now();
      var t := s.(clean := if i == 0 then false else s.clean, control := Busy(Recovering, i, ops));
      if i == 0 {
        assert BeginRecovery(s, t);
      } else {
        assert Advance(s, t);
      }
      ExtendRun(run, t);
      run := run + [t];
    }

    /** Recovery refuses record `i`. */
    ghost method Refuse(i: nat)
      requires journal.Written? && i < |journal.records| && journal.records[i].key in entries
      requires if i == 0 then Valid() else Inside(Recovering, i - 1, [])
      requires RecoveryPlan(journal.records[i], entries[journal.records[i].key]).Err?
      modifies this`run
      ensures Going() && Valid()
    {
      if i > 0 {
        GoOn(Now().(control := Idle));
      }
    }

    /** The rollback of one entry. */
    method RollBack(i: nat, faults: (nat, Op) -> Fault) returns (ok: bool)
      requires Inside(Recovering, i, RollbackOps()) && entries[journal.records[i].key].backup.Some?
      modifies this`entries, this`run
      ensures Going()
      ensures ok ==> Inside(Recovering, i, []) && var r := journal.records[i];
        entries == old(entries)[r.key
          := Entry(old(entries)[r.key].backup, None, None, r.previousManifest, r.previousMarker)]
      ensures !ok ==> Valid() && exists op :: faults(i, op) != Go
    {
      ok := Unland(i, faults);
      if ok {
        ok := Restore(i, faults);
      }
    }

    /** First half of the rollback: the new payload and its files go. */
    method Unland(i: nat, faults: (nat, Op) -> Fault) returns (ok: bool)
      requires Inside(Recovering, i, RollbackOps())
      modifies this`entries, this`run
      ensures Going()
      ensures ok ==> Inside(Recovering, i, RestoreOps()) && entries == old(entries)[journal.records[i].key
        := old(entries)[journal.records[i].key].(data := None, marker := None, manifest := None)]
      ensures !ok ==> Valid() && exists op :: faults(i, op) != Go
    {
      ghost var t2 := [RemoveManifest] + RestoreOps();
      ghost var t1 := [RemoveMarker] + t2;
      assert RollbackOps() == [RemoveData] + t1;
      ok := Perform(RemoveData, i, faults(i, RemoveData), Recovering, t1);
      if !ok { return; }
      ok := Perform(RemoveMarker, i, faults(i, RemoveMarker), Recovering, t2);
      if !ok { return; }
      ok := Perform(RemoveManifest, i, faults(i, RemoveManifest), Recovering, RestoreOps());
    }

    /** Second half: the old payload comes back, then its files. */
    method Restore(i: nat, faults: (nat, Op) -> Fault) returns (ok: bool)
      requires Inside(Recovering, i, RestoreOps())
      requires var e := entries[journal.records[i].key]; e.data.None? && e.backup.Some?
      modifies this`entries, this`run
      ensures Going()
      ensures ok ==> Inside(Recovering, i, []) && var r := journal.records[i];
        entries == old(entries)[r.key
          := Entry(old(entries)[r.key].backup, None, None, r.previousManifest, r.previousMarker)]
      ensures !ok ==> Valid() && exists op :: faults(i, op) != Go
    {
      assert RestoreOps() == [MoveBackupToData] + [RestoreManifest, RestoreMarker, RemoveStaging];
      ok := Perform(MoveBackupToData, i, faults(i, MoveBackupToData), Recovering,
                    [RestoreManifest, RestoreMarker, RemoveStaging]);
      if ok {
        ok := RestoreFiles(i, faults);
      }
    }

    method RestoreFiles(i: nat, faults: (nat, Op) -> Fault) returns (ok: bool)
      requires Inside(Recovering, i, [RestoreManifest, RestoreMarker, RemoveStaging])
      modifies this`entries, this`run
      ensures Going()
      ensures ok ==> Inside(Recovering, i, []) && var r := journal.records[i];
        entries == old(entries)[r.key := old(entries)[r.key].(
          manifest := r.previousManifest, marker := r.previousMarker, staging := None)]
      ensures !ok ==> Valid() && exists op :: faults(i, op) != Go
    {
      ghost var rest := [RestoreMarker, RemoveStaging];
      assert [RestoreManifest, RestoreMarker, RemoveStaging] == [RestoreManifest] + rest;
      ok := Perform(RestoreManifest, i, faults(i, RestoreManifest), Recovering, rest);
      if !ok { return; }
      ok := RestoreMark(i, faults);
    }

    method RestoreMark(i: nat, faults: (nat, Op) -> Fault) returns (ok: bool)
      requires Inside(Recovering, i, [RestoreMarker, RemoveStaging])
      modifies this`entries, this`run
      ensures Going()
      ensures ok ==> Inside(Recovering, i, []) && var r := journal.records[i];
        entries == old(entries)[r.key := old(entries)[r.key].(marker := r.previousMarker, staging := None)]
      ensures !ok ==> Valid() && exists op :: faults(i, op) != Go
    {
      ghost var rest := [RemoveStaging];
      assert [RestoreMarker, RemoveStaging] == [RestoreMarker] + rest && rest == [RemoveStaging] + [];
      ok := Perform(RestoreMarker, i, faults(i, RestoreMarker), Recovering, rest);
      if !ok { return; }
      ok := Perform(RemoveStaging, i, faults(i, RemoveStaging), Recovering, []);
    }

    /** What is left of a first-time entry whose payload never arrived goes. */
    method Empty(i: nat, faults: (nat, Op) -> Fault) returns (ok: bool)
      requires Inside(Recovering, i, [RemoveMarker, RemoveManifest, RemoveStaging])
      modifies this`entries, this`run
      ensures Going()
      ensures ok ==> Inside(Recovering, i, []) && entries == old(entries)[journal.records[i].key
        := old(entries)[journal.records[i].key].(marker := None, manifest := None, staging := None)]
      ensures !ok ==> Valid() && exists op :: faults(i, op) != Go
    {
      ghost var t2 := [RemoveStaging];
      ghost var t1 := [RemoveManifest] + t2;
      assert [RemoveMarker, RemoveManifest, RemoveStaging] == [RemoveMarker] + t1 && t2 == [RemoveStaging] + [];
      ok := Perform(RemoveMarker, i, faults(i, RemoveMarker), Recovering, t1);
      if !ok { return; }
      ok := Perform(RemoveManifest, i, faults(i, RemoveManifest), Recovering, t2);
      if !ok { return; }
      ok := Perform(RemoveStaging, i, faults(i, RemoveStaging), Recovering, []);
    }

    /** Body of the recovery loop. */
    method RecoverOne(i: nat, faults: (nat, Op) -> Fault) returns (result: Result<(), RecoveryError>)
      requires journal.Written? && i < |journal.records| && journal.records[i].key in entries
      requires journal.size <= MAX_JOURNAL_BYTES
      requires if i == 0 then Valid() else Inside(Recovering, i - 1, [])
      modifies this`entries, this`run
      ensures Going()
      ensures result.Ok? ==> Inside(Recovering, i, [])
      ensures result.Err? ==> Valid()
      ensures var r := journal.records[i]; var e := old(entries)[r.key];
        match RecoveryPlan(r, e)
        case Err(error) => result == Err(error) && entries == old(entries)
        case Ok(ops) =>
          if result.Ok? then Apply(ops, r, e).0 && entries == old(entries)[r.key := Apply(ops, r, e).1]
          else result == Err(IoFailure) && exists op :: faults(i, op) != Go
    {
      var r := journal.records[i];
      var e := entries[r.key];
      var complete := CurrentIsComplete(r, e);
      if complete.Err? {
        Refuse(i);
        return Err(complete.error);
      }
      var ok;
      if complete.value {
        Enter(i, CleanupOps());
        ApplyCleanup(r, e);
        ok := CleanUp(i, faults, Recovering);
      } else if r.hadCurrent && e.backup.Some? {
        Enter(i, RollbackOps());
        ApplyRollback(r, e);
        ok := RollBack(i, faults);
      } else if r.hadCurrent && CurrentMatchesPrevious(r, e) {
        Enter(i, [RemoveStaging]);
        assert [RemoveStaging] + [] == [RemoveStaging];
        ApplyStep(RemoveStaging, [], r, e);
        ok := Perform(RemoveStaging, i, faults(i, RemoveStaging), Recovering, []);
      } else if !r.hadCurrent && e.backup.None? && e.data.None? {
        Enter(i, [RemoveMarker, RemoveManifest, RemoveStaging]);
        ApplyEmptying(r, e);
        ok := Empty(i, faults);
      } else {
        Refuse(i);
        return Err(PromotionUncertain);
      }
      result := if ok then Ok(()) else Err(IoFailure);
    }

    /** `Drop` of a prepared entry after a promotion that failed, possibly while its journal
        was being written. `debris` is what an unfinished delete leaves. */
    method DropPrepared(r: Record, promoted: bool, debris: Option<Entry>)
      requires Valid() && r.key in entries && (journal.TornJournal? || (journal.Written? && r in journal.records))
      modifies this`entries, this`run
      ensures Going() && Valid() && entries.Keys == old(entries).Keys
      ensures entries == old(entries)
           || (entries == old(entries)[r.key := old(entries)[r.key].(staging := entries[r.key].staging)]
               && MayDrop(r, old(entries)[r.key]))
      ensures debris.None? && !promoted && MayDrop(r, old(entries)[r.key]) ==>
        entries == old(entries)[r.key := old(entries)[r.key].(staging := None)]
    {
      var e := entries[r.key];
      if promoted || !MayDrop(r, e) {
        return;
      }
      if debris.None? {
        entries := entries[r.key := e.(staging := None)];
      } else if Debris(RemoveStaging, r, e, debris.value) {
        entries := entries[r.key := debris.value];
      }
      ghost var t := Now().(disk := Disk(entries, journal));
      assert Run(run + [t]) by {
        if journal.Written? {
          var i :| 0 <= i < |journal.records| && journal.records[i] == r;
          assert Drop(Now(), t, i);
        } else {
          assert DropTorn(Now(), t, r);
        }
        ExtendRun(run, t);
      }
      run := run + [t];
    }

    /** `recover_promotion_locked`; `held` are the entries whose lock somebody else holds,
        and recovery leaves those alone. */
    method RecoverPromotionLocked(held: set<string>, faults: (nat, Op) -> Fault, journalFault: bool)
      returns (result: Result<(), RecoveryError>)
      requires Valid()
      modifies this
      ensures old(run) <= run && Valid()
      ensures journal == if result.Ok? then NoJournal else old(journal)
      ensures entries.Keys == old(entries).Keys && forall k :: k in entries && k in held ==> entries[k] == old(entries)[k]
      ensures old(journal).NoJournal? ==> entries == old(entries)
      ensures (forall i, op :: faults(i, op) == Go) && !journalFault ==>
        (result, Disk(entries, journal)) == Recover(old(Disk(entries, journal)), held)
    {
      if journal.NoJournal? {
        return Ok(());
      } else if journal.TornJournal? {
        return Err(InvalidData);
      } else if journal.size > MAX_JOURNAL_BYTES || journal.records == [] {
        return Err(PromotionUncertain);
      }
      var busy := LockEntries(journal.records, held);
      if busy.Some? {
        return Err(busy.value);
      }
      OthersAreBase();
      ghost var d := Disk(entries, journal);
      assert Recover(d, held).0 == RecoverFrom(journal.records, 0, entries).0;
      assert Recover(d, held).1.entries == RecoverFrom(journal.records, 0, entries).1;
      result := RecoverEntries(faults);
      OthersAreBase();
      if result.Ok? {
        var ok := RemoveJournal(journalFault);
        if !ok {
          result := Err(IoFailure);
        }
      }
    }

    /** Takes the lock of every journaled entry, or reports the first that cannot be had. */
    method LockEntries(records: seq<Record>, held: set<string>) returns (error: Option<RecoveryError>)
      ensures error == LockError(records, 0, entries, held)
      ensures error.None? ==> forall i :: 0 <= i < |records| ==> records[i].key in entries && records[i].key !in held
    {
      for i := 0 to |records|
        invariant LockError(records, 0, entries, held) == LockError(records, i, entries, held)
        invariant forall j :: 0 <= j < i ==> records[j].key in entries && records[j].key !in held
      {
        if records[i].key !in entries {
          return Some(IoFailure);
        } else if records[i].key in held {
          return Some(LockBusy);
        }
      }
      return None;
    }

    lemma OthersAreBase()
      requires Recording() && journal.Written?
      ensures entries.Keys == Now().base.Keys
      ensures forall k :: k in entries && !Journaled(journal.records, k) ==> entries[k] == Now().base[k]
    {
      RunKeepsInv(run, |run| - 1);
    }

    /** The loop of `recover_promotion_locked` over the journaled entries. */
    method RecoverEntries(faults: (nat, Op) -> Fault) returns (result: Result<(), RecoveryError>)
      requires Valid() && journal.Written? && journal.records != [] && journal.size <= MAX_JOURNAL_BYTES
      modifies this`entries, this`run
      ensures Going()
      ensures result.Err? ==> Valid()
      ensures result.Ok? ==> Inside(Recovering, |journal.records| - 1, [])
      ensures (forall i, op :: faults(i, op) == Go) ==>
        (result, entries) == RecoverFrom(journal.records, 0, old(entries))
    {
      var records := journal.records;
      var i := 0;
      while i < |records|
        invariant Going() && i <= |records|
        invariant if i == 0 then Valid() else Inside(Recovering, i - 1, [])
        invariant (forall n, op :: faults(n, op) == Go) ==>
          RecoverFrom(records, i, entries) == RecoverFrom(records, 0, old(entries))
      {
        assert records[i].key in entries by { KeysStay(); }
        result := RecoverOne(i, faults);
        if result.Err? {
          return;
        }
        i := i + 1;
      }
      result := Ok(());
    }

    /** First half of `create_promotion_journal`: one record per prepared entry. */
    method BuildRecords(prepared: seq<Prepared>) returns (result: Result<seq<Record>, PromotionError>)
      requires forall i :: 0 <= i < |prepared| ==> prepared[i].key in entries
      ensures result.Err? <==> exists i, j :: 0 <= i < j < |prepared| && prepared[i].key == prepared[j].key
      ensures result.Err? ==> result.error == GenerationMismatch
      ensures result.Ok? ==> result.value == RecordsOf(prepared, entries) && DistinctKeys(result.value)
      ensures result.Ok? ==> |result.value| == |prepared|
      ensures result.Ok? ==>
        forall i :: 0 <= i < |prepared| ==> Records(result.value[i], prepared[i], entries[prepared[i].key])
    {
      var records: seq<Record> := [];
      var paths: set<string> := {};
      for n := 0 to |prepared|
        invariant records == RecordsOf(prepared[..n], entries)
        invariant paths == set i | 0 <= i < n :: prepared[i].key
        invariant forall i, j :: 0 <= i < j < n ==> prepared[i].key != prepared[j].key
      {
        if prepared[n].key in paths {
          return Err(GenerationMismatch);
        }
        paths := paths + {prepared[n].key};
        records := records + [RecordOf(prepared[n], entries[prepared[n].key])];
      }
      assert prepared[..|prepared|] == prepared;
      return Ok(records);
    }

    /** Second half: the journal file. The staging directories prepared earlier are what the
        journaled staging names denote from here on; `torn` interrupts the write. */
    method WriteJournal(records: seq<Record>, size: nat, torn: bool)
      requires Valid() && journal.NoJournal? && CanBegin(entries, records)
      modifies this
      ensures old(run) <= run
      ensures entries == Prepare(old(entries), records)
      ensures torn ==> Valid() && journal == TornJournal
      ensures !torn ==> journal == Written(records, size) && Now().base == old(entries)
      ensures !torn ==> Inside(Executing, 0, PromotionOps(records[0]))
    {
      ghost var s := Now();
      ghost var t;
      entries := Prepare(entries, records);
      if torn {
        journal := TornJournal;
        t := s.(disk := Disk(entries, journal));
      } else {
        journal := Written(records, size);
        t := Sys(Disk(entries, journal), s.disk.entries, 0, true, Busy(Executing, 0, PromotionOps(records[0])));
      }
      assert Run(run + [t]) by {
        BeginIsNext(s, t, records, size, torn);
        ExtendRun(run, t);
      }
      run := run + [t];
    }

    lemma RecordsCanBegin(prepared: seq<Prepared>)
      requires Valid() && journal.NoJournal? && prepared != []
      requires forall i :: 0 <= i < |prepared| ==> prepared[i].key in entries && CanPromote(prepared[i], entries)
      requires DistinctKeys(RecordsOf(prepared, entries))
      ensures CanBegin(entries, RecordsOf(prepared, entries))
    {
      RunKeepsInv(run, |run| - 1);
    }

    /** Execution and finalization under the journal just written. */
    method PromoteRecords(promotion: (nat, Op) -> Fault, cleanup: (nat, Op) -> Fault, journalFault: bool)
      returns (ok: bool)
      requires journal.Written? && journal.records != []
      requires Inside(Executing, 0, PromotionOps(journal.records[0]))
      modifies this
      ensures Going() && Valid()
      ensures journal == if ok then NoJournal else old(journal)
      ensures ok ==> AllNew(old(journal).records)
      ensures NoFault(promotion) && NoFault(cleanup) && !journalFault ==> ok
    {
      ok := ExecutePromotion(promotion);
      if ok {
        ok := FinalizePromotion(cleanup, journalFault);
      }
    }

    /** `promote_entries`: recover what an earlier promotion left, then write the journal,
        promote and clean up. When it completes, every prepared entry is exactly the new
        generation, and if there was nothing to recover every other entry is as it was.
        `journalFaults` strike at the journal's removal by recovery, its creation and its
        removal by finalization. */
    method PromoteEntries(prepared: seq<Prepared>, size: nat, held: set<string>,
                          recovery: (nat, Op) -> Fault, promotion: (nat, Op) -> Fault, cleanup: (nat, Op) -> Fault,
                          journalFaults: (bool, bool, bool))
      returns (result: Result<PromotionOutcome, PromotionError>)
      requires Valid()
      requires forall i :: 0 <= i < |prepared| ==> prepared[i].key in entries && CanPromote(prepared[i], entries)
      requires forall i :: 0 <= i < |prepared| ==> prepared[i].key in held
      modifies this
      ensures old(run) <= run && Valid()
      ensures result == Ok(NotAttempted) <==> prepared == []
      ensures prepared == [] ==> entries == old(entries) && journal == old(journal)
      ensures result == Ok(Completed) ==> journal == NoJournal && entries.Keys == old(entries).Keys
      ensures result == Ok(Completed) ==> Promoted(RecordsOf(prepared, old(entries)), entries)
      ensures result == Ok(Completed) ==> AllPromoted(prepared, entries)
      ensures result == Ok(Completed) && old(journal).NoJournal? ==> OnlyPrepared(prepared, old(entries), entries)
      ensures
        && prepared != [] && DistinctPrepared(prepared)
        && Recover(old(Disk(entries, journal)), held).0.Ok?
        && NoFault(recovery) && NoFault(promotion) && NoFault(cleanup) && journalFaults == (false, false, false)
        ==> result == Ok(Completed)
    {
      if prepared == [] {
        return Ok(NotAttempted);
      }
      var recovered := RecoverPromotionLocked(held, recovery, journalFaults.0);
      if recovered.Err? {
        return Err(Recovery(recovered.error));
      }
      assert RecordsOf(prepared, entries) == RecordsOf(prepared, old(entries));
      result := JournalAndPromote(prepared, size, promotion, cleanup, journalFaults.1, journalFaults.2);
    }

    /** The part of `promote_entries` after recovery. */
    method JournalAndPromote(prepared: seq<Prepared>, size: nat, promotion: (nat, Op) -> Fault, cleanup: (nat, Op) -> Fault,
                             torn: bool, journalFault: bool)
      returns (result: Result<PromotionOutcome, PromotionError>)
      requires Valid() && journal.NoJournal? && prepared != []
      requires forall i :: 0 <= i < |prepared| ==> prepared[i].key in entries && CanPromote(prepared[i], entries)
      modifies this
      ensures old(run) <= run && Valid()
      ensures result != Ok(NotAttempted)
      ensures result == Ok(Completed) ==> journal == NoJournal && entries.Keys == old(entries).Keys
      ensures result == Ok(Completed) ==> Promoted(RecordsOf(prepared, old(entries)), entries)
      ensures result == Ok(Completed) ==> AllPromoted(prepared, entries)
      ensures result == Ok(Completed) ==> OnlyPrepared(prepared, old(entries), entries)
      ensures DistinctPrepared(prepared) && NoFault(promotion) && NoFault(cleanup) && !torn && !journalFault ==>
        result == Ok(Completed)
    {
      var built := BuildRecords(prepared);
      if built.Err? {
        return Err(built.error);
      }
      RecordsCanBegin(prepared);
      WriteJournal(built.value, size, torn);
      if torn {
        return Err(Stopped);
      }
      var ok := PromoteRecords(promotion, cleanup, journalFault);
      if !ok {
        return Err(Stopped);
      }
      assert AllPromoted(prepared, entries) && OnlyPrepared(prepared, old(entries), entries) by {
        PreparedArePromoted(prepared, built.value, old(entries), entries);
      }
      return Ok(Completed);
    }
  }

  lemma BeginIsNext(s: Sys, t: Sys, records: seq<Record>, size: nat, torn: bool)
    requires s.control.Idle? && s.disk.journal.NoJournal? && CanBegin(s.disk.entries, records)
    requires t == if torn then s.(disk := Disk(Prepare(s.disk.entries, records), TornJournal))
                  else Sys(Disk(Prepare(s.disk.entries, records), Written(records, size)), s.disk.entries, 0, true,
                           Busy(Executing, 0, PromotionOps(records[0])))
    ensures Next(s, t)
  {
    assert if torn then BeginTorn(s, t, records) else Begin(s, t);
  }

  predicate DistinctPrepared(prepared: seq<Prepared>) {
    forall i, j :: 0 <= i < j < |prepared| ==> prepared[i].key != prepared[j].key
  }

  predicate AllPromoted(prepared: seq<Prepared>, entries: map<string, Entry>) {
    forall i :: 0 <= i < |prepared| ==> prepared[i].key in entries && IsPromoted(prepared[i], entries[prepared[i].key])
  }

  /** Every entry with a record is exactly its new generation. */
  predicate Promoted(records: seq<Record>, entries: map<string, Entry>) {
    forall i :: 0 <= i < |records| ==>
      records[i].key in entries && entries[records[i].key] == ExactlyNew(records[i])
  }

  /** The entry holds the generation that was prepared, and nothing else: its payload, the
      manifest that names it, and the marker. */
  predicate IsPromoted(p: Prepared, e: Entry) {
    && e.data == Some(Tree(p.gen, true)) && e.backup.None? && e.staging.None? && e.marker == Some(CompleteBytes)
    && e.manifest.Some? && e.manifest.value.gen == p.gen && e.manifest.value.text.Doc?
    && var m := e.manifest.value.text.manifest;
    && m.schemaVersion == GENERATION_SCHEMA_VERSION && m.keyDigest == p.key && m.planDigest == p.plan
    && m.generation == p.generation && m.state == "complete"
  }

  /** The record has the identity of the prepared generation and the entry's present state. */
  predicate Records(r: Record, p: Prepared, e: Entry) {
    && r.key == p.key && r.plan == p.plan && r.generation == p.generation && r.gen == p.gen
    && (r.hadCurrent <==> e.data.Some?) && r.previousMarker == e.marker && r.previousManifest == e.manifest
  }

  function RecordOf(p: Prepared, e: Entry): Record {
    Record(p.key, p.plan, p.generation, p.gen, e.data.Some?, e.marker, e.manifest)
  }

  lemma PreparedArePromoted(prepared: seq<Prepared>, records: seq<Record>, before: map<string, Entry>,
                            entries: map<string, Entry>)
    requires |records| == |prepared| && Promoted(records, entries) && entries.Keys == before.Keys
    requires forall i :: 0 <= i < |prepared| ==>
      prepared[i].key in before && Records(records[i], prepared[i], before[prepared[i].key])
    requires forall k :: k in entries && !Journaled(records, k) ==> entries[k] == before[k]
    ensures AllPromoted(prepared, entries) && OnlyPrepared(prepared, before, entries)
  {
    forall i | 0 <= i < |prepared|
      ensures prepared[i].key in entries && IsPromoted(prepared[i], entries[prepared[i].key])
    {
      assert entries[records[i].key] == ExactlyNew(records[i]);
    }
  }

  /** Every other entry is as it was. */
  predicate OnlyPrepared(prepared: seq<Prepared>, before: map<string, Entry>, entries: map<string, Entry>) {
    && entries.Keys == before.Keys
    && forall k :: k in entries && (forall i :: 0 <= i < |prepared| ==> prepared[i].key != k) ==> entries[k] == before[k]
  }

  function RecordsOf(prepared: seq<Prepared>, entries: map<string, Entry>): seq<Record>
    requires forall i :: 0 <= i < |prepared| ==> prepared[i].key in entries
  {
    seq(|prepared|, i requires 0 <= i < |prepared| => RecordOf(prepared[i], entries[prepared[i].key]))
  }

  /** What the successful `prepare_entry` of this entry established, under the entry lock
      that is still held. */
  predicate CanPromote(p: Prepared, entries: map<string, Entry>) {
    && p.key in entries && Preparable(entries[p.key]) && ValidDigest(p.plan)
    && (entries[p.key].data.Some? ==> p.gen != entries[p.key].data.value.gen)
  }
}
