/**
 What one uninterrupted recovery makes of the disk (src/cache.rs:683-748), for
 every state that promotions, crashes and interrupted recoveries can leave.
 */
module CacheRecovery {
  import opened Common
  import opened CacheDisk
  import opened CachePromotion

  /** The calls in order, up to the first that fails. */
  function Apply(ops: seq<Op>, r: Record, e: Entry): (bool, Entry)
    decreases |ops|
  {
    if ops == [] then (true, e)
    else
      match Effect(ops[0], r, e)
      case None => (false, e)
      case Some(after) => Apply(ops[1..], r, after)
  }

  function RecoverFrom(records: seq<Record>, i: nat, entries: map<string, Entry>)
    : (Result<(), RecoveryError>, map<string, Entry>)
    requires i <= |records|
    decreases |records| - i
  {
    if i == |records| then (Ok(()), entries)
    else if records[i].key !in entries then (Err(IoFailure), entries)
    else
      var r := records[i];
      match RecoveryPlan(r, entries[r.key])
      case Err(error) => (Err(error), entries)
      case Ok(ops) =>
        var (ok, e) := Apply(ops, r, entries[r.key]);
        if ok then RecoverFrom(records, i + 1, entries[r.key := e])
        else (Err(IoFailure), entries[r.key := e])
  }

  /** The first error met while checking and locking the journaled entry directories. */
  function LockError(records: seq<Record>, i: nat, entries: map<string, Entry>, held: set<string>)
    : Option<RecoveryError>
    requires i <= |records|
    decreases |records| - i
  {
    if i == |records| then None
    else if records[i].key !in entries then Some(IoFailure)
    else if records[i].key in held then Some(LockBusy)
    else LockError(records, i + 1, entries, held)
  }

  /** `recover_promotion_locked` when nothing interrupts it; `held` are the keys whose
      entry lock somebody else holds. */
  function Recover(d: Disk, held: set<string>): (Result<(), RecoveryError>, Disk) {
    match d.journal
    case NoJournal => (Ok(()), d)
    case TornJournal => (Err(InvalidData), d)
    case Written(records, size) =>
      if size > MAX_JOURNAL_BYTES || records == [] then (Err(PromotionUncertain), d)
      else if LockError(records, 0, d.entries, held).Some? then (Err(LockError(records, 0, d.entries, held).value), d)
      else
        var (result, entries) := RecoverFrom(records, 0, d.entries);
        (result, Disk(entries, if result.Ok? then NoJournal else d.journal))
  }

  // ---------------------------------------------------------------------------
  // One entry
  // ---------------------------------------------------------------------------

  /** The new generation and nothing beside it. */
  function ExactlyNew(r: Record): Entry {
    Entry(Some(Tree(r.gen, true)), None, None, Some(NewManifest(r)), Some(CompleteBytes))
  }

  /** The entry as it was; a first-time entry is emptied. */
  function Restored(r: Record, b: Entry): Entry {
    if r.hadCurrent then b else Entry(None, None, None, None, None)
  }

  /** The two situations recovery refuses: a first-time payload without its complete
      marker, and an old payload put back without both of its files. */
  predicate FirstTimeUnmarked(r: Record, e: Entry) {
    !r.hadCurrent && e.data.Some? && e.marker != Some(CompleteBytes)
  }

  predicate HalfRestored(r: Record, b: Entry, e: Entry) {
    r.hadCurrent && e.data == b.data && e.backup.None? && (e.marker != b.marker || e.manifest != b.manifest)
  }

  lemma ApplyStep(op: Op, rest: seq<Op>, r: Record, e: Entry)
    requires Effect(op, r, e).Some?
    ensures Apply([op] + rest, r, e) == Apply(rest, r, Effect(op, r, e).value)
  {
    assert ([op] + rest)[1..] == rest;
  }

  lemma ApplyCleanup(r: Record, e: Entry)
    ensures Apply(CleanupOps(), r, e) == (true, e.(backup := None, staging := None))
  {
    assert CleanupOps() == [RemoveBackup] + ([RemoveStaging] + []);
    ApplyStep(RemoveBackup, [RemoveStaging] + [], r, e);
    ApplyStep(RemoveStaging, [], r, e.(backup := None));
  }

  lemma ApplyRollback(r: Record, e: Entry)
    requires e.backup.Some?
    ensures Apply(RollbackOps(), r, e)
         == (true, Entry(e.backup, None, None, r.previousManifest, r.previousMarker))
  {
    RolledBackIs(7, r, e);
    assert RollbackOps()[..7] == RollbackOps();
  }

  lemma ApplyEmptying(r: Record, e: Entry)
    ensures Apply([RemoveMarker, RemoveManifest, RemoveStaging], r, e)
         == (true, e.(marker := None, manifest := None, staging := None))
  {
    var t2 := [RemoveStaging];
    var t1 := [RemoveManifest] + t2;
    assert [RemoveMarker, RemoveManifest, RemoveStaging] == [RemoveMarker] + t1 && t2 == [RemoveStaging] + [];
    ApplyStep(RemoveMarker, t1, r, e);
    ApplyStep(RemoveManifest, t2, r, e.(marker := None));
    ApplyStep(RemoveStaging, [], r, e.(marker := None, manifest := None));
  }

  /** Recovery decides every reachable entry one way: refuse, keep exactly the new
      generation, or restore. */
  lemma RecoverEntry(z: Zone, r: Record, b: Entry, e: Entry)
    requires Recorded(r, b) && Shape(z, r, b, e)
    ensures if FirstTimeUnmarked(r, e) || HalfRestored(r, b, e)
            then RecoveryPlan(r, e) == Err(PromotionUncertain)
            else RecoveryPlan(r, e).Ok? && Apply(RecoveryPlan(r, e).value, r, e)
                   == (true, if Installed(r, e) then ExactlyNew(r) else Restored(r, b))
  {
    if CurrentIsComplete(r, e) == Ok(true) {
      ApplyCleanup(r, e);
    } else if r.hadCurrent && e.backup.Some? {
      ApplyRollback(r, e);
    } else if r.hadCurrent {
      if CurrentMatchesPrevious(r, e) {
        ApplyStep(RemoveStaging, [], r, e);
        assert [RemoveStaging] + [] == [RemoveStaging];
      }
    } else {
      ApplyEmptying(r, e);
    }
  }

  // ---------------------------------------------------------------------------
  // The whole journal
  // ---------------------------------------------------------------------------

  /** Recovery refuses the entry, or turns it into `settled`. */
  predicate Decides(r: Record, e: Entry, refuse: bool, settled: Entry) {
    if refuse then RecoveryPlan(r, e) == Err(PromotionUncertain)
    else RecoveryPlan(r, e).Ok? && Apply(RecoveryPlan(r, e).value, r, e) == (true, settled)
  }

  /** `entries` is `before` with the first `i` journaled entries settled. */
  predicate SettledUpTo(records: seq<Record>, before: map<string, Entry>, settled: seq<Entry>, i: nat,
                        entries: map<string, Entry>)
    requires |settled| == |records|
  {
    && entries.Keys == before.Keys
    && (forall k :: k in entries && !Journaled(records, k) ==> entries[k] == before[k])
    && (forall j :: 0 <= j < |records| ==>
          && records[j].key in entries
          && entries[records[j].key] == if j < i then settled[j] else before[records[j].key])
  }

  /** Recovery settles records one after another until the first it refuses. */
  lemma {:induction false} SettleFrom(records: seq<Record>, before: map<string, Entry>, settled: seq<Entry>,
                                      stop: nat, i: nat, entries: map<string, Entry>)
    requires DistinctKeys(records) && |settled| == |records| && i <= stop <= |records|
    requires SettledUpTo(records, before, settled, i, entries)
    requires forall j :: 0 <= j < |records| && j <= stop ==>
      records[j].key in before && Decides(records[j], before[records[j].key], j == stop, settled[j])
    ensures var (result, out) := RecoverFrom(records, i, entries);
      && result == (if stop < |records| then Err(PromotionUncertain) else Ok(()))
      && SettledUpTo(records, before, settled, stop, out)
    decreases |records| - i
  {
    if i < |records| {
      var r := records[i];
      assert Decides(r, entries[r.key], i == stop, settled[i]);
      if i < stop {
        var out := entries[r.key := settled[i]];
        assert SettledUpTo(records, before, settled, i + 1, out) by {
          SettleOne(records, before, settled, i, entries);
        }
        SettleFrom(records, before, settled, stop, i + 1, out);
      }
    }
  }

  lemma SettleOne(records: seq<Record>, before: map<string, Entry>, settled: seq<Entry>, i: nat,
                  entries: map<string, Entry>)
    requires DistinctKeys(records) && |settled| == |records| && i < |records|
    requires SettledUpTo(records, before, settled, i, entries)
    ensures SettledUpTo(records, before, settled, i + 1, entries[records[i].key := settled[i]])
  {
    JournaledAt(records, i);
    assert forall j :: 0 <= j < |records| && j != i ==> records[j].key != records[i].key;
  }

  lemma {:induction false} NoLockError(records: seq<Record>, i: nat, entries: map<string, Entry>)
    requires i <= |records|
    requires forall j :: i <= j < |records| ==> records[j].key in entries
    ensures LockError(records, i, entries, {}) == None
    decreases |records| - i
  {
    if i < |records| {
      NoLockError(records, i + 1, entries);
    }
  }

  lemma {:induction false} SameLockError(records: seq<Record>, i: nat, m: map<string, Entry>, w: map<string, Entry>)
    requires i <= |records| && m.Keys == w.Keys
    ensures LockError(records, i, m, {}) == LockError(records, i, w, {})
    decreases |records| - i
  {
    if i < |records| {
      SameLockError(records, i + 1, m, w);
    }
  }

  /** The process is gone and has left a journal. */
  predicate Crashed(s: Sys) {
    s.control.Idle? && s.disk.journal.Written?
  }

  predicate Stuck(r: Record, b: Entry, e: Entry) {
    FirstTimeUnmarked(r, e) || HalfRestored(r, b, e)
  }

  function Settled(r: Record, b: Entry, e: Entry): Entry {
    if Installed(r, e) then ExactlyNew(r) else Restored(r, b)
  }

  /** Only the record promotion was working on can be stuck; those before it are
      new, those after it are old. */
  lemma DecideRecord(s: Sys, j: nat)
    requires Inv(s) && Crashed(s) && j < |s.disk.journal.records|
    ensures var r := s.disk.journal.records[j];
      && r.key in s.disk.entries && r.key in s.base
      && var b, e := s.base[r.key], s.disk.entries[r.key];
      && Decides(r, e, Stuck(r, b, e), Settled(r, b, e))
      && (Stuck(r, b, e) ==> j == s.front)
      && (Stuck(r, b, e) && s.clean ==> FirstTimeUnmarked(r, e))
      && (j < s.front ==> Installed(r, e)) && (j > s.front ==> !Installed(r, e))
  {
    var r := s.disk.journal.records[j];
    assert EntryInv(s, j, r, s.base[r.key], s.disk.entries[r.key]);
    RecoverEntry(ZoneOf(j, s.front, s.clean), r, s.base[r.key], s.disk.entries[r.key]);
  }

  /** The first `k` records are exactly new and the others exactly restored. */
  predicate SplitAt(records: seq<Record>, base: map<string, Entry>, entries: map<string, Entry>, k: nat) {
    forall j :: 0 <= j < |records| ==>
      && records[j].key in base && records[j].key in entries
      && entries[records[j].key] == if j < k then ExactlyNew(records[j]) else Restored(records[j], base[records[j].key])
  }

  predicate StuckAt(d: Disk, base: map<string, Entry>, j: nat)
    requires d.journal.Written?
  {
    && j < |d.journal.records|
    && var r := d.journal.records[j];
    && r.key in d.entries && r.key in base && Stuck(r, base[r.key], d.entries[r.key])
  }

  /** If no recovery had started since the journal was written, a stuck record is a
      first-time entry whose payload was moved in without its complete marker. */
  lemma FirstRecoveryRefusal(states: seq<Sys>, n: nat, j: nat)
    requires Run(states) && n < |states| && Crashed(states[n]) && states[n].clean
    ensures StuckAt(states[n].disk, states[n].base, j) <==>
      && j < |states[n].disk.journal.records|
      && var r := states[n].disk.journal.records[j];
      && r.key in states[n].disk.entries && FirstTimeUnmarked(r, states[n].disk.entries[r.key])
  {
    RunKeepsInv(states, n);
    if j < |states[n].disk.journal.records| {
      DecideRecord(states[n], j);
    }
  }

  /** The decision about record `j` when promotion had reached record `front`. */
  predicate Decided(d: Disk, base: map<string, Entry>, front: nat, j: nat)
    requires d.journal.Written? && j < |d.journal.records|
  {
    var r := d.journal.records[j];
    && r.key in d.entries && r.key in base
    && Decides(r, d.entries[r.key], StuckAt(d, base, j), Settled(r, base[r.key], d.entries[r.key]))
    && (StuckAt(d, base, j) ==> j == front)
    && (j < front ==> Installed(r, d.entries[r.key])) && (j > front ==> !Installed(r, d.entries[r.key]))
  }

  predicate AllDecided(d: Disk, base: map<string, Entry>, front: nat) {
    && d.journal.Written? && d.journal.records != [] && DistinctKeys(d.journal.records)
    && base.Keys == d.entries.Keys
    && (forall key :: key in d.entries && !Journaled(d.journal.records, key) ==> d.entries[key] == base[key])
    && (forall j :: 0 <= j < |d.journal.records| ==> Decided(d, base, front, j))
  }

  lemma CrashIsDecided(s: Sys)
    requires Inv(s) && Crashed(s)
    ensures AllDecided(s.disk, s.base, s.front)
  {
    forall j | 0 <= j < |s.disk.journal.records|
      ensures Decided(s.disk, s.base, s.front, j)
    {
      DecideRecord(s, j);
    }
  }

  lemma RecoverDecided(d: Disk, base: map<string, Entry>, front: nat) returns (k: nat)
    requires AllDecided(d, base, front)
    ensures var records := d.journal.records;
      var (result, out) := RecoverFrom(records, 0, d.entries);
      && out.Keys == d.entries.Keys
      && (if exists j :: StuckAt(d, base, j) then result == Err(PromotionUncertain)
          else result == Ok(()) && k <= |records| && SplitAt(records, base, out, k))
      && (forall key :: key in out && !Journaled(records, key) ==> out[key] == base[key])
  {
    var records := d.journal.records;
    forall j | 0 <= j < |records|
      ensures records[j].key in d.entries && records[j].key in base
    {
      assert Decided(d, base, front, j);
    }
    var settled := seq(|records|, j requires 0 <= j < |records| =>
      Settled(records[j], base[records[j].key], d.entries[records[j].key]));
    var stop := if StuckAt(d, base, front) then front else |records|;
    k := if front >= |records| then |records|
         else if Installed(records[front], d.entries[records[front].key]) then front + 1 else front;
    forall j | 0 <= j < |records|
      ensures StuckAt(d, base, j) <==> j == stop
      ensures Decides(records[j], d.entries[records[j].key], j == stop, settled[j])
      ensures settled[j] == if j < k then ExactlyNew(records[j]) else Restored(records[j], base[records[j].key])
    {
      assert Decided(d, base, front, j);
    }
    SettleFrom(records, d.entries, settled, stop, 0, d.entries);
  }

  /** Uninterrupted recovery from any state a run can crash in. It refuses exactly when
      the journal is too large or some record is stuck; otherwise the first `k` entries are
      exactly new, the rest exactly restored to the state the journal was written in, and
      no journal is left. Entries that are not journaled stay as they were. */
  lemma RecoveryOutcome(states: seq<Sys>, n: nat) returns (k: nat)
    requires Run(states) && n < |states| && Crashed(states[n])
    ensures var s := states[n];
      var records := s.disk.journal.records;
      var (result, d) := Recover(s.disk, {});
      var refuse := s.disk.journal.size > MAX_JOURNAL_BYTES || exists j :: StuckAt(s.disk, s.base, j);
      && d.entries.Keys == s.disk.entries.Keys == s.base.Keys
      && (if refuse then result == Err(PromotionUncertain) && d.journal == s.disk.journal
          else result == Ok(()) && d.journal == NoJournal && k <= |records| && SplitAt(records, s.base, d.entries, k))
      && (forall key :: key in d.entries && !Journaled(records, key) ==> d.entries[key] == s.base[key])
  {
    var s := states[n];
    assert AllDecided(s.disk, s.base, s.front) by {
      RunKeepsInv(states, n);
      CrashIsDecided(s);
    }
    forall j | 0 <= j < |s.disk.journal.records|
      ensures s.disk.journal.records[j].key in s.disk.entries
    {
      assert Decided(s.disk, s.base, s.front, j);
    }
    NoLockError(s.disk.journal.records, 0, s.disk.entries);
    k := RecoverDecided(s.disk, s.base, s.front);
  }

  /** A restored entry is the entry it was before exactly when it had a payload or had no
      manifest: rolling back a first-time entry also deletes a manifest that was there
      before (src/cache.rs:738-741). */
  lemma RestoredExactly(r: Record, b: Entry)
    requires Recorded(r, b)
    ensures Restored(r, b) == b <==> r.hadCurrent || b.manifest.None?
  {
  }

  /** The entry after the first `m` calls of a rollback. */
  function RolledBack(m: nat, r: Record, e: Entry): Entry
    requires m <= 7
  {
    Apply(RollbackOps()[..m], r, e).1
  }

  lemma {:induction false} ApplySnoc(ops: seq<Op>, op: Op, r: Record, e: Entry)
    requires Apply(ops, r, e).0 && Effect(op, r, Apply(ops, r, e).1).Some?
    ensures Apply(ops + [op], r, e) == (true, Effect(op, r, Apply(ops, r, e).1).value)
    decreases |ops|
  {
    if ops == [] {
      assert [] + [op] == [op] && [op][1..] == [];
    } else {
      ApplySnoc(ops[1..], op, r, Effect(ops[0], r, e).value);
      assert (ops + [op])[1..] == ops[1..] + [op];
    }
  }

  lemma {:induction false} RolledBackIs(m: nat, r: Record, e: Entry)
    requires m <= 7 && e.backup.Some?
    ensures Apply(RollbackOps()[..m], r, e).0
    ensures RolledBack(m, r, e) == Entry(
      if m == 0 then e.data else if m < 4 then None else e.backup,
      if m < 4 then e.backup else None,
      if m < 7 then e.staging else None,
      if m < 3 then e.manifest else if m < 5 then None else r.previousManifest,
      if m < 2 then e.marker else if m < 6 then None else r.previousMarker)
  {
    if m > 0 {
      RolledBackIs(m - 1, r, e);
      assert RollbackOps()[..m] == RollbackOps()[..m - 1] + [RollbackOps()[m - 1]];
      ApplySnoc(RollbackOps()[..m - 1], RollbackOps()[m - 1], r, e);
    }
  }

  /** The window in which a crash inside a rollback makes the next recovery refuse: after
      the old payload is back and before both files are. */
  lemma RollbackWindow(z: Zone, r: Record, b: Entry, e: Entry, m: nat)
    requires Recorded(r, b) && r.hadCurrent && Shape(z, r, b, e) && e.backup.Some? && !Installed(r, e)
    requires m <= 7
    ensures Stuck(r, b, RolledBack(m, r, e)) <==>
      (m == 4 && (b.manifest.Some? || b.marker.Some?)) || (m == 5 && b.marker.Some?)
  {
    RolledBackIs(m, r, e);
  }

  /** The same for an interruption inside any call `m` of the rollback, with the debris it
      leaves: recovery then refuses exactly when the payload is back and the marker or the
      manifest is not what it was. */
  lemma RollbackInterrupted(z: Zone, r: Record, b: Entry, e: Entry, m: nat, after: Entry)
    requires Recorded(r, b) && r.hadCurrent && Shape(z, r, b, e) && e.backup.Some? && !Installed(r, e)
    requires m < 7 && Debris(RollbackOps()[m], r, RolledBack(m, r, e), after)
    ensures Stuck(r, b, after) <==>
      || (m == 3 && after.backup.None? && (b.manifest.Some? || b.marker.Some?))
      || (m == 4 && (after.manifest != b.manifest || b.marker.Some?))
      || (m == 5 && after.marker != b.marker)
  {
    RolledBackIs(m, r, e);
  }

  // ---------------------------------------------------------------------------
  // Dropping prepared entries after a failure
  // ---------------------------------------------------------------------------

  predicate SameButStaging(e: Entry, f: Entry) {
    e.(staging := None) == f.(staging := None)
  }

  lemma EntryIgnoresStaging(r: Record, e: Entry, f: Entry)
    requires SameButStaging(e, f)
    ensures RecoveryPlan(r, e) == RecoveryPlan(r, f)
    ensures RecoveryPlan(r, e).Ok? ==> Apply(RecoveryPlan(r, e).value, r, e) == Apply(RecoveryPlan(r, f).value, r, f)
  {
    if RecoveryPlan(r, e).Ok? {
      if CurrentIsComplete(r, e) == Ok(true) {
        ApplyCleanup(r, e);
        ApplyCleanup(r, f);
      } else if r.hadCurrent && e.backup.Some? {
        ApplyRollback(r, e);
        ApplyRollback(r, f);
      } else if r.hadCurrent {
        assert [RemoveStaging] + [] == [RemoveStaging];
        ApplyStep(RemoveStaging, [], r, e);
        ApplyStep(RemoveStaging, [], r, f);
      } else {
        ApplyEmptying(r, e);
        ApplyEmptying(r, f);
      }
    }
  }

  predicate DiffersInStaging(records: seq<Record>, i: nat, m: map<string, Entry>, w: map<string, Entry>) {
    && m.Keys == w.Keys
    && (forall k :: k in m ==> SameButStaging(m[k], w[k]))
    && (forall k :: k in m && m[k] != w[k] ==> exists j :: i <= j < |records| && records[j].key == k)
  }

  lemma {:induction false} RecoverFromIgnoresStaging(records: seq<Record>, i: nat, m: map<string, Entry>,
                                                     w: map<string, Entry>)
    requires DistinctKeys(records) && i <= |records| && DiffersInStaging(records, i, m, w)
    ensures var (rm, mo) := RecoverFrom(records, i, m);
      var (rw, wo) := RecoverFrom(records, i, w);
      && rm == rw && (rm.Ok? ==> mo == wo)
      && mo.Keys == wo.Keys && (forall k :: k in mo ==> SameButStaging(mo[k], wo[k]))
    decreases |records| - i
  {
    if i < |records| && records[i].key in m {
      var r := records[i];
      EntryIgnoresStaging(r, m[r.key], w[r.key]);
      if RecoveryPlan(r, m[r.key]).Ok? {
        var (ok, e) := Apply(RecoveryPlan(r, m[r.key]).value, r, m[r.key]);
        var m', w' := m[r.key := e], w[r.key := e];
        forall k | k in m' && m'[k] != w'[k]
          ensures exists j :: i + 1 <= j < |records| && records[j].key == k
        {
          var j :| i <= j < |records| && records[j].key == k;
          assert j != i;
        }
        if ok {
          RecoverFromIgnoresStaging(records, i + 1, m', w');
        }
      }
    }
  }

  predicate SameButStagings(c: Disk, d: Disk) {
    && c.journal == d.journal && c.entries.Keys == d.entries.Keys
    && forall k :: k in c.entries ==> SameButStaging(c.entries[k], d.entries[k])
  }

  /** A promotion that failed without a crash: `Drop` of a prepared entry deletes a staging
      directory only while no call has moved anything of that entry, and whatever it
      deletes, recovery answers the same. It leaves the same disk when it succeeds, and one
      that differs in staging directories at most when it refuses. */
  lemma DropsDoNotMatter(states: seq<Sys>, n: nat, t: Sys, j: nat)
    requires Run(states) && n < |states| && states[n].clean && Drop(states[n], t, j)
    ensures var s := states[n];
      var r := s.disk.journal.records[j];
      && r.key in s.base && Untouched(s.base[r.key], s.disk.entries[r.key])
      && Recover(t.disk, {}).0 == Recover(s.disk, {}).0
      && (Recover(s.disk, {}).0.Ok? ==> Recover(t.disk, {}).1 == Recover(s.disk, {}).1)
      && SameButStagings(Recover(s.disk, {}).1, Recover(t.disk, {}).1)
  {
    var s := states[n];
    var records := s.disk.journal.records;
    var r := records[j];
    assert DistinctKeys(records) && r.key in s.base && Untouched(s.base[r.key], s.disk.entries[r.key]) by {
      RunKeepsInv(states, n);
      assert EntryInv(s, j, r, s.base[r.key], s.disk.entries[r.key]);
    }
    assert DiffersInStaging(records, 0, s.disk.entries, t.disk.entries);
    RecoverFromIgnoresStaging(records, 0, s.disk.entries, t.disk.entries);
    SameLockError(records, 0, s.disk.entries, t.disk.entries);
  }

  /** Recovery changes nothing while somebody, perhaps the caller, holds a journaled entry. */
  lemma {:induction false} HeldEntryBlocks(records: seq<Record>, i: nat, j: nat, entries: map<string, Entry>, held: set<string>)
    requires i <= j < |records| && records[j].key in held
    ensures LockError(records, i, entries, held).Some?
    decreases j - i
  {
    if i < j {
      HeldEntryBlocks(records, i + 1, j, entries, held);
    }
  }
}
