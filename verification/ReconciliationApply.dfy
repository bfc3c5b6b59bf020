/** The apply loop of reconciliation (src/admission.rs:786-1097). */
module ReconciliationApply {
  import opened Common
  import opened Order
  import opened AdmissionLimits
  import opened Reconciliation

  /** The classifications of the apply report. */
  datatype Label =
    | Quarantined
    | NotAttempted
    | LeaseRemoveFailed
    | LeaseSyncFailed
    | AfterLeaseRemoval
    | QuarantineCollision
    | MoveFailed
    | TicketMoved
    | TicketSyncFailed
    | QuarantineSyncFailed

  /** What goes wrong while one ticket is reconciled; a failed call changes nothing. */
  datatype ItemFaults = ItemFaults(
    timeout: bool,
    leaseRemove: bool,
    leaseSync: bool,
    timeoutAfterLease: bool,
    move: bool,
    timeoutAfterMove: bool,
    ticketSync: bool,
    quarantineSync: bool)

  /** `Refused` stands for every error other than `Partial`. */
  datatype ApplyResult =
    | Report(outcomes: seq<(string, Label)>)
    | Partial(outcomes: seq<(string, Label)>)
    | Refused(reason: string)

  // ---------------------------------------------------------------------------
  // What a report claims
  // ---------------------------------------------------------------------------

  predicate SameLease(before: State, after: State, id: string) {
    (id in after.leases <==> id in before.leases) && (id in after.leases ==> after.leases[id] == before.leases[id])
  }

  predicate SameTicket(before: State, after: State, id: string) {
    (id in after.tickets <==> id in before.tickets) && (id in after.tickets ==> after.tickets[id] == before.tickets[id])
  }

  /** The ticket file is in quarantine, under a name that was free, with its contents. */
  predicate MovedAway(before: State, after: State, id: string) {
    && id in before.tickets && id !in after.tickets
    && exists name :: name in after.quarantine && name !in before.quarantine && after.quarantine[name] == before.tickets[id]
  }

  /** Where the files of a ticket reported with this label are. */
  predicate Located(verdict: Label, id: string, before: State, after: State) {
    match verdict
    case NotAttempted | LeaseRemoveFailed => SameTicket(before, after, id) && SameLease(before, after, id)
    case LeaseSyncFailed => SameTicket(before, after, id) && id in before.leases && id !in after.leases
    case AfterLeaseRemoval | QuarantineCollision | MoveFailed => SameTicket(before, after, id) && id !in after.leases
    case Quarantined | TicketMoved | TicketSyncFailed | QuarantineSyncFailed =>
      MovedAway(before, after, id) && id !in after.leases
  }

  predicate Untouched(before: State, after: State, ids: set<string>, id: string) {
    id !in ids ==> SameTicket(before, after, id) && SameLease(before, after, id)
  }

  /** A file in quarantine stays as it is; a new one is the file of one of `ids`. */
  predicate QuarantineGrows(before: State, after: State, ids: set<string>, name: string) {
    && (name in before.quarantine ==> name in after.quarantine && after.quarantine[name] == before.quarantine[name])
    && (name in after.quarantine && name !in before.quarantine ==>
          exists id :: id in ids && id in before.tickets && id !in after.tickets && after.quarantine[name] == before.tickets[id])
  }

  /** Nothing outside the tickets and leases of `ids` changes, quarantine only gains files,
      and each file it gains is the file of one of `ids`. */
  ghost predicate OnlyTouches(before: State, after: State, ids: set<string>) {
    && after == before.(tickets := after.tickets, leases := after.leases, quarantine := after.quarantine)
    && (forall id {:trigger Untouched(before, after, ids, id)} :: Untouched(before, after, ids, id))
    && (forall name {:trigger QuarantineGrows(before, after, ids, name)} :: QuarantineGrows(before, after, ids, name))
  }

  /** Tickets and leases are only removed, and no lease outlives its ticket. */
  predicate Shrinks(before: State, after: State) {
    && (forall id :: id in after.tickets ==> id in before.tickets && after.tickets[id] == before.tickets[id])
    && after.leases.Keys <= before.leases.Keys
    && (forall id :: id in after.leases ==> after.leases[id] == before.leases[id] && id in after.tickets)
  }

  /** The labels read: quarantined ones, then at most one other, then not-attempted ones. */
  predicate WellShaped(outcomes: seq<(string, Label)>) {
    forall i, j :: 0 <= i < j < |outcomes| && outcomes[j].1 != NotAttempted ==> outcomes[i].1 == Quarantined
  }

  predicate Honest(before: State, after: State, ids: seq<string>, outcomes: seq<(string, Label)>) {
    && |outcomes| == |ids| && WellShaped(outcomes)
    && (forall i :: 0 <= i < |ids| ==> outcomes[i].0 == ids[i] && Located(outcomes[i].1, ids[i], before, after))
  }

  /** The report is honest about the selection in ascending order. */
  ghost predicate HonestAbout(before: State, after: State, selected: seq<string>, outcomes: seq<(string, Label)>) {
    exists ids :: Ascending(ids) && Elements(ids) == Elements(selected) && Honest(before, after, ids, outcomes)
  }

  lemma NotYetTouched(ids: seq<string>, j: nat)
    requires Ascending(ids) && j < |ids|
    ensures forall i :: 0 <= i <= j ==> ids[j] !in Elements(ids[..i])
  {
    forall i | 0 <= i < j
      ensures ids[i] != ids[j]
    {
      LessAsymmetric(ids[i], ids[j]);
    }
  }

  lemma WiderTouch(before: State, after: State, ids: seq<string>, i: nat)
    requires i <= |ids| && OnlyTouches(before, after, Elements(ids[..i]))
    ensures OnlyTouches(before, after, Elements(ids))
  {
    var part, all := Elements(ids[..i]), Elements(ids);
    assert part <= all;
    forall u
      ensures Untouched(before, after, all, u)
    {
      assert Untouched(before, after, part, u);
    }
    forall name
      ensures QuarantineGrows(before, after, all, name)
    {
      assert QuarantineGrows(before, after, part, name);
      if name in after.quarantine && name !in before.quarantine {
        var id :| id in part && id in before.tickets && id !in after.tickets && after.quarantine[name] == before.tickets[id];
        assert id in all;
      }
    }
  }

  /** With a clock that has not gone back, another apply to the selected tickets that are
      still there passes validation. */
  ghost predicate Restartable(after: State, selected: seq<string>) {
    forall now: nat, rest: seq<string> {:trigger Passes(after.(now := now), rest)} ::
      now >= after.now && SelectionInOrder(rest) && (forall i :: 0 <= i < |rest| ==> rest[i] in selected && rest[i] in after.tickets)
      ==> Passes(after.(now := now), rest)
  }

  lemma ShrunkIsRestartable(before: State, after: State, selected: seq<string>)
    requires Passes(before, selected) && Shrinks(before, after)
    requires after == before.(tickets := after.tickets, leases := after.leases, quarantine := after.quarantine)
    ensures Restartable(after, selected)
  {
    forall now: nat, rest: seq<string> |
      now >= after.now && SelectionInOrder(rest) && (forall i :: 0 <= i < |rest| ==> rest[i] in selected && rest[i] in after.tickets)
      ensures Passes(after.(now := now), rest)
    {
      forall i | 0 <= i < |rest|
        ensures TicketInOrder(before, rest[i])
      {
        var j :| 0 <= j < |selected| && selected[j] == rest[i];
        assert TicketInOrder(before, selected[j]);
      }
      StillPasses(before, after.(now := now), rest);
    }
  }

  /** Two steps on different tickets, one after the other. */
  lemma TouchesCompose(before: State, mid: State, after: State, done: set<string>, id: string)
    requires OnlyTouches(before, mid, done) && OnlyTouches(mid, after, {id}) && id !in done
    ensures OnlyTouches(before, after, done + {id})
  {
    forall u
      ensures Untouched(before, after, done + {id}, u)
    {
      assert Untouched(before, mid, done, u) && Untouched(mid, after, {id}, u);
    }
    forall name
      ensures QuarantineGrows(before, after, done + {id}, name)
    {
      assert QuarantineGrows(before, mid, done, name) && QuarantineGrows(mid, after, {id}, name);
      assert Untouched(before, mid, done, id);
      if name in mid.quarantine && name !in before.quarantine {
        var u :| u in done && u in before.tickets && u !in mid.tickets && mid.quarantine[name] == before.tickets[u];
        assert Untouched(mid, after, {id}, u);
        assert u in done + {id};
      } else if name in after.quarantine && name !in mid.quarantine {
        assert id in mid.tickets && id !in after.tickets && after.quarantine[name] == mid.tickets[id];
        assert id in done + {id};
      }
    }
  }

  /** What was true of the files of a finished ticket stays true. */
  lemma LocatedStays(before: State, mid: State, after: State, u: string, id: string)
    requires Located(Quarantined, u, before, mid) && OnlyTouches(mid, after, {id}) && u != id
    ensures Located(Quarantined, u, before, after)
  {
    assert Untouched(mid, after, {id}, u);
    var name :| name in mid.quarantine && name !in before.quarantine && mid.quarantine[name] == before.tickets[u];
    assert QuarantineGrows(mid, after, {id}, name);
  }

  /** A ticket not touched before is where the step on it says. */
  lemma LocatedFromStart(before: State, mid: State, after: State, verdict: Label, done: set<string>, id: string)
    requires OnlyTouches(before, mid, done) && id !in done && Located(verdict, id, mid, after)
    ensures Located(verdict, id, before, after)
  {
    assert Untouched(before, mid, done, id);
    if MovedAway(mid, after, id) {
      var name :| name in after.quarantine && name !in mid.quarantine && after.quarantine[name] == mid.tickets[id];
      assert QuarantineGrows(before, mid, done, name);
    }
  }

  /** The first `i` tickets are quarantined and nothing else has changed. */
  ghost predicate Progress(before: State, now: State, ids: seq<string>, i: nat)
    requires i <= |ids|
  {
    && OnlyTouches(before, now, Elements(ids[..i])) && Shrinks(before, now)
    && forall j :: 0 <= j < i ==> Located(Quarantined, ids[j], before, now)
  }

  lemma StepProgress(before: State, mid: State, after: State, ids: seq<string>, i: nat, verdict: Label)
    requires Ascending(ids) && i < |ids| && Progress(before, mid, ids, i)
    requires Located(verdict, ids[i], mid, after) && OnlyTouches(mid, after, {ids[i]}) && Shrinks(mid, after)
    ensures OnlyTouches(before, after, Elements(ids[..i + 1])) && Shrinks(before, after)
    ensures Located(verdict, ids[i], before, after)
    ensures forall j :: 0 <= j < i ==> Located(Quarantined, ids[j], before, after)
  {
    NotYetTouched(ids, i);
    assert ids[..i + 1] == ids[..i] + [ids[i]];
    assert Elements(ids[..i + 1]) == Elements(ids[..i]) + {ids[i]};
    TouchesCompose(before, mid, after, Elements(ids[..i]), ids[i]);
    LocatedFromStart(before, mid, after, verdict, Elements(ids[..i]), ids[i]);
    forall j | 0 <= j < i
      ensures Located(Quarantined, ids[j], before, after)
    {
      LessAsymmetric(ids[j], ids[i]);
      LocatedStays(before, mid, after, ids[j], ids[i]);
    }
  }

  /** The report of a loop that stopped at ticket `i`. */
  function StoppedAt(ids: seq<string>, i: nat, verdict: Label): seq<(string, Label)>
    requires i < |ids|
  {
    seq(|ids|, k requires 0 <= k < |ids| =>
      (ids[k], if k < i then Quarantined else if k == i then verdict else NotAttempted))
  }

  lemma StoppedIsHonest(before: State, after: State, ids: seq<string>, i: nat, verdict: Label)
    requires Ascending(ids) && i < |ids| && OnlyTouches(before, after, Elements(ids[..i + 1]))
    requires Located(verdict, ids[i], before, after)
    requires forall j :: 0 <= j < i ==> Located(Quarantined, ids[j], before, after)
    ensures Honest(before, after, ids, StoppedAt(ids, i, verdict)) && OnlyTouches(before, after, Elements(ids))
  {
    WiderTouch(before, after, ids, i + 1);
    forall j | i < j < |ids|
      ensures Located(NotAttempted, ids[j], before, after)
    {
      NotYetTouched(ids, j);
      assert ids[j] !in Elements(ids[..i + 1]);
      assert Untouched(before, after, Elements(ids[..i + 1]), ids[j]);
    }
  }

  lemma StartProgress(before: State, ids: seq<string>)
    requires forall u :: u in before.leases ==> u in before.tickets
    ensures Progress(before, before, ids, 0)
  {
  }

  lemma FinishedIsHonest(before: State, after: State, ids: seq<string>)
    requires Progress(before, after, ids, |ids|)
    ensures Honest(before, after, ids, AllQuarantined(ids)) && OnlyTouches(before, after, Elements(ids))
  {
    assert ids[..|ids|] == ids;
  }

  function AllQuarantined(ids: seq<string>): seq<(string, Label)> {
    seq(|ids|, k requires 0 <= k < |ids| => (ids[k], Quarantined))
  }

  // ---------------------------------------------------------------------------
  // One ticket
  // ---------------------------------------------------------------------------

  function Decimal(n: nat): string {
    if n < 10 then [('0' as int + n) as char] else Decimal(n / 10) + [('0' as int + n % 10) as char]
  }

  function QuarantineName(id: string, sequence: nat): string {
    "ticket-" + id + ".json." + Decimal(sequence)
  }

  /** Names of different tickets differ, whatever the sequence numbers. */
  lemma NamesDiffer(id: string, n: nat, other: string, m: nat)
    requires |id| == 20 && |other| == 20 && id != other
    ensures QuarantineName(id, n) != QuarantineName(other, m)
  {
    assert QuarantineName(id, n)[7..27] == id && QuarantineName(other, m)[7..27] == other;
  }

  /** Nothing in quarantine has a name that the tickets from `i` on can still get. */
  ghost predicate NamesFree(ids: seq<string>, i: nat, sequence: nat, quarantine: map<string, Ticket>) {
    forall j: nat, n: nat :: i <= j < |ids| && n >= sequence ==> QuarantineName(ids[j], n) !in quarantine
  }

  predicate NoItemFault(f: ItemFaults) {
    !(f.timeout || f.leaseRemove || f.leaseSync || f.timeoutAfterLease || f.move || f.timeoutAfterMove || f.ticketSync
      || f.quarantineSync)
  }

  /** A ticket is not quarantined for the reason its label names, and no other: `leased` says
      that it had a lease, `taken` that its name in quarantine was taken. */
  predicate Caused(verdict: Label, f: ItemFaults, leased: bool, taken: bool) {
    match verdict
    case Quarantined => NoItemFault(f.(leaseSync := leased && f.leaseSync)) && !taken
    case NotAttempted => f.timeout
    case LeaseRemoveFailed => f.leaseRemove
    case LeaseSyncFailed => leased && f.leaseSync
    case AfterLeaseRemoval => f.timeoutAfterLease
    case MoveFailed => f.move
    case QuarantineCollision => taken
    case TicketMoved => f.timeoutAfterMove
    case TicketSyncFailed => f.ticketSync
    case QuarantineSyncFailed => f.quarantineSync
  }

  function Moved(s: State, id: string, name: string): State
    requires id in s.tickets
  {
    s.(tickets := s.tickets - {id}, quarantine := s.quarantine[name := s.tickets[id]])
  }

  /** At most the lease of the ticket is gone. */
  lemma LeaseOnly(before: State, after: State, id: string, verdict: Label)
    requires after == before.(leases := after.leases) && id in before.tickets
    requires if verdict == NotAttempted || verdict == LeaseRemoveFailed then after == before
             else after.leases == before.leases - {id}
    requires verdict in {NotAttempted, LeaseRemoveFailed, LeaseSyncFailed, AfterLeaseRemoval, MoveFailed, QuarantineCollision}
    requires verdict == LeaseSyncFailed ==> id in before.leases
    ensures Located(verdict, id, before, after) && OnlyTouches(before, after, {id})
    ensures (forall u :: u in before.leases ==> u in before.tickets) ==> Shrinks(before, after)
  {
    forall u
      ensures Untouched(before, after, {id}, u)
    {
    }
  }

  /** The lease and the ticket are gone, the ticket to quarantine. */
  lemma LeaseAndTicket(before: State, mid: State, after: State, id: string, verdict: Label, name: string)
    requires id in before.tickets && name !in before.quarantine
    requires mid == before.(leases := before.leases - {id}) && after == Moved(mid, id, name)
    requires verdict in {TicketMoved, TicketSyncFailed, QuarantineSyncFailed, Quarantined}
    ensures Located(verdict, id, before, after) && OnlyTouches(before, after, {id}) && after != before
    ensures (forall u :: u in before.leases ==> u in before.tickets) ==> Shrinks(before, after)
  {
    assert name in after.quarantine && after.quarantine[name] == before.tickets[id];
    assert id in before.tickets && id !in after.tickets;
    forall u
      ensures Untouched(before, after, {id}, u)
    {
    }
  }

  /** A new name in quarantine is that of ticket `i`. */
  lemma StillFree(ids: seq<string>, i: nat, before: nat, q: map<string, Ticket>, now: nat, r: map<string, Ticket>)
    requires i < |ids| && before <= now && Ascending(ids)
    requires forall name :: name in r && name !in q ==> name == QuarantineName(ids[i], before)
    ensures (forall j :: 0 <= j < |ids| ==> |ids[j]| == 20) && NamesFree(ids, i, before, q) ==> NamesFree(ids, i + 1, now, r)
  {
    if (forall j :: 0 <= j < |ids| ==> |ids[j]| == 20) && NamesFree(ids, i, before, q) {
      forall j: nat, n: nat | i + 1 <= j < |ids| && n >= now
        ensures QuarantineName(ids[j], n) !in r
      {
        LessAsymmetric(ids[i], ids[j]);
        NamesDiffer(ids[j], n, ids[i], before);
      }
    }
  }

  lemma SortedSelection(selected: seq<string>, ids: seq<string>, sequence: nat, quarantine: map<string, Ticket>)
    requires SelectionInOrder(selected) && Ascending(ids) && Elements(ids) == Elements(selected)
    ensures |ids| == |selected| && forall i :: 0 <= i < |ids| ==> |ids[i]| == 20
    ensures NamesFree(selected, 0, sequence, quarantine) ==> NamesFree(ids, 0, sequence, quarantine)
  {
    AscendingLength(ids);
    UniqueLength(selected);
    forall i | 0 <= i < |ids|
      ensures exists j :: 0 <= j < |selected| && selected[j] == ids[i]
    {
      assert ids[i] in Elements(ids);
    }
  }

  lemma {:induction false} UniqueLength(s: seq<string>)
    requires forall i, j :: 0 <= i < j < |s| ==> s[i] != s[j]
    ensures |Elements(s)| == |s|
  {
    if s != [] {
      var n := |s| - 1;
      UniqueLength(s[..n]);
      assert s == s[..n] + [s[n]];
      assert Elements(s) == Elements(s[..n]) + {s[n]};
    }
  }

  class Coordinator {
    var disk: State
    /** QUARANTINE_SEQUENCE of this process. */
    var sequence: nat

    constructor (disk: State, sequence: nat)
      ensures this.disk == disk && this.sequence == sequence
    {
      this.disk, this.sequence := disk, sequence;
    }

    /** Body of the apply loop for ticket `id`; `changed` says whether anything was removed or
        moved. */
    method ApplyOne(id: string, faults: ItemFaults) returns (verdict: Label, changed: bool)
      requires id in disk.tickets
      modifies this
      ensures Located(verdict, id, old(disk), disk)
      ensures OnlyTouches(old(disk), disk, {id}) && changed == (disk != old(disk))
      ensures (forall u :: u in old(disk).leases ==> u in old(disk).tickets) ==> Shrinks(old(disk), disk)
      ensures verdict == Quarantined ==> changed
      ensures Caused(verdict, faults, id in old(disk).leases, QuarantineName(id, old(sequence)) in old(disk).quarantine)
      ensures sequence >= old(sequence)
      ensures forall name :: name in disk.quarantine && name !in old(disk).quarantine ==>
        name == QuarantineName(id, old(sequence))
    {
      ghost var start := disk;
      var stop;
      stop, changed := RemoveLease(id, faults);
      if stop.Some? {
        LeaseOnly(start, disk, id, stop.value);
        return stop.value, changed;
      }
      ghost var mid := disk;
      verdict := MoveTicket(id, faults);
      if verdict.MoveFailed? || verdict.QuarantineCollision? {
        LeaseOnly(start, disk, id, verdict);
      } else {
        changed := true;
        LeaseAndTicket(start, mid, disk, id, verdict, QuarantineName(id, old(sequence)));
      }
    }

    /** The lease goes first. */
    method RemoveLease(id: string, faults: ItemFaults) returns (stop: Option<Label>, removed: bool)
      modifies this`disk
      ensures disk == old(disk).(leases := disk.leases) && removed == (disk != old(disk))
      ensures if stop == Some(NotAttempted) || stop == Some(LeaseRemoveFailed) then disk == old(disk)
              else disk.leases == old(disk).leases - {id}
      ensures stop.Some? ==> stop.value in {NotAttempted, LeaseRemoveFailed, LeaseSyncFailed, AfterLeaseRemoval}
      ensures stop.Some? ==> Caused(stop.value, faults, id in old(disk).leases, false)
      ensures stop.None? ==> !(faults.timeout || faults.leaseRemove || faults.timeoutAfterLease)
      ensures stop.None? && id in old(disk).leases ==> !faults.leaseSync
    {
      removed := false;
      if faults.timeout { return Some(NotAttempted), removed; }
      if faults.leaseRemove { return Some(LeaseRemoveFailed), removed; }
      if id in disk.leases {
        disk := disk.(leases := disk.leases - {id});
        removed := true;
        if faults.leaseSync { return Some(LeaseSyncFailed), removed; }
      }
      assert disk.leases == old(disk).leases - {id};
      if faults.timeoutAfterLease { return Some(AfterLeaseRemoval), removed; }
      return None, removed;
    }

    /** Then the ticket is moved to quarantine. */
    method MoveTicket(id: string, faults: ItemFaults) returns (verdict: Label)
      requires id in disk.tickets
      modifies this
      ensures sequence >= old(sequence)
      ensures verdict in {MoveFailed, QuarantineCollision, TicketMoved, TicketSyncFailed, QuarantineSyncFailed, Quarantined}
      ensures if verdict.MoveFailed? || verdict.QuarantineCollision? then disk == old(disk)
              else disk == Moved(old(disk), id, QuarantineName(id, old(sequence)))
      ensures var taken := QuarantineName(id, old(sequence)) in old(disk).quarantine;
        match verdict
        case MoveFailed => faults.move
        case QuarantineCollision => taken
        case TicketMoved => !taken && faults.timeoutAfterMove
        case TicketSyncFailed => !taken && faults.ticketSync
        case QuarantineSyncFailed => !taken && faults.quarantineSync
        case _ => !taken && !faults.move && !faults.timeoutAfterMove && !faults.ticketSync && !faults.quarantineSync
    {
      var name := QuarantineName(id, sequence);
      sequence := sequence + 1;
      if faults.move { return MoveFailed; }
      if name in disk.quarantine { return QuarantineCollision; }
      disk := disk.(tickets := disk.tickets - {id}, quarantine := disk.quarantine[name := disk.tickets[id]]);
      if faults.timeoutAfterMove { return TicketMoved; }
      if faults.ticketSync { return TicketSyncFailed; }
      if faults.quarantineSync { return QuarantineSyncFailed; }
      return Quarantined;
    }

    /** Sort and dedup; `None` when the selection has a duplicate. */
    static method Canonicalize(selected: seq<string>) returns (canonical: Option<seq<string>>)
      ensures canonical.None? <==> exists i, j :: 0 <= i < j < |selected| && selected[i] == selected[j]
      ensures canonical.Some? ==> Ascending(canonical.value) && Elements(canonical.value) == Elements(selected)
    {
      var sorted: seq<string> := [];
      for i := 0 to |selected|
        invariant Ascending(sorted) && Elements(sorted) == Elements(selected[..i])
        invariant forall j, k :: 0 <= j < k < i ==> selected[j] != selected[k]
      {
        assert selected[..i + 1] == selected[..i] + [selected[i]];
        if selected[i] in sorted {
          assert selected[i] in Elements(sorted);
          var j :| 0 <= j < i && selected[..i][j] == selected[i];
          return None;
        }
        forall j | 0 <= j < i
          ensures selected[j] != selected[i]
        {
          assert selected[..i][j] in Elements(selected[..i]);
          assert selected[i] !in Elements(sorted);
        }
        sorted := Insert(sorted, selected[i]);
      }
      assert selected[..|selected|] == selected;
      return Some(sorted);
    }

    /** Everything apply checks under the locks before it changes anything. `leases` lists the
        leases directory in any order. */
    method Validate(selected: seq<string>, leases: seq<string>) returns (result: Result<seq<string>, string>)
      requires Elements(leases) == disk.leases.Keys && |leases| == |disk.leases|
      ensures result.Ok? <==> Passes(disk, selected)
      ensures result.Ok? ==> Ascending(result.value) && Elements(result.value) == Elements(selected)
      ensures result == Err("empty_target") <==> selected == []
      ensures result == Err("too_many_targets") <==> |selected| > MAX_QUEUE_TICKETS
      ensures result == Err("duplicate_target") ==> exists i, j :: 0 <= i < j < |selected| && selected[i] == selected[j]
      ensures result == Err("malformed_target") ==> exists i :: 0 <= i < |selected| && !IsId(selected[i])
      ensures result == Err("slot_busy") ==> disk.slotBusy
    {
      if selected == [] { return Err("empty_target"); }
      if |selected| > MAX_QUEUE_TICKETS { return Err("too_many_targets"); }
      var canonical := Canonicalize(selected);
      if canonical.None? { return Err("duplicate_target"); }
      for i := 0 to |selected|
        invariant forall j :: 0 <= j < i ==> IsId(selected[j])
      {
        if !IsId(selected[i]) { return Err("malformed_target"); }
      }
      if disk.slotBusy { return Err("slot_busy"); }
      var namespace := ValidateLeases(leases);
      if namespace.Some? { return Err(namespace.value); }
      for i := 0 to |selected|
        invariant forall j :: 0 <= j < i ==> TicketInOrder(disk, selected[j])
      {
        var reason := ValidateTicket(selected[i]);
        if reason.Some? { return Err(reason.value); }
      }
      return Ok(canonical.value);
    }

    /** `validate_reconciliation_lease_namespace`. */
    method ValidateLeases(leases: seq<string>) returns (reason: Option<string>)
      requires Elements(leases) == disk.leases.Keys && |leases| == |disk.leases|
      ensures reason.None? <==> NamespaceInOrder(disk)
      ensures reason.Some? ==> reason.value in {"foreign_or_malformed_lease", "too_many_leases", "lease_only_residue",
        "foreign_or_malformed_ticket", "slot_lease_contradiction"}
    {
      if disk.strayLeases > 0 { return Some("foreign_or_malformed_lease"); }
      for i := 0 to |leases|
        invariant i <= MAX_QUEUE_TICKETS
        invariant forall j :: 0 <= j < i ==> leases[j] in disk.leases && LeaseInOrder(disk, leases[j])
      {
        if i + 1 > MAX_QUEUE_TICKETS { return Some("too_many_leases"); }
        var id := leases[i];
        assert id in Elements(leases);
        var lease := disk.leases[id];
        if !IsId(id) || !OwnLease(id, lease) || !ValidLease(lease) { return Some("foreign_or_malformed_lease"); }
        if id !in disk.tickets { return Some("lease_only_residue"); }
        if !OwnTicket(id, disk.tickets[id]) { return Some("foreign_or_malformed_ticket"); }
        if !Expired(lease, disk.now) { return Some("slot_lease_contradiction"); }
      }
      forall id | id in disk.leases
        ensures LeaseInOrder(disk, id)
      {
        assert id in Elements(leases);
      }
      return None;
    }

    /** One selected ticket (src/admission.rs:862-898). */
    method ValidateTicket(id: string) returns (reason: Option<string>)
      ensures reason.None? <==> TicketInOrder(disk, id)
      ensures reason.Some? ==> reason.value in {"unknown_target", "held_ticket", "foreign_or_malformed_ticket", "admission",
        "invalid_lease", "live_or_future_lease"}
    {
      if id !in disk.tickets { return Some("unknown_target"); }
      if id in disk.locked { return Some("held_ticket"); }
      if !OwnTicket(id, disk.tickets[id]) { return Some("foreign_or_malformed_ticket"); }
      if id in disk.leases {
        var lease := disk.leases[id];
        if !OwnLease(id, lease) { return Some("admission"); }
        if !ValidLease(lease) { return Some("invalid_lease"); }
        if !Expired(lease, disk.now) { return Some("live_or_future_lease"); }
      }
      return None;
    }

    /** One round of the apply loop, after `i` tickets have been quarantined. */
    method ApplyNext(ids: seq<string>, i: nat, faults: ItemFaults, ghost before: State)
      returns (verdict: Label, changed: bool)
      requires Ascending(ids) && i < |ids| && ids[i] in before.tickets && Progress(before, disk, ids, i)
      modifies this
      ensures changed == (disk != old(disk)) && Shrinks(before, disk)
      ensures verdict == Quarantined ==> changed && Progress(before, disk, ids, i + 1)
      ensures verdict != Quarantined ==>
        Honest(before, disk, ids, StoppedAt(ids, i, verdict)) && OnlyTouches(before, disk, Elements(ids))
      ensures
        && NoItemFault(faults) && (forall j :: 0 <= j < |ids| ==> |ids[j]| == 20)
        && NamesFree(ids, i, old(sequence), old(disk).quarantine)
        ==> verdict == Quarantined && NamesFree(ids, i + 1, sequence, disk.quarantine)
    {
      ghost var mid := disk;
      assert ids[i] in disk.tickets by {
        NotYetTouched(ids, i);
        assert Untouched(before, disk, Elements(ids[..i]), ids[i]);
      }
      verdict, changed := ApplyOne(ids[i], faults);
      assert (forall j :: 0 <= j < |ids| ==> |ids[j]| == 20) && NamesFree(ids, i, old(sequence), mid.quarantine) ==>
        NamesFree(ids, i + 1, sequence, disk.quarantine) by {
        StillFree(ids, i, old(sequence), mid.quarantine, sequence, disk.quarantine);
      }
      StepProgress(before, mid, disk, ids, i, verdict);
      if verdict != Quarantined {
        StoppedIsHonest(before, disk, ids, i, verdict);
      }
    }

    /** The `partial!` macro: the outcome of the ticket the loop stops at, and "not attempted"
        for all after it. */
    static method Stop(outcomes: seq<(string, Label)>, ids: seq<string>, verdict: Label) returns (all: seq<(string, Label)>)
      requires |outcomes| < |ids| && forall j :: 0 <= j < |outcomes| ==> outcomes[j] == (ids[j], Quarantined)
      ensures all == StoppedAt(ids, |outcomes|, verdict)
    {
      all := outcomes + [(ids[|outcomes|], verdict)];
      for k := |outcomes| + 1 to |ids|
        invariant |all| == k && forall j :: 0 <= j < k ==> all[j] == StoppedAt(ids, |outcomes|, verdict)[j]
      {
        all := all + [(ids[k], NotAttempted)];
      }
    }

    /** The apply loop over the sorted selection. */
    method ApplyAll(ids: seq<string>, faults: nat -> ItemFaults, unlockFault: bool) returns (result: ApplyResult)
      requires Ascending(ids)
      requires forall i :: 0 <= i < |ids| ==> ids[i] in disk.tickets
      requires forall u :: u in disk.leases ==> u in disk.tickets
      modifies this
      ensures result.Refused? ==> disk == old(disk)
      ensures !result.Refused? ==> Honest(old(disk), disk, ids, result.outcomes)
      ensures result.Report? ==> result.outcomes == AllQuarantined(ids)
      ensures OnlyTouches(old(disk), disk, Elements(ids)) && Shrinks(old(disk), disk)
      ensures
        && (forall i :: 0 <= i < |ids| ==> |ids[i]| == 20) && NamesFree(ids, 0, old(sequence), old(disk).quarantine)
        && (forall i :: 0 <= i < |ids| ==> NoItemFault(faults(i))) && !unlockFault
        ==> result.Report?
    {
      ghost var smooth :=
        && (forall i :: 0 <= i < |ids| ==> |ids[i]| == 20) && NamesFree(ids, 0, sequence, disk.quarantine)
        && (forall i :: 0 <= i < |ids| ==> NoItemFault(faults(i)));
      var outcomes: seq<(string, Label)> := [];
      StartProgress(disk, ids);
      for i := 0 to |ids|
        invariant |outcomes| == i && forall j :: 0 <= j < i ==> outcomes[j] == (ids[j], Quarantined)
        invariant Progress(old(disk), disk, ids, i)
        invariant i == 0 ==> disk == old(disk)
        invariant smooth ==> NamesFree(ids, i, sequence, disk.quarantine)
      {
        var verdict, changed := ApplyNext(ids, i, faults(i), old(disk));
        if verdict != Quarantined {
          if i == 0 && !changed {
            return Refused("error");
          }
          outcomes := Stop(outcomes, ids, verdict);
          return Partial(outcomes);
        }
        outcomes := outcomes + [(ids[i], Quarantined)];
      }
      FinishedIsHonest(old(disk), disk, ids);
      assert outcomes == AllQuarantined(ids);
      return if unlockFault then Partial(outcomes) else Report(outcomes);
    }

    /** `reconcile_apply_with_timeout`. The report lists the sorted selection and says of every
        ticket where its files are; nothing else changes; an error that is not `Partial` means
        that nothing changed at all; and whatever happened, apply can be run again. */
    method Apply(selected: seq<string>, leases: seq<string>, early: bool, faults: nat -> ItemFaults, unlockFault: bool)
      returns (result: ApplyResult)
      requires Elements(leases) == disk.leases.Keys && |leases| == |disk.leases|
      modifies this
      ensures result.Refused? ==> disk == old(disk)
      ensures !result.Refused? ==> Passes(old(disk), selected)
      ensures !result.Refused? ==> HonestAbout(old(disk), disk, selected, result.outcomes)
      ensures OnlyTouches(old(disk), disk, Elements(selected))
      ensures result.Report? ==> forall i :: 0 <= i < |result.outcomes| ==> result.outcomes[i].1 == Quarantined
      ensures Passes(old(disk), selected) ==> Restartable(disk, selected)
      ensures
        && Passes(old(disk), selected) && !early && NamesFree(selected, 0, old(sequence), old(disk).quarantine)
        && (forall i :: 0 <= i < |selected| ==> NoItemFault(faults(i))) && !unlockFault
        ==> result.Report?
    {
      if Passes(disk, selected) {
        ShrunkIsRestartable(disk, disk, selected);
      }
      var valid := Validate(selected, leases);
      if valid.Err? || early {
        return Refused(if valid.Err? then valid.error else "timeout");
      }
      forall i | 0 <= i < |valid.value|
        ensures valid.value[i] in disk.tickets
      {
        assert valid.value[i] in Elements(valid.value);
        var j :| 0 <= j < |selected| && selected[j] == valid.value[i];
        assert TicketInOrder(disk, selected[j]);
      }
      assert forall u :: u in disk.leases ==> LeaseInOrder(disk, u);
      SortedSelection(selected, valid.value, sequence, disk.quarantine);
      result := ApplyAll(valid.value, faults, unlockFault);
      ShrunkIsRestartable(old(disk), disk, selected);
    }
  }
}
