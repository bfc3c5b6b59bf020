/**
 `scan_tickets` (src/admission.rs:1357-1471) as one loop over a directory listing: the
 verdicts are those of the protocol, in order of ticket number.
 */
module AdmissionScan {
  import opened Common
  import opened AdmissionLimits
  import opened AdmissionProtocol

  /** What the marker inside a ticket file says. */
  datatype Marker = Own | Malformed | Foreign

  /** An entry of the tickets directory; `Stray` is anything whose name or type is not that
      of a ticket. */
  datatype DirEntry = StagingFile(u: nat) | TicketFile(u: nat, marker: Marker) | Stray(name: nat)

  datatype ScanError = QueueFull | MalformedTicket | RecoveryRequired | ForeignTicket | UnreadableLease

  /** Who looks, with what in view: `locked` are the tickets some process holds. With
      `reclaim` the scan may quarantine and report stale tickets. */
  datatype View = View(own: Option<nat>, reclaim: bool, locked: set<nat>, leases: map<nat, Lease>, now: nat)

  /** Nobody holds the ticket, and it is not our own. */
  predicate Idle(v: View, u: nat) {
    v.own != Some(u) && u !in v.locked
  }

  /** Why an entry makes the scan fail. */
  function EntryFault(v: View, e: DirEntry): Option<ScanError> {
    match e
    case Stray(_) => Some(MalformedTicket)
    case StagingFile(_) => if v.reclaim then None else Some(RecoveryRequired)
    case TicketFile(u, Malformed) => if v.reclaim && u !in v.locked then None else Some(MalformedTicket)
    case TicketFile(_, Foreign) => Some(ForeignTicket)
    case TicketFile(u, Own) =>
      if Idle(v, u) && u in v.leases && v.leases[u].Torn? then Some(UnreadableLease) else None
  }

  /** Orphaned staging files and unlocked malformed tickets. */
  predicate Quarantines(v: View, e: DirEntry) {
    v.reclaim && (e.StagingFile? || (e.TicketFile? && e.marker == Malformed && e.u !in v.locked))
  }

  /** A ticket is stale when nobody holds it and it has no lease, or one whose last heartbeat
      is thirty seconds old. */
  predicate IsStale(v: View, u: nat) {
    && v.reclaim && Idle(v, u)
    && (u in v.leases ==> v.leases[u].Lease? && v.leases[u].heartbeat <= v.now && v.now - v.leases[u].heartbeat >= 30)
  }

  /** The verdicts of the protocol are those of this scan. */
  lemma ProtocolJudgesAlike(v: View, u: nat)
    requires v.reclaim
    ensures var verdict := Judge(v.own, v.locked, v.leases, v.now, u);
      && (verdict.Stale? <==> IsStale(v, u))
      && (verdict.Unreadable? <==> EntryFault(v, TicketFile(u, Own)) == Some(UnreadableLease))
  {
    assert LEASE_SECONDS == 30;
  }

  predicate Increasing(s: seq<nat>) {
    forall i, j :: 0 <= i < j < |s| ==> s[i] < s[j]
  }

  function Insert(s: seq<nat>, x: nat): (r: seq<nat>)
    requires Increasing(s) && x !in s
    ensures Increasing(r) && |r| == |s| + 1
    ensures forall y :: y in r <==> y in s || y == x
  {
    if s == [] then [x]
    else if x < s[0] then [x] + s
    else
      assert s == [s[0]] + s[1..];
      var rest := Insert(s[1..], x);
      assert forall j :: 0 <= j < |rest| ==> rest[j] in rest;
      [s[0]] + rest
  }

  /** File names are distinct. */
  predicate Distinct(dir: seq<DirEntry>) {
    forall i, j :: 0 <= i < j < |dir| && dir[i].TicketFile? && dir[j].TicketFile? ==> dir[i].u != dir[j].u
  }

  /** The results after the entries `seen`. */
  ghost predicate Scanned(v: View, seen: seq<DirEntry>, live: seq<nat>, stale: seq<nat>, quarantined: seq<DirEntry>) {
    && (forall e :: e in seen ==> EntryFault(v, e).None?)
    && Increasing(live) && Increasing(stale)
    && (forall u :: u in live <==> TicketFile(u, Own) in seen && !IsStale(v, u))
    && (forall u :: u in stale <==> TicketFile(u, Own) in seen && IsStale(v, u))
    && (forall e :: e in quarantined <==> e in seen && Quarantines(v, e))
  }

  /** The loop body. */
  method ScanEntry(v: View, ghost seen: seq<DirEntry>, e: DirEntry, live: seq<nat>, stale: seq<nat>,
                   quarantined: seq<DirEntry>)
    returns (fault: Option<ScanError>, live': seq<nat>, stale': seq<nat>, quarantined': seq<DirEntry>)
    requires Scanned(v, seen, live, stale, quarantined)
    requires e.TicketFile? ==> forall m :: TicketFile(e.u, m) !in seen
    ensures fault == EntryFault(v, e)
    ensures fault.None? ==> Scanned(v, seen + [e], live', stale', quarantined')
    ensures fault.Some? ==> quarantined' == quarantined
  {
    live', stale', quarantined' := live, stale, quarantined;
    fault := None;
    match e
    case Stray(_) =>
      fault := Some(MalformedTicket);
    case StagingFile(_) =>
      if v.reclaim {
        quarantined' := quarantined + [e];
      } else {
        fault := Some(RecoveryRequired);
      }
    case TicketFile(u, Malformed) =>
      if v.reclaim && u !in v.locked {
        quarantined' := quarantined + [e];
      } else {
        fault := Some(MalformedTicket);
      }
    case TicketFile(_, Foreign) =>
      fault := Some(ForeignTicket);
    case TicketFile(u, Own) =>
      if v.own == Some(u) || u in v.locked {
        live' := Insert(live, u);
      } else if u in v.leases && v.leases[u].Torn? {
        fault := Some(UnreadableLease);
      } else if v.reclaim && (u !in v.leases || Expired(v.leases[u], v.now)) {
        stale' := Insert(stale, u);
      } else {
        live' := Insert(live, u);
      }
  }

  /** The scan fails at the first entry that cannot be dealt with or beyond the limit, and
      says why; otherwise every ticket is in exactly one of the two results, in increasing
      order, and exactly the reclaimable debris is quarantined. */
  method ScanTickets(dir: seq<DirEntry>, v: View)
    returns (result: Result<(seq<nat>, seq<nat>), ScanError>, quarantined: seq<DirEntry>)
    requires Distinct(dir)
    ensures result.Ok? <==> |dir| <= MAX_QUEUE_TICKETS && forall e :: e in dir ==> EntryFault(v, e).None?
    ensures result.Ok? ==> Scanned(v, dir, result.value.0, result.value.1, quarantined)
    ensures result.Err? ==> exists n :: 0 <= n < |dir| && FailsAt(v, dir, n, result.error)
    ensures forall e :: e in quarantined ==> e in dir && Quarantines(v, e)
  {
    var live: seq<nat>, stale: seq<nat> := [], [];
    quarantined := [];
    for i := 0 to |dir|
      invariant i <= MAX_QUEUE_TICKETS && Scanned(v, dir[..i], live, stale, quarantined)
    {
      assert forall k :: 0 <= k < i ==> dir[k] in dir[..i];
      if i + 1 > MAX_QUEUE_TICKETS {
        assert FailsAt(v, dir, i, QueueFull);
        return Err(QueueFull), quarantined;
      }
      assert dir[..i + 1] == dir[..i] + [dir[i]];
      var fault;
      fault, live, stale, quarantined := ScanEntry(v, dir[..i], dir[i], live, stale, quarantined);
      if fault.Some? {
        assert FailsAt(v, dir, i, fault.value);
        return Err(fault.value), quarantined;
      }
    }
    assert dir[..|dir|] == dir;
    return Ok((live, stale)), quarantined;
  }

  predicate FailsAt(v: View, dir: seq<DirEntry>, n: nat, error: ScanError)
    requires n < |dir|
  {
    && (forall k :: 0 <= k < n ==> EntryFault(v, dir[k]).None?)
    && (if n == MAX_QUEUE_TICKETS then error == QueueFull else EntryFault(v, dir[n]) == Some(error))
  }
}
