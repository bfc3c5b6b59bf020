/**
 Operator-driven reconciliation (src/admission.rs:654-1097, 1890-2002): the preview, the
 validation that apply performs under the queue and slot locks, and the apply loop with a
 fault possible at every filesystem call.
 */
module Reconciliation {
  import opened Common
  import opened Order
  import opened AdmissionLimits

  const OWNER := "commit-ci-preflight"
  const TICKET_PURPOSE := "host-admission-ticket"
  const LEASE_PURPOSE := "host-admission-lease"
  const SCHEMA := "1.0"

  datatype Ticket = Ticket(owner: string, purpose: string, schema: string, ticketId: string) | BadTicket(raw: string)

  datatype Lease =
    | Lease(owner: string, purpose: string, schema: string, runId: string, acquired: nat, heartbeat: nat, state: string)
    | BadLease(raw: string)

  /** The coordinator's directories as a reconciliation finds them under the queue lock.
      Tickets and leases are keyed by the id in their file name; `strayTickets` and
      `strayLeases` count directory entries with any other name. `locked` are the tickets
      other processes hold. */
  datatype State = State(
    tickets: map<string, Ticket>,
    leases: map<string, Lease>,
    quarantine: map<string, Ticket>,
    counter: nat,
    strayTickets: nat,
    strayLeases: nat,
    locked: set<string>,
    slotBusy: bool,
    now: nat)

  predicate IsId(id: string) {
    |id| == 20 && forall i :: 0 <= i < 20 ==> IsDigit(id[i])
  }

  /** The marker in the ticket file is that of ticket `id`. */
  predicate OwnTicket(id: string, t: Ticket) {
    t == Ticket(OWNER, TICKET_PURPOSE, SCHEMA, id)
  }

  /** `read_lease` returns the lease of ticket `id`. */
  predicate OwnLease(id: string, l: Lease) {
    l.Lease? && l.owner == OWNER && l.purpose == LEASE_PURPOSE && l.schema == SCHEMA && l.runId == id
  }

  /** `lease_is_semantically_valid`. */
  predicate ValidLease(l: Lease) {
    l.Lease? && (l.state == "queued" || l.state == "active") && l.heartbeat >= l.acquired
  }

  /** `lease_is_expired`. */
  predicate Expired(l: Lease, now: nat) {
    l.Lease? && Lapsed(l.heartbeat, now)
  }

  // ---------------------------------------------------------------------------
  // Preview
  // ---------------------------------------------------------------------------

  datatype Class =
    | BlockedTicketLocked
    | BlockedSlotLocked
    | EligibleAbsentLease
    | EligibleExpiredLease
    | BlockedInvalidLease
    | BlockedLiveLease

  predicate Eligible(c: Class) {
    c.EligibleAbsentLease? || c.EligibleExpiredLease?
  }

  /** Preview's classification of a ticket whose files can be read. */
  function Classify(s: State, id: string): Class {
    if id in s.locked then BlockedTicketLocked
    else if s.slotBusy then BlockedSlotLocked
    else if id !in s.leases then EligibleAbsentLease
    else if !ValidLease(s.leases[id]) then BlockedInvalidLease
    else if Expired(s.leases[id], s.now) then EligibleExpiredLease
    else BlockedLiveLease
  }

  /** Preview can read this ticket and, unless the ticket is locked, its lease. */
  predicate Readable(s: State, id: string)
    requires id in s.tickets
  {
    OwnTicket(id, s.tickets[id]) && (id !in s.locked && id in s.leases ==> OwnLease(id, s.leases[id]))
  }

  predicate PreviewReports(s: State) {
    && s.strayTickets == 0 && |s.tickets| <= MAX_QUEUE_TICKETS
    && forall id :: id in s.tickets ==> Readable(s, id)
  }

  datatype PreviewError = QueueFull | Admission

  /** The loop over the directory listing. */
  method ReadTickets(s: State, listing: seq<string>) returns (result: Result<seq<string>, PreviewError>)
    requires Elements(listing) == s.tickets.Keys && |listing| == |s.tickets|
    ensures result.Ok? <==> |s.tickets| <= MAX_QUEUE_TICKETS && forall id :: id in s.tickets ==> Readable(s, id)
    ensures result.Ok? ==> Ascending(result.value) && Elements(result.value) == s.tickets.Keys
  {
    var ids: seq<string> := [];
    for i := 0 to |listing|
      invariant i <= MAX_QUEUE_TICKETS
      invariant Ascending(ids) && Elements(ids) == Elements(listing[..i])
      invariant forall j :: 0 <= j < i ==> listing[j] in s.tickets && Readable(s, listing[j])
    {
      if i + 1 > MAX_QUEUE_TICKETS {
        return Err(QueueFull);
      }
      var id := listing[i];
      assert id in Elements(listing);
      if !Readable(s, id) {
        return Err(Admission);
      }
      assert Elements(listing[..i + 1]) == Elements(listing[..i]) + {id} by {
        assert listing[..i + 1] == listing[..i] + [id];
      }
      ids := Insert(ids, id);
    }
    assert listing[..|listing|] == listing;
    forall id | id in s.tickets
      ensures Readable(s, id)
    {
      assert id in Elements(listing);
    }
    return Ok(ids);
  }

  function ReportIds(report: seq<(string, Class)>): seq<string> {
    seq(|report|, i requires 0 <= i < |report| => report[i].0)
  }

  /** `reconcile_preview_with_timeout`, for a directory listing in any order: it reports
      every ticket once, by ascending id, or fails. */
  method Preview(s: State, listing: seq<string>) returns (result: Result<seq<(string, Class)>, PreviewError>)
    requires Elements(listing) == s.tickets.Keys && |listing| == |s.tickets|
    ensures result.Ok? <==> PreviewReports(s)
    ensures result.Ok? ==>
      && Ascending(ReportIds(result.value))
      && (forall i :: 0 <= i < |result.value| ==>
            result.value[i].0 in s.tickets && result.value[i].1 == Classify(s, result.value[i].0))
      && (forall id :: id in s.tickets ==> (id, Classify(s, id)) in result.value)
  {
    if s.strayTickets > 0 {
      return Err(Admission);
    }
    var read := ReadTickets(s, listing);
    if read.Err? {
      return Err(read.error);
    }
    var ids := read.value;
    assert forall i :: 0 <= i < |ids| ==> ids[i] in Elements(ids);
    var report := seq(|ids|, i requires 0 <= i < |ids| => (ids[i], Classify(s, ids[i])));
    assert ReportIds(report) == ids;
    forall id | id in s.tickets
      ensures (id, Classify(s, id)) in report
    {
      assert id in Elements(ids);
      var i :| 0 <= i < |ids| && ids[i] == id;
      assert report[i] == (id, Classify(s, id));
    }
    return Ok(report);
  }

  // ---------------------------------------------------------------------------
  // Validation by apply
  // ---------------------------------------------------------------------------

  /** `validate_reconciliation_lease_namespace` accepts lease `id`. */
  predicate LeaseInOrder(s: State, id: string)
    requires id in s.leases
  {
    && IsId(id)
    && OwnLease(id, s.leases[id]) && ValidLease(s.leases[id])
    && id in s.tickets && OwnTicket(id, s.tickets[id])
    && Expired(s.leases[id], s.now)
  }

  predicate NamespaceInOrder(s: State) {
    && s.strayLeases == 0 && |s.leases| <= MAX_QUEUE_TICKETS
    && forall id :: id in s.leases ==> LeaseInOrder(s, id)
  }

  /** Apply accepts ticket `id` of the selection (src/admission.rs:862-910). */
  predicate TicketInOrder(s: State, id: string) {
    && id in s.tickets && id !in s.locked && OwnTicket(id, s.tickets[id])
    && (id in s.leases ==> OwnLease(id, s.leases[id]) && ValidLease(s.leases[id]) && Expired(s.leases[id], s.now))
  }

  predicate SelectionInOrder(selected: seq<string>) {
    && selected != [] && |selected| <= MAX_QUEUE_TICKETS
    && (forall i, j :: 0 <= i < j < |selected| ==> selected[i] != selected[j])
    && (forall i :: 0 <= i < |selected| ==> IsId(selected[i]))
  }

  /** Everything apply checks before it changes anything. */
  predicate Passes(s: State, selected: seq<string>) {
    && SelectionInOrder(selected)
    && !s.slotBusy && NamespaceInOrder(s)
    && forall i :: 0 <= i < |selected| ==> TicketInOrder(s, selected[i])
  }

  /** The two code paths agree: on a state that preview can report, apply accepts a
      selection exactly when the lease namespace is in order and preview calls every
      selected ticket eligible. */
  lemma ApplyAcceptsWhatPreviewOffers(s: State, selected: seq<string>)
    requires PreviewReports(s)
    ensures Passes(s, selected) <==>
      && SelectionInOrder(selected) && !s.slotBusy && NamespaceInOrder(s)
      && forall i :: 0 <= i < |selected| ==> selected[i] in s.tickets && Eligible(Classify(s, selected[i]))
  {
    forall i | 0 <= i < |selected|
      ensures !s.slotBusy ==>
        (TicketInOrder(s, selected[i]) <==> selected[i] in s.tickets && Eligible(Classify(s, selected[i])))
    {
      if selected[i] in s.tickets {
        assert Readable(s, selected[i]);
      }
    }
  }

  /** What an accepted validation leaves to do survives the removal of leases and tickets, in
      that order, and the passage of time. */
  lemma StillPasses(s: State, t: State, rest: seq<string>)
    requires NamespaceInOrder(s) && !s.slotBusy && SelectionInOrder(rest)
    requires t == s.(tickets := t.tickets, leases := t.leases, quarantine := t.quarantine, now := t.now)
    requires s.now <= t.now
    requires forall id :: id in t.tickets ==> id in s.tickets && t.tickets[id] == s.tickets[id]
    requires t.leases.Keys <= s.leases.Keys && forall id :: id in t.leases ==> t.leases[id] == s.leases[id] && id in t.tickets
    requires forall i :: 0 <= i < |rest| ==> rest[i] in t.tickets && TicketInOrder(s, rest[i])
    ensures Passes(t, rest)
  {
    SubsetSize(t.leases.Keys, s.leases.Keys);
    forall id | id in t.leases
      ensures LeaseInOrder(t, id)
    {
      assert LeaseInOrder(s, id);
    }
    forall i | 0 <= i < |rest|
      ensures TicketInOrder(t, rest[i])
    {
      assert TicketInOrder(s, rest[i]);
    }
  }
}
