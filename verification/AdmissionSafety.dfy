/**
 Safety of the admission protocol over every run: one guard at a time, tickets served
 in order of issue, no live waiter reclaimed, one active lease and a bounded directory.
 */
module AdmissionSafety {
  import opened Common
  import opened AdmissionLimits
  import opened AdmissionProtocol

  // ---------------------------------------------------------------------------
  // The invariant
  // ---------------------------------------------------------------------------

  /** No operation twice; a ticket file goes only after its lock, a lease only after the
      heartbeat. */
  predicate WellOrdered(ops: seq<Op>) {
    forall i, j :: 0 <= i < j < |ops| ==>
      && ops[i] != ops[j]
      && !(ops[i] == RemoveTicket && ops[j] == UnlockTicket)
      && !(ops[i] == RemoveLease && ops[j] == StopBeat)
  }

  predicate IsOldest(s: State, t: nat) {
    forall u :: u in s.tickets ==> t <= u
  }

  predicate ActiveLease(s: State, t: nat) {
    t in s.leases && s.leases[t].Lease? && s.leases[t].active
  }

  /** What holds of the shared state when a process is at `pc`. */
  predicate Local(s: State, pc: PC) {
    && (Reserved(pc) ==> Mine(pc).value in s.tickets)
    && (First(pc) ==> IsOldest(s, Mine(pc).value))
    && match pc
       case Scan(own, todo, live, stale) =>
         && s.tickets <= todo + live + stale
         && (forall u :: u in stale ==> u !in s.locks)
       case Reclaim(own, live, stale, lease) =>
         && s.tickets <= live + stale && s.staging == {}
         && (forall u :: u in stale ==> u !in s.locks)
         && (lease.Some? ==> lease.value !in s.locks && lease.value !in s.tickets)
       case Issue => |s.tickets| < MAX_QUEUE_TICKETS && s.staging == {}
       case Stage(t) =>
         && |s.tickets| < MAX_QUEUE_TICKETS && s.staging == {} && t == s.counter - 1
         && t !in s.tickets && t !in s.leases && t !in s.locks
       case Staged(t) =>
         && |s.tickets| < MAX_QUEUE_TICKETS && s.staging == {t} && t == s.counter - 1
         && t !in s.tickets && t !in s.leases && t !in s.locks
       case Locked(t) =>
         |s.tickets| < MAX_QUEUE_TICKETS && s.staging == {t} && t == s.counter - 1 && t !in s.tickets && t !in s.leases
       case Named(t) => t !in s.leases
       case Activated(t) => ActiveLease(s, t)
       case Closing(t, ops, _) => WellOrdered(ops)
       case _ => true
  }

  /** A heartbeat belongs to a guard, and while the guard holds its ticket the lease is
      there and active. */
  predicate BeatInv(s: State, proc: Proc) {
    proc.beat.Beat? ==>
      && (proc.pc.Holding? || (proc.pc.Closing? && StopBeat in proc.pc.ops))
      && proc.beat.t == proc.pc.t
      && (Reserved(proc.pc) ==> ActiveLease(s, proc.pc.t))
  }

  function Owned(locks: map<nat, nat>, p: nat): set<nat> {
    set u | u in locks && locks[u] == p
  }

  predicate LockInv(s: State, p: nat, pc: PC) {
    && (s.queue == Some(p) <==> HasQueue(pc))
    && (s.slot == Some(p) <==> HasSlot(pc))
    && Held(pc) == Owned(s.locks, p)
    && (Mine(pc).Some? ==> Mine(pc).value < s.counter)
  }

  ghost predicate ProcInv(s: State, p: nat)
    requires p in s.procs
  {
    LockInv(s, p, s.procs[p].pc) && Local(s, s.procs[p].pc) && BeatInv(s, s.procs[p])
  }

  predicate Distinct(s: State, p: nat, q: nat)
    requires p in s.procs && q in s.procs
  {
    Mine(s.procs[p].pc).Some? ==> Mine(s.procs[p].pc) != Mine(s.procs[q].pc)
  }

  /** What every process may rely on. */
  predicate Shared(s: State) {
    && (s.queue.Some? ==> s.queue.value in s.procs)
    && (s.slot.Some? ==> s.slot.value in s.procs)
    && (forall u :: u in s.locks ==> u < s.counter && s.locks[u] in s.procs)
    && (forall u :: u in s.tickets ==> u < s.counter)
    && (forall u :: u in s.staging ==> u < s.counter)
    && (forall u :: u in s.leases ==> u < s.counter)
    && (forall u :: u in s.tickets && ActiveLease(s, u) ==> IsOldest(s, u))
    && |s.tickets| + |s.staging| <= MAX_QUEUE_TICKETS
    && 1 <= s.counter <= U64_MAX
    && (forall i :: 0 <= i < |s.issued| ==> s.issued[i] < s.counter)
    && (forall i, j :: 0 <= i < j < |s.issued| ==> s.issued[i] < s.issued[j])
  }

  ghost predicate Inv(s: State) {
    && Shared(s)
    && (forall p :: p in s.procs ==> ProcInv(s, p))
    && (forall p, q :: p in s.procs && q in s.procs && p != q ==> Distinct(s, p, q))
  }

  // ---------------------------------------------------------------------------
  // What a step of p may do to the others
  // ---------------------------------------------------------------------------

  predicate LockedByOther(s: State, p: nat, u: nat) {
    u in s.locks && s.locks[u] != p
  }

  /** A process may delete the files of its own ticket, and those of a ticket no other
      process has locked. */
  predicate MayTouch(s: State, p: nat, u: nat)
    requires p in s.procs
  {
    Mine(s.procs[p].pc) == Some(u) || !LockedByOther(s, p, u)
  }

  /** A step of `p` that respects the locks: it takes or gives only its own locks, adds
      tickets, staging files and locks only under the queue lock, and leaves alone the
      tickets others have locked. */
  ghost predicate Respects(s: State, t: State, p: nat) {
    && p in s.procs && p in t.procs && t.procs == s.procs[p := t.procs[p]]
    && s.counter <= t.counter
    && (forall q :: q != p ==> (t.queue == Some(q) <==> s.queue == Some(q)) && (t.slot == Some(q) <==> s.slot == Some(q)))
    && (forall u :: LockedByOther(s, p, u) <==> LockedByOther(t, p, u))
    && (forall u :: LockedByOther(s, p, u) ==> t.locks[u] == s.locks[u])
    && (forall u :: u in s.tickets && u !in t.tickets ==> MayTouch(s, p, u))
    && (forall u :: ActiveLease(s, u) && !MayTouch(s, p, u) ==> ActiveLease(t, u))
    && (s.queue != Some(p) ==>
          && t.tickets <= s.tickets && t.staging == s.staging && t.counter == s.counter
          && (forall u :: u in t.locks ==> u in s.locks))
    && (forall u :: u in t.tickets && u !in s.tickets ==> u == s.counter - 1 && Mine(s.procs[p].pc) == Some(u))
    && (forall u :: u in t.leases && u !in s.leases ==> Mine(s.procs[p].pc) == Some(u))
  }

  lemma OthersKeepLocks(s: State, t: State, p: nat, q: nat)
    requires Inv(s) && Respects(s, t, p) && q in s.procs && q != p
    ensures LockInv(t, q, s.procs[q].pc)
    ensures forall u :: u in Held(s.procs[q].pc) ==> LockedByOther(s, p, u)
  {
    assert ProcInv(s, q);
    forall u
      ensures u in Owned(s.locks, q) <==> u in Owned(t.locks, q)
    {
      assert LockedByOther(s, p, u) <==> LockedByOther(t, p, u);
    }
    assert Owned(s.locks, q) == Owned(t.locks, q);
  }

  lemma OthersKeepLocal(s: State, t: State, p: nat, q: nat)
    requires Inv(s) && Respects(s, t, p) && q in s.procs && q != p
    ensures Local(t, s.procs[q].pc)
  {
    var pc := s.procs[q].pc;
    assert ProcInv(s, q) && ProcInv(s, p) && Distinct(s, p, q) && Distinct(s, q, p);
    OthersKeepLocks(s, t, p, q);
    if Reserved(pc) {
      assert Mine(pc).value in Held(pc);
      assert !MayTouch(s, p, Mine(pc).value);
    }
    if HasQueue(pc) {
      assert s.queue == Some(q);
      SubsetSize(t.tickets, s.tickets);
    }
  }

  lemma OthersKeepInv(s: State, t: State, p: nat, q: nat)
    requires Inv(s) && Respects(s, t, p) && q in s.procs && q != p
    ensures ProcInv(t, q)
  {
    var proc := s.procs[q];
    assert ProcInv(s, q) && Distinct(s, p, q);
    OthersKeepLocks(s, t, p, q);
    OthersKeepLocal(s, t, p, q);
    if Reserved(proc.pc) {
      assert Mine(proc.pc).value in Held(proc.pc);
      assert !MayTouch(s, p, Mine(proc.pc).value);
    }
  }

  /** The process keeps its ticket, gives it up, or has just been issued a new one. */
  predicate KeepsMine(s: State, t: State, p: nat)
    requires p in s.procs && p in t.procs
  {
    var mine := Mine(t.procs[p].pc);
    mine == Mine(s.procs[p].pc) || mine.None? || mine.value >= s.counter
  }

  ghost predicate Good(s: State, t: State, p: nat) {
    Respects(s, t, p) && ProcInv(t, p) && Shared(t) && KeepsMine(s, t, p)
  }

  lemma GoodKeepsInv(s: State, t: State, p: nat)
    requires Inv(s) && Good(s, t, p)
    ensures Inv(t)
  {
    forall q | q in t.procs && q != p
      ensures ProcInv(t, q)
    {
      OthersKeepInv(s, t, p, q);
    }
    forall q, r | q in t.procs && r in t.procs && q != r
      ensures Distinct(t, q, r)
    {
      assert Distinct(s, q, r);
      assert ProcInv(s, q) && ProcInv(s, r);
    }
  }

  /** A step that touches no files, only locks of its own and its program counter. */
  predicate LocksOnly(s: State, t: State, p: nat) {
    && p in s.procs && p in t.procs
    && t == s.(queue := t.queue, slot := t.slot, locks := t.locks, procs := s.procs[p := t.procs[p]])
    && (t.queue == s.queue || (s.queue.None? && t.queue == Some(p)) || (s.queue == Some(p) && t.queue.None?))
    && (t.slot == s.slot || (s.slot.None? && t.slot == Some(p)) || (s.slot == Some(p) && t.slot.None?))
    && (forall u :: u in t.locks ==> u in s.locks && t.locks[u] == s.locks[u])
    && (forall u :: u in s.locks && u !in t.locks ==> s.locks[u] == p)
  }

  lemma LocksOnlyIsGood(s: State, t: State, p: nat)
    requires Shared(s) && LocksOnly(s, t, p) && ProcInv(t, p)
    requires Mine(t.procs[p].pc) == Mine(s.procs[p].pc) || Mine(t.procs[p].pc).None?
    ensures Good(s, t, p)
  {
    assert forall u :: ActiveLease(t, u) == ActiveLease(s, u);
  }

  /** A lease goes that the process may touch. */
  lemma LeaseGoneIsGood(s: State, t: State, p: nat, u: nat)
    requires Shared(s) && p in s.procs && p in t.procs && MayTouch(s, p, u)
    requires t == s.(leases := s.leases - {u}, procs := s.procs[p := t.procs[p]])
    requires ProcInv(t, p) && Mine(t.procs[p].pc) == Mine(s.procs[p].pc)
    ensures Good(s, t, p)
  {
    assert forall w :: ActiveLease(t, w) ==> ActiveLease(s, w);
  }

  /** A ticket goes that the process may touch. */
  lemma TicketGoneIsGood(s: State, t: State, p: nat, u: nat)
    requires Shared(s) && p in s.procs && p in t.procs && MayTouch(s, p, u)
    requires t == s.(tickets := s.tickets - {u}, procs := s.procs[p := t.procs[p]])
    requires ProcInv(t, p) && Mine(t.procs[p].pc) == Mine(s.procs[p].pc)
    ensures Good(s, t, p)
  {
    assert forall w :: ActiveLease(t, w) == ActiveLease(s, w);
    SubsetSize(t.tickets, s.tickets);
  }

  /** The owner of the oldest ticket writes its lease as active. */
  lemma LeaseWriteIsGood(s: State, t: State, p: nat, u: nat)
    requires Shared(s) && p in s.procs && p in t.procs && ProcInv(t, p) && u < s.counter
    requires t == s.(leases := s.leases[u := Lease(true, s.now)], procs := s.procs[p := t.procs[p]])
    requires Mine(s.procs[p].pc) == Some(u) && Mine(t.procs[p].pc) == Some(u) && IsOldest(s, u)
    ensures Good(s, t, p)
  {
    assert forall w :: ActiveLease(t, w) <==> ActiveLease(s, w) || w == u;
  }

  lemma OpsAreWellOrdered()
    ensures WellOrdered(ReleaseOps()) && WellOrdered(AgainOps()) && WellOrdered(CleanupOps())
    ensures WellOrdered(DropOps()) && WellOrdered(FailOps()) && WellOrdered(AbandonOps())
  {
  }

  /** What one operation of a closing procedure gives up. */
  lemma RestOf(pc: PC)
    requires pc.Closing? && WellOrdered(pc.ops) && pc.ops != []
    ensures WellOrdered(Rest(pc).ops) && Mine(Rest(pc)) == Mine(pc)
    ensures HasQueue(Rest(pc)) <==> HasQueue(pc) && pc.ops[0] != UnlockQueue
    ensures HasSlot(Rest(pc)) <==> HasSlot(pc) && pc.ops[0] != UnlockSlot
    ensures Reserved(Rest(pc)) <==> Reserved(pc) && pc.ops[0] != UnlockTicket
    ensures First(Rest(pc)) <==> First(pc) && pc.ops[0] != StopBeat
    ensures pc.ops[0] == RemoveTicket ==> !Reserved(pc)
    ensures pc.ops[0] == RemoveLease ==> !First(pc)
    ensures pc.ops[0] == UnlockQueue ==> HasQueue(pc)
    ensures pc.ops[0] == UnlockSlot ==> HasSlot(pc)
    ensures pc.ops[0] == UnlockTicket ==> Reserved(pc)
  {
    var ops := pc.ops;
    assert forall op :: op in ops <==> op == ops[0] || op in ops[1..];
  }

  /** After an operation that is not an unlock, or that unlocks what it names, the locks
      of the process are those it still has to give up. */
  lemma RestKeepsLocks(s: State, t: State, p: nat, pc: PC)
    requires pc.Closing? && WellOrdered(pc.ops) && pc.ops != [] && LockInv(s, p, pc)
    requires t.counter == s.counter
    requires t.queue == if pc.ops[0] == UnlockQueue then None else s.queue
    requires t.slot == if pc.ops[0] == UnlockSlot then None else s.slot
    requires t.locks == if pc.ops[0] == UnlockTicket then s.locks - {pc.t} else s.locks
    ensures LockInv(t, p, Rest(pc))
  {
    RestOf(pc);
    if pc.ops[0] == UnlockTicket {
      assert Owned(t.locks, p) == Owned(s.locks, p) - {pc.t};
    }
  }

  lemma BeginScanIsGood(s: State, t: State, p: nat)
    requires Shared(s) && p in s.procs && ProcInv(s, p) && BeginScan(s, t, p)
    ensures Good(s, t, p)
  {
    LocksOnlyIsGood(s, t, p);
  }

  lemma ScanStagingIsGood(s: State, t: State, p: nat, u: nat)
    requires Shared(s) && p in s.procs && ProcInv(s, p) && ScanStaging(s, t, p, u)
    ensures Good(s, t, p)
  {
  }

  lemma ScanTicketIsGood(s: State, t: State, p: nat, u: nat)
    requires Shared(s) && p in s.procs && ProcInv(s, p) && ScanTicket(s, t, p, u)
    ensures Good(s, t, p)
  {
    LocksOnlyIsGood(s, t, p);
  }

  lemma EndScanIsGood(s: State, t: State, p: nat)
    requires Shared(s) && p in s.procs && ProcInv(s, p) && EndScan(s, t, p)
    ensures Good(s, t, p)
  {
    LocksOnlyIsGood(s, t, p);
  }

  lemma ReclaimTicketIsGood(s: State, t: State, p: nat, u: nat)
    requires Shared(s) && p in s.procs && ProcInv(s, p) && ReclaimTicket(s, t, p, u)
    ensures Good(s, t, p)
  {
    TicketGoneIsGood(s, t, p, u);
  }

  lemma ReclaimLeaseIsGood(s: State, t: State, p: nat)
    requires Shared(s) && p in s.procs && ProcInv(s, p) && ReclaimLease(s, t, p)
    ensures Good(s, t, p)
  {
    LeaseGoneIsGood(s, t, p, s.procs[p].pc.lease.value);
  }

  lemma AbortScanIsGood(s: State, t: State, p: nat)
    requires Shared(s) && p in s.procs && ProcInv(s, p) && AbortScan(s, t, p)
    ensures Good(s, t, p)
  {
    OpsAreWellOrdered();
    LocksOnlyIsGood(s, t, p);
  }

  lemma AdmitIsGood(s: State, t: State, p: nat)
    requires Shared(s) && p in s.procs && ProcInv(s, p) && Admit(s, t, p)
    ensures Good(s, t, p)
  {
    var pc := s.procs[p].pc;
    assert s.tickets <= pc.live;
    SubsetSize(s.tickets, pc.live);
    LocksOnlyIsGood(s, t, p);
  }

  lemma IssueIdIsGood(s: State, t: State, p: nat, u: nat)
    requires Shared(s) && p in s.procs && ProcInv(s, p) && IssueId(s, t, p, u)
    ensures Good(s, t, p)
  {
  }

  lemma CreateStagingKeepsProc(s: State, t: State, p: nat)
    requires Shared(s) && p in s.procs && ProcInv(s, p) && CreateStaging(s, t, p)
    ensures ProcInv(t, p)
  {
  }

  lemma CreateStagingIsShared(s: State, t: State, p: nat)
    requires Shared(s) && p in s.procs && LockInv(s, p, s.procs[p].pc) && Local(s, s.procs[p].pc) && CreateStaging(s, t, p)
    ensures Shared(t)
  {
  }

  lemma CreateStagingIsGood(s: State, t: State, p: nat)
    requires Shared(s) && p in s.procs && ProcInv(s, p) && CreateStaging(s, t, p)
    ensures Good(s, t, p)
  {
    CreateStagingKeepsProc(s, t, p);
    CreateStagingIsShared(s, t, p);
  }

  lemma LockStagingKeepsProc(s: State, t: State, p: nat)
    requires Shared(s) && p in s.procs && ProcInv(s, p) && LockStaging(s, t, p)
    ensures ProcInv(t, p)
  {
  }

  lemma LockStagingIsShared(s: State, t: State, p: nat)
    requires Shared(s) && p in s.procs && LockInv(s, p, s.procs[p].pc) && Local(s, s.procs[p].pc) && LockStaging(s, t, p)
    ensures Shared(t)
  {
  }

  lemma LockStagingIsGood(s: State, t: State, p: nat)
    requires Shared(s) && p in s.procs && ProcInv(s, p) && LockStaging(s, t, p)
    ensures Good(s, t, p)
  {
    LockStagingKeepsProc(s, t, p);
    LockStagingIsShared(s, t, p);
  }

  lemma NameTicketKeepsProc(s: State, t: State, p: nat)
    requires Shared(s) && p in s.procs && ProcInv(s, p) && NameTicket(s, t, p)
    ensures ProcInv(t, p)
  {
  }

  lemma NameTicketIsShared(s: State, t: State, p: nat)
    requires Shared(s) && p in s.procs && LockInv(s, p, s.procs[p].pc) && Local(s, s.procs[p].pc) && NameTicket(s, t, p)
    ensures Shared(t)
  {
  }

  lemma NameTicketIsGood(s: State, t: State, p: nat)
    requires Shared(s) && p in s.procs && ProcInv(s, p) && NameTicket(s, t, p)
    ensures Good(s, t, p)
  {
    NameTicketKeepsProc(s, t, p);
    NameTicketIsShared(s, t, p);
  }

  lemma CreateLeaseIsGood(s: State, t: State, p: nat)
    requires Shared(s) && p in s.procs && ProcInv(s, p) && CreateLease(s, t, p)
    ensures Good(s, t, p)
  {
  }

  lemma FinishTicketKeepsProc(s: State, t: State, p: nat)
    requires Shared(s) && p in s.procs && ProcInv(s, p) && FinishTicket(s, t, p)
    ensures ProcInv(t, p)
  {
  }

  lemma FinishTicketIsShared(s: State, t: State, p: nat)
    requires Shared(s) && p in s.procs && LockInv(s, p, s.procs[p].pc) && Local(s, s.procs[p].pc) && FinishTicket(s, t, p)
    ensures Shared(t)
  {
  }

  lemma FinishTicketIsGood(s: State, t: State, p: nat)
    requires Shared(s) && p in s.procs && ProcInv(s, p) && FinishTicket(s, t, p)
    ensures Good(s, t, p)
  {
    FinishTicketKeepsProc(s, t, p);
    FinishTicketIsShared(s, t, p);
  }

  lemma AbortTicketIsGood(s: State, t: State, p: nat)
    requires Shared(s) && p in s.procs && ProcInv(s, p) && AbortTicket(s, t, p)
    ensures Good(s, t, p)
  {
    LocksOnlyIsGood(s, t, p);
  }

  lemma TakeSlotIsGood(s: State, t: State, p: nat)
    requires Shared(s) && p in s.procs && ProcInv(s, p) && TakeSlot(s, t, p)
    ensures Good(s, t, p)
  {
    var pc := s.procs[p].pc;
    assert s.tickets <= pc.live;
    LocksOnlyIsGood(s, t, p);
  }

  lemma ActivateLeaseIsGood(s: State, t: State, p: nat)
    requires Shared(s) && p in s.procs && ProcInv(s, p) && ActivateLease(s, t, p)
    ensures Good(s, t, p)
  {
    LeaseWriteIsGood(s, t, p, s.procs[p].pc.t);
  }

  lemma AbortActivationIsGood(s: State, t: State, p: nat)
    requires Shared(s) && p in s.procs && ProcInv(s, p) && AbortActivation(s, t, p)
    ensures Good(s, t, p)
  {
    LocksOnlyIsGood(s, t, p);
  }

  lemma HandOutIsGood(s: State, t: State, p: nat)
    requires Shared(s) && p in s.procs && ProcInv(s, p) && HandOut(s, t, p)
    ensures Good(s, t, p)
  {
    LocksOnlyIsGood(s, t, p);
  }

  lemma BeatReadIsGood(s: State, t: State, p: nat)
    requires Shared(s) && p in s.procs && ProcInv(s, p) && BeatRead(s, t, p)
    ensures Good(s, t, p)
  {
    LocksOnlyIsGood(s, t, p);
  }

  lemma BeatWriteIsGood(s: State, t: State, p: nat)
    requires Shared(s) && p in s.procs && ProcInv(s, p) && BeatWrite(s, t, p)
    ensures Good(s, t, p)
  {
    if t.leases == s.leases {
      LocksOnlyIsGood(s, t, p);
    } else {
      LeaseWriteIsGood(s, t, p, s.procs[p].beat.t);
    }
  }

  lemma EndClosingIsGood(s: State, t: State, p: nat)
    requires Shared(s) && p in s.procs && ProcInv(s, p) && EndClosing(s, t, p)
    ensures Good(s, t, p)
  {
    LocksOnlyIsGood(s, t, p);
  }

  lemma FixBeginIsGood(s: State, t: State, p: nat)
    requires Shared(s) && p in s.procs && ProcInv(s, p) && FixBegin(s, t, p)
    ensures Good(s, t, p)
  {
    LocksOnlyIsGood(s, t, p);
  }

  lemma FixPickKeepsProc(s: State, t: State, p: nat, u: nat)
    requires Shared(s) && p in s.procs && ProcInv(s, p) && FixPick(s, t, p, u)
    ensures ProcInv(t, p)
  {
  }

  lemma FixPickIsShared(s: State, t: State, p: nat, u: nat)
    requires Shared(s) && p in s.procs && LockInv(s, p, s.procs[p].pc) && Local(s, s.procs[p].pc) && FixPick(s, t, p, u)
    ensures Shared(t)
  {
  }

  lemma FixPickIsGood(s: State, t: State, p: nat, u: nat)
    requires Shared(s) && p in s.procs && ProcInv(s, p) && FixPick(s, t, p, u)
    ensures Good(s, t, p)
  {
    FixPickKeepsProc(s, t, p, u);
    FixPickIsShared(s, t, p, u);
  }

  lemma FixLeaseIsGood(s: State, t: State, p: nat, u: nat)
    requires Shared(s) && p in s.procs && ProcInv(s, p) && FixLease(s, t, p, u)
    ensures Good(s, t, p)
  {
    LeaseGoneIsGood(s, t, p, u);
  }

  lemma FixMoveIsGood(s: State, t: State, p: nat, u: nat)
    requires Shared(s) && p in s.procs && ProcInv(s, p) && FixMove(s, t, p, u)
    ensures Good(s, t, p)
  {
    TicketGoneIsGood(s, t, p, u);
  }

  lemma FixEndIsGood(s: State, t: State, p: nat)
    requires Shared(s) && p in s.procs && ProcInv(s, p) && FixEnd(s, t, p)
    ensures Good(s, t, p)
  {
    LocksOnlyIsGood(s, t, p);
  }

  lemma CrashIsGood(s: State, t: State, p: nat)
    requires Shared(s) && p in s.procs && ProcInv(s, p) && Crash(s, t, p)
    ensures Good(s, t, p)
  {
    LocksOnlyIsGood(s, t, p);
  }

  lemma AbortLeaseIsGood(s: State, t: State, p: nat)
    requires Shared(s) && p in s.procs && ProcInv(s, p) && AbortLease(s, t, p)
    ensures Good(s, t, p)
  {
    OpsAreWellOrdered();
    LocksOnlyIsGood(s, t, p);
  }

  lemma BeginReleaseIsGood(s: State, t: State, p: nat)
    requires Shared(s) && p in s.procs && ProcInv(s, p) && BeginRelease(s, t, p)
    ensures Good(s, t, p)
  {
    OpsAreWellOrdered();
    LocksOnlyIsGood(s, t, p);
  }

  lemma BeginCleanupIsGood(s: State, t: State, p: nat)
    requires Shared(s) && p in s.procs && ProcInv(s, p) && BeginCleanup(s, t, p)
    ensures Good(s, t, p)
  {
    OpsAreWellOrdered();
    LocksOnlyIsGood(s, t, p);
  }

  lemma BeginAgainIsGood(s: State, t: State, p: nat)
    requires Shared(s) && p in s.procs && ProcInv(s, p) && BeginAgain(s, t, p)
    ensures Good(s, t, p)
  {
    OpsAreWellOrdered();
    LocksOnlyIsGood(s, t, p);
  }

  lemma AbandonIsGood(s: State, t: State, p: nat)
    requires Shared(s) && p in s.procs && ProcInv(s, p) && Abandon(s, t, p)
    ensures Good(s, t, p)
  {
    OpsAreWellOrdered();
    LocksOnlyIsGood(s, t, p);
  }

  lemma DropReservationIsGood(s: State, t: State, p: nat)
    requires Shared(s) && p in s.procs && ProcInv(s, p) && DropReservation(s, t, p)
    ensures Good(s, t, p)
  {
    OpsAreWellOrdered();
    LocksOnlyIsGood(s, t, p);
  }

  lemma SkipAgainIsGood(s: State, t: State, p: nat)
    requires Shared(s) && p in s.procs && ProcInv(s, p) && SkipAgain(s, t, p)
    ensures Good(s, t, p)
  {
    LocksOnlyIsGood(s, t, p);
  }

  lemma CloseBeatIsGood(s: State, t: State, p: nat)
    requires Shared(s) && p in s.procs && ProcInv(s, p) && CloseBeat(s, t, p)
    ensures Good(s, t, p)
  {
    RestOf(s.procs[p].pc);
    RestKeepsLocks(s, t, p, s.procs[p].pc);
    LocksOnlyIsGood(s, t, p);
  }

  lemma CloseLocksKeepsProc(s: State, t: State, p: nat)
    requires p in s.procs && ProcInv(s, p) && CloseLocks(s, t, p)
    ensures ProcInv(t, p)
  {
    RestOf(s.procs[p].pc);
    RestKeepsLocks(s, t, p, s.procs[p].pc);
  }

  lemma CloseLocksIsLocksOnly(s: State, t: State, p: nat)
    requires p in s.procs && LockInv(s, p, s.procs[p].pc) && Local(s, s.procs[p].pc) && CloseLocks(s, t, p)
    ensures LocksOnly(s, t, p)
  {
    RestOf(s.procs[p].pc);
    assert s.procs[p].pc.ops[0] == UnlockTicket ==> s.procs[p].pc.t in Owned(s.locks, p);
  }

  lemma CloseLocksIsGood(s: State, t: State, p: nat)
    requires Shared(s) && p in s.procs && ProcInv(s, p) && CloseLocks(s, t, p)
    ensures Good(s, t, p)
  {
    assert ProcInv(t, p) && LocksOnly(s, t, p) by {
      CloseLocksKeepsProc(s, t, p);
      CloseLocksIsLocksOnly(s, t, p);
    }
    LocksOnlyIsGood(s, t, p);
  }

  lemma CloseLeaseIsGood(s: State, t: State, p: nat)
    requires Shared(s) && p in s.procs && ProcInv(s, p) && CloseLease(s, t, p)
    ensures Good(s, t, p)
  {
    RestOf(s.procs[p].pc);
    RestKeepsLocks(s, t, p, s.procs[p].pc);
    if t.leases == s.leases {
      LocksOnlyIsGood(s, t, p);
    } else {
      LeaseGoneIsGood(s, t, p, s.procs[p].pc.t);
    }
  }

  lemma CloseTicketIsGood(s: State, t: State, p: nat)
    requires Shared(s) && p in s.procs && ProcInv(s, p) && CloseTicket(s, t, p)
    ensures Good(s, t, p)
  {
    RestOf(s.procs[p].pc);
    RestKeepsLocks(s, t, p, s.procs[p].pc);
    if t.tickets == s.tickets {
      LocksOnlyIsGood(s, t, p);
    } else {
      TicketGoneIsGood(s, t, p, s.procs[p].pc.t);
    }
  }

}
