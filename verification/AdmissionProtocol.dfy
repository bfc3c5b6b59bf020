/**
 The host admission coordinator (src/admission.rs) as a transition system: any
 number of processes share a queue lock, a slot lock, one lock per ticket, the
 directories `tickets` and `leases`, and the ticket counter. Every filesystem call
 and every lock operation that another process can observe is a step of its own; a
 crash may strike between any two and releases the locks of the process but leaves
 its files. The clock is arbitrary.
 */
module AdmissionProtocol {
  import opened Common
  import opened AdmissionLimits

  /** A lease file; one whose creation was interrupted does not decode. */
  datatype Lease = Torn | Lease(active: bool, heartbeat: nat)

  predicate Expired(lease: Lease, now: nat) {
    lease.Lease? && Lapsed(lease.heartbeat, now)
  }

  /** The background heartbeat of ticket `t`; `read` holds between reading the lease
      and writing it back. */
  datatype Beat = NoBeat | Beat(t: nat, read: bool)

  /** What a closing procedure still has to do. */
  datatype Op = StopBeat | RemoveLease | RemoveTicket | UnlockSlot | UnlockTicket | UnlockQueue

  datatype PC =
    | Out
      // scan_tickets: the directory entries still to look at, and the verdicts so far
    | Scan(own: Option<nat>, todo: set<nat>, live: set<nat>, stale: set<nat>)
      // remove_stale; `lease` is a quarantined ticket whose lease is still to be removed
    | Reclaim(own: Option<nat>, live: set<nat>, stale: set<nat>, lease: Option<nat>)
      // create_ticket
    | Issue
    | Stage(t: nat)
    | Staged(t: nat)
    | Locked(t: nat)
    | Named(t: nat)
    | Writing(t: nat)
      // the loop of acquire, between two scans
    | Waiting(t: nat)
      // slot taken; lease written; guard handed out
    | Activate(t: nat)
    | Activated(t: nat)
    | Holding(t: nat)
      // activation failed: the reservation will be cleaned up
    | Leaving(t: nat)
      // release_inner, cleanup, Drop; `again`: the guard's Drop will release once more
    | Closing(t: nat, ops: seq<Op>, again: bool)
    | Released(t: nat)
      // reconciliation apply with the tickets it has locked
    | Fix(picked: set<nat>)

  datatype Proc = Proc(pc: PC, beat: Beat)

  datatype State = State(
    queue: Option<nat>,
    slot: Option<nat>,
    locks: map<nat, nat>,
    tickets: set<nat>,
    staging: set<nat>,
    leases: map<nat, Lease>,
    counter: nat,
    now: nat,
    procs: map<nat, Proc>,
    issued: seq<nat>)

  function ReleaseOps(): seq<Op> { [StopBeat, RemoveLease, UnlockSlot, UnlockTicket, RemoveTicket, UnlockQueue] }
  function AgainOps(): seq<Op> { [RemoveLease, RemoveTicket, UnlockQueue] }
  function CleanupOps(): seq<Op> { [UnlockTicket, RemoveLease, RemoveTicket, UnlockQueue] }
  function DropOps(): seq<Op> { [UnlockTicket, RemoveTicket, RemoveLease] }
  function FailOps(): seq<Op> { [UnlockTicket, RemoveTicket, UnlockQueue] }
  /** Fields of a guard whose release never got the queue lock, in declaration order. */
  function AbandonOps(): seq<Op> { [UnlockTicket, UnlockSlot, StopBeat] }

  // ---------------------------------------------------------------------------
  // What a program counter stands for
  // ---------------------------------------------------------------------------

  predicate HasQueue(pc: PC) {
    match pc
    case Scan(_, _, _, _) | Reclaim(_, _, _, _) | Issue | Stage(_) | Staged(_) | Locked(_) | Named(_) | Writing(_)
       | Activate(_) | Activated(_) | Fix(_) => true
    case Closing(_, ops, _) => UnlockQueue in ops
    case _ => false
  }

  predicate HasSlot(pc: PC) {
    match pc
    case Activate(_) | Activated(_) | Holding(_) | Fix(_) => true
    case Closing(_, ops, _) => UnlockSlot in ops
    case _ => false
  }

  /** The ticket a process owns. */
  function Mine(pc: PC): Option<nat> {
    match pc
    case Scan(own, _, _, _) => own
    case Reclaim(own, _, _, _) => own
    case Stage(t) => Some(t)
    case Staged(t) => Some(t)
    case Locked(t) => Some(t)
    case Named(t) => Some(t)
    case Writing(t) => Some(t)
    case Waiting(t) => Some(t)
    case Activate(t) => Some(t)
    case Activated(t) => Some(t)
    case Holding(t) => Some(t)
    case Leaving(t) => Some(t)
    case Closing(t, _, _) => Some(t)
    case Released(t) => Some(t)
    case _ => None
  }

  /** Owns a ticket file and has it locked. */
  predicate Reserved(pc: PC) {
    match pc
    case Scan(own, _, _, _) => own.Some?
    case Reclaim(own, _, _, _) => own.Some?
    case Named(_) | Writing(_) | Waiting(_) | Activate(_) | Activated(_) | Holding(_) | Leaving(_) => true
    case Closing(_, ops, _) => UnlockTicket in ops
    case _ => false
  }

  /** The ticket files a process has locked. */
  function Held(pc: PC): set<nat> {
    if pc.Fix? then pc.picked
    else if Mine(pc).Some? && (Reserved(pc) || pc.Locked?) then {Mine(pc).value}
    else {}
  }

  /** A guard or one in the making: nothing older may be around. */
  predicate First(pc: PC) {
    pc.Activate? || pc.Activated? || pc.Holding? || (pc.Closing? && StopBeat in pc.ops)
  }

  /** `acquire` has returned a guard and its slot is not released yet. */
  predicate HoldsGuard(pc: PC) {
    pc.Holding? || (pc.Closing? && UnlockSlot in pc.ops)
  }

  // ---------------------------------------------------------------------------
  // Steps of process p
  // ---------------------------------------------------------------------------

  function Move(s: State, p: nat, pc: PC): State
    requires p in s.procs
  {
    s.(procs := s.procs[p := s.procs[p].(pc := pc)])
  }

  function SetBeat(s: State, p: nat, beat: Beat): State
    requires p in s.procs
  {
    s.(procs := s.procs[p := s.procs[p].(beat := beat)])
  }

  function Unlock(locks: map<nat, nat>, p: nat): map<nat, nat> {
    map t | t in locks && locks[t] != p :: locks[t]
  }

  function Free(lock: Option<nat>, p: nat): Option<nat> {
    if lock == Some(p) then None else lock
  }

  /** Queue lock taken; `acquire` starts a scan of the tickets directory. */
  predicate BeginScan(s: State, t: State, p: nat)
    requires p in s.procs
  {
    var pc := s.procs[p].pc;
    && s.queue.None?
    && ((pc.Out? && s.procs[p].beat.NoBeat?) || pc.Waiting?)
    && t == Move(s.(queue := Some(p)), p, Scan(Mine(pc), s.tickets, {}, {}))
  }

  /** An orphaned staging file is quarantined. */
  predicate ScanStaging(s: State, t: State, p: nat, u: nat)
    requires p in s.procs
  {
    && s.procs[p].pc.Scan? && u in s.staging
    && t == s.(staging := s.staging - {u})
  }

  datatype Verdict = Live | Stale | Unreadable

  /** What `scan_tickets` makes of ticket `u` (src/admission.rs:1432-1466): our own ticket
      and locked tickets are live; an unlocked one is stale when its lease is absent or
      expired. */
  function Judge(own: Option<nat>, locked: set<nat>, leases: map<nat, Lease>, now: nat, u: nat): Verdict {
    if own == Some(u) || u in locked then Live
    else if u !in leases then Stale
    else if leases[u].Torn? then Unreadable
    else if Expired(leases[u], now) then Stale
    else Live
  }

  /** One ticket is judged. An entry that has vanished meanwhile is passed over here; the
      error it causes in the source is an `AbortScan`, and so is a lease that does not
      decode. */
  predicate ScanTicket(s: State, t: State, p: nat, u: nat)
    requires p in s.procs
  {
    var pc := s.procs[p].pc;
    && pc.Scan? && u in pc.todo
    && var todo := pc.todo - {u};
    && if u !in s.tickets then t == Move(s, p, Scan(pc.own, todo, pc.live, pc.stale))
       else
         match Judge(pc.own, s.locks.Keys, s.leases, s.now, u)
         case Live => t == Move(s, p, Scan(pc.own, todo, pc.live + {u}, pc.stale))
         case Stale => t == Move(s, p, Scan(pc.own, todo, pc.live, pc.stale + {u}))
         case Unreadable => false
  }

  predicate EndScan(s: State, t: State, p: nat)
    requires p in s.procs
  {
    var pc := s.procs[p].pc;
    && pc.Scan? && pc.todo == {} && s.staging == {}
    && t == Move(s, p, Reclaim(pc.own, pc.live, pc.stale, None))
  }

  predicate ReclaimTicket(s: State, t: State, p: nat, u: nat)
    requires p in s.procs
  {
    var pc := s.procs[p].pc;
    && pc.Reclaim? && pc.lease.None? && u in pc.stale && u in s.tickets
    && t == Move(s.(tickets := s.tickets - {u}), p, pc.(stale := pc.stale - {u}, lease := Some(u)))
  }

  predicate ReclaimLease(s: State, t: State, p: nat)
    requires p in s.procs
  {
    var pc := s.procs[p].pc;
    && pc.Reclaim? && pc.lease.Some?
    && t == Move(s.(leases := s.leases - {pc.lease.value}), p, pc.(lease := None))
  }

  /** An error inside a scan: the queue lock goes, then the reservation is dropped. */
  predicate AbortScan(s: State, t: State, p: nat)
    requires p in s.procs
  {
    var pc := s.procs[p].pc;
    && (pc.Scan? || pc.Reclaim?)
    && t == Move(s.(queue := None), p,
         if pc.own.Some? then Closing(pc.own.value, DropOps(), false) else Out)
  }

  /** The queue is full, or a ticket will be created. */
  predicate Admit(s: State, t: State, p: nat)
    requires p in s.procs
  {
    var pc := s.procs[p].pc;
    && pc.Reclaim? && pc.own.None? && pc.stale == {} && pc.lease.None?
    && t == if |pc.live| >= MAX_QUEUE_TICKETS then Move(s.(queue := None), p, Out) else Move(s, p, Issue)
  }

  /** The id `next_ticket_id` computes: one more than the counter's last and than
      every ticket in the directory. */
  predicate IsNextId(tickets: set<nat>, counter: nat, id: nat) {
    && id >= counter && (forall u :: u in tickets ==> u < id)
    && (id == counter || id - 1 in tickets)
  }

  /** The counter is replaced atomically; the id is issued. */
  predicate IssueId(s: State, t: State, p: nat, id: nat)
    requires p in s.procs
  {
    && s.procs[p].pc.Issue? && IsNextId(s.tickets, s.counter, id) && 0 < id && id + 1 <= U64_MAX
    && t == Move(s.(counter := id + 1, issued := s.issued + [id]), p, Stage(id))
  }

  predicate CreateStaging(s: State, t: State, p: nat)
    requires p in s.procs
  {
    && s.procs[p].pc.Stage?
    && var id := s.procs[p].pc.t;
    && t == Move(s.(staging := s.staging + {id}), p, Staged(id))
  }

  predicate LockStaging(s: State, t: State, p: nat)
    requires p in s.procs
  {
    && s.procs[p].pc.Staged?
    && var id := s.procs[p].pc.t;
    && id !in s.locks
    && t == Move(s.(locks := s.locks[id := p]), p, Locked(id))
  }

  predicate NameTicket(s: State, t: State, p: nat)
    requires p in s.procs
  {
    && s.procs[p].pc.Locked?
    && var id := s.procs[p].pc.t;
    && t == Move(s.(staging := s.staging - {id}, tickets := s.tickets + {id}), p, Named(id))
  }

  predicate CreateLease(s: State, t: State, p: nat)
    requires p in s.procs
  {
    && s.procs[p].pc.Named?
    && var id := s.procs[p].pc.t;
    && id !in s.leases
    && t == Move(s.(leases := s.leases[id := Torn]), p, Writing(id))
  }

  predicate FinishTicket(s: State, t: State, p: nat)
    requires p in s.procs
  {
    && s.procs[p].pc.Writing?
    && var id := s.procs[p].pc.t;
    && t == Move(s.(leases := s.leases[id := Lease(false, s.now)], queue := None), p, Waiting(id))
  }

  /** An error while the ticket is being created: the file handle and the queue lock go.
      A failed lease creation (`AbortLease`) removes the ticket again. */
  predicate AbortTicket(s: State, t: State, p: nat)
    requires p in s.procs
  {
    var pc := s.procs[p].pc;
    && (pc.Issue? || pc.Stage? || pc.Staged? || pc.Locked? || pc.Named?)
    && t == Move(s.(queue := None, locks := Unlock(s.locks, p)), p, Out)
  }

  predicate AbortLease(s: State, t: State, p: nat)
    requires p in s.procs
  {
    var pc := s.procs[p].pc;
    && (pc.Named? || pc.Writing?)
    && t == Move(s, p, Closing(pc.t, FailOps(), false))
  }

  /** Our ticket heads the queue and the slot is free; otherwise go back to waiting. */
  predicate TakeSlot(s: State, t: State, p: nat)
    requires p in s.procs
  {
    var pc := s.procs[p].pc;
    && pc.Reclaim? && pc.own.Some? && pc.stale == {} && pc.lease.None?
    && var own := pc.own.value;
    && t == if own in pc.live && (forall u :: u in pc.live ==> own <= u) && s.slot.None?
            then Move(s.(slot := Some(p)), p, Activate(own))
            else Move(s.(queue := None), p, Waiting(own))
  }

  /** The grant: the queued lease becomes active. */
  predicate ActivateLease(s: State, t: State, p: nat)
    requires p in s.procs
  {
    && s.procs[p].pc.Activate?
    && var id := s.procs[p].pc.t;
    && id in s.leases && s.leases[id].Lease? && !s.leases[id].active
    && t == Move(s.(leases := s.leases[id := Lease(true, s.now)]), p, Activated(id))
  }

  /** Activation failed, before or after the lease was written: the slot and the queue are
      let go and the reservation is cleaned up. */
  predicate AbortActivation(s: State, t: State, p: nat)
    requires p in s.procs
  {
    && (s.procs[p].pc.Activate? || s.procs[p].pc.Activated?)
    && t == Move(s.(slot := None, queue := None), p, Leaving(s.procs[p].pc.t))
  }

  predicate HandOut(s: State, t: State, p: nat)
    requires p in s.procs
  {
    && s.procs[p].pc.Activated?
    && var id := s.procs[p].pc.t;
    && t == SetBeat(Move(s.(queue := None), p, Holding(id)), p, Beat(id, false))
  }

  /** A heartbeat reads the lease, or gives up. */
  predicate BeatRead(s: State, t: State, p: nat)
    requires p in s.procs
  {
    var beat := s.procs[p].beat;
    && beat.Beat? && !beat.read
    && (|| t == SetBeat(s, p, NoBeat)
        || (&& beat.t in s.leases && s.leases[beat.t].Lease? && s.leases[beat.t].active
            && t == SetBeat(s, p, beat.(read := true))))
  }

  /** A heartbeat writes the lease back: the atomic replacement creates the file if it
      is not there. Or the write fails and the heartbeat ends. */
  predicate BeatWrite(s: State, t: State, p: nat)
    requires p in s.procs
  {
    var beat := s.procs[p].beat;
    && beat.Beat? && beat.read
    && (|| t == SetBeat(s, p, NoBeat)
        || t == SetBeat(s.(leases := s.leases[beat.t := Lease(true, s.now)]), p, beat.(read := false)))
  }

  /** `release` got the queue lock. */
  predicate BeginRelease(s: State, t: State, p: nat)
    requires p in s.procs
  {
    && s.queue.None? && s.procs[p].pc.Holding?
    && t == Move(s.(queue := Some(p)), p, Closing(s.procs[p].pc.t, ReleaseOps(), true))
  }

  /** `cleanup` of a reservation that timed out, was cancelled or could not be activated got
      the queue lock. */
  predicate BeginCleanup(s: State, t: State, p: nat)
    requires p in s.procs
  {
    && s.queue.None? && (s.procs[p].pc.Waiting? || s.procs[p].pc.Leaving?)
    && t == Move(s.(queue := Some(p)), p, Closing(s.procs[p].pc.t, CleanupOps(), false))
  }

  /** The second `release_inner`, run by the guard's `Drop`. */
  predicate BeginAgain(s: State, t: State, p: nat)
    requires p in s.procs
  {
    && s.queue.None? && s.procs[p].pc.Released?
    && t == Move(s.(queue := Some(p)), p, Closing(s.procs[p].pc.t, AgainOps(), false))
  }

  /** Neither `release` nor `Drop` got the queue lock in time: the fields of the guard are
      dropped one after the other. */
  predicate Abandon(s: State, t: State, p: nat)
    requires p in s.procs
  {
    s.procs[p].pc.Holding? && t == Move(s, p, Closing(s.procs[p].pc.t, AbandonOps(), false))
  }

  /** A reservation is dropped without the queue lock. */
  predicate DropReservation(s: State, t: State, p: nat)
    requires p in s.procs
  {
    && (s.procs[p].pc.Waiting? || s.procs[p].pc.Leaving?)
    && t == Move(s, p, Closing(s.procs[p].pc.t, DropOps(), false))
  }

  predicate SkipAgain(s: State, t: State, p: nat)
    requires p in s.procs
  {
    s.procs[p].pc.Released? && t == Move(s, p, Out)
  }

  function Rest(pc: PC): PC
    requires pc.Closing? && pc.ops != []
  {
    pc.(ops := pc.ops[1..])
  }

  predicate AtOp(s: State, p: nat, op: Op)
    requires p in s.procs
  {
    s.procs[p].pc.Closing? && s.procs[p].pc.ops != [] && s.procs[p].pc.ops[0] == op
  }

  /** Stopping the heartbeat waits for a write in progress. */
  predicate CloseBeat(s: State, t: State, p: nat)
    requires p in s.procs
  {
    && AtOp(s, p, StopBeat)
    && (s.procs[p].beat.Beat? ==> !s.procs[p].beat.read)
    && t == s.(procs := s.procs[p := Proc(Rest(s.procs[p].pc), NoBeat)])
  }

  /** A failed removal is noted and passed over. */
  predicate CloseLease(s: State, t: State, p: nat)
    requires p in s.procs
  {
    && AtOp(s, p, RemoveLease)
    && var pc := s.procs[p].pc;
    (t == Move(s.(leases := s.leases - {pc.t}), p, Rest(pc)) || t == Move(s, p, Rest(pc)))
  }

  predicate CloseTicket(s: State, t: State, p: nat)
    requires p in s.procs
  {
    && AtOp(s, p, RemoveTicket)
    && var pc := s.procs[p].pc;
    (t == Move(s.(tickets := s.tickets - {pc.t}), p, Rest(pc)) || t == Move(s, p, Rest(pc)))
  }

  predicate CloseLocks(s: State, t: State, p: nat)
    requires p in s.procs
  {
    && s.procs[p].pc.Closing? && s.procs[p].pc.ops != []
    && var pc := s.procs[p].pc;
    && match pc.ops[0]
       case UnlockSlot => t == Move(s.(slot := None), p, Rest(pc))
       case UnlockTicket => t == Move(s.(locks := s.locks - {pc.t}), p, Rest(pc))
       case UnlockQueue => t == Move(s.(queue := None), p, Rest(pc))
       case _ => false
  }

  predicate EndClosing(s: State, t: State, p: nat)
    requires p in s.procs
  {
    var pc := s.procs[p].pc;
    && pc.Closing? && pc.ops == []
    && t == Move(s, p, if pc.again then Released(pc.t) else Out)
  }

  /** Both locks are free and every lease is expired and has its ticket. */
  predicate FixBegin(s: State, t: State, p: nat)
    requires p in s.procs
  {
    && s.procs[p] == Proc(Out, NoBeat) && s.queue.None? && s.slot.None?
    && (forall u :: u in s.leases ==> u in s.tickets && Expired(s.leases[u], s.now))
    && t == Move(s.(queue := Some(p), slot := Some(p)), p, Fix({}))
  }

  /** A selected ticket is locked; its lease is absent or expired. */
  predicate FixPick(s: State, t: State, p: nat, u: nat)
    requires p in s.procs
  {
    && s.procs[p].pc.Fix? && u in s.tickets && u !in s.locks
    && (u in s.leases ==> Expired(s.leases[u], s.now))
    && t == Move(s.(locks := s.locks[u := p]), p, Fix(s.procs[p].pc.picked + {u}))
  }

  predicate FixLease(s: State, t: State, p: nat, u: nat)
    requires p in s.procs
  {
    && s.procs[p].pc.Fix? && u in s.procs[p].pc.picked
    && t == s.(leases := s.leases - {u})
  }

  predicate FixMove(s: State, t: State, p: nat, u: nat)
    requires p in s.procs
  {
    && s.procs[p].pc.Fix? && u in s.procs[p].pc.picked && u !in s.leases
    && t == s.(tickets := s.tickets - {u})
  }

  predicate FixEnd(s: State, t: State, p: nat)
    requires p in s.procs
  {
    && s.procs[p].pc.Fix?
    && t == Move(s.(queue := None, slot := None, locks := Unlock(s.locks, p)), p, Out)
  }

  /** The process dies; the system closes its files, which frees its locks. */
  predicate Crash(s: State, t: State, p: nat)
    requires p in s.procs
  {
    t == s.(queue := Free(s.queue, p), slot := Free(s.slot, p), locks := Unlock(s.locks, p),
            procs := s.procs[p := Proc(Out, NoBeat)])
  }

  datatype AcquireStep =
    | SBeginScan | SScanStaging(u: nat) | SScanTicket(u: nat) | SEndScan | SReclaimTicket(u: nat)
    | SReclaimLease | SAbortScan | SAdmit | SIssueId(u: nat) | SCreateStaging | SLockStaging | SNameTicket
    | SCreateLease | SFinishTicket | SAbortTicket | SAbortLease | STakeSlot | SActivateLease | SAbortActivation
    | SHandOut

  datatype CloseStep =
    | SBeginRelease | SBeginCleanup | SBeginAgain | SAbandon | SDropReservation | SSkipAgain | SCloseBeat
    | SCloseLease | SCloseTicket | SCloseLocks | SEndClosing

  datatype OtherStep =
    | SBeatRead | SBeatWrite | SFixBegin | SFixPick(u: nat) | SFixLease(u: nat) | SFixMove(u: nat) | SFixEnd
    | SCrash

  datatype Step = ByAcquire(a: AcquireStep) | ByClose(c: CloseStep) | ByOther(o: OtherStep) | Tick(now: nat)

  /** Scanning, reclaiming, creating a ticket and taking the slot. */
  predicate TakesAcquire(s: State, t: State, p: nat, k: AcquireStep)
    requires p in s.procs
  {
    match k
    case SBeginScan => BeginScan(s, t, p)
    case SScanStaging(u) => ScanStaging(s, t, p, u)
    case SScanTicket(u) => ScanTicket(s, t, p, u)
    case SEndScan => EndScan(s, t, p)
    case SReclaimTicket(u) => ReclaimTicket(s, t, p, u)
    case SReclaimLease => ReclaimLease(s, t, p)
    case SAbortScan => AbortScan(s, t, p)
    case SAdmit => Admit(s, t, p)
    case SIssueId(u) => IssueId(s, t, p, u)
    case SCreateStaging => CreateStaging(s, t, p)
    case SLockStaging => LockStaging(s, t, p)
    case SNameTicket => NameTicket(s, t, p)
    case SCreateLease => CreateLease(s, t, p)
    case SFinishTicket => FinishTicket(s, t, p)
    case SAbortTicket => AbortTicket(s, t, p)
    case SAbortLease => AbortLease(s, t, p)
    case STakeSlot => TakeSlot(s, t, p)
    case SActivateLease => ActivateLease(s, t, p)
    case SAbortActivation => AbortActivation(s, t, p)
    case SHandOut => HandOut(s, t, p)
  }

  /** Release, cleanup and drop. */
  predicate TakesClose(s: State, t: State, p: nat, k: CloseStep)
    requires p in s.procs
  {
    match k
    case SBeginRelease => BeginRelease(s, t, p)
    case SBeginCleanup => BeginCleanup(s, t, p)
    case SBeginAgain => BeginAgain(s, t, p)
    case SAbandon => Abandon(s, t, p)
    case SDropReservation => DropReservation(s, t, p)
    case SSkipAgain => SkipAgain(s, t, p)
    case SCloseBeat => CloseBeat(s, t, p)
    case SCloseLease => CloseLease(s, t, p)
    case SCloseTicket => CloseTicket(s, t, p)
    case SCloseLocks => CloseLocks(s, t, p)
    case SEndClosing => EndClosing(s, t, p)
  }

  /** Heartbeats, reconciliation and crashes. */
  predicate TakesOther(s: State, t: State, p: nat, k: OtherStep)
    requires p in s.procs
  {
    match k
    case SBeatRead => BeatRead(s, t, p)
    case SBeatWrite => BeatWrite(s, t, p)
    case SFixBegin => FixBegin(s, t, p)
    case SFixPick(u) => FixPick(s, t, p, u)
    case SFixLease(u) => FixLease(s, t, p, u)
    case SFixMove(u) => FixMove(s, t, p, u)
    case SFixEnd => FixEnd(s, t, p)
    case SCrash => Crash(s, t, p)
  }

  /** Process `p` makes the step `k`. */
  predicate Takes(s: State, t: State, p: nat, k: Step) {
    && p in s.procs
    && match k
       case ByAcquire(a) => TakesAcquire(s, t, p, a)
       case ByClose(c) => TakesClose(s, t, p, c)
       case ByOther(o) => TakesOther(s, t, p, o)
       case Tick(now) => t == s.(now := now)
  }

  predicate Initial(s: State) {
    && s.queue.None? && s.slot.None? && s.locks == map[] && s.tickets == {} && s.staging == {} && s.leases == map[]
    && s.counter == 1 && s.issued == []
    && forall p :: p in s.procs ==> s.procs[p] == Proc(Out, NoBeat)
  }
}
