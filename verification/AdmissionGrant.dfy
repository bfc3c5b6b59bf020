/**
 What `acquire` can achieve on its own (src/admission.rs:530-612). From a state of a run, a
 process that waits with ticket `t` can come to hold its guard by steps of its own if and
 only if the queue lock and the slot are free, every older ticket is stale and every ticket
 can be judged; and an idle process can come to wait with a ticket of its own.
 */
module AdmissionGrant {
  import opened Common
  import opened AdmissionLimits
  import opened AdmissionProtocol
  import opened AdmissionSafety
  import opened AdmissionTheorems
  import opened AdmissionLeases
  import opened AdmissionRecreation

  // ---------------------------------------------------------------------------
  // A waiting process has a queued lease
  // ---------------------------------------------------------------------------

  predicate QueuedLease(s: State, t: nat) {
    t in s.leases && s.leases[t].Lease? && !s.leases[t].active
  }

  /** In the loop of `acquire`, not yet granted. */
  predicate InQueue(pc: PC) {
    pc.Waiting? || (pc.Scan? && pc.own.Some?) || (pc.Reclaim? && pc.own.Some?) || pc.Activate?
  }

  predicate QueuedAt(s: State, p: nat)
    requires p in s.procs
  {
    InQueue(s.procs[p].pc) ==> QueuedLease(s, Mine(s.procs[p].pc).value)
  }

  ghost predicate QueuedInv(s: State) {
    forall p :: p in s.procs ==> QueuedAt(s, p)
  }

  lemma ReservedIsLocked(s: State, p: nat)
    requires Inv(s) && p in s.procs && Reserved(s.procs[p].pc)
    ensures Mine(s.procs[p].pc).Some?
    ensures var t := Mine(s.procs[p].pc).value; t in s.tickets && t in s.locks && s.locks[t] == p
  {
    assert ProcInv(s, p);
    assert Mine(s.procs[p].pc).value in Held(s.procs[p].pc);
  }

  /** The lease of a locked ticket is not changed by other processes. */
  lemma LockedLeaseStays(s: State, t: State, q: nat, k: Step, p: nat)
    requires Inv(s) && Takes(s, t, q, k) && p in s.procs && q != p && Reserved(s.procs[p].pc)
    requires Mine(s.procs[p].pc).Some? && Mine(s.procs[p].pc).value in s.leases
    ensures var v := Mine(s.procs[p].pc).value; v in t.leases && t.leases[v] == s.leases[v]
  {
    ReservedIsLocked(s, p);
    var v := Mine(s.procs[p].pc).value;
    if v !in t.leases || t.leases[v] != s.leases[v] {
      assert ProcInv(s, q) && Distinct(s, p, q) && v !in Owned(s.locks, q);
      match k
      case ByAcquire(a) => AcquireLeaseChange(s, t, q, a, v); assert false;
      case ByClose(c) => CloseLeaseChange(s, t, q, c, v); assert false;
      case ByOther(o) =>
        OtherLeaseChange(s, t, q, o, v);
        assert false;
    }
  }

  /** The steps that look at the queue, those that create a ticket, and the grant. */
  predicate IsScanStep(k: AcquireStep) {
    k.SBeginScan? || k.SScanStaging? || k.SScanTicket? || k.SEndScan?
  }

  predicate IsReclaimStep(k: AcquireStep) {
    k.SReclaimTicket? || k.SReclaimLease? || k.SAbortScan? || k.STakeSlot?
  }

  predicate IsGrantStep(k: AcquireStep) {
    k.SActivateLease? || k.SAbortActivation? || k.SHandOut?
  }

  lemma ScanKeepsQueued(s: State, t: State, p: nat, k: AcquireStep)
    requires p in s.procs && QueuedAt(s, p) && TakesAcquire(s, t, p, k) && IsScanStep(k)
    ensures p in t.procs && QueuedAt(t, p)
  {
  }

  lemma ReclaimKeepsQueued(s: State, t: State, p: nat, k: AcquireStep)
    requires p in s.procs && QueuedAt(s, p) && TakesAcquire(s, t, p, k) && IsReclaimStep(k)
    requires s.procs[p].pc.Reclaim? && s.procs[p].pc.own.Some? ==> s.procs[p].pc.lease != s.procs[p].pc.own
    ensures p in t.procs && QueuedAt(t, p)
  {
  }

  lemma CreationKeepsQueued(s: State, t: State, p: nat, k: AcquireStep)
    requires p in s.procs && TakesAcquire(s, t, p, k) && !IsScanStep(k) && !IsReclaimStep(k)
    ensures p in t.procs && QueuedAt(t, p)
  {
  }

  lemma AcquireKeepsQueued(s: State, t: State, p: nat, k: AcquireStep)
    requires p in s.procs && QueuedAt(s, p) && TakesAcquire(s, t, p, k)
    requires s.procs[p].pc.Reclaim? && s.procs[p].pc.own.Some? ==> s.procs[p].pc.lease != s.procs[p].pc.own
    ensures p in t.procs && QueuedAt(t, p)
  {
    if IsScanStep(k) {
      ScanKeepsQueued(s, t, p, k);
    } else if IsReclaimStep(k) {
      ReclaimKeepsQueued(s, t, p, k);
    } else {
      CreationKeepsQueued(s, t, p, k);
    }
  }

  lemma CloseKeepsQueued(s: State, t: State, p: nat, k: CloseStep)
    requires p in s.procs && TakesClose(s, t, p, k)
    ensures p in t.procs && QueuedAt(t, p)
  {
  }

  lemma OtherKeepsQueued(s: State, t: State, p: nat, k: OtherStep)
    requires p in s.procs && BeatInv(s, s.procs[p]) && QueuedAt(s, p) && TakesOther(s, t, p, k)
    ensures p in t.procs && QueuedAt(t, p)
  {
  }

  lemma OwnStepKeepsQueued(s: State, t: State, p: nat, k: Step)
    requires Inv(s) && p in s.procs && QueuedAt(s, p) && Takes(s, t, p, k)
    ensures p in t.procs && QueuedAt(t, p)
  {
    assert ProcInv(s, p);
    match k
    case ByAcquire(a) =>
      if Reserved(s.procs[p].pc) {
        ReservedIsLocked(s, p);
      }
      AcquireKeepsQueued(s, t, p, a);
    case ByClose(c) => CloseKeepsQueued(s, t, p, c);
    case ByOther(o) => OtherKeepsQueued(s, t, p, o);
    case Tick(_) =>
  }

  lemma StepKeepsQueued(s: State, t: State, q: nat, k: Step)
    requires Inv(s) && QueuedInv(s) && Takes(s, t, q, k)
    ensures QueuedInv(t)
  {
    if !k.Tick? {
      assert t.procs == s.procs[q := t.procs[q]] by {
        StepIsGood(s, t, q, k);
      }
    }
    forall p | p in t.procs
      ensures QueuedAt(t, p)
    {
      assert QueuedAt(s, p);
      if p == q {
        OwnStepKeepsQueued(s, t, p, k);
      } else if InQueue(s.procs[p].pc) {
        LockedLeaseStays(s, t, q, k, p);
      }
    }
  }

  lemma {:induction false} RunKeepsQueued(states: seq<State>, labels: seq<Label>, n: nat)
    requires Run(states, labels) && n < |states|
    ensures Inv(states[n]) && QueuedInv(states[n])
  {
    RunKeepsInv(states, labels, n);
    if n > 0 {
      RunKeepsQueued(states, labels, n - 1);
      assert StepAt(states, labels, n - 1);
      StepKeepsQueued(states[n - 1], states[n], labels[n - 1].p, labels[n - 1].k);
    }
  }

  // ---------------------------------------------------------------------------
  // Paths of one process
  // ---------------------------------------------------------------------------

  /** Steps of `acquire` by process `p` only. */
  predicate OwnSteps(labels: seq<Label>, p: nat) {
    forall i :: 0 <= i < |labels| ==> labels[i].p == p && labels[i].k.ByAcquire?
  }

  ghost predicate IsOwnPath(states: seq<State>, labels: seq<Label>, s: State, t: State, p: nat) {
    IsPath(states, labels, s, t) && OwnSteps(labels, p)
  }

  /** Process `p` alone gets from `s` to `t` within `acquire`. */
  ghost predicate Acquires(s: State, t: State, p: nat) {
    exists states, labels :: IsOwnPath(states, labels, s, t, p)
  }

  lemma AcquiresSelf(s: State, p: nat)
    ensures Acquires(s, s, p)
  {
    assert IsOwnPath([s], [], s, s, p);
  }

  lemma AcquiresNext(s: State, t: State, u: State, p: nat, k: AcquireStep)
    requires Acquires(s, t, p) && p in t.procs && TakesAcquire(t, u, p, k)
    ensures Acquires(s, u, p)
  {
    var states, labels :| IsOwnPath(states, labels, s, t, p);
    var step := [Label(p, ByAcquire(k))];
    assert StepAt([t, u], step, 0);
    JoinPaths(states, labels, [t, u], step);
    assert [t, u][1..] == [u];
    assert IsOwnPath(states + [u], labels + step, s, u, p);
  }

  lemma AcquiresOne(s: State, t: State, p: nat, k: AcquireStep)
    requires p in s.procs && TakesAcquire(s, t, p, k)
    ensures Acquires(s, t, p)
  {
    AcquiresSelf(s, p);
    AcquiresNext(s, s, t, p, k);
  }

  lemma AcquiresTwice(s: State, t: State, u: State, p: nat)
    requires Acquires(s, t, p) && Acquires(t, u, p)
    ensures Acquires(s, u, p)
  {
    var a, x :| IsOwnPath(a, x, s, t, p);
    var b, y :| IsOwnPath(b, y, t, u, p);
    JoinPaths(a, x, b, y);
    assert IsOwnPath(a + b[1..], x + y, s, u, p);
  }

  // ---------------------------------------------------------------------------
  // The scan
  // ---------------------------------------------------------------------------

  /** An unlocked ticket whose lease does not decode: every scan ends with an error. */
  predicate TornTicket(s: State, u: nat) {
    u in s.tickets && u !in s.locks && u in s.leases && s.leases[u].Torn?
  }

  /** Nobody has the ticket locked, and its lease is absent or 30 seconds old. */
  predicate Reclaimable(s: State, u: nat) {
    u !in s.locks && (u in s.leases ==> s.leases[u].Lease? && Lapsed(s.leases[u].heartbeat, s.now))
  }

  function LiveTickets(s: State, own: Option<nat>): set<nat> {
    set u | u in s.tickets && (own == Some(u) || !Reclaimable(s, u))
  }

  function StaleTickets(s: State, own: Option<nat>): set<nat> {
    set u | u in s.tickets && own != Some(u) && Reclaimable(s, u)
  }

  /** The part of the directory that was read has been judged. */
  predicate Judged(s: State, pc: PC) {
    && pc.Scan? && pc.todo <= s.tickets
    && pc.live == LiveTickets(s, pc.own) - pc.todo && pc.stale == StaleTickets(s, pc.own) - pc.todo
  }

  lemma ScanNext(s: State, p: nat, u: nat) returns (a: State)
    requires p in s.procs && Judged(s, s.procs[p].pc) && u in s.procs[p].pc.todo
    requires !TornTicket(s, u) || s.procs[p].pc.own == Some(u)
    ensures Acquires(s, a, p) && p in a.procs && a == Move(s, p, a.procs[p].pc)
    ensures Judged(s, a.procs[p].pc)
    ensures a.procs[p].pc.todo == s.procs[p].pc.todo - {u} && a.procs[p].pc.own == s.procs[p].pc.own
  {
    var pc := s.procs[p].pc;
    var todo := pc.todo - {u};
    if Judge(pc.own, s.locks.Keys, s.leases, s.now, u) == Live {
      a := Move(s, p, Scan(pc.own, todo, pc.live + {u}, pc.stale));
    } else {
      a := Move(s, p, Scan(pc.own, todo, pc.live, pc.stale + {u}));
    }
    AcquiresOne(s, a, p, SScanTicket(u));
  }

  /** The same files, locks and clock but for staging files. */
  lemma JudgedAlike(s: State, a: State, pc: PC)
    requires a == s.(staging := a.staging, procs := a.procs, queue := a.queue)
    requires pc.Scan?
    ensures Judged(s, pc) <==> Judged(a, pc)
    ensures LiveTickets(s, pc.own) == LiveTickets(a, pc.own) && StaleTickets(s, pc.own) == StaleTickets(a, pc.own)
    ensures forall u: nat :: TornTicket(a, u) == TornTicket(s, u)
  {
    assert forall u: nat :: Reclaimable(s, u) == Reclaimable(a, u);
  }

  lemma ScanEnds(s: State, p: nat) returns (a: State)
    requires p in s.procs && Judged(s, s.procs[p].pc) && s.staging == {} && s.procs[p].pc.todo == {}
    ensures Acquires(s, a, p)
    ensures var own := s.procs[p].pc.own;
      a == Move(s, p, Reclaim(own, LiveTickets(s, own), StaleTickets(s, own), None))
  {
    var pc := s.procs[p].pc;
    assert pc.live == LiveTickets(s, pc.own) && pc.stale == StaleTickets(s, pc.own);
    a := Move(s, p, Reclaim(pc.own, pc.live, pc.stale, None));
    AcquiresOne(s, a, p, SEndScan);
  }

  /** The scan goes through the directory and finds exactly the live and the stale tickets. */
  lemma {:induction false} ScanOn(s: State, p: nat) returns (a: State)
    requires p in s.procs && Judged(s, s.procs[p].pc)
    requires forall u: nat :: TornTicket(s, u) ==> s.procs[p].pc.own == Some(u)
    ensures Acquires(s, a, p)
    ensures var own := s.procs[p].pc.own;
      a == Move(s.(staging := {}), p, Reclaim(own, LiveTickets(s, own), StaleTickets(s, own), None))
    decreases |s.staging| + |s.procs[p].pc.todo|
  {
    var pc := s.procs[p].pc;
    if s.staging == {} && pc.todo == {} {
      a := ScanEnds(s, p);
    } else {
      var b;
      if s.staging != {} {
        var u :| u in s.staging;
        b := s.(staging := s.staging - {u});
        AcquiresOne(s, b, p, SScanStaging(u));
      } else {
        var u :| u in pc.todo;
        b := ScanNext(s, p, u);
      }
      JudgedAlike(s, b, b.procs[p].pc);
      a := ScanOn(b, p);
      AcquiresTwice(s, b, a, p);
    }
  }

  lemma ScanAcquires(s: State, p: nat) returns (a: State)
    requires p in s.procs && s.queue.None?
    requires s.procs[p] == Proc(Out, NoBeat) || s.procs[p].pc.Waiting?
    requires forall u: nat :: TornTicket(s, u) ==> Mine(s.procs[p].pc) == Some(u)
    ensures Acquires(s, a, p)
    ensures var own := Mine(s.procs[p].pc);
      a == Move(s.(queue := Some(p), staging := {}), p, Reclaim(own, LiveTickets(s, own), StaleTickets(s, own), None))
  {
    var own := Mine(s.procs[p].pc);
    var b := Move(s.(queue := Some(p)), p, Scan(own, s.tickets, {}, {}));
    AcquiresOne(s, b, p, SBeginScan);
    assert Judged(s, b.procs[p].pc);
    JudgedAlike(s, b, b.procs[p].pc);
    a := ScanOn(b, p);
    AcquiresTwice(s, b, a, p);
  }

  lemma ReclaimNext(s: State, p: nat, u: nat) returns (a: State)
    requires p in s.procs
    requires var pc := s.procs[p].pc; pc.Reclaim? && pc.lease.None? && u in pc.stale && u in s.tickets
    ensures Acquires(s, a, p)
    ensures var pc := s.procs[p].pc;
      a == Move(s.(tickets := s.tickets - {u}, leases := s.leases - {u}), p,
                Reclaim(pc.own, pc.live, pc.stale - {u}, None))
  {
    var pc := s.procs[p].pc;
    var b := Move(s.(tickets := s.tickets - {u}), p, Reclaim(pc.own, pc.live, pc.stale - {u}, Some(u)));
    AcquiresOne(s, b, p, SReclaimTicket(u));
    a := Move(b.(leases := b.leases - {u}), p, Reclaim(pc.own, pc.live, pc.stale - {u}, None));
    AcquiresNext(s, b, a, p, SReclaimLease);
  }

  /** The stale tickets go, and their leases. */
  lemma {:induction false} ReclaimAll(s: State, p: nat) returns (a: State)
    requires p in s.procs
    requires var pc := s.procs[p].pc; pc.Reclaim? && pc.lease.None? && pc.stale <= s.tickets
    ensures Acquires(s, a, p)
    ensures var pc := s.procs[p].pc;
      a == Move(s.(tickets := s.tickets - pc.stale, leases := s.leases - pc.stale), p,
                Reclaim(pc.own, pc.live, {}, None))
    decreases |s.procs[p].pc.stale|
  {
    var pc := s.procs[p].pc;
    if pc.stale == {} {
      a := s;
      AcquiresSelf(s, p);
      assert s.tickets - {} == s.tickets && s.leases - {} == s.leases;
      assert s.procs[p := s.procs[p]] == s.procs;
    } else {
      var u :| u in pc.stale;
      var c := ReclaimNext(s, p, u);
      a := ReclaimAll(c, p);
      AcquiresTwice(s, c, a, p);
      assert s.tickets - {u} - (pc.stale - {u}) == s.tickets - pc.stale;
      assert s.leases - {u} - (pc.stale - {u}) == s.leases - pc.stale;
    }
  }

  // ---------------------------------------------------------------------------
  // The grant
  // ---------------------------------------------------------------------------

  /** Ticket `u` keeps the owner of ticket `t` from its guard: it cannot be judged, or it is
      older and not stale. */
  predicate InTheWay(s: State, t: nat, u: nat) {
    u in s.tickets && u != t && (TornTicket(s, u) || (u < t && !Reclaimable(s, u)))
  }

  /** By steps of its own within `acquire`, process `p` can come to hold the guard of `t`. */
  ghost predicate CanBeGranted(s: State, p: nat, t: nat) {
    exists a :: Acquires(s, a, p) && HasGuard(a, p, t)
  }

  predicate HasGuard(a: State, p: nat, t: nat) {
    && p in a.procs && a.procs[p] == Proc(Holding(t), Beat(t, false))
    && a.slot == Some(p) && a.queue.None? && ActiveLease(a, t)
  }

  /** The slot is taken, the lease becomes active and the guard is handed out. */
  lemma TakeGuard(s: State, p: nat, t: nat, live: set<nat>) returns (a: State)
    requires p in s.procs && s.procs[p].pc == Reclaim(Some(t), live, {}, None) && s.slot.None?
    requires t in live && (forall u :: u in live ==> t <= u) && QueuedLease(s, t)
    ensures Acquires(s, a, p) && HasGuard(a, p, t)
  {
    var b := Move(s.(slot := Some(p)), p, Activate(t));
    AcquiresOne(s, b, p, STakeSlot);
    var c := Move(b.(leases := b.leases[t := Lease(true, b.now)]), p, Activated(t));
    AcquiresNext(s, b, c, p, SActivateLease);
    a := SetBeat(Move(c.(queue := None), p, Holding(t)), p, Beat(t, false));
    AcquiresNext(s, c, a, p, SHandOut);
  }

  lemma GrantIsReachable(s: State, p: nat, t: nat)
    requires Inv(s) && QueuedInv(s) && p in s.procs && s.procs[p].pc == Waiting(t)
    requires s.queue.None? && s.slot.None? && forall u :: !InTheWay(s, t, u)
    ensures CanBeGranted(s, p, t)
  {
    ReservedIsLocked(s, p);
    assert QueuedAt(s, p);
    assert forall u :: TornTicket(s, u) ==> InTheWay(s, t, u) || u == t;
    var a := ScanAcquires(s, p);
    var b := ReclaimAll(a, p);
    AcquiresTwice(s, a, b, p);
    var live := LiveTickets(s, Some(t));
    forall u | u in live
      ensures t <= u
    {
      assert !InTheWay(s, t, u);
    }
    var c := TakeGuard(b, p, t, live);
    AcquiresTwice(s, b, c, p);
  }

  // ---------------------------------------------------------------------------
  // Nothing else is granted
  // ---------------------------------------------------------------------------

  /** What `acquire` of a process with ticket `t` may have come to. */
  predicate Trying(pc: PC, t: nat) {
    Mine(pc) == Some(t) && (InQueue(pc) || pc.Activated? || pc.Holding? || pc.Leaving? || pc.Closing?)
  }

  predicate PastTheSlot(pc: PC) {
    pc.Activate? || pc.Activated? || pc.Holding? || pc.Leaving?
  }

  /** The process is about to remove ticket `u` or its lease as stale. */
  predicate Doomed(pc: PC, u: nat) {
    (pc.Scan? && u in pc.stale) || (pc.Reclaim? && (u in pc.stale || pc.lease == Some(u)))
  }

  /** A ticket that is not stale is where it was. */
  predicate KeptTicket(s: State, x: State, pc: PC, u: nat) {
    && u in x.tickets && !Doomed(pc, u) && (u in x.leases <==> u in s.leases)
    && (u in s.leases ==> x.leases[u] == s.leases[u])
  }

  predicate MustStay(s: State, t: nat, u: nat) {
    u != t && u in s.tickets && !Reclaimable(s, u)
  }

  /** The program counter, the locks and the clock after steps of `p` alone. */
  ghost predicate StillSince(s: State, y: State, p: nat, t: nat) {
    && p in y.procs && Trying(y.procs[p].pc, t) && y.locks == s.locks && y.now == s.now
    && (s.queue.Some? ==> y == s)
    && (s.slot.Some? ==> y.slot == s.slot && !PastTheSlot(y.procs[p].pc))
  }

  /** From `s`, process `p` alone has come to `x`. */
  ghost predicate Since(s: State, x: State, p: nat, t: nat) {
    StillSince(s, x, p, t) && forall u :: MustStay(s, t, u) ==> KeptTicket(s, x, x.procs[p].pc, u)
  }

  lemma OnlyThese(x: State, y: State, p: nat, t: nat, k: AcquireStep)
    requires p in x.procs && Trying(x.procs[p].pc, t) && TakesAcquire(x, y, p, k)
    ensures IsScanStep(k) || IsReclaimStep(k) || IsGrantStep(k)
  {
  }

  lemma ScanStepSince(s: State, x: State, y: State, p: nat, t: nat, k: AcquireStep)
    requires p in s.procs && s.procs[p].pc == Waiting(t) && StillSince(s, x, p, t)
    requires TakesAcquire(x, y, p, k) && IsScanStep(k)
    ensures StillSince(s, y, p, t)
  {
  }

  lemma ReclaimStepSince(s: State, x: State, y: State, p: nat, t: nat, k: AcquireStep)
    requires p in s.procs && s.procs[p].pc == Waiting(t) && StillSince(s, x, p, t)
    requires TakesAcquire(x, y, p, k) && IsReclaimStep(k)
    ensures StillSince(s, y, p, t)
  {
  }

  lemma GrantStepSince(s: State, x: State, y: State, p: nat, t: nat, k: AcquireStep)
    requires p in s.procs && s.procs[p].pc == Waiting(t) && StillSince(s, x, p, t)
    requires TakesAcquire(x, y, p, k) && IsGrantStep(k)
    ensures StillSince(s, y, p, t)
  {
  }

  lemma OwnStepSince(s: State, x: State, y: State, p: nat, t: nat, k: AcquireStep)
    requires p in s.procs && s.procs[p].pc == Waiting(t)
    requires StillSince(s, x, p, t) && TakesAcquire(x, y, p, k)
    ensures StillSince(s, y, p, t)
  {
    OnlyThese(x, y, p, t, k);
    if IsScanStep(k) {
      ScanStepSince(s, x, y, p, t, k);
    } else if IsReclaimStep(k) {
      ReclaimStepSince(s, x, y, p, t, k);
    } else {
      GrantStepSince(s, x, y, p, t, k);
    }
  }

  lemma ScanStepKeepsTicket(s: State, x: State, y: State, p: nat, t: nat, k: AcquireStep, u: nat)
    requires StillSince(s, x, p, t) && MustStay(s, t, u) && KeptTicket(s, x, x.procs[p].pc, u)
    requires TakesAcquire(x, y, p, k) && IsScanStep(k)
    ensures p in y.procs && KeptTicket(s, y, y.procs[p].pc, u)
  {
  }

  lemma ReclaimStepKeepsTicket(s: State, x: State, y: State, p: nat, t: nat, k: AcquireStep, u: nat)
    requires StillSince(s, x, p, t) && MustStay(s, t, u) && KeptTicket(s, x, x.procs[p].pc, u)
    requires TakesAcquire(x, y, p, k) && IsReclaimStep(k)
    ensures p in y.procs && KeptTicket(s, y, y.procs[p].pc, u)
  {
  }

  lemma GrantStepKeepsTicket(s: State, x: State, y: State, p: nat, t: nat, k: AcquireStep, u: nat)
    requires StillSince(s, x, p, t) && MustStay(s, t, u) && KeptTicket(s, x, x.procs[p].pc, u)
    requires TakesAcquire(x, y, p, k) && IsGrantStep(k)
    ensures p in y.procs && KeptTicket(s, y, y.procs[p].pc, u)
  {
  }

  lemma OwnStepKeepsTicket(s: State, x: State, y: State, p: nat, t: nat, k: AcquireStep, u: nat)
    requires StillSince(s, x, p, t) && MustStay(s, t, u) && KeptTicket(s, x, x.procs[p].pc, u)
    requires TakesAcquire(x, y, p, k)
    ensures p in y.procs && KeptTicket(s, y, y.procs[p].pc, u)
  {
    OnlyThese(x, y, p, t, k);
    if IsScanStep(k) {
      ScanStepKeepsTicket(s, x, y, p, t, k, u);
    } else if IsReclaimStep(k) {
      ReclaimStepKeepsTicket(s, x, y, p, t, k, u);
    } else {
      GrantStepKeepsTicket(s, x, y, p, t, k, u);
    }
  }

  lemma {:induction false} OwnPathSince(s: State, p: nat, t: nat, states: seq<State>, labels: seq<Label>, n: nat)
    requires p in s.procs && s.procs[p].pc == Waiting(t)
    requires Path(states, labels) && OwnSteps(labels, p) && states[0] == s && n < |states|
    ensures Since(s, states[n], p, t)
  {
    if n > 0 {
      OwnPathSince(s, p, t, states, labels, n - 1);
      assert StepAt(states, labels, n - 1);
      var x, y, k := states[n - 1], states[n], labels[n - 1].k.a;
      OwnStepSince(s, x, y, p, t, k);
      forall u | MustStay(s, t, u)
        ensures KeptTicket(s, y, y.procs[p].pc, u)
      {
        OwnStepKeepsTicket(s, x, y, p, t, k, u);
      }
    }
  }

  /** Who has been through the scan has met no ticket that cannot be judged. */
  lemma TornTicketStops(y: State, p: nat, u: nat)
    requires Inv(y) && TornInv(y) && p in y.procs && u in y.tickets && TornLease(y, u)
    ensures !y.procs[p].pc.Reclaim?
  {
    assert ProcInv(y, p) && TornLocal(y, y.procs[p].pc);
  }

  predicate InTheScan(pc: PC) {
    pc.Waiting? || pc.Scan? || pc.Closing?
  }

  lemma ScanGoesOn(x: State, y: State, p: nat, k: AcquireStep)
    requires p in x.procs && InTheScan(x.procs[p].pc) && TakesAcquire(x, y, p, k)
    requires Mine(x.procs[p].pc).Some?
    ensures p in y.procs && (InTheScan(y.procs[p].pc) || y.procs[p].pc.Reclaim?)
  {
  }

  /** At a state of the path at which the ticket is still there. */
  lemma NotReclaiming(s: State, p: nat, t: nat, states: seq<State>, labels: seq<Label>, n: nat, u: nat)
    requires Inv(s) && TornInv(s) && p in s.procs && s.procs[p].pc == Waiting(t) && TornTicket(s, u) && u != t
    requires Path(states, labels) && OwnSteps(labels, p) && states[0] == s && n < |states|
    ensures p in states[n].procs && !states[n].procs[p].pc.Reclaim? && Mine(states[n].procs[p].pc).Some?
  {
    var y := states[n];
    assert p in y.procs && Trying(y.procs[p].pc, t) && u in y.tickets && TornLease(y, u) by {
      OwnPathSince(s, p, t, states, labels, n);
      assert MustStay(s, t, u);
    }
    PathKeepsInv(states, labels, n);
    TornTicketStops(y, p, u);
  }

  /** A ticket that cannot be judged keeps the process in the scan. */
  lemma {:induction false} NeverPastTheScan(s: State, p: nat, t: nat, states: seq<State>, labels: seq<Label>, n: nat,
                                            u: nat)
    requires Inv(s) && TornInv(s) && p in s.procs && s.procs[p].pc == Waiting(t) && TornTicket(s, u) && u != t
    requires Path(states, labels) && OwnSteps(labels, p) && states[0] == s && n < |states|
    ensures p in states[n].procs && InTheScan(states[n].procs[p].pc)
  {
    if n > 0 {
      NeverPastTheScan(s, p, t, states, labels, n - 1, u);
      NotReclaiming(s, p, t, states, labels, n - 1, u);
      NotReclaiming(s, p, t, states, labels, n, u);
      PathScanGoesOn(states, labels, n - 1, p);
    }
  }

  lemma PathScanGoesOn(states: seq<State>, labels: seq<Label>, n: nat, p: nat)
    requires Path(states, labels) && OwnSteps(labels, p) && n < |labels| && p in states[n].procs
    requires InTheScan(states[n].procs[p].pc) && Mine(states[n].procs[p].pc).Some?
    ensures p in states[n + 1].procs && (InTheScan(states[n + 1].procs[p].pc) || states[n + 1].procs[p].pc.Reclaim?)
  {
    assert StepAt(states, labels, n);
    ScanGoesOn(states[n], states[n + 1], p, labels[n].k.a);
  }

  lemma {:induction false} PathKeepsInv(states: seq<State>, labels: seq<Label>, n: nat)
    requires Path(states, labels) && Inv(states[0]) && TornInv(states[0]) && n < |states|
    ensures Inv(states[n]) && TornInv(states[n])
  {
    if n > 0 {
      PathKeepsInv(states, labels, n - 1);
      assert StepAt(states, labels, n - 1);
      StepKeepsInv(states[n - 1], states[n], labels[n - 1].p, labels[n - 1].k);
      StepKeepsTorn(states[n - 1], states[n], labels[n - 1].p, labels[n - 1].k);
    }
  }

  lemma TheWayIsClear(s: State, p: nat, t: nat, states: seq<State>, labels: seq<Label>, u: nat)
    requires Inv(s) && TornInv(s) && p in s.procs && s.procs[p].pc == Waiting(t)
    requires Path(states, labels) && OwnSteps(labels, p) && states[0] == s
    requires p in states[|labels|].procs && states[|labels|].procs[p].pc == Holding(t)
    ensures !InTheWay(s, t, u)
  {
    var a := states[|labels|];
    OwnPathSince(s, p, t, states, labels, |labels|);
    assert IsOldest(a, t) by {
      PathKeepsInv(states, labels, |labels|);
      assert ProcInv(a, p);
    }
    if TornTicket(s, u) && u != t {
      NeverPastTheScan(s, p, t, states, labels, |labels|, u);
      assert false;
    }
    assert MustStay(s, t, u) ==> u in a.tickets;
  }

  lemma GrantNeedsTheWay(s: State, p: nat, t: nat, a: State)
    requires Inv(s) && TornInv(s) && p in s.procs && s.procs[p].pc == Waiting(t)
    requires Acquires(s, a, p) && HasGuard(a, p, t)
    ensures s.queue.None? && s.slot.None? && forall u: nat :: !InTheWay(s, t, u)
  {
    var states, labels :| IsOwnPath(states, labels, s, a, p);
    OwnPathSince(s, p, t, states, labels, |labels|);
    forall u: nat
      ensures !InTheWay(s, t, u)
    {
      TheWayIsClear(s, p, t, states, labels, u);
    }
  }

  /** In a state of a run, a process that waits with ticket `t` can come to hold its guard
      by its own steps within `acquire` if and only if the queue lock and the slot are free
      and no ticket is in the way. */
  lemma GrantIsPossibleExactly(before: seq<State>, steps: seq<Label>, p: nat, t: nat)
    requires Run(before, steps) && p in before[|steps|].procs && before[|steps|].procs[p].pc == Waiting(t)
    ensures var s := before[|steps|];
      CanBeGranted(s, p, t) <==> s.queue.None? && s.slot.None? && forall u: nat :: !InTheWay(s, t, u)
  {
    var s := before[|steps|];
    RunKeepsTorn(before, steps, |steps|);
    RunKeepsQueued(before, steps, |steps|);
    if CanBeGranted(s, p, t) {
      var a :| Acquires(s, a, p) && HasGuard(a, p, t);
      GrantNeedsTheWay(s, p, t, a);
    }
    if s.queue.None? && s.slot.None? && forall u: nat :: !InTheWay(s, t, u) {
      GrantIsReachable(s, p, t);
    }
  }

  // ---------------------------------------------------------------------------
  // Enqueueing
  // ---------------------------------------------------------------------------

  /** The process waits with ticket `t`, its file locked and its lease queued. */
  predicate IsQueued(s: State, p: nat, t: nat) {
    && p in s.procs && s.procs[p].pc == Waiting(t) && s.queue.None?
    && t in s.tickets && t in s.locks && s.locks[t] == p
    && t in s.leases && s.leases[t] == Lease(false, s.now)
  }

  lemma CreateTicketPath(s: State, p: nat) returns (a: State)
    requires p in s.procs && s.procs[p].pc == Issue && s.queue == Some(p)
    requires s.staging == {} && 0 < s.counter < U64_MAX
    requires (forall u :: u in s.tickets ==> u < s.counter) && s.counter !in s.locks && s.counter !in s.leases
    ensures Acquires(s, a, p) && IsQueued(a, p, s.counter) && a.tickets == s.tickets + {s.counter}
  {
    var t := s.counter;
    var b := Move(s.(counter := t + 1, issued := s.issued + [t]), p, Stage(t));
    AcquiresOne(s, b, p, SIssueId(t));
    var c := Move(b.(staging := b.staging + {t}), p, Staged(t));
    AcquiresNext(s, b, c, p, SCreateStaging);
    var d := Move(c.(locks := c.locks[t := p]), p, Locked(t));
    AcquiresNext(s, c, d, p, SLockStaging);
    var e := Move(d.(staging := d.staging - {t}, tickets := d.tickets + {t}), p, Named(t));
    AcquiresNext(s, d, e, p, SNameTicket);
    a := CreateLeasePath(e, p, t);
    AcquiresTwice(s, e, a, p);
  }

  lemma CreateLeasePath(s: State, p: nat, t: nat) returns (a: State)
    requires p in s.procs && s.procs[p].pc == Named(t) && t !in s.leases
    ensures Acquires(s, a, p)
    ensures a == Move(s.(queue := None, leases := s.leases[t := Lease(false, s.now)]), p, Waiting(t))
  {
    var b := Move(s.(leases := s.leases[t := Lease.Torn]), p, Writing(t));
    AcquiresOne(s, b, p, SCreateLease);
    a := Move(b.(leases := b.leases[t := Lease(false, b.now)], queue := None), p, Waiting(t));
    AcquiresNext(s, b, a, p, SFinishTicket);
    assert b.leases[t := Lease(false, b.now)] == s.leases[t := Lease(false, s.now)];
  }

  /** In a state of a run, an idle process that finds the queue lock free, no ticket that
      cannot be judged, fewer than 1024 tickets that are not stale and the counter not
      exhausted comes, by its own steps within `acquire`, to wait with the ticket of the
      counter's id; of the other tickets exactly the stale ones are gone. */
  lemma EnqueueIsPossible(before: seq<State>, steps: seq<Label>, p: nat) returns (a: State)
    requires Run(before, steps) && p in before[|steps|].procs && before[|steps|].procs[p] == Proc(Out, NoBeat)
    requires var s := before[|steps|];
      && s.queue.None? && (forall u: nat :: !TornTicket(s, u))
      && |LiveTickets(s, None)| < MAX_QUEUE_TICKETS && s.counter < U64_MAX
    ensures var s := before[|steps|];
      && Acquires(s, a, p) && IsQueued(a, p, s.counter)
      && forall u: nat :: u in a.tickets <==> u == s.counter || (u in s.tickets && !Reclaimable(s, u))
  {
    var s := before[|steps|];
    RunKeepsInv(before, steps, |steps|);
    var b := ScanAcquires(s, p);
    var c := ReclaimAll(b, p);
    AcquiresTwice(s, b, c, p);
    var d := Move(c, p, Issue);
    AcquiresNext(s, c, d, p, SAdmit);
    a := CreateTicketPath(d, p);
    AcquiresTwice(s, d, a, p);
  }
}
