/** The guarantees of the admission protocol, for every state of every run. */
module AdmissionTheorems {
  import opened Common
  import opened AdmissionLimits
  import opened AdmissionProtocol
  import opened AdmissionSafety

  lemma TickKeepsInv(s: State, now: nat)
    requires Inv(s)
    ensures Inv(s.(now := now))
  {
    var t := s.(now := now);
    assert forall u :: ActiveLease(t, u) == ActiveLease(s, u);
    forall p | p in t.procs
      ensures ProcInv(t, p)
    {
      assert ProcInv(s, p);
    }
    forall p, q | p in t.procs && q in t.procs && p != q
      ensures Distinct(t, p, q)
    {
      assert Distinct(s, p, q);
    }
  }

  lemma AcquireIsGood(s: State, t: State, p: nat, k: AcquireStep)
    requires Shared(s) && p in s.procs && ProcInv(s, p) && TakesAcquire(s, t, p, k)
    ensures Good(s, t, p)
  {
    match k
    case SBeginScan => BeginScanIsGood(s, t, p);
    case SScanStaging(u) => ScanStagingIsGood(s, t, p, u);
    case SScanTicket(u) => ScanTicketIsGood(s, t, p, u);
    case SEndScan => EndScanIsGood(s, t, p);
    case SReclaimTicket(u) => ReclaimTicketIsGood(s, t, p, u);
    case SReclaimLease => ReclaimLeaseIsGood(s, t, p);
    case SAbortScan => AbortScanIsGood(s, t, p);
    case SAdmit => AdmitIsGood(s, t, p);
    case SIssueId(u) => IssueIdIsGood(s, t, p, u);
    case SCreateStaging => CreateStagingIsGood(s, t, p);
    case SLockStaging => LockStagingIsGood(s, t, p);
    case SNameTicket => NameTicketIsGood(s, t, p);
    case SCreateLease => CreateLeaseIsGood(s, t, p);
    case SFinishTicket => FinishTicketIsGood(s, t, p);
    case SAbortTicket => AbortTicketIsGood(s, t, p);
    case SAbortLease => AbortLeaseIsGood(s, t, p);
    case STakeSlot => TakeSlotIsGood(s, t, p);
    case SActivateLease => ActivateLeaseIsGood(s, t, p);
    case SAbortActivation => AbortActivationIsGood(s, t, p);
    case SHandOut => HandOutIsGood(s, t, p);
  }

  lemma CloseIsGood(s: State, t: State, p: nat, k: CloseStep)
    requires Shared(s) && p in s.procs && ProcInv(s, p) && TakesClose(s, t, p, k)
    ensures Good(s, t, p)
  {
    match k
    case SBeginRelease => BeginReleaseIsGood(s, t, p);
    case SBeginCleanup => BeginCleanupIsGood(s, t, p);
    case SBeginAgain => BeginAgainIsGood(s, t, p);
    case SAbandon => AbandonIsGood(s, t, p);
    case SDropReservation => DropReservationIsGood(s, t, p);
    case SSkipAgain => SkipAgainIsGood(s, t, p);
    case SCloseBeat => CloseBeatIsGood(s, t, p);
    case SCloseLease => CloseLeaseIsGood(s, t, p);
    case SCloseTicket => CloseTicketIsGood(s, t, p);
    case SCloseLocks => CloseLocksIsGood(s, t, p);
    case SEndClosing => EndClosingIsGood(s, t, p);
  }

  lemma OtherIsGood(s: State, t: State, p: nat, k: OtherStep)
    requires Shared(s) && p in s.procs && ProcInv(s, p) && TakesOther(s, t, p, k)
    ensures Good(s, t, p)
  {
    match k
    case SBeatRead => BeatReadIsGood(s, t, p);
    case SBeatWrite => BeatWriteIsGood(s, t, p);
    case SFixBegin => FixBeginIsGood(s, t, p);
    case SFixPick(u) => FixPickIsGood(s, t, p, u);
    case SFixLease(u) => FixLeaseIsGood(s, t, p, u);
    case SFixMove(u) => FixMoveIsGood(s, t, p, u);
    case SFixEnd => FixEndIsGood(s, t, p);
    case SCrash => CrashIsGood(s, t, p);
  }

  lemma StepIsGood(s: State, t: State, p: nat, k: Step)
    requires Inv(s) && Takes(s, t, p, k) && !k.Tick?
    ensures Good(s, t, p)
  {
    assert ProcInv(s, p);
    match k
    case ByAcquire(a) => AcquireIsGood(s, t, p, a);
    case ByClose(c) => CloseIsGood(s, t, p, c);
    case ByOther(o) => OtherIsGood(s, t, p, o);
  }

  lemma StepKeepsInv(s: State, t: State, p: nat, k: Step)
    requires Inv(s) && Takes(s, t, p, k)
    ensures Inv(t)
  {
    if k.Tick? {
      TickKeepsInv(s, k.now);
    } else {
      StepIsGood(s, t, p, k);
      GoodKeepsInv(s, t, p);
    }
  }

  // ---------------------------------------------------------------------------
  // Runs
  // ---------------------------------------------------------------------------

  /** One step of a run: which process moved and how. */
  datatype Label = Label(p: nat, k: Step)

  predicate StepAt(states: seq<State>, labels: seq<Label>, n: nat)
    requires n + 1 < |states| && n < |labels|
  {
    Takes(states[n], states[n + 1], labels[n].p, labels[n].k)
  }

  predicate Run(states: seq<State>, labels: seq<Label>) {
    && |states| == |labels| + 1 && Initial(states[0])
    && forall n :: 0 <= n < |labels| ==> StepAt(states, labels, n)
  }

  lemma {:induction false} RunKeepsInv(states: seq<State>, labels: seq<Label>, n: nat)
    requires Run(states, labels) && n < |states|
    ensures Inv(states[n])
  {
    if n > 0 {
      RunKeepsInv(states, labels, n - 1);
      assert StepAt(states, labels, n - 1);
      StepKeepsInv(states[n - 1], states[n], labels[n - 1].p, labels[n - 1].k);
    }
  }

  /** At most one process holds a guard. */
  lemma OneGuard(states: seq<State>, labels: seq<Label>, n: nat, p: nat, q: nat)
    requires Run(states, labels) && n < |states| && p in states[n].procs && q in states[n].procs
    requires HoldsGuard(states[n].procs[p].pc) && HoldsGuard(states[n].procs[q].pc)
    ensures p == q
  {
    RunKeepsInv(states, labels, n);
    assert ProcInv(states[n], p) && ProcInv(states[n], q);
  }

  /** A process that waits, scans, holds a guard or still has its ticket locked finds the
      ticket file in the directory and the lock its own: no live waiter's ticket is ever
      reclaimed or reconciled away. */
  lemma LiveTicketStays(states: seq<State>, labels: seq<Label>, n: nat, p: nat)
    requires Run(states, labels) && n < |states| && p in states[n].procs && Reserved(states[n].procs[p].pc)
    ensures var s := states[n];
      var mine := Mine(s.procs[p].pc).value;
      mine in s.tickets && mine in s.locks && s.locks[mine] == p
  {
    RunKeepsInv(states, labels, n);
    assert ProcInv(states[n], p);
    assert Mine(states[n].procs[p].pc).value in Held(states[n].procs[p].pc);
  }

  /** Nobody is overtaken: when a ticket is granted, and as long as the guard is in use,
      no older ticket file exists, hence no process waits with an older ticket. */
  lemma ServedInOrder(states: seq<State>, labels: seq<Label>, n: nat, p: nat, q: nat)
    requires Run(states, labels) && n < |states| && p in states[n].procs && q in states[n].procs && p != q
    requires First(states[n].procs[p].pc)
    ensures forall u :: u in states[n].tickets ==> Mine(states[n].procs[p].pc).value <= u
    ensures Reserved(states[n].procs[q].pc) ==> Mine(states[n].procs[p].pc).value < Mine(states[n].procs[q].pc).value
  {
    RunKeepsInv(states, labels, n);
    assert ProcInv(states[n], p) && ProcInv(states[n], q) && Distinct(states[n], p, q);
  }

  /** At most one ticket in the directory has an active lease. */
  lemma OneActiveLease(states: seq<State>, labels: seq<Label>, n: nat, t: nat, u: nat)
    requires Run(states, labels) && n < |states|
    requires t in states[n].tickets && ActiveLease(states[n], t)
    requires u in states[n].tickets && ActiveLease(states[n], u)
    ensures t == u
  {
    RunKeepsInv(states, labels, n);
  }

  /** The tickets directory, staging files included, never exceeds the limit at which a
      scan reports a full queue. */
  lemma DirectoryBounded(states: seq<State>, labels: seq<Label>, n: nat)
    requires Run(states, labels) && n < |states|
    ensures |states[n].tickets| + |states[n].staging| <= MAX_QUEUE_TICKETS
  {
    RunKeepsInv(states, labels, n);
  }

  /** Issued ids strictly increase and the counter never wraps. */
  lemma IdsIncrease(states: seq<State>, labels: seq<Label>, n: nat)
    requires Run(states, labels) && n < |states|
    ensures forall i, j :: 0 <= i < j < |states[n].issued| ==> states[n].issued[i] < states[n].issued[j]
    ensures forall i :: 0 <= i < |states[n].issued| ==> states[n].issued[i] < states[n].counter <= U64_MAX
  {
    RunKeepsInv(states, labels, n);
  }

  /** No two processes ever own the same ticket. In particular the lease and the ticket
      that a second release removes belong to nobody else. */
  lemma OwnFilesOnly(states: seq<State>, labels: seq<Label>, n: nat, p: nat, q: nat)
    requires Run(states, labels) && n < |states| && p in states[n].procs && q in states[n].procs && p != q
    requires Mine(states[n].procs[p].pc).Some?
    ensures Mine(states[n].procs[p].pc) != Mine(states[n].procs[q].pc)
    ensures Mine(states[n].procs[p].pc).value < states[n].counter
  {
    RunKeepsInv(states, labels, n);
    assert Distinct(states[n], p, q) && ProcInv(states[n], p);
  }

  /** A heartbeat that still has its guard's ticket locked finds its lease in place and
      active, so its write never brings a removed lease back. */
  lemma BeatFindsLease(states: seq<State>, labels: seq<Label>, n: nat, p: nat)
    requires Run(states, labels) && n < |states| && p in states[n].procs
    requires states[n].procs[p].beat.Beat? && Reserved(states[n].procs[p].pc)
    ensures ActiveLease(states[n], states[n].procs[p].beat.t)
  {
    RunKeepsInv(states, labels, n);
    assert ProcInv(states[n], p);
  }

  // ---------------------------------------------------------------------------
  // An abandoned guard
  // ---------------------------------------------------------------------------

  predicate Path(states: seq<State>, labels: seq<Label>) {
    && |states| == |labels| + 1
    && forall n :: 0 <= n < |labels| ==> StepAt(states, labels, n)
  }

  lemma {:induction false} SomeTimeAllExpire(leases: map<nat, Lease>) returns (now: nat)
    ensures forall u :: u in leases && leases[u].Lease? ==> Expired(leases[u], now)
    decreases |leases|
  {
    now := 0;
    if leases.Keys != {} {
      var u :| u in leases;
      var rest := leases - {u};
      assert rest.Keys == leases.Keys - {u};
      var later := SomeTimeAllExpire(rest);
      now := if leases[u].Lease? && leases[u].heartbeat + LEASE_SECONDS > later
             then leases[u].heartbeat + LEASE_SECONDS else later;
      forall w | w in leases && leases[w].Lease?
        ensures Expired(leases[w], now)
      {
        if w != u {
          assert w in rest && rest[w] == leases[w];
          assert Expired(rest[w], later);
        }
      }
    }
  }

  /** The guard's fields go: first its ticket lock, then its slot lock. */
  lemma AbandonPath(s: State, p: nat) returns (states: seq<State>, labels: seq<Label>)
    requires p in s.procs && s.procs[p].pc.Holding?
    ensures Path(states, labels) && |labels| == 3 && states[0] == s
    ensures states[3] == Move(s.(slot := None, locks := s.locks - {s.procs[p].pc.t}), p,
                              Closing(s.procs[p].pc.t, [StopBeat], false))
  {
    var t := s.procs[p].pc.t;
    assert AbandonOps()[1..] == [UnlockSlot, StopBeat] && [UnlockSlot, StopBeat][1..] == [StopBeat];
    var s1 := Move(s, p, Closing(t, AbandonOps(), false));
    var s2 := Move(s1.(locks := s1.locks - {t}), p, Closing(t, [UnlockSlot, StopBeat], false));
    var s3 := Move(s2.(slot := None), p, Closing(t, [StopBeat], false));
    states := [s, s1, s2, s3];
    labels := [Label(p, ByClose(SAbandon)), Label(p, ByClose(SCloseLocks)), Label(p, ByClose(SCloseLocks))];
    assert StepAt(states, labels, 0);
    assert StepAt(states, labels, 1);
    assert StepAt(states, labels, 2);
  }

  /** Time passes and reconciliation locks the ticket. */
  lemma PickPath(s: State, p: nat, q: nat, t: nat, now: nat) returns (states: seq<State>, labels: seq<Label>)
    requires p in s.procs && q in s.procs
    requires s.procs[q] == Proc(Out, NoBeat) && s.queue.None? && s.slot.None?
    requires forall u :: u in s.leases ==> u in s.tickets && Expired(s.leases[u], now)
    requires t in s.leases && t !in s.locks
    ensures Path(states, labels) && |labels| == 3 && states[0] == s
    ensures states[3] == Move(s.(now := now, queue := Some(q), slot := Some(q), locks := s.locks[t := q]), q, Fix({t}))
  {
    var s1 := s.(now := now);
    var s2 := Move(s1.(queue := Some(q), slot := Some(q)), q, Fix({}));
    var s3 := Move(s2.(locks := s2.locks[t := q]), q, Fix({t}));
    assert {} + {t} == {t};
    states := [s, s1, s2, s3];
    labels := [Label(p, Tick(now)), Label(q, ByOther(SFixBegin)), Label(q, ByOther(SFixPick(t)))];
    assert StepAt(states, labels, 0);
    assert StepAt(states, labels, 1);
    assert StepAt(states, labels, 2);
  }

  /** Reconciliation removes the lease between a heartbeat's read and its write. */
  lemma RecreatePath(s: State, p: nat, q: nat, t: nat) returns (states: seq<State>, labels: seq<Label>)
    requires p in s.procs && q in s.procs && p != q && s.procs[p].beat == Beat(t, true) && s.procs[q].pc == Fix({t})
    ensures Path(states, labels) && |labels| == 2 && states[0] == s && labels[1] == Label(p, ByOther(SBeatWrite))
    ensures t !in states[1].leases && t in states[2].leases
  {
    var s1 := s.(leases := s.leases - {t});
    var s2 := SetBeat(s1.(leases := s1.leases[t := Lease(true, s.now)]), p, Beat(t, false));
    states := [s, s1, s2];
    labels := [Label(q, ByOther(SFixLease(t))), Label(p, ByOther(SBeatWrite))];
    assert StepAt(states, labels, 0);
    assert StepAt(states, labels, 1);
  }

  lemma JoinPaths(a: seq<State>, x: seq<Label>, b: seq<State>, y: seq<Label>)
    requires Path(a, x) && Path(b, y) && a[|x|] == b[0]
    ensures Path(a + b[1..], x + y)
  {
    var states, labels := a + b[1..], x + y;
    forall n | 0 <= n < |labels|
      ensures StepAt(states, labels, n)
    {
      if n < |x| {
        assert StepAt(a, x, n);
      } else {
        assert StepAt(b, y, n - |x|);
      }
    }
  }

  /** Once a release has failed to get the queue lock, the ticket is unlocked before the
      heartbeat is stopped. Where reconciliation can begin, that is with an idle process, the
      queue lock free and every lease decoding and having its ticket, it can then remove the
      lease between a heartbeat's read and its write. `AdmissionRecreation` has the exact
      condition for a recreation by any route. */
  lemma AbandonedBeatRecreatesLease(before: seq<State>, steps: seq<Label>, p: nat, q: nat)
    returns (states: seq<State>, labels: seq<Label>)
    requires Run(before, steps)
    requires var s := before[|steps|];
      && p in s.procs && q in s.procs && p != q
      && s.procs[p].pc.Holding? && s.procs[p].beat.Beat? && s.procs[p].beat.read
      && s.procs[q] == Proc(Out, NoBeat) && s.queue.None?
      && forall u :: u in s.leases ==> s.leases[u].Lease? && u in s.tickets
    ensures Path(states, labels) && states[0] == before[|steps|] && |labels| == 8 && labels[7] == Label(p, ByOther(SBeatWrite))
    ensures var t := before[|steps|].procs[p].pc.t;
      t in states[0].leases && t !in states[7].leases && t in states[8].leases
  {
    var s := before[|steps|];
    var t := s.procs[p].pc.t;
    assert s.procs[p].beat.t == t && t in s.leases by {
      RunKeepsInv(before, steps, |steps|);
      assert ProcInv(s, p);
    }
    var now := SomeTimeAllExpire(s.leases);
    var a, x := AbandonPath(s, p);
    var b, y := PickPath(a[3], p, q, t, now);
    var c, z := RecreatePath(b[3], p, q, t);
    JoinPaths(a, x, b, y);
    JoinPaths(a + b[1..], x + y, c, z);
    states, labels := a + b[1..] + c[1..], x + y + z;
  }

  // ---------------------------------------------------------------------------
  // An uncontended acquire, and with it a concrete run to an abandoned guard
  // ---------------------------------------------------------------------------

  /** A lone process is issued the next id. */
  lemma IssuePath(s: State, p: nat) returns (states: seq<State>, labels: seq<Label>)
    requires p in s.procs && s.procs[p] == Proc(Out, NoBeat) && s.queue.None?
    requires s.tickets == {} && s.staging == {} && 0 < s.counter < U64_MAX
    ensures Path(states, labels) && |labels| == 4 && states[0] == s
    ensures states[4] == Move(s.(queue := Some(p), counter := s.counter + 1, issued := s.issued + [s.counter]), p,
                              Stage(s.counter))
  {
    var s1 := Move(s.(queue := Some(p)), p, Scan(None, {}, {}, {}));
    var s2 := Move(s1, p, Reclaim(None, {}, {}, None));
    var s3 := Move(s2, p, Issue);
    var s4 := Move(s3.(counter := s.counter + 1, issued := s.issued + [s.counter]), p, Stage(s.counter));
    states := [s, s1, s2, s3, s4];
    labels := [Label(p, ByAcquire(SBeginScan)), Label(p, ByAcquire(SEndScan)), Label(p, ByAcquire(SAdmit)),
               Label(p, ByAcquire(SIssueId(s.counter)))];
    assert StepAt(states, labels, 0);
    assert StepAt(states, labels, 1);
    assert StepAt(states, labels, 2);
    assert StepAt(states, labels, 3);
  }

  /** It creates its ticket. */
  lemma NamePath(s: State, p: nat, t: nat) returns (states: seq<State>, labels: seq<Label>)
    requires p in s.procs && s.procs[p].pc == Stage(t) && s.staging == {} && t !in s.locks
    ensures Path(states, labels) && |labels| == 3 && states[0] == s
    ensures states[3] == Move(s.(tickets := s.tickets + {t}, locks := s.locks[t := p]), p, Named(t))
  {
    var s1 := Move(s.(staging := {t}), p, Staged(t));
    var s2 := Move(s1.(locks := s.locks[t := p]), p, Locked(t));
    var s3 := Move(s2.(staging := {}, tickets := s.tickets + {t}), p, Named(t));
    assert {} + {t} == {t} && {t} - {t} == {};
    states := [s, s1, s2, s3];
    labels := [Label(p, ByAcquire(SCreateStaging)), Label(p, ByAcquire(SLockStaging)), Label(p, ByAcquire(SNameTicket))];
    assert StepAt(states, labels, 0);
    assert StepAt(states, labels, 1);
    assert StepAt(states, labels, 2);
  }

  /** It creates its queued lease and lets go of the queue. */
  lemma LeasePath(s: State, p: nat, t: nat) returns (states: seq<State>, labels: seq<Label>)
    requires p in s.procs && s.procs[p].pc == Named(t) && t !in s.leases
    ensures Path(states, labels) && |labels| == 2 && states[0] == s
    ensures states[2] == Move(s.(queue := None, leases := s.leases[t := Lease(false, s.now)]), p, Waiting(t))
  {
    var s1 := Move(s.(leases := s.leases[t := Torn]), p, Writing(t));
    var s2 := Move(s1.(leases := s1.leases[t := Lease(false, s.now)], queue := None), p, Waiting(t));
    assert s1.leases[t := Lease(false, s.now)] == s.leases[t := Lease(false, s.now)];
    states := [s, s1, s2];
    labels := [Label(p, ByAcquire(SCreateLease)), Label(p, ByAcquire(SFinishTicket))];
    assert StepAt(states, labels, 0);
    assert StepAt(states, labels, 1);
  }

  /** It finds itself at the head of the queue. */
  lemma HeadPath(s: State, p: nat, t: nat) returns (states: seq<State>, labels: seq<Label>)
    requires p in s.procs && s.procs[p].pc == Waiting(t) && s.queue.None? && s.slot.None?
    requires s.tickets == {t} && s.staging == {}
    ensures Path(states, labels) && |labels| == 4 && states[0] == s
    ensures states[4] == Move(s.(queue := Some(p), slot := Some(p)), p, Activate(t))
  {
    var s1 := Move(s.(queue := Some(p)), p, Scan(Some(t), {t}, {}, {}));
    var s2 := Move(s1, p, Scan(Some(t), {}, {t}, {}));
    var s3 := Move(s2, p, Reclaim(Some(t), {t}, {}, None));
    var s4 := Move(s3.(slot := Some(p)), p, Activate(t));
    assert {t} - {t} == {} && {} + {t} == {t};
    states := [s, s1, s2, s3, s4];
    labels := [Label(p, ByAcquire(SBeginScan)), Label(p, ByAcquire(SScanTicket(t))), Label(p, ByAcquire(SEndScan)),
               Label(p, ByAcquire(STakeSlot))];
    assert StepAt(states, labels, 0);
    assert StepAt(states, labels, 1);
    assert StepAt(states, labels, 2);
    assert StepAt(states, labels, 3);
  }

  /** It receives its guard, and the heartbeat reads the lease. */
  lemma GuardPath(s: State, p: nat, t: nat) returns (states: seq<State>, labels: seq<Label>)
    requires p in s.procs && s.procs[p].pc == Activate(t)
    requires t in s.leases && s.leases[t] == Lease(false, s.now)
    ensures Path(states, labels) && |labels| == 3 && states[0] == s
    ensures states[3] == s.(queue := None, leases := s.leases[t := Lease(true, s.now)],
                            procs := s.procs[p := Proc(Holding(t), Beat(t, true))])
  {
    var s1 := Move(s.(leases := s.leases[t := Lease(true, s.now)]), p, Activated(t));
    var s2 := SetBeat(Move(s1.(queue := None), p, Holding(t)), p, Beat(t, false));
    var s3 := SetBeat(s2, p, Beat(t, true));
    states := [s, s1, s2, s3];
    labels := [Label(p, ByAcquire(SActivateLease)), Label(p, ByAcquire(SHandOut)), Label(p, ByOther(SBeatRead))];
    assert StepAt(states, labels, 0);
    assert StepAt(states, labels, 1);
    assert StepAt(states, labels, 2);
  }

  /** Two processes, of which the first holds the guard of ticket 1 with a heartbeat between
      read and write. */
  function GuardState(now: nat): State {
    State(None, Some(0), map[1 := 0], {1}, {}, map[1 := Lease(true, now)], 2, now,
          map[0 := Proc(Holding(1), Beat(1, true)), 1 := Proc(Out, NoBeat)], [1])
  }

  lemma GuardRun(now: nat) returns (states: seq<State>, labels: seq<Label>)
    ensures Run(states, labels) && |labels| == 16 && states[16] == GuardState(now)
  {
    var procs := map[0 := Proc(Out, NoBeat), 1 := Proc(Out, NoBeat)];
    var s := State(None, None, map[], {}, {}, map[], 1, now, procs, []);
    var a, x := IssuePath(s, 0);
    var b, y := NamePath(a[4], 0, 1);
    var c, z := LeasePath(b[3], 0, 1);
    JoinPaths(a, x, b, y);
    JoinPaths(a + b[1..], x + y, c, z);
    states, labels := a + b[1..] + c[1..], x + y + z;
    a, x := HeadPath(c[2], 0, 1);
    b, y := GuardPath(a[4], 0, 1);
    JoinPaths(states, labels, a, x);
    JoinPaths(states + a[1..], labels + x, b, y);
    states, labels := states + a[1..] + b[1..], labels + x + y;
    assert Run(states, labels) && states[16] == b[3];
  }

  /** A concrete run of two processes in which the first, abandoning its guard, writes back a
      lease that reconciliation by the second has removed. */
  lemma RemovedLeaseComesBack(now: nat) returns (states: seq<State>, labels: seq<Label>)
    ensures Run(states, labels) && |labels| == 24 && labels[23] == Label(0, ByOther(SBeatWrite))
    ensures 1 !in states[23].leases && 1 in states[24].leases
  {
    states, labels := GuardRun(now);
    var e, v := AbandonedBeatRecreatesLease(states, labels, 0, 1);
    JoinPaths(states, labels, e, v);
    states, labels := states + e[1..], labels + v;
  }
}
