/**
 When a heartbeat can bring back a removed lease. Only a guard that was abandoned, its
 ticket unlocked while its heartbeat goes on, can do so; and from a state with a guard it
 can happen unless some ticket in the directory has a lease that does not decode and
 nobody left to repair it.
 */
module AdmissionLeases {
  import opened Common
  import opened AdmissionProtocol
  import opened AdmissionSafety
  import opened AdmissionTheorems

  predicate TornLease(s: State, u: nat) {
    u in s.leases && s.leases[u].Torn?
  }

  /** What is left of the procedure after a failed lease creation. */
  predicate IsFail(ops: seq<Op>) {
    ops == FailOps() || ops == [RemoveTicket, UnlockQueue] || ops == [UnlockQueue] || ops == []
  }

  /** What is left of an abandoned guard once its ticket is unlocked. */
  predicate IsExposed(ops: seq<Op>) {
    ops == [UnlockSlot, StopBeat] || ops == [StopBeat]
  }

  /** Only two procedures stop a heartbeat. Only a process that has just created its lease
      has one that does not decode, and nobody who has scanned or reconciles has met one. */
  ghost predicate TornLocal(s: State, pc: PC) {
    && (Mine(pc).Some? && TornLease(s, Mine(pc).value) ==> pc.Writing? || (pc.Closing? && !pc.again && IsFail(pc.ops)))
    && (pc.Closing? && StopBeat in pc.ops ==>
          pc.ops == ReleaseOps() || (!pc.again && (pc.ops == AbandonOps() || IsExposed(pc.ops))))
    && match pc
       case Scan(_, _, live, stale) => forall u :: u in live || u in stale ==> !TornLease(s, u)
       case Reclaim(_, live, stale, _) => forall u :: u in live || u in stale ==> !TornLease(s, u)
       case Fix(_) => forall u :: !TornLease(s, u)
       case _ => true
  }

  ghost predicate TornInv(s: State) {
    forall p :: p in s.procs ==> TornLocal(s, s.procs[p].pc)
  }

  // ---------------------------------------------------------------------------
  // Every step keeps it
  // ---------------------------------------------------------------------------

  /** Under the queue lock of a scan no locked ticket has a lease that does not decode. */
  lemma LockedIsNotTorn(s: State, p: nat, u: nat)
    requires Inv(s) && TornInv(s) && p in s.procs && s.procs[p].pc.Scan? && u in s.locks
    ensures !TornLease(s, u)
  {
    var r := s.locks[u];
    assert ProcInv(s, p) && ProcInv(s, r);
    assert u in Owned(s.locks, r);
    assert TornLocal(s, s.procs[r].pc);
  }

  /** A step that moves on without touching the leases, or removes or writes some. */
  ghost predicate Fewer(s: State, t: State) {
    forall u :: TornLease(t, u) ==> TornLease(s, u)
  }

  lemma ScanKeepsTorn(s: State, t: State, p: nat, u: nat)
    requires Inv(s) && TornInv(s) && p in s.procs && ScanTicket(s, t, p, u)
    ensures Fewer(s, t) && p in t.procs && TornLocal(t, t.procs[p].pc)
  {
    assert TornLocal(s, s.procs[p].pc);
    if u in s.locks {
      LockedIsNotTorn(s, p, u);
    }
  }

  /** Scanning, reclaiming and the slot. */
  lemma QueueKeepsTorn(s: State, t: State, p: nat, k: AcquireStep)
    requires p in s.procs && TornLocal(s, s.procs[p].pc) && TakesAcquire(s, t, p, k)
    requires k.SBeginScan? || k.SScanStaging? || k.SEndScan? || k.SReclaimTicket? || k.SReclaimLease? || k.SAbortScan?
             || k.SAdmit? || k.STakeSlot?
    ensures Fewer(s, t) && p in t.procs && TornLocal(t, t.procs[p].pc)
  {
    match k
    case SBeginScan =>
    case SScanStaging(_) =>
    case SEndScan =>
    case SReclaimTicket(_) =>
    case SReclaimLease =>
    case SAbortScan => assert StopBeat !in DropOps();
    case SAdmit =>
    case STakeSlot =>
  }

  /** A new ticket. */
  lemma TicketKeepsTorn(s: State, t: State, p: nat, k: AcquireStep)
    requires p in s.procs && Local(s, s.procs[p].pc) && TornLocal(s, s.procs[p].pc) && TakesAcquire(s, t, p, k)
    requires forall u :: u in s.leases ==> u < s.counter
    requires k.SIssueId? || k.SCreateStaging? || k.SLockStaging? || k.SNameTicket?
    ensures Fewer(s, t) && p in t.procs && TornLocal(t, t.procs[p].pc)
  {
  }

  /** Its lease, or a failure to create either. */
  lemma LeaseKeepsTorn(s: State, t: State, p: nat, k: AcquireStep)
    requires p in s.procs && TornLocal(s, s.procs[p].pc) && TakesAcquire(s, t, p, k)
    requires k.SFinishTicket? || k.SAbortTicket? || k.SAbortLease?
    ensures Fewer(s, t) && p in t.procs && TornLocal(t, t.procs[p].pc)
  {
    assert StopBeat !in FailOps();
  }

  lemma GrantKeepsTorn(s: State, t: State, p: nat, k: AcquireStep)
    requires p in s.procs && TornLocal(s, s.procs[p].pc) && TakesAcquire(s, t, p, k)
    requires k.SActivateLease? || k.SAbortActivation? || k.SHandOut?
    ensures Fewer(s, t) && p in t.procs && TornLocal(t, t.procs[p].pc)
  {
  }

  lemma AcquireKeepsTorn(s: State, t: State, p: nat, k: AcquireStep)
    requires Inv(s) && TornInv(s) && p in s.procs && TakesAcquire(s, t, p, k) && k != SCreateLease
    ensures Fewer(s, t) && p in t.procs && TornLocal(t, t.procs[p].pc)
  {
    if k.SScanTicket? {
      ScanKeepsTorn(s, t, p, k.u);
    } else {
      assert TornLocal(s, s.procs[p].pc) && ProcInv(s, p);
      if k.SActivateLease? || k.SAbortActivation? || k.SHandOut? {
        GrantKeepsTorn(s, t, p, k);
      } else if k.SFinishTicket? || k.SAbortTicket? || k.SAbortLease? {
        LeaseKeepsTorn(s, t, p, k);
      } else if k.SIssueId? || k.SCreateStaging? || k.SLockStaging? || k.SNameTicket? {
        TicketKeepsTorn(s, t, p, k);
      } else {
        QueueKeepsTorn(s, t, p, k);
      }
    }
  }

  lemma BeginKeepsTorn(s: State, t: State, p: nat, k: CloseStep)
    requires p in s.procs && TornLocal(s, s.procs[p].pc) && TakesClose(s, t, p, k)
    requires k.SBeginRelease? || k.SBeginCleanup? || k.SBeginAgain? || k.SAbandon? || k.SDropReservation? || k.SSkipAgain?
             || k.SEndClosing?
    ensures Fewer(s, t) && p in t.procs && TornLocal(t, t.procs[p].pc)
  {
  }

  /** One operation of a closing procedure is done. */
  lemma RestKeepsTorn(s: State, t: State, pc: PC)
    requires pc.Closing? && pc.ops != [] && WellOrdered(pc.ops) && TornLocal(s, pc) && Fewer(s, t)
    ensures TornLocal(t, Rest(pc))
  {
    var ops := pc.ops;
    assert FailOps()[1..] == [RemoveTicket, UnlockQueue] && [RemoveTicket, UnlockQueue][1..] == [UnlockQueue];
    assert AbandonOps()[1..] == [UnlockSlot, StopBeat] && [UnlockSlot, StopBeat][1..] == [StopBeat];
    assert [UnlockQueue][1..] == [] && [StopBeat][1..] == [];
    assert StopBeat in ops[1..] ==> StopBeat in ops && ops[0] != StopBeat;
  }

  lemma OpKeepsTorn(s: State, t: State, p: nat, k: CloseStep)
    requires p in s.procs && Local(s, s.procs[p].pc) && TornLocal(s, s.procs[p].pc) && TakesClose(s, t, p, k)
    requires k.SCloseBeat? || k.SCloseLease? || k.SCloseTicket? || k.SCloseLocks?
    ensures Fewer(s, t) && p in t.procs && TornLocal(t, t.procs[p].pc)
  {
    OpMovesOn(s, t, p, k);
    RestKeepsTorn(s, t, s.procs[p].pc);
  }

  lemma OpMovesOn(s: State, t: State, p: nat, k: CloseStep)
    requires p in s.procs && TakesClose(s, t, p, k)
    requires k.SCloseBeat? || k.SCloseLease? || k.SCloseTicket? || k.SCloseLocks?
    ensures Fewer(s, t) && p in t.procs && s.procs[p].pc.Closing? && s.procs[p].pc.ops != []
    ensures t.procs[p].pc == Rest(s.procs[p].pc)
  {
  }

  lemma OtherKeepsTorn(s: State, t: State, p: nat, k: OtherStep)
    requires p in s.procs && TornLocal(s, s.procs[p].pc) && TakesOther(s, t, p, k)
    ensures Fewer(s, t) && p in t.procs && TornLocal(t, t.procs[p].pc)
  {
  }

  lemma CreateKeepsTorn(s: State, t: State, p: nat)
    requires Inv(s) && TornInv(s) && p in s.procs && CreateLease(s, t, p)
    ensures TornInv(t)
  {
    forall q | q in t.procs
      ensures TornLocal(t, t.procs[q].pc)
    {
      assert TornLocal(s, s.procs[q].pc) && ProcInv(s, q) && ProcInv(s, p);
      if q != p {
        assert Distinct(s, p, q);
      }
    }
  }

  lemma CloseKeepsTorn(s: State, t: State, p: nat, k: CloseStep)
    requires p in s.procs && Local(s, s.procs[p].pc) && TornLocal(s, s.procs[p].pc) && TakesClose(s, t, p, k)
    ensures Fewer(s, t) && p in t.procs && TornLocal(t, t.procs[p].pc)
  {
    if k.SCloseBeat? || k.SCloseLease? || k.SCloseTicket? || k.SCloseLocks? {
      OpKeepsTorn(s, t, p, k);
    } else {
      BeginKeepsTorn(s, t, p, k);
    }
  }

  lemma StepperKeepsTorn(s: State, t: State, p: nat, k: Step)
    requires Inv(s) && TornInv(s) && Takes(s, t, p, k) && !k.Tick? && k != ByAcquire(SCreateLease)
    ensures Fewer(s, t) && p in t.procs && TornLocal(t, t.procs[p].pc)
  {
    assert TornLocal(s, s.procs[p].pc) && Local(s, s.procs[p].pc) by {
      assert ProcInv(s, p);
    }
    match k
    case ByAcquire(a) => AcquireKeepsTorn(s, t, p, a);
    case ByClose(c) => CloseKeepsTorn(s, t, p, c);
    case ByOther(o) => OtherKeepsTorn(s, t, p, o);
  }

  lemma TickKeepsTorn(s: State, now: nat)
    requires TornInv(s)
    ensures TornInv(s.(now := now))
  {
    var t := s.(now := now);
    assert forall u :: TornLease(t, u) == TornLease(s, u);
    forall q | q in t.procs
      ensures TornLocal(t, t.procs[q].pc)
    {
      assert TornLocal(s, s.procs[q].pc);
    }
  }

  lemma StepKeepsTorn(s: State, t: State, p: nat, k: Step)
    requires Inv(s) && TornInv(s) && Takes(s, t, p, k)
    ensures TornInv(t)
  {
    if k == ByAcquire(SCreateLease) {
      CreateKeepsTorn(s, t, p);
    } else if k.Tick? {
      TickKeepsTorn(s, k.now);
    } else {
      StepperKeepsTorn(s, t, p, k);
      OthersKeepTorn(s, t, p, k);
    }
  }

  lemma OthersKeepTorn(s: State, t: State, p: nat, k: Step)
    requires Inv(s) && TornInv(s) && Takes(s, t, p, k) && !k.Tick? && Fewer(s, t)
    requires p in t.procs && TornLocal(t, t.procs[p].pc)
    ensures TornInv(t)
  {
    assert t.procs == s.procs[p := t.procs[p]] by {
      StepIsGood(s, t, p, k);
    }
    forall q | q in t.procs
      ensures TornLocal(t, t.procs[q].pc)
    {
      if q != p {
        assert TornLocal(s, s.procs[q].pc);
      }
    }
  }

  lemma {:induction false} RunKeepsTorn(states: seq<State>, labels: seq<Label>, n: nat)
    requires Run(states, labels) && n < |states|
    ensures Inv(states[n]) && TornInv(states[n])
  {
    RunKeepsInv(states, labels, n);
    if n > 0 {
      RunKeepsTorn(states, labels, n - 1);
      assert StepAt(states, labels, n - 1);
      StepKeepsTorn(states[n - 1], states[n], labels[n - 1].p, labels[n - 1].k);
    }
  }

  // ---------------------------------------------------------------------------
  // Only an abandoned guard
  // ---------------------------------------------------------------------------

  /** A heartbeat write that recreates a lease belongs to a guard whose fields are being
      dropped, its ticket already unlocked. */
  lemma OnlyExposedBeatsRecreate(states: seq<State>, labels: seq<Label>, n: nat, u: nat)
    requires Run(states, labels) && n < |labels| && labels[n].k == ByOther(SBeatWrite)
    requires u !in states[n].leases && u in states[n + 1].leases
    ensures labels[n].p in states[n].procs
    ensures var pc := states[n].procs[labels[n].p].pc; pc.Closing? && pc.t == u && !pc.again && IsExposed(pc.ops)
  {
    RunKeepsTorn(states, labels, n);
    assert StepAt(states, labels, n);
    var s, p := states[n], labels[n].p;
    assert ProcInv(s, p) && TornLocal(s, s.procs[p].pc);
  }

  /** The guard of ticket `u` is being dropped without a release. */
  predicate Abandoning(pc: PC, u: nat) {
    pc.Closing? && pc.t == u && !pc.again && (pc.ops == AbandonOps() || IsExposed(pc.ops))
  }

  /** Acquiring never ends in a closing procedure that stops a heartbeat. */
  lemma AcquireStopsNoBeat(s: State, t: State, p: nat, k: AcquireStep)
    requires p in s.procs && TakesAcquire(s, t, p, k)
    ensures p in t.procs && !(t.procs[p].pc.Closing? && StopBeat in t.procs[p].pc.ops)
  {
    assert StopBeat !in FailOps() && StopBeat !in DropOps();
  }

  lemma CloseStartsAbandoning(s: State, t: State, p: nat, k: CloseStep, u: nat)
    requires p in s.procs && TornLocal(s, s.procs[p].pc) && TakesClose(s, t, p, k)
    requires p in t.procs && Abandoning(t.procs[p].pc, u)
    ensures Abandoning(s.procs[p].pc, u) || (k == SAbandon && s.procs[p].pc == Holding(u))
  {
    assert StopBeat in t.procs[p].pc.ops;
    if k.SCloseBeat? || k.SCloseLease? || k.SCloseTicket? || k.SCloseLocks? {
      OpMovesOn(s, t, p, k);
      assert StopBeat !in ReleaseOps()[1..];
    } else {
      assert StopBeat !in DropOps() && StopBeat !in CleanupOps() && StopBeat !in AgainOps();
    }
  }

  lemma OtherStartsNothing(s: State, t: State, p: nat, k: OtherStep)
    requires p in s.procs && TakesOther(s, t, p, k)
    ensures p in t.procs && (t.procs[p].pc == s.procs[p].pc || !t.procs[p].pc.Closing?)
  {
  }

  lemma StartsAbandoning(s: State, t: State, p: nat, k: Step, u: nat)
    requires TornInv(s) && Takes(s, t, p, k) && p in t.procs && Abandoning(t.procs[p].pc, u)
    ensures Abandoning(s.procs[p].pc, u) || (k == ByClose(SAbandon) && s.procs[p].pc == Holding(u))
  {
    assert StopBeat in t.procs[p].pc.ops;
    match k
    case ByAcquire(a) => AcquireStopsNoBeat(s, t, p, a);
    case ByClose(c) => CloseStartsAbandoning(s, t, p, c, u);
    case ByOther(o) => OtherStartsNothing(s, t, p, o);
    case Tick(_) =>
  }

  lemma StepBack(s: State, t: State, q: nat, k: Step, p: nat, u: nat)
    requires Inv(s) && TornInv(s) && Takes(s, t, q, k) && p in s.procs && p in t.procs && Abandoning(t.procs[p].pc, u)
    ensures Abandoning(s.procs[p].pc, u) || (q == p && k == ByClose(SAbandon) && s.procs[p].pc == Holding(u))
  {
    if q == p {
      StartsAbandoning(s, t, p, k, u);
    } else if !k.Tick? {
      assert t.procs == s.procs[q := t.procs[q]] by {
        StepIsGood(s, t, q, k);
      }
    }
  }

  /** A guard is being dropped without a release only after `Abandon`: neither `release` nor
      `Drop` got the queue lock. */
  lemma {:induction false} AbandonedBefore(states: seq<State>, labels: seq<Label>, n: nat, p: nat, u: nat) returns (m: nat)
    requires Run(states, labels) && n < |states| && p in states[n].procs && Abandoning(states[n].procs[p].pc, u)
    ensures m < n && labels[m] == Label(p, ByClose(SAbandon))
    ensures p in states[m].procs && states[m].procs[p].pc == Holding(u)
  {
    assert n > 0;
    m := n - 1;
    var s, t := states[m], states[n];
    RunKeepsTorn(states, labels, m);
    assert StepAt(states, labels, m);
    assert p in s.procs by {
      if !labels[m].k.Tick? {
        StepIsGood(s, t, labels[m].p, labels[m].k);
      }
    }
    StepBack(s, t, labels[m].p, labels[m].k, p, u);
    if Abandoning(s.procs[p].pc, u) {
      m := AbandonedBefore(states, labels, m, p, u);
    }
  }

  /** If a heartbeat write recreates a lease, its guard was abandoned before: as long as
      `release` or `Drop` gets the queue lock, no write recreates a lease. */
  lemma RecreationNeedsAbandon(states: seq<State>, labels: seq<Label>, n: nat, u: nat) returns (m: nat)
    requires Run(states, labels) && n < |labels| && labels[n].k == ByOther(SBeatWrite)
    requires u !in states[n].leases && u in states[n + 1].leases
    ensures m < n && labels[m] == Label(labels[n].p, ByClose(SAbandon))
    ensures labels[n].p in states[m].procs && states[m].procs[labels[n].p].pc == Holding(u)
  {
    OnlyExposedBeatsRecreate(states, labels, n, u);
    m := AbandonedBefore(states, labels, n, labels[n].p, u);
  }
}
