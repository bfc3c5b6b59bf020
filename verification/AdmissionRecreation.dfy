/**
 The converse of `AdmissionLeases`: from which states a guard, if abandoned, can bring
 back its removed lease. It needs another process, and no ticket in the directory whose
 lease does not decode and that nobody will repair: such a ticket stops every scan and
 every reconciliation, so that nobody but its owner ever removes a lease.
 */
module AdmissionRecreation {
  import opened Common
  import opened AdmissionLimits
  import opened AdmissionProtocol
  import opened AdmissionSafety
  import opened AdmissionTheorems
  import opened AdmissionLeases

  /** The process is writing the lease of ticket `v`, or will remove the ticket. */
  predicate Repairs(pc: PC, v: nat) {
    Mine(pc) == Some(v) && (pc.Writing? || (pc.Closing? && RemoveTicket in pc.ops))
  }

  /** A ticket with a lease that does not decode, and nobody to repair it: its creator died
      while it was writing the lease, or could not remove the ticket again. */
  predicate Stuck(s: State, v: nat) {
    v in s.tickets && TornLease(s, v) && forall r :: r in s.procs ==> !Repairs(s.procs[r].pc, v)
  }

  // ---------------------------------------------------------------------------
  // A stuck ticket stays and keeps everybody from removing the leases of others
  // ---------------------------------------------------------------------------

  lemma NobodyPastTheScan(s: State, v: nat, p: nat)
    requires Inv(s) && TornInv(s) && Stuck(s, v) && p in s.procs
    ensures !s.procs[p].pc.Reclaim? && !s.procs[p].pc.Fix?
  {
    assert ProcInv(s, p) && TornLocal(s, s.procs[p].pc);
  }

  /** Who removes a ticket. */
  lemma AcquireTicketLoss(s: State, t: State, p: nat, k: AcquireStep, v: nat)
    requires p in s.procs && TakesAcquire(s, t, p, k) && v in s.tickets && v !in t.tickets
    ensures s.procs[p].pc.Reclaim?
  {
  }

  lemma CloseTicketLoss(s: State, t: State, p: nat, k: CloseStep, v: nat)
    requires p in s.procs && TakesClose(s, t, p, k) && v in s.tickets && v !in t.tickets
    ensures Repairs(s.procs[p].pc, v)
  {
  }

  lemma OtherTicketLoss(s: State, t: State, p: nat, k: OtherStep, v: nat)
    requires p in s.procs && TakesOther(s, t, p, k) && v in s.tickets && v !in t.tickets
    ensures s.procs[p].pc.Fix?
  {
  }

  /** Who removes or changes a lease. */
  lemma AcquireLeaseChange(s: State, t: State, p: nat, k: AcquireStep, v: nat)
    requires p in s.procs && TakesAcquire(s, t, p, k) && v in s.leases
    requires v !in t.leases || t.leases[v] != s.leases[v]
    ensures s.procs[p].pc.Reclaim? || (v in t.leases && Mine(s.procs[p].pc) == Some(v) && !s.procs[p].pc.Closing?)
    ensures s.procs[p].pc.Reclaim? ==> s.procs[p].pc.lease == Some(v)
    ensures s.leases[v].Torn? && v in t.leases ==> Repairs(s.procs[p].pc, v)
  {
  }

  lemma CloseLeaseChange(s: State, t: State, p: nat, k: CloseStep, v: nat)
    requires p in s.procs && TakesClose(s, t, p, k) && v in s.leases
    requires v !in t.leases || t.leases[v] != s.leases[v]
    ensures v !in t.leases && Mine(s.procs[p].pc) == Some(v) && AtOp(s, p, RemoveLease)
  {
  }

  lemma OtherLeaseChange(s: State, t: State, p: nat, k: OtherStep, v: nat)
    requires p in s.procs && TakesOther(s, t, p, k) && v in s.leases
    requires v !in t.leases || t.leases[v] != s.leases[v]
    ensures
      || (s.procs[p].pc.Fix? && v in s.procs[p].pc.picked)
      || (v in t.leases && s.procs[p].beat.Beat? && s.procs[p].beat.t == v)
  {
  }

  lemma StuckTicketStays(s: State, t: State, p: nat, k: Step, v: nat)
    requires Inv(s) && TornInv(s) && Stuck(s, v) && Takes(s, t, p, k)
    ensures v in t.tickets
  {
    NobodyPastTheScan(s, v, p);
    if v !in t.tickets {
      match k
      case ByAcquire(a) => AcquireTicketLoss(s, t, p, a, v); assert false;
      case ByClose(c) => CloseTicketLoss(s, t, p, c, v); assert false;
      case ByOther(o) => OtherTicketLoss(s, t, p, o, v); assert false;
    }
  }

  lemma StuckLeaseStays(s: State, t: State, p: nat, k: Step, v: nat)
    requires Inv(s) && TornInv(s) && Stuck(s, v) && Takes(s, t, p, k)
    ensures TornLease(t, v)
  {
    NobodyPastTheScan(s, v, p);
    if v !in t.leases || t.leases[v] != s.leases[v] {
      assert ProcInv(s, p) && TornLocal(s, s.procs[p].pc);
      match k
      case ByAcquire(a) => AcquireLeaseChange(s, t, p, a, v); assert false;
      case ByClose(c) => CloseLeaseChange(s, t, p, c, v); assert false;
      case ByOther(o) => OtherLeaseChange(s, t, p, o, v); assert false;
    }
  }

  /** A failed creation that could not remove its ticket only lets go of the queue. */
  lemma FailureEnds(s: State, t: State, p: nat, k: Step)
    requires Takes(s, t, p, k) && s.procs[p].pc.Closing?
    requires s.procs[p].pc.ops == [UnlockQueue] || s.procs[p].pc.ops == []
    ensures p in t.procs
    ensures t.procs[p].pc.Closing? ==> t.procs[p].pc.ops == [UnlockQueue] || t.procs[p].pc.ops == []
    ensures !t.procs[p].pc.Writing?
  {
    assert [UnlockQueue][1..] == [];
  }

  lemma NobodyRepairs(s: State, t: State, p: nat, k: Step, v: nat)
    requires Inv(s) && TornInv(s) && Stuck(s, v) && Takes(s, t, p, k) && !k.Tick?
    ensures forall r :: r in t.procs ==> !Repairs(t.procs[r].pc, v)
  {
    assert t.procs == s.procs[p := t.procs[p]] && p in t.procs && KeepsMine(s, t, p) by {
      StepIsGood(s, t, p, k);
    }
    if Mine(t.procs[p].pc) == Some(v) {
      assert Mine(s.procs[p].pc) == Some(v);
      assert TornLocal(s, s.procs[p].pc);
      assert RemoveTicket in FailOps() && RemoveTicket in [RemoveTicket, UnlockQueue];
      FailureEnds(s, t, p, k);
    }
  }

  lemma StuckStays(s: State, t: State, p: nat, k: Step, v: nat)
    requires Inv(s) && TornInv(s) && Stuck(s, v) && Takes(s, t, p, k)
    ensures Stuck(t, v)
  {
    StuckTicketStays(s, t, p, k, v);
    StuckLeaseStays(s, t, p, k, v);
    if !k.Tick? {
      NobodyRepairs(s, t, p, k, v);
    }
  }

  /** A heartbeat has the lease it will write. */
  predicate BeatHasLease(s: State, p: nat)
    requires p in s.procs
  {
    s.procs[p].beat.Beat? ==> s.procs[p].beat.t in s.leases
  }

  /** Where a heartbeat comes from. */
  lemma AcquireBeat(s: State, t: State, p: nat, k: AcquireStep)
    requires p in s.procs && TakesAcquire(s, t, p, k)
    ensures p in t.procs
    ensures if k.SHandOut? then t.procs[p].beat == Beat(s.procs[p].pc.t, false) && s.procs[p].pc.Activated? && t.leases == s.leases
            else t.procs[p].beat == s.procs[p].beat
  {
  }

  lemma CloseBeats(s: State, t: State, p: nat, k: CloseStep)
    requires p in s.procs && TakesClose(s, t, p, k)
    ensures p in t.procs && (t.procs[p].beat == s.procs[p].beat || t.procs[p].beat.NoBeat?)
  {
  }

  lemma OtherBeat(s: State, t: State, p: nat, k: OtherStep)
    requires p in s.procs && TakesOther(s, t, p, k)
    ensures p in t.procs
    ensures t.procs[p].beat.Beat? ==> s.procs[p].beat.Beat? && t.procs[p].beat.t == s.procs[p].beat.t
  {
  }

  lemma AcquireKeepsLease(s: State, t: State, p: nat, k: AcquireStep)
    requires p in s.procs && Local(s, s.procs[p].pc) && BeatInv(s, s.procs[p]) && BeatHasLease(s, p)
    requires TakesAcquire(s, t, p, k)
    ensures p in t.procs && BeatHasLease(t, p)
  {
    AcquireBeat(s, t, p, k);
    assert s.procs[p].beat.NoBeat?;
  }

  lemma CloseKeepsLease(s: State, t: State, p: nat, k: CloseStep)
    requires p in s.procs && Local(s, s.procs[p].pc) && BeatInv(s, s.procs[p]) && BeatHasLease(s, p)
    requires TakesClose(s, t, p, k)
    ensures p in t.procs && BeatHasLease(t, p)
  {
    CloseBeats(s, t, p, k);
    var beat := s.procs[p].beat;
    if beat.Beat? && beat.t !in t.leases {
      CloseLeaseChange(s, t, p, k, beat.t);
      assert false;
    }
  }

  lemma OtherKeepsLease(s: State, t: State, p: nat, k: OtherStep)
    requires p in s.procs && BeatInv(s, s.procs[p]) && BeatHasLease(s, p) && TakesOther(s, t, p, k)
    ensures p in t.procs && BeatHasLease(t, p)
  {
    OtherBeat(s, t, p, k);
    var beat := s.procs[p].beat;
    if beat.Beat? && beat.t !in t.leases {
      OtherLeaseChange(s, t, p, k, beat.t);
      assert false;
    }
  }

  /** The steps of the guard's own process never remove the lease under its heartbeat. */
  lemma OwnStepKeepsLease(s: State, t: State, p: nat, k: Step)
    requires Inv(s) && p in s.procs && BeatHasLease(s, p) && Takes(s, t, p, k)
    ensures p in t.procs && BeatHasLease(t, p)
  {
    assert Local(s, s.procs[p].pc) && BeatInv(s, s.procs[p]) by {
      assert ProcInv(s, p);
    }
    match k
    case ByAcquire(a) => AcquireKeepsLease(s, t, p, a);
    case ByClose(c) => CloseKeepsLease(s, t, p, c);
    case ByOther(o) => OtherKeepsLease(s, t, p, o);
    case Tick(_) =>
  }

  /** While a ticket is stuck, neither do the steps of any other process. */
  lemma OthersStepKeepsLease(s: State, t: State, q: nat, k: Step, p: nat, v: nat)
    requires Inv(s) && TornInv(s) && Stuck(s, v) && p in s.procs && q != p && BeatHasLease(s, p) && Takes(s, t, q, k)
    ensures p in t.procs && BeatHasLease(t, p)
  {
    OtherUnmoved(s, t, q, k, p);
    var beat := s.procs[p].beat;
    if beat.Beat? && beat.t !in t.leases {
      OwnerRemoves(s, t, q, k, beat.t, v);
      assert false;
    }
  }

  lemma OtherUnmoved(s: State, t: State, q: nat, k: Step, p: nat)
    requires Inv(s) && p in s.procs && q != p && Takes(s, t, q, k)
    ensures p in t.procs && t.procs[p] == s.procs[p]
    ensures s.procs[p].beat.Beat? ==> Mine(s.procs[q].pc) != Some(s.procs[p].beat.t)
  {
    if !k.Tick? {
      assert t.procs == s.procs[q := t.procs[q]] by {
        StepIsGood(s, t, q, k);
      }
    }
    assert ProcInv(s, p) && Distinct(s, p, q);
  }

  /** While a ticket is stuck, only its owner removes a lease. */
  lemma OwnerRemoves(s: State, t: State, q: nat, k: Step, u: nat, v: nat)
    requires Inv(s) && TornInv(s) && Stuck(s, v) && Takes(s, t, q, k) && u in s.leases && u !in t.leases
    ensures Mine(s.procs[q].pc) == Some(u)
  {
    NobodyPastTheScan(s, v, q);
    match k
    case ByAcquire(a) => AcquireLeaseChange(s, t, q, a, u);
    case ByClose(c) => CloseLeaseChange(s, t, q, c, u);
    case ByOther(o) => OtherLeaseChange(s, t, q, o, u);
  }

  /** From a state with a stuck ticket on, a heartbeat that has its lease keeps it. */
  lemma {:induction false} StuckAlong(states: seq<State>, labels: seq<Label>, m: nat, n: nat, p: nat, v: nat)
    requires Run(states, labels) && m <= n < |states|
    requires Stuck(states[m], v) && p in states[m].procs && BeatHasLease(states[m], p)
    ensures Stuck(states[n], v) && p in states[n].procs && BeatHasLease(states[n], p)
    decreases n
  {
    if m < n {
      StuckAlong(states, labels, m, n - 1, p, v);
      assert StepAt(states, labels, n - 1);
      RunKeepsTorn(states, labels, n - 1);
      var s, t, q, k := states[n - 1], states[n], labels[n - 1].p, labels[n - 1].k;
      StuckStays(s, t, q, k, v);
      if q == p {
        OwnStepKeepsLease(s, t, p, k);
      } else {
        OthersStepKeepsLease(s, t, q, k, p, v);
      }
    }
  }

  /** Without other processes a heartbeat keeps its lease. */
  lemma {:induction false} LonelyAlong(states: seq<State>, labels: seq<Label>, m: nat, n: nat, p: nat)
    requires Run(states, labels) && m <= n < |states|
    requires states[m].procs.Keys == {p} && BeatHasLease(states[m], p)
    ensures states[n].procs.Keys == {p} && BeatHasLease(states[n], p)
    decreases n
  {
    if m < n {
      LonelyAlong(states, labels, m, n - 1, p);
      assert StepAt(states, labels, n - 1);
      RunKeepsInv(states, labels, n - 1);
      var s, t, k := states[n - 1], states[n], labels[n - 1].k;
      OwnStepKeepsLease(s, t, p, k);
      if !k.Tick? {
        StepIsGood(s, t, p, k);
      }
    }
  }

  /** Process `p` has no heartbeat for ticket `t` and will never start one. */
  predicate Beatless(s: State, p: nat, t: nat) {
    && p in s.procs && t < s.counter
    && (s.procs[p].beat.Beat? ==> s.procs[p].beat.t != t)
    && (Mine(s.procs[p].pc) == Some(t) ==> AfterGrant(s.procs[p].pc))
  }

  predicate AfterGrant(pc: PC) {
    pc.Holding? || pc.Closing? || pc.Released?
  }

  lemma AcquireStaysAfterGrant(s: State, t: State, p: nat, k: AcquireStep)
    requires p in s.procs && TakesAcquire(s, t, p, k)
    ensures !AfterGrant(s.procs[p].pc)
  {
  }

  lemma CloseStaysAfterGrant(s: State, t: State, p: nat, k: CloseStep)
    requires p in s.procs && TakesClose(s, t, p, k)
    ensures p in t.procs && (t.procs[p].pc.Out? || AfterGrant(t.procs[p].pc))
  {
  }

  lemma OwnStepKeepsBeatless(s: State, t: State, p: nat, k: Step, u: nat)
    requires Beatless(s, p, u) && Takes(s, t, p, k) && !k.Tick? && p in t.procs && s.counter <= t.counter && KeepsMine(s, t, p)
    ensures Beatless(t, p, u)
  {
    match k
    case ByAcquire(a) =>
      AcquireBeat(s, t, p, a);
      AcquireStaysAfterGrant(s, t, p, a);
    case ByClose(c) =>
      CloseBeats(s, t, p, c);
      CloseStaysAfterGrant(s, t, p, c);
    case ByOther(o) =>
      OtherBeat(s, t, p, o);
      OtherStartsNothing(s, t, p, o);
  }

  lemma {:induction false} BeatlessAlong(states: seq<State>, labels: seq<Label>, m: nat, n: nat, p: nat, u: nat)
    requires Run(states, labels) && m <= n < |states| && Beatless(states[m], p, u)
    ensures Beatless(states[n], p, u)
    decreases n
  {
    if m < n {
      BeatlessAlong(states, labels, m, n - 1, p, u);
      assert StepAt(states, labels, n - 1);
      RunKeepsInv(states, labels, n - 1);
      var s, t, q, k := states[n - 1], states[n], labels[n - 1].p, labels[n - 1].k;
      if !k.Tick? {
        assert t.procs == s.procs[q := t.procs[q]] && q in t.procs && s.counter <= t.counter && KeepsMine(s, t, q) by {
          StepIsGood(s, t, q, k);
        }
        if q == p {
          OwnStepKeepsBeatless(s, t, p, k, u);
        }
      }
    }
  }

  // ---------------------------------------------------------------------------
  // Reaching a recreation
  // ---------------------------------------------------------------------------

  ghost predicate Reaches(s: State, t: State) {
    exists states, labels :: IsPath(states, labels, s, t)
  }

  ghost predicate IsPath(states: seq<State>, labels: seq<Label>, s: State, t: State) {
    Path(states, labels) && states[0] == s && states[|labels|] == t
  }

  lemma ReachesSelf(s: State)
    ensures Reaches(s, s)
  {
    assert IsPath([s], [], s, s);
  }

  lemma ReachesNext(s: State, t: State, u: State, p: nat, k: Step)
    requires Reaches(s, t) && Takes(t, u, p, k)
    ensures Reaches(s, u)
  {
    var states, labels :| IsPath(states, labels, s, t);
    var step := [Label(p, k)];
    assert StepAt([t, u], step, 0);
    JoinPaths(states, labels, [t, u], step);
    assert [t, u][1..] == [u];
    assert IsPath(states + [u], labels + step, s, u);
  }

  lemma ReachesTwice(s: State, t: State, u: State)
    requires Reaches(s, t) && Reaches(t, u)
    ensures Reaches(s, u)
  {
    var a, x :| IsPath(a, x, s, t);
    var b, y :| IsPath(b, y, t, u);
    JoinPaths(a, x, b, y);
    assert IsPath(a + b[1..], x + y, s, u);
  }

  /** No ticket in the directory has a lease that does not decode. */
  predicate NoTornTicket(s: State) {
    forall v :: v in s.tickets ==> !TornLease(s, v)
  }

  /** The guard of ticket `t` with its heartbeat, its ticket and its lease. */
  predicate Guarded(s: State, p: nat, t: nat) {
    && p in s.procs && s.procs[p].pc == Holding(t) && s.procs[p].beat.Beat? && s.procs[p].beat.t == t
    && t in s.tickets && ActiveLease(s, t)
  }

  /** Who repairs a ticket holds the queue. */
  lemma RepairerHasQueue(s: State, r: nat, v: nat)
    requires Inv(s) && TornInv(s) && r in s.procs && TornLease(s, v) && Repairs(s.procs[r].pc, v)
    ensures s.queue == Some(r)
    ensures s.procs[r].pc.Closing? ==> s.procs[r].pc.ops == FailOps() || s.procs[r].pc.ops == [RemoveTicket, UnlockQueue]
  {
    assert ProcInv(s, r) && TornLocal(s, s.procs[r].pc);
    assert UnlockQueue in FailOps() && UnlockQueue in [RemoveTicket, UnlockQueue];
  }

  /** Everyone but the repairer aside, no ticket has a torn lease. */
  lemma OnlyRepaired(s: State, r: nat, v: nat)
    requires Inv(s) && TornInv(s) && (forall w :: !Stuck(s, w))
    requires s.queue == Some(r) && r in s.procs && v in s.tickets && TornLease(s, v)
    ensures Repairs(s.procs[r].pc, v)
  {
    assert !Stuck(s, v);
    var q :| q in s.procs && Repairs(s.procs[q].pc, v);
    RepairerHasQueue(s, q, v);
  }

  /** What the guard of `t` needs: the queue is free and every ticket can be judged. */
  predicate Clear(s: State, a: State, p: nat, t: nat) {
    && a.procs.Keys == s.procs.Keys && a.queue.None? && NoTornTicket(a) && Guarded(a, p, t)
  }

  /** A process that is writing its lease finishes. */
  lemma FinishWriting(s: State, p: nat, t: nat, r: nat) returns (a: State)
    requires Inv(s) && TornInv(s) && (forall w :: !Stuck(s, w)) && Guarded(s, p, t)
    requires r in s.procs && s.queue == Some(r) && s.procs[r].pc.Writing?
    ensures Reaches(s, a) && Clear(s, a, p, t)
  {
    var id := s.procs[r].pc.t;
    assert r != p && Distinct(s, p, r);
    a := Move(s.(leases := s.leases[id := Lease(false, s.now)], queue := None), r, Waiting(id));
    forall v | v in a.tickets
      ensures !TornLease(a, v)
    {
      if TornLease(s, v) {
        OnlyRepaired(s, r, v);
      }
    }
    ReachesSelf(s);
    assert Takes(s, a, r, ByAcquire(SFinishTicket));
    ReachesNext(s, s, a, r, ByAcquire(SFinishTicket));
  }

  /** A process whose lease could not be created removes its ticket and lets go of the
      queue. */
  lemma FailPath(s: State, r: nat, v: nat) returns (a: State)
    requires r in s.procs && s.procs[r].pc.Closing? && s.procs[r].pc.t == v
    requires s.procs[r].pc.ops == FailOps() || s.procs[r].pc.ops == [RemoveTicket, UnlockQueue]
    ensures Reaches(s, a) && r in a.procs
    ensures a == s.(queue := None, locks := a.locks, tickets := s.tickets - {v}, procs := s.procs[r := a.procs[r]])
  {
    if s.procs[r].pc.ops == FailOps() {
      var b := Move(s.(locks := s.locks - {v}), r, Closing(v, [RemoveTicket, UnlockQueue], s.procs[r].pc.again));
      assert FailOps()[1..] == [RemoveTicket, UnlockQueue];
      ReachesSelf(s);
      assert Takes(s, b, r, ByClose(SCloseLocks));
      ReachesNext(s, s, b, r, ByClose(SCloseLocks));
      a := RemovePath(b, r, v);
      ReachesTwice(s, b, a);
    } else {
      a := RemovePath(s, r, v);
    }
  }

  lemma RemovePath(s: State, r: nat, v: nat) returns (a: State)
    requires r in s.procs && s.procs[r].pc.Closing? && s.procs[r].pc.t == v
    requires s.procs[r].pc.ops == [RemoveTicket, UnlockQueue]
    ensures Reaches(s, a) && r in a.procs
    ensures a == s.(queue := None, tickets := s.tickets - {v}, procs := s.procs[r := a.procs[r]])
  {
    var again := s.procs[r].pc.again;
    assert [RemoveTicket, UnlockQueue][1..] == [UnlockQueue] && [UnlockQueue][1..] == [];
    ReachesSelf(s);
    var c := Move(s.(tickets := s.tickets - {v}), r, Closing(v, [UnlockQueue], again));
    assert Takes(s, c, r, ByClose(SCloseTicket));
    ReachesNext(s, s, c, r, ByClose(SCloseTicket));
    a := Move(c.(queue := None), r, Closing(v, [], again));
    assert Takes(c, a, r, ByClose(SCloseLocks));
    ReachesNext(s, c, a, r, ByClose(SCloseLocks));
  }

  lemma FinishFailing(s: State, p: nat, t: nat, r: nat, v: nat) returns (a: State)
    requires Inv(s) && TornInv(s) && (forall w :: !Stuck(s, w)) && Guarded(s, p, t)
    requires r in s.procs && s.queue == Some(r) && s.procs[r].pc.Closing? && v in s.tickets && TornLease(s, v)
    ensures Reaches(s, a) && Clear(s, a, p, t)
  {
    assert Repairs(s.procs[r].pc, v) by {
      OnlyRepaired(s, r, v);
    }
    RepairerHasQueue(s, r, v);
    a := FailPath(s, r, v);
    assert r != p;
    forall w | w in a.tickets
      ensures !TornLease(a, w)
    {
      if TornLease(s, w) {
        OnlyRepaired(s, r, w);
      }
    }
  }

  /** Anybody else who has the queue may die. */
  lemma LoseQueue(s: State, p: nat, t: nat, r: nat) returns (a: State)
    requires Inv(s) && Guarded(s, p, t) && NoTornTicket(s) && r in s.procs && s.queue == Some(r)
    ensures Reaches(s, a) && Clear(s, a, p, t)
  {
    assert ProcInv(s, p);
    assert r != p;
    a := s.(queue := Free(s.queue, r), slot := Free(s.slot, r), locks := Unlock(s.locks, r),
            procs := s.procs[r := Proc(Out, NoBeat)]);
    assert forall v :: TornLease(a, v) == TornLease(s, v);
    ReachesSelf(s);
    assert Takes(s, a, r, ByOther(SCrash));
    ReachesNext(s, s, a, r, ByOther(SCrash));
  }

  lemma FreeQueue(s: State, p: nat, t: nat) returns (a: State)
    requires Inv(s) && TornInv(s) && (forall w :: !Stuck(s, w)) && Guarded(s, p, t)
    ensures Reaches(s, a) && Clear(s, a, p, t)
  {
    if s.queue.None? {
      a := s;
      ReachesSelf(s);
      forall v | v in s.tickets
        ensures !TornLease(s, v)
      {
        if TornLease(s, v) {
          assert !Stuck(s, v);
          var q :| q in s.procs && Repairs(s.procs[q].pc, v);
          RepairerHasQueue(s, q, v);
          assert false;
        }
      }
    } else {
      var r := s.queue.value;
      if NoTornTicket(s) {
        a := LoseQueue(s, p, t, r);
      } else {
        var v :| v in s.tickets && TornLease(s, v);
        OnlyRepaired(s, r, v);
        if s.procs[r].pc.Writing? {
          a := FinishWriting(s, p, t, r);
        } else {
          a := FinishFailing(s, p, t, r, v);
        }
      }
    }
  }

  /** Another process dies and starts over. */
  lemma Restart(s: State, p: nat, t: nat, q: nat) returns (a: State)
    requires Clear(s, s, p, t) && q in s.procs && q != p
    ensures Reaches(s, a) && Clear(s, a, p, t) && a.procs[q] == Proc(Out, NoBeat)
  {
    a := s.(queue := Free(s.queue, q), slot := Free(s.slot, q), locks := Unlock(s.locks, q),
            procs := s.procs[q := Proc(Out, NoBeat)]);
    assert forall v :: TornLease(a, v) == TornLease(s, v);
    ReachesSelf(s);
    assert Takes(s, a, q, ByOther(SCrash));
    ReachesNext(s, s, a, q, ByOther(SCrash));
  }

  /** The ticket of an abandoned guard, unlocked while the heartbeat is about to write. */
  predicate Exposed(s: State, p: nat, t: nat) {
    && p in s.procs && s.procs[p].beat == Beat(t, true)
    && t in s.tickets && t !in s.locks && t in s.leases && s.leases[t].Lease?
  }

  lemma Expose(s: State, p: nat, t: nat, q: nat) returns (a: State)
    requires Clear(s, s, p, t) && q in s.procs && q != p && s.procs[q] == Proc(Out, NoBeat)
    ensures Reaches(s, a) && Exposed(a, p, t)
    ensures q in a.procs && a.procs[q] == Proc(Out, NoBeat) && a.queue.None? && NoTornTicket(a)
  {
    ReachesSelf(s);
    var b := s;
    if !s.procs[p].beat.read {
      b := SetBeat(s, p, Beat(t, true));
      assert Takes(s, b, p, ByOther(SBeatRead));
      ReachesNext(s, s, b, p, ByOther(SBeatRead));
    }
    var states, labels := AbandonPath(b, p);
    a := states[3];
    assert IsPath(states, labels, b, a);
    ReachesTwice(s, b, a);
    assert forall v :: TornLease(a, v) == TornLease(s, v);
  }

  /** Time passes and the other process starts a scan. */
  lemma StartScan(s: State, p: nat, t: nat, q: nat) returns (a: State)
    requires Exposed(s, p, t) && q in s.procs && q != p && s.procs[q] == Proc(Out, NoBeat)
    requires s.queue.None? && NoTornTicket(s)
    ensures Reaches(s, a) && Exposed(a, p, t) && NoTornTicket(a) && Expired(a.leases[t], a.now)
    ensures q in a.procs && a.procs[q].pc == Scan(None, a.tickets, {}, {})
  {
    var now := s.leases[t].heartbeat + LEASE_SECONDS;
    var b := s.(now := now);
    ReachesSelf(s);
    assert Takes(s, b, q, Tick(now));
    ReachesNext(s, s, b, q, Tick(now));
    a := Move(b.(queue := Some(q)), q, Scan(None, b.tickets, {}, {}));
    assert Takes(b, a, q, ByAcquire(SBeginScan));
    ReachesNext(s, b, a, q, ByAcquire(SBeginScan));
    assert forall v :: TornLease(a, v) == TornLease(s, v);
  }

  /** The scan goes through the directory. */
  lemma {:induction false} ScanAll(s: State, t: nat, q: nat) returns (a: State)
    requires q in s.procs && s.procs[q].pc.Scan? && s.procs[q].pc.own.None? && NoTornTicket(s)
    requires t in s.procs[q].pc.stale ||
             (t in s.procs[q].pc.todo && t in s.tickets && t !in s.locks && t in s.leases && Expired(s.leases[t], s.now))
    ensures Reaches(s, a) && q in a.procs && a == Move(s.(staging := {}), q, a.procs[q].pc)
    ensures var pc := a.procs[q].pc; pc.Scan? && pc.own.None? && pc.todo == {} && t in pc.stale
    decreases |s.staging| + |s.procs[q].pc.todo|
  {
    var pc := s.procs[q].pc;
    ReachesSelf(s);
    if s.staging != {} {
      var u :| u in s.staging;
      var b := s.(staging := s.staging - {u});
      assert Takes(s, b, q, ByAcquire(SScanStaging(u)));
      ReachesNext(s, s, b, q, ByAcquire(SScanStaging(u)));
      assert NoTornTicket(b) by {
        assert forall v :: TornLease(b, v) == TornLease(s, v);
      }
      a := ScanAll(b, t, q);
      ReachesTwice(s, b, a);
    } else if pc.todo != {} {
      var u :| u in pc.todo;
      var b := ScanOne(s, t, q, u);
      a := ScanAll(b, t, q);
      ReachesTwice(s, b, a);
    } else {
      a := s;
      assert s.procs[q := s.procs[q]] == s.procs;
    }
  }

  lemma ScanOne(s: State, t: nat, q: nat, u: nat) returns (b: State)
    requires q in s.procs && s.procs[q].pc.Scan? && s.procs[q].pc.own.None? && NoTornTicket(s) && u in s.procs[q].pc.todo
    requires t in s.procs[q].pc.stale ||
             (t in s.procs[q].pc.todo && t in s.tickets && t !in s.locks && t in s.leases && Expired(s.leases[t], s.now))
    ensures Reaches(s, b) && q in b.procs && b == Move(s, q, b.procs[q].pc) && NoTornTicket(b)
    ensures var pc := b.procs[q].pc; pc.Scan? && pc.own.None? && pc.todo == s.procs[q].pc.todo - {u}
    ensures t in b.procs[q].pc.stale || (t in b.procs[q].pc.todo && t in s.tickets && t !in s.locks && t in s.leases
                                         && Expired(s.leases[t], s.now))
  {
    var pc := s.procs[q].pc;
    var todo := pc.todo - {u};
    if u !in s.tickets {
      b := Move(s, q, Scan(None, todo, pc.live, pc.stale));
    } else if Judge(None, s.locks.Keys, s.leases, s.now, u) == Live {
      b := Move(s, q, Scan(None, todo, pc.live + {u}, pc.stale));
    } else {
      b := Move(s, q, Scan(None, todo, pc.live, pc.stale + {u}));
    }
    assert !(u in s.tickets && TornLease(s, u));
    ReachesSelf(s);
    assert Takes(s, b, q, ByAcquire(SScanTicket(u)));
    ReachesNext(s, s, b, q, ByAcquire(SScanTicket(u)));
    assert forall v :: TornLease(b, v) == TornLease(s, v);
  }

  /** The stale ticket goes, and its lease. */
  lemma ReclaimOne(s: State, t: nat, q: nat) returns (a: State)
    requires q in s.procs && s.staging == {} && t in s.tickets
    requires var pc := s.procs[q].pc; pc.Scan? && pc.own.None? && pc.todo == {} && t in pc.stale
    ensures Reaches(s, a) && t !in a.leases
    ensures forall p :: p in s.procs && p != q ==> p in a.procs && a.procs[p] == s.procs[p]
  {
    var pc := s.procs[q].pc;
    ReachesSelf(s);
    var b := Move(s, q, Reclaim(None, pc.live, pc.stale, None));
    assert Takes(s, b, q, ByAcquire(SEndScan));
    ReachesNext(s, s, b, q, ByAcquire(SEndScan));
    var c := Move(b.(tickets := b.tickets - {t}), q, Reclaim(None, pc.live, pc.stale - {t}, Some(t)));
    assert Takes(b, c, q, ByAcquire(SReclaimTicket(t)));
    ReachesNext(s, b, c, q, ByAcquire(SReclaimTicket(t)));
    a := Move(c.(leases := c.leases - {t}), q, Reclaim(None, pc.live, pc.stale - {t}, None));
    assert Takes(c, a, q, ByAcquire(SReclaimLease));
    ReachesNext(s, c, a, q, ByAcquire(SReclaimLease));
  }

  /** From `s`, process `p` can come to write the lease of `t` where there is none. */
  ghost predicate CanRecreate(s: State, p: nat, t: nat) {
    exists a, b :: Reaches(s, a) && Recreates(a, b, p, t)
  }

  predicate Recreates(a: State, b: State, p: nat, t: nat) {
    p in a.procs && BeatWrite(a, b, p) && t !in a.leases && t in b.leases
  }

  lemma RecreationIsPossible(s: State, p: nat, t: nat, q: nat)
    requires Inv(s) && TornInv(s) && (forall w :: !Stuck(s, w)) && Guarded(s, p, t) && q in s.procs && q != p
    ensures CanRecreate(s, p, t)
  {
    var a := FreeQueue(s, p, t);
    var b := Restart(a, p, t, q);
    ReachesTwice(s, a, b);
    var c := Expose(b, p, t, q);
    ReachesTwice(s, b, c);
    var d := StartScan(c, p, t, q);
    ReachesTwice(s, c, d);
    var e := ScanAll(d, t, q);
    ReachesTwice(s, d, e);
    var f := ReclaimOne(e, t, q);
    ReachesTwice(s, e, f);
    var g := SetBeat(f.(leases := f.leases[t := Lease(true, f.now)]), p, Beat(t, false));
    assert Recreates(f, g, p, t);
  }

  // ---------------------------------------------------------------------------
  // The exact condition
  // ---------------------------------------------------------------------------

  /** In a state of a run, a guard can come to recreate its removed lease if and only if its
      heartbeat is alive, there is another process and no ticket is stuck. */
  lemma RecreationIsPossibleExactly(before: seq<State>, steps: seq<Label>, p: nat)
    requires Run(before, steps) && p in before[|steps|].procs && before[|steps|].procs[p].pc.Holding?
    ensures var s := before[|steps|];
      CanRecreate(s, p, s.procs[p].pc.t) <==>
        s.procs[p].beat.Beat? && s.procs.Keys != {p} && forall v :: !Stuck(s, v)
  {
    var s := before[|steps|];
    var t := s.procs[p].pc.t;
    RunKeepsTorn(before, steps, |steps|);
    assert ProcInv(s, p);
    if s.procs[p].beat.Beat? && s.procs.Keys != {p} && forall v :: !Stuck(s, v) {
      assert s.procs.Keys == {p} + (s.procs.Keys - {p});
      var q :| q in s.procs.Keys - {p};
      RecreationIsPossible(s, p, t, q);
    } else {
      forall a, b | Reaches(s, a)
        ensures !Recreates(a, b, p, t)
      {
        NoRecreation(before, steps, p, a, b);
      }
    }
  }

  lemma NoRecreation(before: seq<State>, steps: seq<Label>, p: nat, a: State, b: State)
    requires Run(before, steps) && p in before[|steps|].procs && before[|steps|].procs[p].pc.Holding?
    requires BeatHasLease(before[|steps|], p) && before[|steps|].procs[p].pc.t < before[|steps|].counter
    requires var s := before[|steps|]; s.procs[p].beat.NoBeat? || s.procs.Keys == {p} || exists v :: Stuck(s, v)
    requires Reaches(before[|steps|], a)
    ensures !Recreates(a, b, p, before[|steps|].procs[p].pc.t)
  {
    var s := before[|steps|];
    var states, labels :| IsPath(states, labels, s, a);
    JoinPaths(before, steps, states, labels);
    var all, done := before + states[1..], steps + labels;
    assert Run(all, done) && all[|steps|] == s && all[|done|] == a;
    if s.procs[p].beat.NoBeat? {
      BeatlessAlong(all, done, |steps|, |done|, p, s.procs[p].pc.t);
    } else if v :| Stuck(s, v) {
      StuckAlong(all, done, |steps|, |done|, p, v);
    } else {
      LonelyAlong(all, done, |steps|, |done|, p);
    }
  }

  /** Both sides of the condition occur: a second process that dies while it writes its lease
      leaves a stuck ticket beside the guard. */
  lemma GuardBesideStuckTicket(now: nat) returns (states: seq<State>, labels: seq<Label>)
    ensures Run(states, labels)
    ensures var s := states[|labels|]; 0 in s.procs && s.procs[0] == Proc(Holding(1), Beat(1, true)) && Stuck(s, 2)
  {
    var before, steps := GuardRun(now);
    var s := GuardState(now);
    var t := IssueSecond(s, now);
    var u := DieWriting(t, now);
    ReachesTwice(s, t, u);
    var path, done :| IsPath(path, done, s, u);
    JoinPaths(before, steps, path, done);
    states, labels := before + path[1..], steps + done;
  }

  /** The second process scans the directory and is issued id 2. */
  lemma IssueSecond(s: State, now: nat) returns (t: State)
    requires s == GuardState(now)
    ensures Reaches(s, t) && t == Move(s.(queue := Some(1), counter := 3, issued := [1, 2]), 1, Stage(2))
  {
    ReachesSelf(s);
    var a := Move(s.(queue := Some(1)), 1, Scan(None, {1}, {}, {}));
    assert Takes(s, a, 1, ByAcquire(SBeginScan));
    ReachesNext(s, s, a, 1, ByAcquire(SBeginScan));
    var b := Move(a, 1, Scan(None, {}, {1}, {}));
    assert {1} - {1} == {} && {} + {1} == {1};
    assert Takes(a, b, 1, ByAcquire(SScanTicket(1)));
    ReachesNext(s, a, b, 1, ByAcquire(SScanTicket(1)));
    var c := Move(b, 1, Reclaim(None, {1}, {}, None));
    assert Takes(b, c, 1, ByAcquire(SEndScan));
    ReachesNext(s, b, c, 1, ByAcquire(SEndScan));
    var d := Move(c, 1, Issue);
    assert Takes(c, d, 1, ByAcquire(SAdmit));
    ReachesNext(s, c, d, 1, ByAcquire(SAdmit));
    t := Move(d.(counter := 3, issued := [1, 2]), 1, Stage(2));
    assert [1] + [2] == [1, 2];
    assert Takes(d, t, 1, ByAcquire(SIssueId(2)));
    ReachesNext(s, d, t, 1, ByAcquire(SIssueId(2)));
  }

  /** It creates its ticket and dies while it writes the lease. */
  lemma DieWriting(s: State, now: nat) returns (t: State)
    requires s == Move(GuardState(now).(queue := Some(1), counter := 3, issued := [1, 2]), 1, Stage(2))
    ensures Reaches(s, t) && 0 in t.procs && t.procs[0] == s.procs[0] && Stuck(t, 2)
  {
    var path, done := NamePath(s, 1, 2);
    var c := path[3];
    assert IsPath(path, done, s, c);
    t := DieNamed(c, 1, 2);
    ReachesTwice(s, c, t);
    assert t.procs == map[0 := s.procs[0], 1 := Proc(Out, NoBeat)];
  }

  lemma DieNamed(c: State, p: nat, v: nat) returns (t: State)
    requires p in c.procs && c.procs[p].pc == Named(v) && v !in c.leases && v in c.tickets
    ensures Reaches(c, t) && t.tickets == c.tickets && TornLease(t, v) && t.procs == c.procs[p := Proc(Out, NoBeat)]
  {
    var d := Move(c.(leases := c.leases[v := Lease.Torn]), p, Writing(v));
    ReachesSelf(c);
    assert Takes(c, d, p, ByAcquire(SCreateLease));
    ReachesNext(c, c, d, p, ByAcquire(SCreateLease));
    t := d.(queue := Free(d.queue, p), slot := Free(d.slot, p), locks := Unlock(d.locks, p),
            procs := d.procs[p := Proc(Out, NoBeat)]);
    assert Takes(d, t, p, ByOther(SCrash));
    ReachesNext(c, d, t, p, ByOther(SCrash));
  }
}
