/**
 What a release, a cleanup or a dropped reservation leaves behind
 (src/admission.rs:2023-2168): if no removal fails, nothing; and each of them, and a
 reconciliation, can be carried out by the steps of its process alone.
 */
module AdmissionRelease {
  import opened Common
  import opened AdmissionProtocol
  import opened AdmissionSafety
  import opened AdmissionTheorems
  import opened AdmissionLeases
  import opened AdmissionRecreation

  /** `release_inner`, `cleanup`, and the drop of a reservation. */
  predicate IsFullClosing(ops: seq<Op>) {
    ops == ReleaseOps() || ops == CleanupOps() || ops == DropOps()
  }

  /** What the operations done so far have removed. */
  predicate Removed(s: State, t: nat, ops: seq<Op>) {
    && (RemoveLease !in ops ==> t !in s.leases)
    && (RemoveTicket !in ops ==> t !in s.tickets)
    && (StopBeat in ops ==> RemoveLease in ops)
  }

  /** Process `p` is closing ticket `t` or has closed it. */
  predicate ClosedSoFar(s: State, p: nat, t: nat) {
    && p in s.procs && t < s.counter
    && (Mine(s.procs[p].pc) == Some(t) ==>
          || (s.procs[p].pc.Closing? && Removed(s, t, s.procs[p].pc.ops))
          || (s.procs[p].pc.Released? && t !in s.leases && t !in s.tickets))
  }

  /** A removal by `p` at step `n` took its file away. */
  predicate RemovalWorks(states: seq<State>, labels: seq<Label>, n: nat, p: nat, t: nat)
    requires n + 1 < |states| && n < |labels|
  {
    && (labels[n] == Label(p, ByClose(SCloseLease)) ==> t !in states[n + 1].leases)
    && (labels[n] == Label(p, ByClose(SCloseTicket)) ==> t !in states[n + 1].tickets)
  }

  /** One operation is done. */
  lemma OpRemoves(s: State, x: State, p: nat, k: CloseStep)
    requires p in s.procs && s.procs[p].pc.Closing? && WellOrdered(s.procs[p].pc.ops)
    requires Removed(s, s.procs[p].pc.t, s.procs[p].pc.ops) && TakesClose(s, x, p, k)
    requires k.SCloseBeat? || k.SCloseLease? || k.SCloseTicket? || k.SCloseLocks?
    requires k.SCloseLease? ==> s.procs[p].pc.t !in x.leases
    requires k.SCloseTicket? ==> s.procs[p].pc.t !in x.tickets
    ensures p in x.procs && x.procs[p].pc == Rest(s.procs[p].pc)
    ensures Removed(x, s.procs[p].pc.t, x.procs[p].pc.ops)
  {
    var ops := s.procs[p].pc.ops;
    OpMovesOn(s, x, p, k);
    assert forall op :: op in ops <==> op == ops[0] || op in ops[1..];
    assert x.leases.Keys <= s.leases.Keys && x.tickets <= s.tickets;
  }

  lemma CloseStepRemoves(s: State, x: State, p: nat, t: nat, k: CloseStep)
    requires ClosedSoFar(s, p, t) && Local(s, s.procs[p].pc) && TakesClose(s, x, p, k)
    requires k.SCloseLease? ==> t !in x.leases
    requires k.SCloseTicket? ==> t !in x.tickets
    ensures ClosedSoFar(x, p, t)
  {
    if Mine(s.procs[p].pc) == Some(t) && s.procs[p].pc.Closing? && s.procs[p].pc.ops != [] {
      OpRemoves(s, x, p, k);
    }
  }

  lemma OtherStepRemoves(s: State, x: State, p: nat, t: nat, k: OtherStep)
    requires ClosedSoFar(s, p, t) && BeatInv(s, s.procs[p]) && TakesOther(s, x, p, k)
    ensures ClosedSoFar(x, p, t)
  {
  }

  lemma AcquireStepRemoves(s: State, x: State, p: nat, t: nat, k: AcquireStep)
    requires ClosedSoFar(s, p, t) && TakesAcquire(s, x, p, k) && p in x.procs && KeepsMine(s, x, p)
    requires s.counter <= x.counter
    ensures ClosedSoFar(x, p, t)
  {
    AcquireStaysAfterGrant(s, x, p, k);
  }

  lemma OwnStepRemoves(s: State, x: State, p: nat, t: nat, k: Step)
    requires Inv(s) && ClosedSoFar(s, p, t) && Takes(s, x, p, k)
    requires k == ByClose(SCloseLease) ==> t !in x.leases
    requires k == ByClose(SCloseTicket) ==> t !in x.tickets
    ensures ClosedSoFar(x, p, t)
  {
    assert Local(s, s.procs[p].pc) && BeatInv(s, s.procs[p]) by {
      assert ProcInv(s, p);
    }
    match k
    case ByAcquire(a) =>
      assert p in x.procs && KeepsMine(s, x, p) && s.counter <= x.counter by {
        StepIsGood(s, x, p, k);
      }
      AcquireStepRemoves(s, x, p, t, a);
    case ByClose(c) => CloseStepRemoves(s, x, p, t, c);
    case ByOther(o) => OtherStepRemoves(s, x, p, t, o);
    case Tick(_) =>
  }

  /** Nobody else brings a file of the ticket back. */
  lemma OthersStepRemoves(s: State, x: State, q: nat, p: nat, t: nat, k: Step)
    requires Inv(s) && ClosedSoFar(s, p, t) && Takes(s, x, q, k) && q != p
    ensures ClosedSoFar(x, p, t)
  {
    if !k.Tick? {
      assert Respects(s, x, q) by {
        StepIsGood(s, x, q, k);
      }
      assert Distinct(s, p, q);
    }
  }

  lemma {:induction false} ClosedAlong(states: seq<State>, labels: seq<Label>, m: nat, n: nat, p: nat, t: nat)
    requires Run(states, labels) && m <= n < |states| && ClosedSoFar(states[m], p, t)
    requires forall i :: m <= i < n ==> RemovalWorks(states, labels, i, p, t)
    ensures ClosedSoFar(states[n], p, t)
    decreases n
  {
    if m < n {
      ClosedAlong(states, labels, m, n - 1, p, t);
      assert StepAt(states, labels, n - 1) && RemovalWorks(states, labels, n - 1, p, t);
      RunKeepsInv(states, labels, n - 1);
      if labels[n - 1].p == p {
        OwnStepRemoves(states[n - 1], states[n], p, t, labels[n - 1].k);
      } else {
        OthersStepRemoves(states[n - 1], states[n], labels[n - 1].p, p, t, labels[n - 1].k);
      }
    }
  }

  lemma FullClosingRemovesAll(ops: seq<Op>)
    requires IsFullClosing(ops)
    ensures RemoveLease in ops && RemoveTicket in ops
  {
    assert ReleaseOps()[1] == RemoveLease && ReleaseOps()[4] == RemoveTicket;
    assert CleanupOps()[1] == RemoveLease && CleanupOps()[2] == RemoveTicket;
    assert DropOps()[2] == RemoveLease && DropOps()[1] == RemoveTicket;
  }

  lemma ClosingBegins(s: State, p: nat, t: nat)
    requires Inv(s) && p in s.procs
    requires s.procs[p].pc.Closing? && s.procs[p].pc.t == t && IsFullClosing(s.procs[p].pc.ops)
    ensures ClosedSoFar(s, p, t)
  {
    assert ProcInv(s, p);
    FullClosingRemovesAll(s.procs[p].pc.ops);
  }

  predicate IsClosed(pc: PC, t: nat) {
    pc == Released(t) || (pc.Closing? && pc.t == t && pc.ops == [])
  }

  lemma ClosedHoldsNothing(s: State, p: nat, t: nat)
    requires Inv(s) && p in s.procs && IsClosed(s.procs[p].pc, t)
    ensures s.procs[p].beat.NoBeat? && s.queue != Some(p) && s.slot != Some(p)
    ensures forall u :: u in s.locks ==> s.locks[u] != p
  {
    assert ProcInv(s, p);
    assert forall u :: u in s.locks ==> u !in Owned(s.locks, p);
  }

  /** In every run, a release, a cleanup or a dropped reservation none of whose removals fails
      ends with the ticket, its lease, its heartbeat and all locks of the process gone. */
  lemma NothingLeft(states: seq<State>, labels: seq<Label>, m: nat, n: nat, p: nat, t: nat)
    requires Run(states, labels) && m <= n < |states| && p in states[m].procs
    requires states[m].procs[p].pc.Closing? && states[m].procs[p].pc.t == t && IsFullClosing(states[m].procs[p].pc.ops)
    requires forall i :: m <= i < n ==> RemovalWorks(states, labels, i, p, t)
    requires p in states[n].procs && IsClosed(states[n].procs[p].pc, t)
    ensures t !in states[n].tickets && t !in states[n].leases && states[n].procs[p].beat.NoBeat?
    ensures states[n].queue != Some(p) && states[n].slot != Some(p)
    ensures forall u :: u in states[n].locks ==> states[n].locks[u] != p
  {
    assert ClosedSoFar(states[m], p, t) by {
      RunKeepsInv(states, labels, m);
      ClosingBegins(states[m], p, t);
    }
    ClosedAlong(states, labels, m, n, p, t);
    RunKeepsInv(states, labels, n);
    ClosedHoldsNothing(states[n], p, t);
  }

  // ---------------------------------------------------------------------------
  // Each can be carried out
  // ---------------------------------------------------------------------------

  predicate IsOwnLabel(l: Label, p: nat) {
    l.p == p && !l.k.Tick? && l.k != ByOther(SCrash)
  }

  ghost predicate IsLonePath(states: seq<State>, labels: seq<Label>, s: State, t: State, p: nat) {
    IsPath(states, labels, s, t) && forall i :: 0 <= i < |labels| ==> IsOwnLabel(labels[i], p)
  }

  /** Process `p` alone, without a crash and in no time, gets from `s` to `t`. */
  ghost predicate Manages(s: State, t: State, p: nat) {
    exists states, labels :: IsLonePath(states, labels, s, t, p)
  }

  lemma ManagesSelf(s: State, p: nat)
    ensures Manages(s, s, p)
  {
    assert IsLonePath([s], [], s, s, p);
  }

  lemma ManagesNext(s: State, t: State, u: State, p: nat, k: Step)
    requires Manages(s, t, p) && Takes(t, u, p, k) && !k.Tick? && k != ByOther(SCrash)
    ensures Manages(s, u, p)
  {
    var states, labels :| IsLonePath(states, labels, s, t, p);
    var step := [Label(p, k)];
    assert StepAt([t, u], step, 0);
    JoinPaths(states, labels, [t, u], step);
    assert [t, u][1..] == [u];
    assert IsLonePath(states + [u], labels + step, s, u, p);
  }

  lemma ManagesTwice(s: State, t: State, u: State, p: nat)
    requires Manages(s, t, p) && Manages(t, u, p)
    ensures Manages(s, u, p)
  {
    var a, x :| IsLonePath(a, x, s, t, p);
    var b, y :| IsLonePath(b, y, t, u, p);
    JoinPaths(a, x, b, y);
    assert IsLonePath(a + b[1..], x + y, s, u, p);
  }

  /** The state without the files and the lock of ticket `t`. */
  function Without(s: State, t: nat): State {
    s.(tickets := s.tickets - {t}, leases := s.leases - {t}, locks := s.locks - {t})
  }

  /** A heartbeat in progress ends, the release begins and stops it. */
  lemma ReleaseBegins(s: State, p: nat, t: nat) returns (a: State)
    requires p in s.procs && s.procs[p].pc == Holding(t) && s.queue.None?
    requires s.procs[p].beat.Beat? ==> s.procs[p].beat.t == t
    ensures Manages(s, a, p) && a.leases - {t} == s.leases - {t}
    ensures a == s.(queue := Some(p), leases := a.leases,
                    procs := s.procs[p := Proc(Closing(t, ReleaseOps()[1..], true), NoBeat)])
  {
    ManagesSelf(s, p);
    var b := s;
    if s.procs[p].beat.Beat? && s.procs[p].beat.read {
      b := SetBeat(s.(leases := s.leases[t := Lease(true, s.now)]), p, Beat(t, false));
      assert Takes(s, b, p, ByOther(SBeatWrite));
      ManagesNext(s, s, b, p, ByOther(SBeatWrite));
    }
    var c := Move(b.(queue := Some(p)), p, Closing(t, ReleaseOps(), true));
    assert Takes(b, c, p, ByClose(SBeginRelease));
    ManagesNext(s, b, c, p, ByClose(SBeginRelease));
    a := c.(procs := c.procs[p := Proc(Closing(t, ReleaseOps()[1..], true), NoBeat)]);
    assert Takes(c, a, p, ByClose(SCloseBeat));
    ManagesNext(s, c, a, p, ByClose(SCloseBeat));
    assert a.leases - {t} == s.leases - {t};
    assert a.procs == s.procs[p := Proc(Closing(t, ReleaseOps()[1..], true), NoBeat)];
  }

  /** One operation of a closing procedure. */
  function AfterOp(s: State, op: Op, t: nat): State {
    match op
    case StopBeat => s
    case RemoveLease => s.(leases := s.leases - {t})
    case RemoveTicket => s.(tickets := s.tickets - {t})
    case UnlockSlot => s.(slot := None)
    case UnlockTicket => s.(locks := s.locks - {t})
    case UnlockQueue => s.(queue := None)
  }

  function AfterOps(s: State, ops: seq<Op>, t: nat): (a: State)
    ensures a.procs == s.procs
    decreases |ops|
  {
    if ops == [] then s else AfterOps(AfterOp(s, ops[0], t), ops[1..], t)
  }

  lemma OpIsManaged(s: State, p: nat) returns (a: State)
    requires p in s.procs && s.procs[p].beat.NoBeat? && s.procs[p].pc.Closing? && s.procs[p].pc.ops != []
    ensures Manages(s, a, p)
    ensures var pc := s.procs[p].pc; a == Move(AfterOp(s, pc.ops[0], pc.t), p, Rest(pc))
  {
    var pc := s.procs[p].pc;
    a := Move(AfterOp(s, pc.ops[0], pc.t), p, Rest(pc));
    var k := match pc.ops[0]
      case StopBeat => SCloseBeat
      case RemoveLease => SCloseLease
      case RemoveTicket => SCloseTicket
      case _ => SCloseLocks;
    assert Takes(s, a, p, ByClose(k));
    ManagesSelf(s, p);
    ManagesNext(s, s, a, p, ByClose(k));
  }

  lemma {:induction false} OpsAreManaged(s: State, p: nat) returns (a: State)
    requires p in s.procs && s.procs[p].beat.NoBeat? && s.procs[p].pc.Closing?
    ensures Manages(s, a, p)
    ensures var pc := s.procs[p].pc;
      a == Move(AfterOps(s, pc.ops, pc.t), p, if pc.again then Released(pc.t) else Out)
    decreases |s.procs[p].pc.ops|
  {
    var pc := s.procs[p].pc;
    if pc.ops == [] {
      a := Move(s, p, if pc.again then Released(pc.t) else Out);
      assert Takes(s, a, p, ByClose(SEndClosing));
      ManagesSelf(s, p);
      ManagesNext(s, s, a, p, ByClose(SEndClosing));
    } else {
      var b := OpIsManaged(s, p);
      a := OpsAreManaged(b, p);
      ManagesTwice(s, b, a, p);
      ProcsAside(AfterOp(s, pc.ops[0], pc.t), pc.ops[1..], pc.t, b.procs);
    }
  }

  lemma {:induction false} ProcsAside(s: State, ops: seq<Op>, t: nat, procs: map<nat, Proc>)
    ensures AfterOps(s.(procs := procs), ops, t) == AfterOps(s, ops, t).(procs := procs)
    decreases |ops|
  {
    if ops != [] {
      ProcsAside(AfterOp(s, ops[0], t), ops[1..], t, procs);
      assert AfterOp(s.(procs := procs), ops[0], t) == AfterOp(s, ops[0], t).(procs := procs);
    }
  }

  /** A guard whose release gets the queue lock ends with its ticket, lease and locks gone
      and everything else as it was. */
  lemma ReleaseIsPossible(s: State, p: nat, t: nat) returns (a: State)
    requires p in s.procs && s.procs[p].pc == Holding(t) && s.queue.None?
    requires s.procs[p].beat.Beat? ==> s.procs[p].beat.t == t
    ensures Manages(s, a, p)
    ensures a == Without(s, t).(slot := None, procs := s.procs[p := Proc(Released(t), NoBeat)])
  {
    var b := ReleaseBegins(s, p, t);
    a := OpsAreManaged(b, p);
    ManagesTwice(s, b, a, p);
    ReleaseLeaves(b, t);
    assert a.procs == s.procs[p := Proc(Released(t), NoBeat)];
  }

  lemma ReleaseLeaves(s: State, t: nat)
    ensures AfterOps(s, ReleaseOps()[1..], t) == Without(s, t).(slot := None, queue := None)
  {
    var s1 := AfterOp(s, RemoveLease, t);
    var s2 := AfterOp(s1, UnlockSlot, t);
    var s3 := AfterOp(s2, UnlockTicket, t);
    var s4 := AfterOp(s3, RemoveTicket, t);
    assert ReleaseOps()[1..] == [RemoveLease, UnlockSlot, UnlockTicket, RemoveTicket, UnlockQueue];
    AfterFour(s, [RemoveLease, UnlockSlot, UnlockTicket, RemoveTicket, UnlockQueue], t);
    assert AfterOps(s4, [UnlockQueue], t) == AfterOp(s4, UnlockQueue, t);
  }

  lemma AfterFour(s: State, ops: seq<Op>, t: nat)
    requires |ops| >= 4
    ensures AfterOps(s, ops, t)
            == AfterOps(AfterOp(AfterOp(AfterOp(AfterOp(s, ops[0], t), ops[1], t), ops[2], t), ops[3], t), ops[4..], t)
  {
    var s1 := AfterOp(s, ops[0], t);
    var s2 := AfterOp(s1, ops[1], t);
    assert ops[1..][0] == ops[1] && ops[1..][1..] == ops[2..];
    assert ops[2..][0] == ops[2] && ops[2..][1..] == ops[3..];
    assert ops[3..][0] == ops[3] && ops[3..][1..] == ops[4..];
    assert AfterOps(s1, ops[1..], t) == AfterOps(s2, ops[2..], t);
  }

  lemma CleanupLeaves(s: State, t: nat)
    ensures AfterOps(s, CleanupOps(), t) == Without(s, t).(queue := None)
  {
    AfterFour(s, CleanupOps(), t);
    assert CleanupOps()[4..] == [];
  }

  lemma DropLeaves(s: State, t: nat)
    ensures AfterOps(s, DropOps(), t) == Without(s, t)
  {
    var s1 := AfterOp(s, UnlockTicket, t);
    assert DropOps()[1..] == [RemoveTicket, RemoveLease] && [RemoveTicket, RemoveLease][1..] == [RemoveLease];
    var s2 := AfterOp(s1, RemoveTicket, t);
    assert AfterOps(s2, [RemoveLease], t) == AfterOp(s2, RemoveLease, t);
    assert AfterOps(s1, [RemoveTicket, RemoveLease], t) == AfterOps(s2, [RemoveLease], t);
  }

  /** A reservation that is given up, cleaned up under the queue lock or dropped without it,
      ends with its ticket, lease and lock gone and everything else as it was. */
  lemma ReservationEnds(s: State, p: nat, t: nat, dropped: bool) returns (a: State)
    requires p in s.procs && s.procs[p].beat.NoBeat? && (s.procs[p].pc == Waiting(t) || s.procs[p].pc == Leaving(t))
    requires dropped || s.queue.None?
    ensures Manages(s, a, p)
    ensures a == Without(s, t).(procs := s.procs[p := Proc(Out, NoBeat)])
  {
    var b := ReservationClosing(s, p, t, dropped);
    a := OpsAreManaged(b, p);
    ManagesTwice(s, b, a, p);
    assert a.procs == s.procs[p := Proc(Out, NoBeat)];
  }

  lemma ReservationClosing(s: State, p: nat, t: nat, dropped: bool) returns (b: State)
    requires p in s.procs && s.procs[p].beat.NoBeat? && (s.procs[p].pc == Waiting(t) || s.procs[p].pc == Leaving(t))
    requires dropped || s.queue.None?
    ensures Manages(s, b, p)
    ensures var ops := if dropped then DropOps() else CleanupOps();
      && p in b.procs && b.procs == s.procs[p := Proc(Closing(t, ops, false), NoBeat)]
      && AfterOps(b, ops, t) == Without(s, t).(procs := b.procs)
  {
    ManagesSelf(s, p);
    if dropped {
      b := Move(s, p, Closing(t, DropOps(), false));
      assert Takes(s, b, p, ByClose(SDropReservation));
      ManagesNext(s, s, b, p, ByClose(SDropReservation));
      DropLeaves(b, t);
    } else {
      b := Move(s.(queue := Some(p)), p, Closing(t, CleanupOps(), false));
      assert Takes(s, b, p, ByClose(SBeginCleanup));
      ManagesNext(s, s, b, p, ByClose(SBeginCleanup));
      CleanupLeaves(b, t);
    }
  }

  /** Where its validation passes, a reconciliation takes one stale ticket with its lease out
      of the directories and leaves everything else as it was. */
  lemma ReconciliationIsPossible(s: State, p: nat, u: nat) returns (a: State)
    requires p in s.procs && s.procs[p] == Proc(Out, NoBeat) && s.queue.None? && s.slot.None?
    requires forall v :: v in s.locks ==> s.locks[v] != p
    requires forall v :: v in s.leases ==> v in s.tickets && Expired(s.leases[v], s.now)
    requires u in s.tickets && u !in s.locks
    ensures Manages(s, a, p) && a == Without(s, u)
  {
    ManagesSelf(s, p);
    var b := Move(s.(queue := Some(p), slot := Some(p)), p, Fix({}));
    assert Takes(s, b, p, ByOther(SFixBegin));
    ManagesNext(s, s, b, p, ByOther(SFixBegin));
    var c := Move(b.(locks := b.locks[u := p]), p, Fix({u}));
    assert {} + {u} == {u};
    assert Takes(b, c, p, ByOther(SFixPick(u)));
    ManagesNext(s, b, c, p, ByOther(SFixPick(u)));
    a := FixOne(c, p, u);
    ManagesTwice(s, c, a, p);
    assert Unlock(c.locks, p) == s.locks == s.locks - {u};
    assert a.procs == s.procs;
  }

  lemma FixOne(s: State, p: nat, u: nat) returns (a: State)
    requires p in s.procs && s.procs[p].pc == Fix({u})
    ensures Manages(s, a, p)
    ensures a == Move(s.(queue := None, slot := None, locks := Unlock(s.locks, p), tickets := s.tickets - {u},
                         leases := s.leases - {u}), p, Out)
  {
    ManagesSelf(s, p);
    var b := s.(leases := s.leases - {u});
    assert Takes(s, b, p, ByOther(SFixLease(u)));
    ManagesNext(s, s, b, p, ByOther(SFixLease(u)));
    var c := b.(tickets := b.tickets - {u});
    assert Takes(b, c, p, ByOther(SFixMove(u)));
    ManagesNext(s, b, c, p, ByOther(SFixMove(u)));
    a := Move(c.(queue := None, slot := None, locks := Unlock(c.locks, p)), p, Out);
    assert Takes(c, a, p, ByOther(SFixEnd));
    ManagesNext(s, c, a, p, ByOther(SFixEnd));
  }
}
