/** What each component operation establishes, one component at a time. */
module ComponentLemmas {
  import opened Wrappers
  import opened Finalization
  import opened Components
  import opened KernelInvariant
  import opened KernelMachine
  import L = Leases

  /** Staging touches nothing but the pending configuration, and reports a change exactly when
      the section's digest differs from the one being served. */
  lemma StageEffect(c: Comp, s: Snapshot, decodes: bool)
    requires CompOk(c)
    ensures var (c', r) := Stage(c, s, decodes);
            && CompOk(c')
            && c' == c.(pendingDigest := c'.pendingDigest, pendingConfig := c'.pendingConfig)
            && (r != StageFailed ==> NoOwners(c))
            && (r == Changed ==> PendingMatches(c', s) && c'.pendingDigest != c.digest)
            && (r == Unchanged ==> c' == c && (c.path == "" ==> c.digest != "") && Agrees(c, s))
            && (r != Changed ==> c' == c)
  {
  }

  lemma BuildEffect(c: Comp, s: Snapshot, builds: bool)
    requires CompOk(c) && PendingMatches(c, s) && NoOwners(c)
    ensures var (c', built) := Build(c, builds);
            && CompOk(c') && (!built ==> c' == c)
            && (built ==> BuiltFrom(c', s) && c'.candidate == Some(|c.slots|)
                          && c' == c.(candidate := c'.candidate, slots := c'.slots)
                          && |c'.slots| == |c.slots| + 1 && c'.slots[..|c.slots|] == c.slots)
  {
    var (c', built) := Build(c, builds);
    if built {
      forall g | 0 <= g < |c'.slots|
        ensures Owners(c', g) == 1 || (Owners(c', g) == 0 && c'.slots[g].state == Finalized)
      {
        if g < |c.slots| {
          assert c'.slots[g] == c.slots[g] && Owners(c', g) == Owners(c, g);
        }
      }
    }
  }

  lemma PublishEffect(c: Comp, s: Snapshot)
    requires CompOk(c) && FirstCandidate(c, s)
    ensures CanPublish(c)
    ensures CompOk(PublishInitial(c)) && Published(PublishInitial(c)) && Matches(PublishInitial(c), s)
  {
    var c' := PublishInitial(c);
    L.PublishInitialOk(c.lease, 0);
    forall g | 0 <= g < |c'.slots|
      ensures Owners(c', g) == 1 || (Owners(c', g) == 0 && c'.slots[g].state == Finalized)
    {
      assert Owners(c', g) == Owners(c, g);
    }
  }

  /** Same component up to the ownership state of slots and the lease. */
  predicate SameInstances(c: Comp, c': Comp) {
    && c' == c.(lease := c'.lease, slots := c'.slots)
    && |c'.slots| == |c.slots|
    && (forall g | 0 <= g < |c.slots| :: c'.slots[g].config == c.slots[g].config)
  }

  lemma BeginDrainEffect(c: Comp, terminal: bool)
    requires CompOk(c)
    ensures var (c', ready) := BeginDrain(c, terminal);
            && CompOk(c') && SameInstances(c, c') && c'.lease.current == c.lease.current
            && (forall g | 0 <= g < |c.slots| && c.lease.current != Some(g) :: c'.slots[g] == c.slots[g])
            && (c.lease.mode == L.Serving ==> c'.lease.terminal == terminal)
            && (c.lease.mode == L.Draining ==> c'.lease.terminal == (c.lease.terminal || terminal))
            && (ready.Some? <==> c.lease.mode != L.Pending)
            && (c.lease.mode in {L.Serving, L.Draining} ==>
                  c'.lease.mode == L.Draining && ready == c'.lease.drained)
  {
    L.BeginDrainOk(c.lease, terminal);
    var (c', ready) := BeginDrain(c, terminal);
    assert forall g | 0 <= g < |c.slots| :: Owners(c', g) == Owners(c, g);
  }

  /** Once the drain channel is closed no callback is running. */
  lemma ClosedMeansDrained(c: Comp, ready: nat)
    requires CompOk(c) && c.lease.drained == Some(ready) && c.lease.drains[ready]
    ensures c.lease.drainDone && c.lease.activeUses == 0
  {
  }

  lemma CommitEffect(c: Comp, s: Snapshot)
    requires CompOk(c) && c.lease.mode == L.Draining && c.lease.drainDone && !c.lease.terminal
    requires c.retired.None? && BuiltFrom(c, s)
    ensures CanCommit(c)
    ensures var c' := Commit(c);
            && CompOk(c') && Matches(c', s) && DrainedFor(c', false)
            && c'.candidate.None? && c'.retired == c.lease.current && Owed(c', c'.retired)
            && c'.stopping == c.stopping && c'.path == c.path && c'.digest == c.pendingDigest
            && c'.lease.current == c.candidate
  {
    var c' := Commit(c);
    L.ReplaceOk(c.lease, c.candidate.value);
    var old_, g0 := c.lease.current.value, c.candidate.value;
    forall g | 0 <= g < |c'.slots|
      ensures Owners(c', g) == 1 || (Owners(c', g) == 0 && c'.slots[g].state == Finalized)
    {
      assert Owners(c, g) == 1 || (Owners(c, g) == 0 && c.slots[g].state == Finalized);
      assert Owners(c', g) == Owners(c, g);
    }
  }

  lemma ResumeEffect(c: Comp)
    requires CompOk(c) && c.lease.mode == L.Draining && !c.lease.terminal
    ensures CanResume(c)
    ensures var c' := Resume(c);
            && CompOk(c') && SameInstances(c, c') && c'.lease.mode == L.Serving
            && c'.lease.current == c.lease.current
            && (forall g | 0 <= g < |c.slots| && c.lease.current != Some(g) :: c'.slots[g] == c.slots[g])
  {
    L.ResumeOk(c.lease);
    var c' := Resume(c);
    assert forall g | 0 <= g < |c.slots| :: Owners(c', g) == Owners(c, g);
  }

  lemma PrepareStopEffect(c: Comp)
    requires CompOk(c) && c.lease.mode == L.Draining && c.lease.drainDone && c.stopping.None?
    ensures CanPrepareStop(c)
    ensures var c' := PrepareStop(c);
            && CompOk(c') && c'.lease.mode == L.Stopped && c'.stopping == c.lease.current && Owed(c', c'.stopping)
            && c'.candidate == c.candidate && c'.retired == c.retired
            && |c'.slots| == |c.slots|
            && (forall g | 0 <= g < |c.slots| && c.lease.current != Some(g) :: c'.slots[g] == c.slots[g])
  {
    L.TakeOk(c.lease);
    var c' := PrepareStop(c);
    assert forall g | 0 <= g < |c.slots| :: Owners(c', g) == Owners(c, g);
  }

  /** A finalization step moves one owned instance towards its end and nothing else. */
  predicate FinFrame(c: Comp, c': Comp, role: Role) {
    && c'.lease == c.lease && c'.path == c.path && c'.policy == c.policy && c'.digest == c.digest
    && c'.restartRequired == c.restartRequired
    && c'.pendingDigest == c.pendingDigest && c'.pendingConfig == c.pendingConfig
    && (role != AsCandidate ==> c'.candidate == c.candidate)
    && (role != AsRetired ==> c'.retired == c.retired)
    && (role != AsStopping ==> c'.stopping == c.stopping)
    && |c'.slots| == |c.slots|
    && (forall g | 0 <= g < |c.slots| && Pointer(c, role) != Some(g) :: c'.slots[g] == c.slots[g])
  }

  /** Rewriting a slot that is owned, but not served, keeps the component in order. */
  lemma SetOwnedSlot(c: Comp, p: nat, s: Slot)
    requires CompOk(c) && p < |c.slots| && Owners(c, p) == 1 && c.lease.current != Some(p)
    requires SlotOk(s) && s.policy == c.policy
    ensures CompOk(SetSlot(c, p, s))
  {
    var c' := SetSlot(c, p, s);
    forall g | 0 <= g < |c'.slots|
      ensures Owners(c', g) == 1 || (Owners(c', g) == 0 && c'.slots[g].state == Finalized)
    {
      assert Owners(c', g) == Owners(c, g);
    }
  }

  lemma DropFinalized(c: Comp, role: Role)
    requires CompOk(c) && Settling(c, Pointer(c, role), FinDrop)
    ensures CompOk(ClearPointer(c, role))
  {
    var c' := ClearPointer(c, role);
    var p := Pointer(c, role).value;
    assert Owners(c, p) == 1;
    forall g | 0 <= g < |c'.slots|
      ensures Owners(c', g) == 1 || (Owners(c', g) == 0 && c'.slots[g].state == Finalized)
    {
      if g != p {
        assert Owners(c', g) == Owners(c, g);
      }
    }
  }

  /** The slot a role owns is neither served nor owned in another role. */
  lemma OwnedOnce(c: Comp, role: Role)
    requires CompOk(c) && Pointer(c, role).Some?
    ensures var p := Pointer(c, role).value;
            Owners(c, p) == 1 && c.lease.current != Some(p)
  {
    assert Owners(c, Pointer(c, role).value) >= 1;
  }

  predicate FinOutcome(c: Comp, c': Comp, next: FinNext, role: Role) {
    && CompOk(c') && FinFrame(c, c', role)
    && match next
       case Again(st) => Settling(c', Pointer(c', role), st)
       case Finished(failed) =>
         Debt(c', Pointer(c', role)) && (Pointer(c', role).None? <==> !failed)
  }

  lemma FinBeginEffect(c: Comp, role: Role, ok: bool)
    requires CompOk(c) && Settling(c, Pointer(c, role), FinBegin)
    ensures CanFinalize(c, role)
    ensures var (c', next) := FinStep(c, role, FinBegin, ok); FinOutcome(c, c', next, role)
  {
    if Pointer(c, role).Some? {
      var p := Pointer(c, role).value;
      OwnedOnce(c, role);
      var s := if role.AsStopping? then MarkDeactivated(c.slots[p]) else c.slots[p];
      SetOwnedSlot(c, p, BeginFinalization(s).0);
    }
  }

  lemma FinRunEffect(c: Comp, role: Role, ok: bool)
    requires CompOk(c) && Settling(c, Pointer(c, role), FinRun)
    ensures CanFinalize(c, role)
    ensures var (c', next) := FinStep(c, role, FinRun, ok); FinOutcome(c, c', next, role)
  {
    var p := Pointer(c, role).value;
    OwnedOnce(c, role);
    SetOwnedSlot(c, p, FinishFinalization(c.slots[p], ok));
  }

  lemma {:induction false} FinStepEffect(c: Comp, role: Role, stage: FinStage, ok: bool)
    requires CompOk(c) && Settling(c, Pointer(c, role), stage)
    ensures CanFinalize(c, role)
    ensures var (c', next) := FinStep(c, role, stage, ok); FinOutcome(c, c', next, role)
  {
    match stage
    case FinBegin => FinBeginEffect(c, role, ok);
    case FinRun => FinRunEffect(c, role, ok);
    case FinDrop => DropFinalized(c, role);
  }

  lemma StopPendingEffect(c: Comp)
    requires CompOk(c)
    ensures L.CanStopPending(c.lease)
    ensures var c' := c.(lease := L.StopPending(c.lease));
            CompOk(c') && c'.lease.mode != L.Pending && (c.lease.mode != L.Pending ==> c' == c)
            && (c.lease.mode == L.Pending ==> c'.lease.mode == L.Stopped)
  {
    L.StopPendingOk(c.lease);
    var c' := c.(lease := L.StopPending(c.lease));
    assert forall g | 0 <= g < |c.slots| :: Owners(c', g) == Owners(c, g);
  }

  /** A caller changes only the lease, and there only the use count, its own registration
      and possibly the completion of the drain. */
  predicate CallerEffect(c: Comp, c': Comp) {
    c' == c.(lease := c'.lease) && L.CallerStep(c.lease, c'.lease)
  }

  lemma CallerKeepsComp(c: Comp, l: L.Lease)
    requires CompOk(c) && L.LeaseOk(l) && L.CallerStep(c.lease, l)
    ensures CompOk(c.(lease := l))
  {
    var c' := c.(lease := l);
    assert forall g | 0 <= g < |c.slots| :: Owners(c', g) == Owners(c, g);
  }

  // How the statuses of a reload follow one another -------------------------------------

  lemma BuildStatus(c: Comp, b: Base, before: Snapshot, snap: Snapshot, builds: bool)
    requires CompOk(c) && ToBuild(c, b, before, snap)
    ensures var (c', built) := Build(c, builds);
            && CompOk(c') && c'.lease == c.lease && (!built ==> c' == c)
            && (built ==> ToDrain(c', b, before, snap))
  {
    BuildEffect(c, snap, builds);
    var (c', built) := Build(c, builds);
    assert built ==> c'.slots[c.lease.current.value] == c.slots[c.lease.current.value];
  }

  lemma DrainStatus(c: Comp, b: Base, before: Snapshot, snap: Snapshot)
    requires CompOk(c) && ToDrain(c, b, before, snap)
    ensures var (c', ready) := BeginDrain(c, false);
            && CompOk(c') && c'.lease.current == c.lease.current && ToCommit(c', b, before, snap)
            && ready.Some? && c'.lease.drained == ready
  {
    BeginDrainEffect(c, false);
  }

  lemma RollbackStatus(c: Comp, b: Base, before: Snapshot, snap: Snapshot)
    requires CompOk(c) && ToCommit(c, b, before, snap)
    ensures CanResume(c)
    ensures var c' := Rollback(c);
            CompOk(c') && c'.lease.current == c.lease.current && ToDiscard(c', b, before)
  {
    ResumeEffect(c);
    var r, c' := Resume(c), Rollback(c);
    assert forall g | 0 <= g < |c'.slots| :: Owners(c', g) == Owners(r, g);
  }

  lemma DiscardStatus(c: Comp, b: Base, before: Snapshot, fin: FinStage, ok: bool)
    requires CompOk(c) && Discarding(c, b, before, fin)
    ensures CanFinalize(c, AsCandidate)
    ensures var (c', next) := FinStep(c, AsCandidate, fin, ok);
            && CompOk(c') && c'.lease == c.lease
            && (next.Again? ==> Discarding(c', b, before, next.stage))
            && (next.Finished? ==> Held(c', b, before))
  {
    FinStepEffect(c, AsCandidate, fin, ok);
  }

  lemma CommitStatus(c: Comp, b: Base, before: Snapshot, snap: Snapshot)
    requires CompOk(c) && ToCommit(c, b, before, snap) && c.lease.drainDone
    ensures CanCommit(c) && c.lease.current.value < c.candidate.value
    ensures CompOk(Commit(c)) && ToResume(Commit(c), b, snap) && Commit(c).lease.mode == c.lease.mode
  {
    CommitEffect(c, snap);
  }

  lemma ResumeStatus(c: Comp, b: Base, snap: Snapshot)
    requires CompOk(c) && ToResume(c, b, snap)
    ensures CanResume(c)
    ensures CompOk(Resume(c)) && Resume(c).lease.current == c.lease.current && ToRetire(Resume(c), b, snap)
  {
    ResumeEffect(c);
  }

  lemma RetireStatus(c: Comp, b: Base, snap: Snapshot, fin: FinStage, ok: bool)
    requires CompOk(c) && Retiring(c, b, snap, fin)
    ensures CanFinalize(c, AsRetired)
    ensures var (c', next) := FinStep(c, AsRetired, fin, ok);
            && CompOk(c') && c'.lease == c.lease
            && (next.Again? ==> Retiring(c', b, snap, next.stage))
            && (next.Finished? ==> Steady(c') && Swapped(c', b, snap) && (!next.failed ==> c'.retired.None?))
  {
    FinStepEffect(c, AsRetired, fin, ok);
  }

  /** The candidate, the retired and the stopped instance of a component in turn. */
  lemma FinalizeStatus(c: Comp, role: Role, fin: FinStage, failed: bool, ok: bool)
    requires CompOk(c) && FinalizingComp(c, role, fin, failed)
    ensures CanFinalize(c, role)
    ensures var (c', next) := FinStep(c, role, fin, ok);
            && CompOk(c') && c'.lease == c.lease
            && (next.Again? ==> FinalizingComp(c', role, next.stage, failed))
            && (next.Finished? ==>
                  match role
                  case AsCandidate => FinalizingComp(c', AsRetired, FinBegin, failed || next.failed)
                  case AsRetired => FinalizingComp(c', AsStopping, FinBegin, failed || next.failed)
                  case AsStopping => Settled(c') && (!(failed || next.failed) ==> NoOwners(c')))
  {
    FinStepEffect(c, role, fin, ok);
    OwnedApart(c);
  }

  lemma {:induction false} OwnedApart(c: Comp)
    requires CompOk(c)
    ensures c.candidate.Some? ==> c.candidate != c.retired && c.candidate != c.stopping
    ensures c.retired.Some? ==> c.retired != c.stopping
  {
    if c.candidate.Some? {
      OwnedOnce(c, AsCandidate);
    }
    if c.retired.Some? {
      OwnedOnce(c, AsRetired);
    }
  }
}
