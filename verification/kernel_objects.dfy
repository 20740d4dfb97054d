/** The mutable lease and the mutable component. Every method is one critical section of the
    source and is proved to do to the object's abstract value exactly what the functions of
    Leases and Components say. The source's panics are preconditions here: the machine in
    KernelMachine shows that no run breaks them. */
module KernelObjects {
  import opened Wrappers
  import opened Finalization
  import opened Components
  import L = Leases

  class ComponentLease {
    var mode: L.Mode
    var current: Option<nat>
    var activeUses: int
    var transitions: seq<bool>
    var drained: Option<nat>
    var drains: seq<bool>
    var drainDone: bool
    var terminal: bool
    ghost var holders: map<nat, nat>
    ghost var waiters: map<nat, nat>

    ghost function Value(): L.Lease
      reads this
    {
      L.Lease(mode, current, activeUses, transitions, drained, drains, drainDone, terminal, holders, waiters)
    }

    constructor ()
      ensures Value() == L.NewLease() && L.LeaseOk(Value())
    {
      mode := L.Pending;
      current := None;
      activeUses := 0;
      transitions := [false];
      drained := None;
      drains := [];
      drainDone := false;
      terminal := false;
      holders := map[];
      waiters := map[];
    }

    /** One pass of the acquire loop by `user`: an instance, a channel to wait on, or a refusal. */
    method Attempt(ghost user: nat) returns (slot: Option<nat>, wait: Option<nat>)
      requires L.MayAttempt(Value(), user) && |transitions| > 0 && (mode == L.Serving ==> current.Some?)
      modifies this
      ensures Value() == L.Attempt(old(Value()), user)
      ensures old(mode) == L.Serving ==> slot == old(current) && slot.Some? && wait.None?
      ensures L.Refused(old(Value())) ==> slot.None? && wait.None?
      ensures old(mode) != L.Serving && !L.Refused(old(Value())) ==>
                slot.None? && wait == Some(|transitions| - 1)
    {
      slot, wait := None, None;
      match mode
      case Serving =>
        activeUses := activeUses + 1;
        slot := current;
        holders := holders[user := current.value];
        waiters := waiters - {user};
      case Pending =>
        wait := Some(|transitions| - 1);
        waiters := waiters[user := |transitions| - 1];
      case Draining =>
        if terminal {
          waiters := waiters - {user};
        } else {
          wait := Some(|transitions| - 1);
          waiters := waiters[user := |transitions| - 1];
        }
      case Stopped =>
        waiters := waiters - {user};
    }

    /** The context of a waiting caller ended. */
    method GiveUp(ghost user: nat)
      modifies this
      ensures Value() == L.GiveUp(old(Value()), user)
    {
      waiters := waiters - {user};
    }

    /** The callback of `user` returned; the last one completes the drain. */
    method Release(ghost user: nat)
      requires L.CanRelease(Value())
      modifies this
      ensures Value() == L.Release(old(Value()), user)
    {
      activeUses := activeUses - 1;
      holders := holders - {user};
      if mode == L.Draining && activeUses == 0 && !drainDone {
        drains := drains[drained.value := true];
        drainDone := true;
      }
    }

    method PublishInitial(slot: nat)
      requires L.CanPublishInitial(Value())
      modifies this
      ensures Value() == L.PublishInitial(old(Value()), slot)
    {
      current := Some(slot);
      mode := L.Serving;
      transitions := transitions[|transitions| - 1 := true];
    }

    method BeginOrContinueDrain(terminalDrain: bool) returns (ready: Option<nat>)
      modifies this
      ensures (Value(), ready) == L.BeginDrain(old(Value()), terminalDrain)
    {
      match mode
      case Serving =>
        mode := L.Draining;
        terminal := terminalDrain;
        transitions := transitions + [false];
        drained := Some(|drains|);
        drains := drains + [false];
        drainDone := false;
        if activeUses == 0 {
          drains := drains[drained.value := true];
          drainDone := true;
        }
        assert drains == old(drains) + [drainDone];
        ready := drained;
      case Draining =>
        if terminalDrain {
          terminal := true;
        }
        ready := drained;
      case Stopped =>
        ready := Some(|drains|);
        drains := drains + [true];
      case Pending =>
        ready := None;
    }

    method ReplaceWhileDraining(slot: nat) returns (previous: Option<nat>)
      requires L.CanReplace(Value())
      modifies this
      ensures Value() == L.Replace(old(Value()), slot) && previous == old(current)
    {
      previous := current;
      current := Some(slot);
    }

    method Resume()
      requires L.CanResume(Value())
      modifies this
      ensures Value() == L.Resume(old(Value()))
    {
      mode := L.Serving;
      transitions := transitions[|transitions| - 1 := true];
      drained := None;
      drainDone := false;
    }

    method StopPending()
      requires L.CanStopPending(Value())
      modifies this
      ensures Value() == L.StopPending(old(Value()))
    {
      if mode != L.Pending {
        return;
      }
      mode := L.Stopped;
      transitions := transitions[|transitions| - 1 := true];
    }

    method TakeWhileDraining() returns (previous: Option<nat>)
      requires L.CanTake(Value())
      modifies this
      ensures Value() == L.Take(old(Value())) && previous == old(current)
    {
      terminal := true;
      previous := current;
      current := None;
      mode := L.Stopped;
      transitions := transitions[|transitions| - 1 := true];
      drained := None;
      drainDone := false;
    }
  }

  /** The abstract values of a table of slots. */
  ghost function Values(slots: seq<InstanceSlot>): (v: seq<Slot>)
    reads slots
    ensures |v| == |slots| && forall i | 0 <= i < |slots| :: v[i] == slots[i].Value()
  {
    if slots == [] then [] else Values(slots[..|slots| - 1]) + [slots[|slots| - 1].Value()]
  }

  class ManagedComponent {
    const path: string
    const restartRequired: bool
    const policy: Policy
    const lease: ComponentLease
    var slots: seq<InstanceSlot>
    var candidate: Option<nat>
    var retired: Option<nat>
    var stopping: Option<nat>
    var digest: string
    var pendingDigest: string
    var pendingConfig: string

    ghost function Repr(): set<object>
      reads this
    {
      {this, lease} + (set s | s in slots)
    }

    ghost predicate Valid()
      reads this
    {
      forall i, j | 0 <= i < j < |slots| :: slots[i] != slots[j]
    }

    ghost function Value(): Comp
      reads Repr()
    {
      Comp(path, restartRequired, policy, lease.Value(), Values(slots),
        candidate, retired, stopping, digest, pendingDigest, pendingConfig)
    }

    constructor (path: string, restartRequired: bool, policy: Policy)
      ensures Valid() && fresh(Repr()) && Value() == NewComp(path, restartRequired, policy)
    {
      this.path := path;
      this.restartRequired := restartRequired;
      this.policy := policy;
      lease := new ComponentLease();
      slots := [];
      candidate, retired, stopping := None, None, None;
      digest, pendingDigest, pendingConfig := "", "", "";
    }

    method Stage(snap: Snapshot, decodes: bool) returns (staged: Staged)
      requires Valid()
      modifies this`pendingConfig, this`pendingDigest
      ensures Valid() && (Value(), staged) == Components.Stage(old(Value()), snap, decodes)
    {
      if retired.Some? || stopping.Some? || candidate.Some? {
        return StageFailed;
      }
      if path == "" {
        if digest != "" {
          return Unchanged;
        }
        if !decodes {
          return StageFailed;
        }
        pendingConfig := FIXED_CONFIG;
        pendingDigest := FIXED_DIGEST;
        return Changed;
      }
      var section := SectionDigest(snap, path);
      if section.None? {
        return StageFailed;
      }
      if section.value == digest {
        return Unchanged;
      }
      if !decodes {
        return StageFailed;
      }
      pendingConfig := SectionContent(snap, path);
      pendingDigest := section.value;
      return Changed;
    }

    method Build(builds: bool) returns (built: bool)
      requires Valid()
      modifies this`slots, this`candidate
      ensures Valid() && fresh(Repr() - old(Repr())) && (Value(), built) == Components.Build(old(Value()), builds)
    {
      if candidate.Some? || !builds {
        return false;
      }
      var slot := new InstanceSlot(pendingConfig, policy);
      candidate := Some(|slots|);
      slots := slots + [slot];
      return true;
    }

    /** Moves one slot to another phase and ownership state. */
    method MoveSlot(g: nat, phase: Phase, state: Ownership)
      requires Valid() && g < |slots|
      modifies slots[g]
      ensures Value() == SetSlot(old(Value()), g, Transition(old(Value()).slots[g], phase, state))
    {
      slots[g].MoveTo(phase, state);
      assert Values(slots) == old(Values(slots))[g := slots[g].Value()];
    }

    method PublishInitial()
      requires Valid() && CanPublish(Value())
      modifies Repr()
      ensures Valid() && slots == old(slots) && Value() == Components.PublishInitial(old(Value()))
    {
      var g := candidate.value;
      MoveSlot(g, CurrentPhase, OwnedServing);
      lease.PublishInitial(g);
      digest := pendingDigest;
      candidate := None;
    }

    method BeginDrain(terminal: bool) returns (ready: Option<nat>)
      requires Valid()
      modifies Repr()
      ensures Valid() && slots == old(slots) && (Value(), ready) == Components.BeginDrain(old(Value()), terminal)
    {
      if lease.mode == L.Serving && lease.current.Some? && lease.current.value < |slots| {
        MoveSlot(lease.current.value, CurrentPhase, WaitingForDrain);
      }
      ready := lease.BeginOrContinueDrain(terminal);
    }

    /** Hands the lease its new instance and takes the old one into retirement. */
    method MoveOut(g: nat)
      requires Valid() && L.CanReplace(lease.Value()) && lease.current.Some? && lease.current.value < |slots|
      modifies Repr()
      ensures Valid() && slots == old(slots)
      ensures var c := old(Value()); var p := c.lease.current.value;
              Value() == SetSlot(c, p, Transition(c.slots[p], RetiredPhase, FinalizationPending)).(
                lease := L.Replace(c.lease, g), retired := Some(p))
    {
      retired := lease.ReplaceWhileDraining(g);
      assert Values(slots) == old(Values(slots));
      MoveSlot(retired.value, RetiredPhase, FinalizationPending);
    }

    method Commit()
      requires Valid() && CanCommit(Value())
      modifies Repr()
      ensures Valid() && slots == old(slots) && Value() == Components.Commit(old(Value()))
    {
      ghost var c := Value();
      var g := candidate.value;
      MoveOut(g);
      assert Value() == SetSlot(c, retired.value, Transition(c.slots[retired.value], RetiredPhase, FinalizationPending)).(
        lease := L.Replace(c.lease, g), retired := c.lease.current);
      MoveSlot(g, CurrentPhase, OwnedServing);
      digest := pendingDigest;
      candidate := None;
    }

    method Resume()
      requires Valid() && CanResume(Value())
      modifies Repr()
      ensures Valid() && slots == old(slots) && Value() == Components.Resume(old(Value()))
    {
      lease.Resume();
      if lease.current.Some? {
        MoveSlot(lease.current.value, CurrentPhase, OwnedServing);
      }
    }

    method Rollback()
      requires Valid() && CanResume(Value())
      modifies Repr()
      ensures Valid() && slots == old(slots) && Value() == Components.Rollback(old(Value()))
    {
      Resume();
      pendingConfig := "";
      pendingDigest := "";
    }

    // Callers ---------------------------------------------------------------------------

    method Attempt(ghost user: nat) returns (slot: Option<nat>, wait: Option<nat>)
      requires Valid() && L.MayAttempt(lease.Value(), user)
      requires |lease.transitions| > 0 && (lease.mode == L.Serving ==> lease.current.Some?)
      modifies lease
      ensures Value() == old(Value()).(lease := L.Attempt(old(lease.Value()), user))
    {
      slot, wait := lease.Attempt(user);
    }

    method GiveUp(ghost user: nat)
      requires Valid()
      modifies lease
      ensures Value() == old(Value()).(lease := L.GiveUp(old(lease.Value()), user))
    {
      lease.GiveUp(user);
    }

    method Release(ghost user: nat)
      requires Valid() && L.CanRelease(lease.Value())
      modifies lease
      ensures Value() == old(Value()).(lease := L.Release(old(lease.Value()), user))
    {
      lease.Release(user);
    }

    // The kernel --------------------------------------------------------------------------

    method StopPending()
      requires Valid() && L.CanStopPending(lease.Value())
      modifies Repr()
      ensures Valid() && slots == old(slots)
      ensures Value() == old(Value()).(lease := L.StopPending(old(lease.Value())))
    {
      lease.StopPending();
    }

    method PrepareStop()
      requires Valid() && CanPrepareStop(Value())
      modifies Repr()
      ensures Valid() && slots == old(slots) && Value() == Components.PrepareStop(old(Value()))
    {
      if stopping.Some? {
        return;
      }
      stopping := lease.TakeWhileDraining();
      if stopping.Some? {
        MoveSlot(stopping.value, CurrentPhase, FinalizationPending);
      }
    }

    /** Begins the finalization of one owned slot; a stopped instance is deactivated first. */
    method BeginSlot(g: nat, role: Role) returns (answer: Begin)
      requires Valid() && g < |slots|
      modifies slots[g]
      ensures var s := if role.AsStopping? then MarkDeactivated(old(slots[g].Value())) else old(slots[g].Value());
              && answer == BeginFinalization(s).1
              && Value() == SetSlot(old(Value()), g, BeginFinalization(s).0)
    {
      if role == AsStopping {
        var _ := slots[g].Deactivate();
      }
      answer := slots[g].Begin();
      assert Values(slots) == old(Values(slots))[g := slots[g].Value()];
    }

    method FinishSlot(g: nat, ok: bool)
      requires Valid() && g < |slots|
      modifies slots[g]
      ensures Value() == SetSlot(old(Value()), g, FinishFinalization(old(slots[g].Value()), ok))
    {
      slots[g].Finish(ok);
      assert Values(slots) == old(Values(slots))[g := slots[g].Value()];
    }

    method DropPointer(role: Role)
      requires Valid()
      modifies this`candidate, this`retired, this`stopping
      ensures Value() == ClearPointer(old(Value()), role)
    {
      match role
      case AsCandidate => candidate := None;
      case AsRetired => retired := None;
      case AsStopping => stopping := None;
    }

    /** One critical section of DiscardCandidate, StopPrevious or StopCurrent. */
    method FinStep(role: Role, stage: FinStage, ok: bool) returns (next: FinNext)
      requires Valid() && CanFinalize(Value(), role)
      modifies Repr()
      ensures Valid() && slots == old(slots) && (Value(), next) == Components.FinStep(old(Value()), role, stage, ok)
    {
      var p := match role case AsCandidate => candidate case AsRetired => retired case AsStopping => stopping;
      if p.None? {
        return Finished(false);
      }
      match stage
      case FinBegin =>
        var answer := BeginSlot(p.value, role);
        next := match answer
                case RunFinalizer => Again(FinRun)
                case Stored(failed) => if failed then Finished(true) else Again(FinDrop);
      case FinRun =>
        FinishSlot(p.value, ok);
        next := if ok then Again(FinDrop) else Finished(true);
      case FinDrop =>
        DropPointer(role);
        next := Finished(false);
    }
  }
}
