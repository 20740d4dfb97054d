/** Instance slots: the record that carries one built instance to its single finalization.
    The datatype holds the abstract value of a slot, the functions say what each critical
    section of the slot does to it, and the class is the mutable slot itself. */
module Finalization {
  import opened Wrappers

  datatype Phase = CandidatePhase | RetiredPhase | CurrentPhase

  datatype Ownership =
    | OwnedServing
    | WaitingForDrain
    | FinalizationPending
    | Finalizing
    | Finalized
    | TerminalFailed

  datatype Policy = NoFinalization | DrainThenTerminalClose

  /** `config` is the decoded configuration the instance was built from, `attempts` counts
      the invocations of the terminal finalizer and `failed` says that an error is stored. */
  datatype Slot = Slot(
    config: string, phase: Phase, state: Ownership, policy: Policy,
    attempts: nat, failed: bool, deactivated: bool)

  function NewSlot(config: string, policy: Policy): Slot {
    Slot(config, CandidatePhase, FinalizationPending, policy, 0, false, false)
  }

  function Transition(s: Slot, phase: Phase, state: Ownership): Slot {
    s.(phase := phase, state := state)
  }

  /** What beginFinalization answers: run the finalizer, or report the stored result. */
  datatype Begin = RunFinalizer | Stored(failed: bool)

  function BeginFinalization(s: Slot): (Slot, Begin) {
    if s.state in {Finalized, TerminalFailed} then (s, Stored(s.failed))
    else if s.policy == NoFinalization then (s.(state := Finalized), Stored(false))
    else (s.(state := Finalizing, attempts := s.attempts + 1), RunFinalizer)
  }

  function FinishFinalization(s: Slot, ok: bool): Slot {
    s.(failed := !ok, state := if ok then Finalized else TerminalFailed)
  }

  function MarkDeactivated(s: Slot): Slot {
    s.(deactivated := true)
  }

  /** The life-long law of a slot: the finalizer is invoked at most once, its outcome is
      final, and a slot without a finalizer is never handed to one. */
  predicate SlotOk(s: Slot) {
    && (s.failed <==> s.state == TerminalFailed)
    && (s.state in {OwnedServing, WaitingForDrain, FinalizationPending} ==> s.attempts == 0)
    && (s.state in {Finalizing, TerminalFailed} ==> s.attempts == 1 && s.policy == DrainThenTerminalClose)
    && (s.state == Finalized ==> s.attempts == if s.policy == DrainThenTerminalClose then 1 else 0)
  }

  /** The mutable slot. Finalize is the source's finalizeSlot, with the outcome of the
      finalizer itself supplied by the environment. */
  class InstanceSlot {
    const config: string
    const policy: Policy
    var phase: Phase
    var state: Ownership
    var attempts: nat
    var failed: bool
    var deactivated: bool

    function Value(): Slot
      reads this
    {
      Slot(config, phase, state, policy, attempts, failed, deactivated)
    }

    constructor (config: string, policy: Policy)
      ensures Value() == NewSlot(config, policy)
      ensures SlotOk(Value())
    {
      this.config := config;
      this.policy := policy;
      phase := CandidatePhase;
      state := FinalizationPending;
      attempts := 0;
      failed := false;
      deactivated := false;
    }

    method MoveTo(phase: Phase, state: Ownership)
      modifies this
      ensures Value() == Transition(old(Value()), phase, state)
    {
      if this.phase == phase && this.state == state {
        return;
      }
      this.phase := phase;
      this.state := state;
    }

    method Begin() returns (answer: Begin)
      modifies this
      ensures (Value(), answer) == BeginFinalization(old(Value()))
      ensures old(SlotOk(Value())) && old(state) != Finalizing ==> SlotOk(Value())
    {
      if state == Finalized || state == TerminalFailed {
        return Stored(failed);
      }
      if policy == NoFinalization {
        state := Finalized;
        return Stored(false);
      }
      state := Finalizing;
      attempts := attempts + 1;
      return RunFinalizer;
    }

    method Finish(ok: bool)
      modifies this
      ensures Value() == FinishFinalization(old(Value()), ok)
      ensures old(SlotOk(Value())) && old(state) == Finalizing ==> SlotOk(Value())
    {
      failed := !ok;
      if ok {
        state := Finalized;
      } else {
        state := TerminalFailed;
      }
    }

    method Deactivate() returns (needed: bool)
      modifies this
      ensures Value() == MarkDeactivated(old(Value()))
      ensures needed == !old(deactivated)
    {
      if deactivated {
        return false;
      }
      deactivated := true;
      return true;
    }
  }
}
