/** One managed component: its lease, the slots of every instance it ever built, and the
    three pointers through which the kernel holds instances that are not being served. */
module Components {
  import opened Wrappers
  import opened Finalization
  import L = Leases

  // Configuration snapshots -----------------------------------------------------------

  datatype Section = ObjectSection(content: string) | ScalarSection

  datatype Snapshot = Snapshot(sections: map<string, Section>)

  /** A digest is an injective, never empty function of the section content. */
  function DigestOf(content: string): string {
    "#" + content
  }

  function SectionContent(s: Snapshot, path: string): string {
    if path in s.sections && s.sections[path].ObjectSection? then s.sections[path].content else "{}"
  }

  /** A missing section is an empty one; a section that is not an object has no digest. */
  function SectionDigest(s: Snapshot, path: string): Option<string> {
    if path in s.sections && s.sections[path].ScalarSection? then None
    else Some(DigestOf(SectionContent(s, path)))
  }

  lemma SameDigestSameContent(a: string, b: string)
    requires DigestOf(a) == DigestOf(b)
    ensures a == b
  {
    assert DigestOf(a)[1..] == a;
    assert DigestOf(b)[1..] == b;
  }

  // The component ---------------------------------------------------------------------

  /** `path` is empty for a component with fixed configuration. Slot indices are the
      instance generations counted from zero. */
  datatype Comp = Comp(
    path: string, restartRequired: bool, policy: Policy,
    lease: L.Lease, slots: seq<Slot>,
    candidate: Option<nat>, retired: Option<nat>, stopping: Option<nat>,
    digest: string, pendingDigest: string, pendingConfig: string)

  const FIXED_DIGEST := "fixed"
  const FIXED_CONFIG := ""

  function NewComp(path: string, restartRequired: bool, policy: Policy): Comp {
    Comp(path, restartRequired, policy, L.NewLease(), [], None, None, None, "", "", "")
  }

  datatype Staged = StageFailed | Unchanged | Changed

  /** `decodes` says whether the component's decoder accepts the candidate. */
  function Stage(c: Comp, s: Snapshot, decodes: bool): (Comp, Staged) {
    if c.retired.Some? || c.stopping.Some? || c.candidate.Some? then (c, StageFailed)
    else if c.path == "" then
      if c.digest != "" then (c, Unchanged)
      else if !decodes then (c, StageFailed)
      else (c.(pendingConfig := FIXED_CONFIG, pendingDigest := FIXED_DIGEST), Changed)
    else
      match SectionDigest(s, c.path)
      case None => (c, StageFailed)
      case Some(d) =>
        if d == c.digest then (c, Unchanged)
        else if !decodes then (c, StageFailed)
        else (c.(pendingConfig := SectionContent(s, c.path), pendingDigest := d), Changed)
  }

  /** `builds` says whether dependencies resolve and the builder returns an instance. */
  function Build(c: Comp, builds: bool): (Comp, bool) {
    if c.candidate.Some? || !builds then (c, false)
    else (c.(slots := c.slots + [NewSlot(c.pendingConfig, c.policy)], candidate := Some(|c.slots|)), true)
  }

  predicate Slotted(c: Comp, p: Option<nat>) {
    p.Some? ==> p.value < |c.slots|
  }

  function SetSlot(c: Comp, g: nat, s: Slot): Comp
    requires g < |c.slots|
  {
    c.(slots := c.slots[g := s])
  }

  predicate CanPublish(c: Comp) {
    c.candidate.Some? && c.candidate.value < |c.slots| && L.CanPublishInitial(c.lease)
  }

  function PublishInitial(c: Comp): Comp
    requires CanPublish(c)
  {
    var g := c.candidate.value;
    SetSlot(c, g, Transition(c.slots[g], CurrentPhase, OwnedServing)).(
      lease := L.PublishInitial(c.lease, g), digest := c.pendingDigest, candidate := None)
  }

  /** Drains the lease; an instance leaving service is marked as waiting for its callers. */
  function BeginDrain(c: Comp, terminal: bool): (Comp, Option<nat>) {
    var (l, ready) := L.BeginDrain(c.lease, terminal);
    var c' := c.(lease := l);
    if c.lease.mode == L.Serving && c.lease.current.Some? && c.lease.current.value < |c.slots| then
      var g := c.lease.current.value;
      (SetSlot(c', g, Transition(c.slots[g], CurrentPhase, WaitingForDrain)), ready)
    else (c', ready)
  }

  predicate CanCommit(c: Comp) {
    && c.candidate.Some? && c.candidate.value < |c.slots| && c.retired.None?
    && L.CanReplace(c.lease) && c.lease.current.Some? && c.lease.current.value < |c.slots|
  }

  function Commit(c: Comp): Comp
    requires CanCommit(c)
  {
    var g := c.candidate.value;
    var old_ := c.lease.current.value;
    var retiredSlot := Transition(c.slots[old_], RetiredPhase, FinalizationPending);
    var c1 := SetSlot(c, old_, retiredSlot);
    SetSlot(c1, g, Transition(c1.slots[g], CurrentPhase, OwnedServing)).(
      lease := L.Replace(c.lease, g), retired := Some(old_),
      digest := c.pendingDigest, candidate := None)
  }

  predicate CanResume(c: Comp) {
    L.CanResume(c.lease) && Slotted(c, c.lease.current)
  }

  function Resume(c: Comp): Comp
    requires CanResume(c)
  {
    var c' := c.(lease := L.Resume(c.lease));
    if c.lease.current.Some? then
      var g := c.lease.current.value;
      SetSlot(c', g, Transition(c.slots[g], CurrentPhase, OwnedServing))
    else c'
  }

  function Rollback(c: Comp): Comp
    requires CanResume(c)
  {
    Resume(c).(pendingConfig := "", pendingDigest := "")
  }

  predicate CanPrepareStop(c: Comp) {
    c.stopping.Some? || (L.CanTake(c.lease) && Slotted(c, c.lease.current))
  }

  function PrepareStop(c: Comp): Comp
    requires CanPrepareStop(c)
  {
    if c.stopping.Some? then c
    else
      var p := c.lease.current;
      var c' := c.(lease := L.Take(c.lease), stopping := p);
      if p.Some? then SetSlot(c', p.value, Transition(c.slots[p.value], CurrentPhase, FinalizationPending)) else c'
  }

  // Finalization ----------------------------------------------------------------------

  /** The three ways the kernel can own an instance it has to finalize. */
  datatype Role = AsCandidate | AsRetired | AsStopping

  function Pointer(c: Comp, role: Role): Option<nat> {
    match role
    case AsCandidate => c.candidate
    case AsRetired => c.retired
    case AsStopping => c.stopping
  }

  function ClearPointer(c: Comp, role: Role): Comp {
    match role
    case AsCandidate => c.(candidate := None)
    case AsRetired => c.(retired := None)
    case AsStopping => c.(stopping := None)
  }

  /** DiscardCandidate, StopPrevious and StopCurrent share one shape: begin, run the
      finalizer outside every lock, then drop the pointer. */
  datatype FinStage = FinBegin | FinRun | FinDrop

  datatype FinNext = Again(stage: FinStage) | Finished(failed: bool)

  predicate CanFinalize(c: Comp, role: Role) {
    Slotted(c, Pointer(c, role))
  }

  /** `ok` is the outcome of the finalizer, looked at only when one is running. */
  function FinStep(c: Comp, role: Role, stage: FinStage, ok: bool): (Comp, FinNext)
    requires CanFinalize(c, role)
  {
    match Pointer(c, role)
    case None => (c, Finished(false))
    case Some(g) =>
      match stage
      case FinBegin =>
        var s := if role.AsStopping? then MarkDeactivated(c.slots[g]) else c.slots[g];
        var (s', answer) := BeginFinalization(s);
        (SetSlot(c, g, s'),
         match answer
         case RunFinalizer => Again(FinRun)
         case Stored(failed) => if failed then Finished(true) else Again(FinDrop))
      case FinRun =>
        (SetSlot(c, g, FinishFinalization(c.slots[g], ok)), if ok then Again(FinDrop) else Finished(true))
      case FinDrop => (ClearPointer(c, role), Finished(false))
  }

  // Component invariant ---------------------------------------------------------------

  /** The places that own slot `g`. */
  function Owners(c: Comp, g: nat): nat {
    (if c.candidate == Some(g) then 1 else 0) + (if c.retired == Some(g) then 1 else 0) +
    (if c.stopping == Some(g) then 1 else 0) + (if c.lease.current == Some(g) then 1 else 0)
  }

  /** Ownership conservation: a built instance is owned in exactly one place, and the only
      way to leave all of them is to be finalized. */
  predicate Conserved(c: Comp) {
    forall g | 0 <= g < |c.slots| ::
      Owners(c, g) == 1 || (Owners(c, g) == 0 && c.slots[g].state == Finalized)
  }

  predicate CompOk(c: Comp) {
    && L.LeaseOk(c.lease)
    && Slotted(c, c.candidate) && Slotted(c, c.retired) && Slotted(c, c.stopping) && Slotted(c, c.lease.current)
    && Conserved(c)
    && (forall g | 0 <= g < |c.slots| :: SlotOk(c.slots[g]) && c.slots[g].policy == c.policy)
    && (c.lease.current.Some? ==> c.slots[c.lease.current.value].state in {OwnedServing, WaitingForDrain})
  }

  /** No finalizer is running on the component. */
  predicate Quiet(c: Comp) {
    forall g | 0 <= g < |c.slots| :: c.slots[g].state != Finalizing
  }

  /** Nothing is owned through `p`, or what is owned failed to finalize for good. */
  predicate Debt(c: Comp, p: Option<nat>) {
    p.Some? ==> p.value < |c.slots| && c.slots[p.value].state == TerminalFailed
  }

  /** Nothing is owned through `p`, or an instance whose finalization has not begun. */
  predicate Owed(c: Comp, p: Option<nat>) {
    p.Some? ==> p.value < |c.slots| && c.slots[p.value].state == FinalizationPending
  }

  predicate NoOwners(c: Comp) {
    c.candidate.None? && c.retired.None? && c.stopping.None?
  }
}
