/** The inductive invariant of the kernel: what every component looks like at every value of
    the kernel's program counter, in every interleaving with callers. */
module KernelInvariant {
  import opened Wrappers
  import opened Finalization
  import opened Components
  import opened KernelMachine
  import L = Leases

  // Configuration ---------------------------------------------------------------------

  /** The component serves an instance built from the snapshot's section. */
  predicate Matches(c: Comp, snap: Snapshot) {
    && c.lease.current.Some? && c.lease.current.value < |c.slots|
    && Represents(c, snap, c.digest, c.slots[c.lease.current.value].config)
  }

  predicate Represents(c: Comp, snap: Snapshot, digest: string, config: string) {
    if c.path == "" then digest == FIXED_DIGEST && config == FIXED_CONFIG
    else SectionDigest(snap, c.path) == Some(digest) && config == SectionContent(snap, c.path)
  }

  predicate PendingMatches(c: Comp, snap: Snapshot) {
    Represents(c, snap, c.pendingDigest, c.pendingConfig)
  }

  /** The candidate snapshot leaves the component as it is. */
  predicate Agrees(c: Comp, snap: Snapshot) {
    c.path != "" ==> SectionDigest(snap, c.path) == Some(c.digest)
  }

  lemma AgreeingMatches(c: Comp, before: Snapshot, snap: Snapshot)
    requires Matches(c, before) && Agrees(c, snap)
    ensures Matches(c, snap)
  {
    if c.path != "" {
      SameDigestSameContent(SectionContent(before, c.path), SectionContent(snap, c.path));
    }
  }

  // Component statuses ----------------------------------------------------------------

  predicate NotStarted(c: Comp) {
    c.lease.mode == L.Pending && c.slots == [] && NoOwners(c) && c.digest == ""
  }

  /** The candidate is built from what was staged and is younger than anything served. */
  predicate BuiltFrom(c: Comp, snap: Snapshot) {
    && PendingMatches(c, snap)
    && c.candidate.Some? && Owed(c, c.candidate)
    && c.slots[c.candidate.value].config == c.pendingConfig
    && (c.lease.current.Some? ==> c.lease.current.value < c.candidate.value)
  }

  predicate FirstCandidate(c: Comp, snap: Snapshot) {
    && c.lease.mode == L.Pending && c.candidate == Some(0) && c.retired.None? && c.stopping.None?
    && BuiltFrom(c, snap)
  }

  predicate Published(c: Comp) {
    c.lease.mode == L.Serving && NoOwners(c) && c.lease.current == Some(0)
  }

  /** Where a finalization stands. */
  predicate Settling(c: Comp, p: Option<nat>, stage: FinStage) {
    match stage
    case FinBegin => Owed(c, p) || Debt(c, p)
    case FinRun => p.Some? && p.value < |c.slots| && c.slots[p.value].state == Finalizing
    case FinDrop => p.Some? && p.value < |c.slots| && c.slots[p.value].state == Finalized
  }

  predicate DrainedFor(c: Comp, terminal: bool) {
    c.lease.mode == L.Draining && c.lease.drainDone && c.lease.terminal == terminal
  }

  predicate DrainingOn(c: Comp, terminal: bool, ready: nat) {
    c.lease.mode == L.Draining && c.lease.terminal == terminal && c.lease.drained == Some(ready)
  }

  /** Serving, or owing only finalizations that failed for good. */
  predicate Steady(c: Comp) {
    c.lease.mode == L.Serving && c.stopping.None? && Debt(c, c.candidate) && Debt(c, c.retired)
  }

  predicate Kept(c: Comp, b: Base, before: Snapshot) {
    c.lease.current == b.current && c.digest == b.digest && Matches(c, before)
  }

  predicate Held(c: Comp, b: Base, before: Snapshot) {
    Steady(c) && Kept(c, b, before)
  }

  predicate ToBuild(c: Comp, b: Base, before: Snapshot, snap: Snapshot) {
    Held(c, b, before) && NoOwners(c) && PendingMatches(c, snap) && c.pendingDigest != c.digest
  }

  predicate ToDrain(c: Comp, b: Base, before: Snapshot, snap: Snapshot) {
    && c.lease.mode == L.Serving && Kept(c, b, before)
    && c.retired.None? && c.stopping.None? && BuiltFrom(c, snap) && c.pendingDigest != c.digest
  }

  predicate ToCommit(c: Comp, b: Base, before: Snapshot, snap: Snapshot) {
    && c.lease.mode == L.Draining && !c.lease.terminal && Kept(c, b, before)
    && c.retired.None? && c.stopping.None? && BuiltFrom(c, snap) && c.pendingDigest != c.digest
  }

  predicate ToDiscard(c: Comp, b: Base, before: Snapshot) {
    && c.lease.mode == L.Serving && Kept(c, b, before)
    && c.retired.None? && c.stopping.None? && Owed(c, c.candidate)
  }

  /** Switched to the candidate of this reload. */
  predicate Swapped(c: Comp, b: Base, snap: Snapshot) {
    && Matches(c, snap) && c.candidate.None? && c.stopping.None? && c.path != ""
    && b.current.Some? && b.current.value < c.lease.current.value && c.digest != b.digest
  }

  predicate ToResume(c: Comp, b: Base, snap: Snapshot) {
    && DrainedFor(c, false) && Swapped(c, b, snap)
    && c.retired == b.current && Owed(c, c.retired)
  }

  predicate ToRetire(c: Comp, b: Base, snap: Snapshot) {
    c.lease.mode == L.Serving && Swapped(c, b, snap) && Owed(c, c.retired)
  }

  // Start -----------------------------------------------------------------------------

  predicate Prefix(w: World, started: seq<nat>) {
    |started| <= |w.comps| && (forall j | 0 <= j < |started| :: started[j] == j)
  }

  predicate StartedUpTo(w: World, snap: Snapshot, n: nat, started: seq<nat>) {
    && w.state == Created && n == |started| && Prefix(w, started)
    && (forall i | 0 <= i < n :: Published(w.comps[i]) && Matches(w.comps[i], snap))
  }

  predicate NotStartedFrom(w: World, n: nat) {
    forall i | n <= i < |w.comps| :: NotStarted(w.comps[i])
  }

  predicate NeverPublished(c: Comp) {
    c.lease.mode == L.Pending && c.retired.None? && c.stopping.None? && Debt(c, c.candidate)
  }

  predicate Unpublished(w: World, n: nat) {
    forall i | n <= i < |w.comps| :: NeverPublished(w.comps[i])
  }

  predicate Taken(c: Comp) {
    c.lease.mode == L.Stopped && c.candidate.None? && c.retired.None?
  }

  predicate Abandoned(c: Comp) {
    c.retired.None? && Debt(c, c.candidate) && Debt(c, c.stopping)
  }

  predicate StartStageInv(w: World, snap: Snapshot, n: nat, started: seq<nat>) {
    StartedUpTo(w, snap, n, started) && NotStartedFrom(w, n)
  }

  predicate StartBuildInv(w: World, snap: Snapshot, n: nat, started: seq<nat>) {
    && StartedUpTo(w, snap, n, started) && NotStartedFrom(w, n)
    && n < |w.comps| && PendingMatches(w.comps[n], snap)
  }

  predicate StartStartInv(w: World, snap: Snapshot, n: nat, started: seq<nat>) {
    FirstBuilt(w, snap, n, started)
  }

  predicate StartReadyInv(w: World, snap: Snapshot, n: nat, started: seq<nat>) {
    FirstBuilt(w, snap, n, started)
  }

  predicate StartPublishInv(w: World, snap: Snapshot, n: nat, started: seq<nat>) {
    FirstBuilt(w, snap, n, started)
  }

  predicate StartDiscardInv(w: World, n: nat, started: seq<nat>, fin: FinStage) {
    && w.state == Created && n == |started| < |w.comps| && Prefix(w, started)
    && (forall i | 0 <= i < n :: Published(w.comps[i]))
    && NotStartedFrom(w, n + 1)
    && w.comps[n].lease.mode == L.Pending && w.comps[n].retired.None? && w.comps[n].stopping.None?
    && Settling(w.comps[n], w.comps[n].candidate, fin)
  }

  predicate FirstBuilt(w: World, snap: Snapshot, n: nat, started: seq<nat>) {
    && StartedUpTo(w, snap, n, started) && NotStartedFrom(w, n + 1)
    && n < |w.comps| && FirstCandidate(w.comps[n], snap)
  }

  predicate FailDrainInv(w: World, started: seq<nat>, k: nat) {
    && w.state == Created
    && k <= |started| && Prefix(w, started) && Unpublished(w, |started|)
    && (forall i | 0 <= i < k :: Published(w.comps[i]))
    && (forall i | k <= i < |started| :: DrainedFor(w.comps[i], false) && NoOwners(w.comps[i]))
  }

  predicate FailWaitInv(w: World, started: seq<nat>, k: nat, ready: nat) {
    && w.state == Created
    && 0 < k <= |started| && Prefix(w, started) && Unpublished(w, |started|)
    && (forall i | 0 <= i < k - 1 :: Published(w.comps[i]))
    && DrainingOn(w.comps[k - 1], false, ready) && NoOwners(w.comps[k - 1])
    && (forall i | k <= i < |started| :: DrainedFor(w.comps[i], false) && NoOwners(w.comps[i]))
  }

  predicate FailTakeInv(w: World, started: seq<nat>, k: nat) {
    && w.state == Created
    && k <= |started| && Prefix(w, started) && Unpublished(w, |started|)
    && (forall i | 0 <= i < k :: DrainedFor(w.comps[i], false) && NoOwners(w.comps[i]))
    && (forall i | k <= i < |started| :: Taken(w.comps[i]) && Owed(w.comps[i], w.comps[i].stopping))
  }

  predicate FailStopInv(w: World, started: seq<nat>, k: nat, fin: FinStage) {
    && w.state == Created
    && k <= |started| && Prefix(w, started) && Unpublished(w, |started|)
    && (forall i | 0 <= i < |started| :: Taken(w.comps[i]))
    && (forall i | 0 <= i < k - 1 :: Owed(w.comps[i], w.comps[i].stopping))
    && (k > 0 ==> Settling(w.comps[k - 1], w.comps[k - 1].stopping, fin))
    && (forall i | k <= i < |started| :: Debt(w.comps[i], w.comps[i].stopping))
  }

  predicate FailPendingInv(w: World, k: nat) {
    && w.state == Created
    && k <= |w.comps|
    && (forall i | 0 <= i < |w.comps| :: Abandoned(w.comps[i]))
    && (forall i | 0 <= i < k :: w.comps[i].lease.mode != L.Pending)
  }

  // Reload ----------------------------------------------------------------------------

  predicate Ascending(s: seq<nat>, bound: nat) {
    && (forall j | 0 <= j < |s| :: s[j] < bound)
    && (forall i, j | 0 <= i < j < |s| :: s[i] < s[j])
  }

  predicate JobOk(w: World, job: Job) {
    && w.state == Running && job.before.Some? && |job.base| == |w.comps|
    && Ascending(job.changed, |w.comps|)
  }

  /** Where one component stands in a reload. */
  datatype Status =
    | SToBuild | SToDrain | SToCommit | SDrained | SToDiscard | SHeld | SToResume | SToRetire | SKept | SClean

  predicate Is(c: Comp, b: Base, job: Job, s: Status)
    requires job.before.Some?
  {
    match s
    case SToBuild => ToBuild(c, b, job.before.value, job.snap)
    case SToDrain => ToDrain(c, b, job.before.value, job.snap)
    case SToCommit => ToCommit(c, b, job.before.value, job.snap)
    case SDrained => ToCommit(c, b, job.before.value, job.snap) && c.lease.drainDone
    case SToDiscard => ToDiscard(c, b, job.before.value)
    case SHeld => Held(c, b, job.before.value)
    case SToResume => ToResume(c, b, job.snap)
    case SToRetire => ToRetire(c, b, job.snap)
    case SKept => Steady(c) && Swapped(c, b, job.snap)
    case SClean => Steady(c) && Swapped(c, b, job.snap) && c.retired.None?
  }

  /** The status of the component at position `j` of the changed list. */
  predicate At(w: World, job: Job, j: nat, s: Status)
    requires JobOk(w, job) && j < |job.changed|
  {
    Is(w.comps[job.changed[j]], job.base[job.changed[j]], job, s)
  }

  /** The changed components at positions `from` to `to` have one status. */
  predicate Range(w: World, job: Job, from: nat, to: int, s: Status)
    requires JobOk(w, job) && to <= |job.changed|
  {
    forall j: nat | from <= j < to :: At(w, job, j, s)
  }

  /** Components this reload does not change. */
  predicate OthersHeld(w: World, job: Job)
    requires JobOk(w, job)
  {
    forall i | 0 <= i < |w.comps| && i !in job.changed :: Untouched(w.comps[i], job.base[i], job)
  }

  predicate Untouched(c: Comp, b: Base, job: Job)
    requires job.before.Some?
  {
    Held(c, b, job.before.value) && Agrees(c, job.snap)
  }

  predicate Preparing(w: World, job: Job, k: nat) {
    && BeforeCommit(w, job) && k < |job.changed|
    && Range(w, job, 0, k + 1, SToDrain) && Range(w, job, k + 1, |job.changed|, SToBuild)
  }

  predicate BeforeCommit(w: World, job: Job) {
    JobOk(w, job) && w.snapshot == job.before && OthersHeld(w, job)
  }

  predicate AfterCommit(w: World, job: Job) {
    JobOk(w, job) && w.snapshot == Some(job.snap) && OthersHeld(w, job) && Logged(w, job)
  }

  /** The last recorded reload is this one, with exactly its changed components. */
  predicate Logged(w: World, job: Job) {
    && |w.history| > 0
    && w.history[|w.history| - 1].Keys == (set i | i in job.changed)
  }

  predicate ReloadStageInv(w: World, job: Job, n: nat) {
    && JobOk(w, job) && w.snapshot == job.before && n <= |w.comps| && Ascending(job.changed, n)
    && (forall i | 0 <= i < |w.comps| :: Held(w.comps[i], job.base[i], job.before.value))
    && Range(w, job, 0, |job.changed|, SToBuild)
    && (forall i | 0 <= i < n && i !in job.changed :: Agrees(w.comps[i], job.snap))
    && RestartsOk(w, job)
  }

  /** The components that need a restart are the changed ones with that reload policy. */
  predicate RestartsOk(w: World, job: Job) {
    && (forall i | i in job.restart :: i in job.changed)
    && (forall i | i in job.changed && i < |w.comps| :: i in job.restart <==> w.comps[i].restartRequired)
  }

  predicate ReloadBuildInv(w: World, job: Job, k: nat) {
    && BeforeCommit(w, job) && k <= |job.changed|
    && Range(w, job, 0, k, SToDrain) && Range(w, job, k, |job.changed|, SToBuild)
  }

  predicate ReloadStartInv(w: World, job: Job, k: nat) {
    Preparing(w, job, k)
  }

  predicate ReloadReadyInv(w: World, job: Job, k: nat) {
    Preparing(w, job, k)
  }

  predicate ReloadDrainInv(w: World, job: Job, k: nat) {
    && BeforeCommit(w, job) && k <= |job.changed|
    && Range(w, job, 0, k, SToDrain) && Range(w, job, k, |job.changed|, SDrained)
  }

  predicate ReloadWaitInv(w: World, job: Job, k: nat, ready: nat) {
    && BeforeCommit(w, job) && 0 < k <= |job.changed|
    && Range(w, job, 0, k - 1, SToDrain) && Range(w, job, k, |job.changed|, SDrained)
    && At(w, job, k - 1, SToCommit) && w.comps[job.changed[k - 1]].lease.drained == Some(ready)
  }

  predicate ReloadRollbackInv(w: World, job: Job, k: nat) {
    && BeforeCommit(w, job) && k <= |job.changed|
    && Range(w, job, 0, k, SToDiscard) && Range(w, job, k, |job.changed|, SToCommit)
  }

  predicate ReloadDiscardInv(w: World, job: Job, k: nat, fin: FinStage) {
    && BeforeCommit(w, job) && k <= |job.changed|
    && Range(w, job, 0, k - 1, SToDiscard) && Range(w, job, k, |job.changed|, SHeld)
    && (k > 0 ==> Discarding(w.comps[job.changed[k - 1]], job.base[job.changed[k - 1]], job.before.value, fin))
  }

  predicate ReloadCommitInv(w: World, job: Job, k: nat) {
    && BeforeCommit(w, job) && k <= |job.changed|
    && Range(w, job, 0, k, SToResume) && Range(w, job, k, |job.changed|, SDrained)
  }

  predicate ReloadPublishInv(w: World, job: Job) {
    BeforeCommit(w, job) && Range(w, job, 0, |job.changed|, SToResume)
  }

  predicate ReloadResumeInv(w: World, job: Job, k: nat) {
    && AfterCommit(w, job) && k <= |job.changed|
    && Range(w, job, 0, k, SToRetire) && Range(w, job, k, |job.changed|, SToResume)
  }

  predicate ReloadRetireInv(w: World, job: Job, k: nat, fin: FinStage, failed: bool) {
    && AfterCommit(w, job) && k <= |job.changed|
    && Range(w, job, 0, k - 1, SToRetire)
    && Range(w, job, k, |job.changed|, if failed then SKept else SClean)
    && (k > 0 ==> Retiring(w.comps[job.changed[k - 1]], job.base[job.changed[k - 1]], job.snap, fin))
  }

  predicate Discarding(c: Comp, b: Base, before: Snapshot, fin: FinStage) {
    && c.lease.mode == L.Serving && Kept(c, b, before) && c.stopping.None? && c.retired.None?
    && Settling(c, c.candidate, fin)
  }

  predicate Retiring(c: Comp, b: Base, snap: Snapshot, fin: FinStage) {
    c.lease.mode == L.Serving && Swapped(c, b, snap) && Settling(c, c.retired, fin)
  }

  // Stop ------------------------------------------------------------------------------

  /** Serving or draining for good, with nothing taken out of the lease yet. */
  predicate Stoppable(c: Comp) {
    && c.lease.mode in {L.Serving, L.Draining} && (c.lease.mode == L.Draining ==> c.lease.terminal)
    && c.stopping.None? && Debt(c, c.candidate) && Debt(c, c.retired)
  }

  predicate Drained(c: Comp) {
    DrainedFor(c, true) && Stoppable(c)
  }

  predicate ToFinalize(c: Comp) {
    && c.lease.mode == L.Stopped && Debt(c, c.candidate) && Debt(c, c.retired)
    && (Owed(c, c.stopping) || Debt(c, c.stopping))
  }

  predicate Settled(c: Comp) {
    c.lease.mode == L.Stopped && Debt(c, c.candidate) && Debt(c, c.retired) && Debt(c, c.stopping)
  }

  /** The component whose three owners are being finalized. */
  predicate FinalizingComp(c: Comp, role: Role, fin: FinStage, failed: bool) {
    && c.lease.mode == L.Stopped
    && match role
       case AsCandidate =>
         Settling(c, c.candidate, fin) && Debt(c, c.retired) && (Owed(c, c.stopping) || Debt(c, c.stopping))
       case AsRetired =>
         && Debt(c, c.candidate) && (!failed ==> c.candidate.None?)
         && Settling(c, c.retired, fin) && (Owed(c, c.stopping) || Debt(c, c.stopping))
       case AsStopping =>
         && Debt(c, c.candidate) && Debt(c, c.retired) && (!failed ==> c.candidate.None? && c.retired.None?)
         && Settling(c, c.stopping, fin)
  }

  predicate StopPendingsInv(w: World, k: nat) {
    && w.state == KernelStopped && !w.reached && k <= |w.comps|
    && (forall i | 0 <= i < k :: w.comps[i].lease.mode == L.Stopped && NoOwners(w.comps[i]))
    && NotStartedFrom(w, k)
  }

  predicate StopDrainInv(w: World, k: nat, failed: bool) {
    && w.state == KernelDraining && k <= |w.comps| && !failed
    && (forall i | 0 <= i < k :: Stoppable(w.comps[i]))
    && (forall i | k <= i < |w.comps| :: Drained(w.comps[i]))
  }

  predicate StopWaitInv(w: World, k: nat, ready: nat, failed: bool) {
    && w.state == KernelDraining && 0 < k <= |w.comps| && !failed
    && (forall i | 0 <= i < k :: Stoppable(w.comps[i]))
    && DrainingOn(w.comps[k - 1], true, ready)
    && (forall i | k <= i < |w.comps| :: Drained(w.comps[i]))
  }

  predicate StopTakeInv(w: World, k: nat) {
    && w.state == KernelDraining && k <= |w.comps|
    && (forall i | 0 <= i < k :: Drained(w.comps[i]))
    && (forall i | k <= i < |w.comps| :: ToFinalize(w.comps[i]))
  }

  predicate StopFinalInv(w: World, k: nat, role: Role, fin: FinStage, failed: bool) {
    && w.state in {KernelDraining, Failed} && k <= |w.comps|
    && (k == 0 ==> role == AsCandidate && fin == FinBegin)
    && (forall i | 0 <= i < k - 1 :: ToFinalize(w.comps[i]))
    && (k > 0 ==> FinalizingComp(w.comps[k - 1], role, fin, failed))
    && (forall i | k <= i < |w.comps| :: Settled(w.comps[i]) && (!failed ==> NoOwners(w.comps[i])))
  }

  // Between operations ----------------------------------------------------------------

  predicate IdleInv(w: World) {
    match w.state
    case Created => forall i | 0 <= i < |w.comps| :: NotStarted(w.comps[i])
    case Running =>
      && w.snapshot.Some?
      && (forall i | 0 <= i < |w.comps| :: Steady(w.comps[i]) && Matches(w.comps[i], w.snapshot.value))
    case KernelDraining => forall i | 0 <= i < |w.comps| :: Stoppable(w.comps[i])
    case Failed => forall i | 0 <= i < |w.comps| :: Settled(w.comps[i])
    case KernelStopped =>
      && (forall i | 0 <= i < |w.comps| :: w.comps[i].lease.mode != L.Pending && Abandoned(w.comps[i]))
      && (w.reached ==> forall i | 0 <= i < |w.comps| :: w.comps[i].lease.mode == L.Stopped && NoOwners(w.comps[i]))
  }

  predicate ControlInv(w: World) {
    match w.ctl
    case Idle => IdleInv(w)
    case StartStage(snap, n, started) => StartStageInv(w, snap, n, started)
    case StartBuild(snap, n, started) => StartBuildInv(w, snap, n, started)
    case StartStart(snap, n, started) => StartStartInv(w, snap, n, started)
    case StartReady(snap, n, started) => StartReadyInv(w, snap, n, started)
    case StartPublish(snap, n, started) => StartPublishInv(w, snap, n, started)
    case StartDiscard(n, started, fin) => StartDiscardInv(w, n, started, fin)
    case FailDrain(started, k) => FailDrainInv(w, started, k)
    case FailWait(started, k, ready) => FailWaitInv(w, started, k, ready)
    case FailTake(started, k) => FailTakeInv(w, started, k)
    case FailStop(started, k, fin) => FailStopInv(w, started, k, fin)
    case FailPending(k) => FailPendingInv(w, k)
    case ReloadStage(job, n) => ReloadStageInv(w, job, n)
    case ReloadBuild(job, k) => ReloadBuildInv(w, job, k)
    case ReloadStart(job, k) => ReloadStartInv(w, job, k)
    case ReloadReady(job, k) => ReloadReadyInv(w, job, k)
    case ReloadDrain(job, k) => ReloadDrainInv(w, job, k)
    case ReloadWait(job, k, ready) => ReloadWaitInv(w, job, k, ready)
    case ReloadRollback(job, k) => ReloadRollbackInv(w, job, k)
    case ReloadDiscard(job, k, fin) => ReloadDiscardInv(w, job, k, fin)
    case ReloadCommit(job, k) => ReloadCommitInv(w, job, k)
    case ReloadPublish(job) => ReloadPublishInv(w, job)
    case ReloadResume(job, k) => ReloadResumeInv(w, job, k)
    case ReloadRetire(job, k, fin, failed) => ReloadRetireInv(w, job, k, fin, failed)
    case StopPendings(k) => StopPendingsInv(w, k)
    case StopDrain(k, failed) => StopDrainInv(w, k, failed)
    case StopWait(k, ready, failed) => StopWaitInv(w, k, ready, failed)
    case StopTake(k) => StopTakeInv(w, k)
    case StopFinal(k, role, fin, failed) => StopFinalInv(w, k, role, fin, failed)
  }

  // The swap history ------------------------------------------------------------------

  /** The component has left every instance older than slot `g` for good. */
  predicate Passed(c: Comp, g: nat) {
    c.lease.mode == L.Stopped || (c.lease.current.Some? && c.lease.current.value >= g)
  }

  predicate EntryOk(w: World, entry: map<nat, nat>) {
    forall i | i in entry :: i < |w.comps| && Passed(w.comps[i], entry[i])
  }

  predicate HistoryInv(w: World) {
    forall x | 0 <= x < |w.history| :: EntryOk(w, w.history[x])
  }

  predicate Recorded(w: World, i: nat, g: nat) {
    exists x | 0 <= x < |w.history| :: i in w.history[x] && w.history[x][i] == g
  }

  /** The component was switched by the reload in progress, which is not yet in the history. */
  predicate BeingSwitched(w: World, i: nat) {
    match w.ctl
    case ReloadCommit(job, k) => k <= |job.changed| && i in job.changed[..k]
    case ReloadPublish(job) => i in job.changed
    case _ => false
  }

  /** Every instance in service is the first one or came in by a recorded reload. */
  predicate OriginInv(w: World) {
    forall i | 0 <= i < |w.comps| && w.comps[i].lease.current.Some? ::
      w.comps[i].lease.current.value == 0 || BeingSwitched(w, i) || Recorded(w, i, w.comps[i].lease.current.value)
  }

  predicate Inv(w: World) {
    && !w.panicked
    && (forall i | 0 <= i < |w.comps| :: CompOk(w.comps[i]))
    && ControlInv(w)
    && HistoryInv(w) && OriginInv(w)
    && (w.state == Created ==> w.history == [] && !w.reached)
    && (w.state in {Running, KernelDraining, Failed} ==> w.reached)
  }
}
