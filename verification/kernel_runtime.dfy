/** The kernel itself: an object whose start, reload and stop are the source's loops over its
    component list. Every critical section performs one action of KernelMachine, so the ghost
    list `acts` is a run of the machine ending in the object's present value, and whatever is
    proved about runs holds at every point of these methods. Callers act between any two
    critical sections. The components are held here as values; KernelObjects proves the
    mutable component equal to them operation by operation. */
module KernelRuntime {
  import opened Wrappers
  import opened Finalization
  import opened Components
  import opened KernelMachine
  import opened KernelInvariant
  import opened KernelInductive
  import opened KernelReload
  import opened KernelSafety
  import L = Leases

  lemma RunSnoc(configs: seq<Config>, acts: seq<Action>, a: Action)
    ensures Run(configs, acts + [a]) == Apply(Run(configs, acts), a)
  {
    assert (acts + [a])[..|acts|] == acts;
  }

  /** No panic is reachable, so the next action of a run never panics either. */
  lemma NextIsSafe(configs: seq<Config>, acts: seq<Action>, a: Action)
    ensures Inv(Run(configs, acts)) == true
    ensures !Run(configs, acts).panicked && !Apply(Run(configs, acts), a).panicked
  {
    RunInv(configs, acts);
    RunInv(configs, acts + [a]);
    RunSnoc(configs, acts, a);
  }

  lemma CanRollbackNow(configs: seq<Config>, acts: seq<Action>, job: Job, k: nat)
    requires Run(configs, acts).ctl == ReloadRollback(job, k) && k < |job.changed|
    ensures var w := Run(configs, acts);
            job.changed[k] < |w.comps| && CanResume(w.comps[job.changed[k]])
  {
    NextIsSafe(configs, acts, Tick(true));
  }

  lemma CanCommitNow(configs: seq<Config>, acts: seq<Action>, job: Job, k: nat)
    requires Run(configs, acts).ctl == ReloadCommit(job, k) && k < |job.changed|
    ensures var w := Run(configs, acts);
            job.changed[k] < |w.comps| && CanCommit(w.comps[job.changed[k]])
  {
    NextIsSafe(configs, acts, Tick(true));
  }

  lemma CanResumeNow(configs: seq<Config>, acts: seq<Action>, job: Job, k: nat)
    requires Run(configs, acts).ctl == ReloadResume(job, k) && k < |job.changed|
    ensures var w := Run(configs, acts);
            job.changed[k] < |w.comps| && CanResume(w.comps[job.changed[k]])
  {
    NextIsSafe(configs, acts, Tick(true));
  }

  lemma CanDiscardNow(configs: seq<Config>, acts: seq<Action>, job: Job, k: nat, fin: FinStage)
    requires Run(configs, acts).ctl == ReloadDiscard(job, k, fin) && 0 < k <= |job.changed|
    ensures var w := Run(configs, acts);
            job.changed[k - 1] < |w.comps| && CanFinalize(w.comps[job.changed[k - 1]], AsCandidate)
  {
    NextIsSafe(configs, acts, Tick(true));
  }

  lemma CanRetireNow(configs: seq<Config>, acts: seq<Action>, job: Job, k: nat, fin: FinStage, failed: bool)
    requires Run(configs, acts).ctl == ReloadRetire(job, k, fin, failed) && 0 < k <= |job.changed|
    ensures var w := Run(configs, acts);
            job.changed[k - 1] < |w.comps| && CanFinalize(w.comps[job.changed[k - 1]], AsRetired)
  {
    NextIsSafe(configs, acts, Tick(true));
  }

  lemma CanDrainNow(configs: seq<Config>, acts: seq<Action>, job: Job, k: nat)
    requires Run(configs, acts).ctl == ReloadDrain(job, k) && 0 < k <= |job.changed|
    ensures job.changed[k - 1] < |Run(configs, acts).comps|
  {
    NextIsSafe(configs, acts, Tick(true));
  }

  lemma CanPublishNow(configs: seq<Config>, acts: seq<Action>, snap: Snapshot, n: nat, started: seq<nat>)
    requires Run(configs, acts).ctl == StartPublish(snap, n, started)
    ensures n < |Run(configs, acts).comps| && CanPublish(Run(configs, acts).comps[n])
  {
    NextIsSafe(configs, acts, Tick(true));
  }

  lemma CanDiscardStarting(configs: seq<Config>, acts: seq<Action>, n: nat, started: seq<nat>, fin: FinStage)
    requires Run(configs, acts).ctl == StartDiscard(n, started, fin)
    ensures n < |Run(configs, acts).comps| && CanFinalize(Run(configs, acts).comps[n], AsCandidate)
  {
    NextIsSafe(configs, acts, Tick(true));
  }

  lemma CanTakeFailing(configs: seq<Config>, acts: seq<Action>, started: seq<nat>, k: nat)
    requires Run(configs, acts).ctl == FailTake(started, k) && 0 < k <= |started|
    ensures var w := Run(configs, acts); started[k - 1] < |w.comps| && CanPrepareStop(w.comps[started[k - 1]])
  {
    NextIsSafe(configs, acts, Tick(true));
  }

  lemma CanStopFailing(configs: seq<Config>, acts: seq<Action>, started: seq<nat>, k: nat, fin: FinStage)
    requires Run(configs, acts).ctl == FailStop(started, k, fin) && 0 < k <= |started|
    ensures var w := Run(configs, acts); started[k - 1] < |w.comps| && CanFinalize(w.comps[started[k - 1]], AsStopping)
  {
    NextIsSafe(configs, acts, Tick(true));
  }

  lemma CanTakeStopping(configs: seq<Config>, acts: seq<Action>, k: nat)
    requires Run(configs, acts).ctl == StopTake(k) && 0 < k <= |Run(configs, acts).comps|
    ensures CanPrepareStop(Run(configs, acts).comps[k - 1])
  {
    NextIsSafe(configs, acts, Tick(true));
  }

  lemma CanFinalizeStopping(configs: seq<Config>, acts: seq<Action>, k: nat, role: Role, fin: FinStage, failed: bool)
    requires Run(configs, acts).ctl == StopFinal(k, role, fin, failed) && 0 < k <= |Run(configs, acts).comps|
    ensures CanFinalize(Run(configs, acts).comps[k - 1], role)
  {
    NextIsSafe(configs, acts, Tick(true));
  }

  // What the invariant says between the phases of an operation ----------------------------

  /** The changed components all stand where `s` says. */
  predicate ChangedAre(comps: seq<Comp>, job: Job, s: Status) {
    && job.before.Some? && |job.base| == |comps|
    && (forall i | i in job.changed :: i < |comps| && Is(comps[i], job.base[i], job, s))
  }

  /** Every component serves the instance, with the digest, it had before the reload. */
  predicate ServeAsBefore(comps: seq<Comp>, job: Job) {
    && job.before.Some? && |job.base| == |comps|
    && (forall i | 0 <= i < |comps| :: comps[i].lease.mode == L.Serving && Kept(comps[i], job.base[i], job.before.value))
  }

  /** The changed components before position `from` serve as before; the others drain, and still hold what they served. */
  predicate DrainingFrom(comps: seq<Comp>, job: Job, from: nat) {
    && job.before.Some? && |job.base| == |comps|
    && (forall j | 0 <= j < |job.changed| :: job.changed[j] < |comps| &&
         Is(comps[job.changed[j]], job.base[job.changed[j]], job, if j < from then SToDiscard else SToCommit))
  }

  predicate ServeAll(comps: seq<Comp>, snap: Snapshot) {
    forall i | 0 <= i < |comps| :: comps[i].lease.mode == L.Serving && Matches(comps[i], snap)
  }

  /** The first `n` components are published with their section of the snapshot. */
  predicate PublishedUpTo(comps: seq<Comp>, snap: Snapshot, n: nat) {
    forall i | 0 <= i < n :: i < |comps| && Published(comps[i]) && Matches(comps[i], snap)
  }

  /** Of component `n` nothing is left but what its finalizer refused; those before it are published. */
  predicate GivenUp(comps: seq<Comp>, n: nat) {
    && (forall i | 0 <= i < n :: i < |comps| && Published(comps[i]))
    && n < |comps| && Abandoned(comps[n])
  }

  predicate AllAbandoned(comps: seq<Comp>) {
    forall i | 0 <= i < |comps| :: Abandoned(comps[i])
  }

  predicate AllStopped(comps: seq<Comp>, started: seq<nat>) {
    forall i | i in started :: i < |comps| && comps[i].lease.mode == L.Stopped
  }

  predicate AllDrained(comps: seq<Comp>) {
    forall i | 0 <= i < |comps| :: Drained(comps[i]) && comps[i].lease.holders == map[]
  }

  /** Serving still, or draining for good; a later stop drains it again. */
  predicate AllStoppable(comps: seq<Comp>) {
    forall i | 0 <= i < |comps| :: Stoppable(comps[i])
  }

  /** Every lease is stopped and every owned instance was finalized; a clean end leaves none owned. */
  predicate AllSettled(comps: seq<Comp>, clean: bool) {
    forall i | 0 <= i < |comps| :: Settled(comps[i]) && (clean ==> NoOwners(comps[i]))
  }

  lemma ChangedStand(w: World, job: Job, s: Status)
    requires JobOk(w, job) && Range(w, job, 0, |job.changed|, s)
    ensures ChangedAre(w.comps, job, s)
  {
    forall i | i in job.changed
      ensures i < |w.comps| && Is(w.comps[i], job.base[i], job, s)
    {
      var j: nat :| j < |job.changed| && job.changed[j] == i;
      assert At(w, job, j, s);
    }
  }

  lemma PreparedNow(configs: seq<Config>, acts: seq<Action>, job: Job)
    requires Run(configs, acts).ctl == ReloadDrain(job, |job.changed|)
    ensures ChangedAre(Run(configs, acts).comps, job, SToDrain)
  {
    NextIsSafe(configs, acts, Tick(true));
    ChangedStand(Run(configs, acts), job, SToDrain);
  }

  lemma DrainedNow(configs: seq<Config>, acts: seq<Action>, job: Job)
    requires Run(configs, acts).ctl == ReloadCommit(job, 0)
    ensures ChangedAre(Run(configs, acts).comps, job, SDrained)
  {
    NextIsSafe(configs, acts, Tick(true));
    ChangedStand(Run(configs, acts), job, SDrained);
  }

  lemma DrainingStand(w: World, job: Job, from: nat)
    requires JobOk(w, job) && from <= |job.changed|
    requires Range(w, job, 0, from, SToDiscard) && Range(w, job, from, |job.changed|, SToCommit)
    ensures DrainingFrom(w.comps, job, from)
  {
    forall j | 0 <= j < |job.changed|
      ensures job.changed[j] < |w.comps|
      ensures Is(w.comps[job.changed[j]], job.base[job.changed[j]], job, if j < from then SToDiscard else SToCommit)
    {
      assert At(w, job, j, if j < from then SToDiscard else SToCommit);
    }
  }

  lemma StillDraining(configs: seq<Config>, acts: seq<Action>, job: Job, from: nat)
    requires Run(configs, acts).ctl == ReloadRollback(job, from)
    ensures DrainingFrom(Run(configs, acts).comps, job, from)
  {
    NextIsSafe(configs, acts, Tick(true));
    DrainingStand(Run(configs, acts), job, from);
  }

  lemma ServingStand(w: World, job: Job, k: nat)
    requires ReloadDiscardInv(w, job, k, FinBegin)
    ensures ServeAsBefore(w.comps, job)
  {
    forall i | 0 <= i < |w.comps|
      ensures w.comps[i].lease.mode == L.Serving && Kept(w.comps[i], job.base[i], job.before.value)
    {
      if i in job.changed {
        var j: nat :| j < |job.changed| && job.changed[j] == i;
        assert j < k - 1 ==> At(w, job, j, SToDiscard);
        assert j >= k ==> At(w, job, j, SHeld);
      } else {
        assert Untouched(w.comps[i], job.base[i], job);
      }
    }
  }

  lemma ServingAsBefore(configs: seq<Config>, acts: seq<Action>, job: Job, k: nat)
    requires Run(configs, acts).ctl == ReloadDiscard(job, k, FinBegin)
    ensures ServeAsBefore(Run(configs, acts).comps, job)
  {
    NextIsSafe(configs, acts, Tick(true));
    ServingStand(Run(configs, acts), job, k);
  }

  lemma CommittedNow(configs: seq<Config>, acts: seq<Action>, job: Job)
    requires Run(configs, acts).ctl == ReloadPublish(job)
    ensures ChangedAre(Run(configs, acts).comps, job, SToResume)
  {
    NextIsSafe(configs, acts, Tick(true));
    ChangedStand(Run(configs, acts), job, SToResume);
  }

  lemma SwitchedStand(w: World, job: Job)
    requires JobOk(w, job) && OthersHeld(w, job) && Range(w, job, 0, |job.changed|, SToRetire)
    ensures ChangedAre(w.comps, job, SToRetire) && ServeAll(w.comps, job.snap)
  {
    ChangedStand(w, job, SToRetire);
    forall i | 0 <= i < |w.comps|
      ensures w.comps[i].lease.mode == L.Serving && Matches(w.comps[i], job.snap)
    {
      if i !in job.changed {
        assert Untouched(w.comps[i], job.base[i], job);
        AgreeingMatches(w.comps[i], job.before.value, job.snap);
      }
    }
  }

  lemma ResumedNow(configs: seq<Config>, acts: seq<Action>, job: Job)
    requires Run(configs, acts).ctl == ReloadResume(job, |job.changed|)
    ensures ChangedAre(Run(configs, acts).comps, job, SToRetire)
    ensures ServeAll(Run(configs, acts).comps, job.snap)
  {
    NextIsSafe(configs, acts, Tick(true));
    SwitchedStand(Run(configs, acts), job);
  }

  lemma PublishedNow(configs: seq<Config>, acts: seq<Action>, snap: Snapshot, n: nat, started: seq<nat>)
    requires Run(configs, acts).ctl == StartStage(snap, n, started)
    ensures PublishedUpTo(Run(configs, acts).comps, snap, n)
  {
    NextIsSafe(configs, acts, Tick(true));
  }

  lemma GivenUpNow(configs: seq<Config>, acts: seq<Action>, started: seq<nat>)
    requires var w := Run(configs, acts);
             w.ctl == (if started == [] then FailPending(0) else FailDrain(started, |started|)) && |started| < |w.comps|
    ensures GivenUp(Run(configs, acts).comps, |started|)
  {
    NextIsSafe(configs, acts, Tick(true));
    var w := Run(configs, acts);
    assert started != [] ==> NeverPublished(w.comps[|started|]);
  }

  lemma StartedBefore(configs: seq<Config>, acts: seq<Action>, snap: Snapshot, n: nat, started: seq<nat>)
    requires Run(configs, acts).ctl == StartBuild(snap, n, started)
    ensures n == |started|
  {
    NextIsSafe(configs, acts, Tick(true));
  }

  lemma AbandonedNow(configs: seq<Config>, acts: seq<Action>, k: nat)
    requires Run(configs, acts).ctl == FailPending(k)
    ensures AllAbandoned(Run(configs, acts).comps)
  {
    NextIsSafe(configs, acts, Tick(true));
  }

  lemma StoppedNow(configs: seq<Config>, acts: seq<Action>, started: seq<nat>, k: nat, fin: FinStage)
    requires Run(configs, acts).ctl == FailStop(started, k, fin)
    ensures AllStopped(Run(configs, acts).comps, started)
  {
    NextIsSafe(configs, acts, Tick(true));
    var w := Run(configs, acts);
    forall i | i in started
      ensures i < |w.comps| && Taken(w.comps[i])
    {
      var j :| 0 <= j < |started| && started[j] == i;
    }
  }

  lemma DrainingNow(configs: seq<Config>, acts: seq<Action>, k: nat, failed: bool)
    requires Run(configs, acts).ctl == StopDrain(k, failed)
    ensures Run(configs, acts).state == KernelDraining && !failed
  {
    NextIsSafe(configs, acts, Tick(true));
  }

  lemma StoppableNow(configs: seq<Config>, acts: seq<Action>)
    requires Run(configs, acts).ctl.Idle? && Run(configs, acts).state == KernelDraining
    ensures AllStoppable(Run(configs, acts).comps)
  {
    NextIsSafe(configs, acts, Tick(true));
  }

  lemma AllDrainedNow(configs: seq<Config>, acts: seq<Action>)
    requires Run(configs, acts).ctl == StopTake(|Run(configs, acts).comps|)
    ensures AllDrained(Run(configs, acts).comps)
  {
    NextIsSafe(configs, acts, Tick(true));
    var w := Run(configs, acts);
    forall i | 0 <= i < |w.comps|
      ensures Drained(w.comps[i]) && w.comps[i].lease.holders == map[]
    {
      assert L.LeaseOk(w.comps[i].lease) && |w.comps[i].lease.holders| == 0;
    }
  }

  lemma SettledNow(configs: seq<Config>, acts: seq<Action>, failed: bool)
    requires Run(configs, acts).ctl == StopFinal(0, AsCandidate, FinBegin, failed)
    ensures AllSettled(Run(configs, acts).comps, !failed)
  {
    NextIsSafe(configs, acts, Tick(true));
  }

  class Kernel {
    var components: seq<Comp>
    var state: KernelState
    var snapshot: Option<Snapshot>
    ghost const configs: seq<Config>
    ghost var acts: seq<Action>
    ghost var world: World

    ghost predicate Valid()
      reads this
    {
      && world == Run(configs, acts)
      && state == world.state && snapshot == world.snapshot && components == world.comps
    }

    constructor (configs: seq<Config>)
      ensures Valid() && acts == [] && world.ctl.Idle? && state == Created && |components| == |configs|
    {
      this.configs := configs;
      components := Init(configs).comps;
      state := Created;
      snapshot := None;
      acts := [];
      world := Init(configs);
    }

    /** The action taken by the critical section just performed. */
    ghost method Record(a: Action)
      requires world == Run(configs, acts)
      modifies this`acts, this`world
      ensures world == Run(configs, acts) == Apply(old(world), a) && acts == old(acts) + [a]
      ensures !world.panicked && Inv(old(world)) == true && !old(world).panicked
    {
      NextIsSafe(configs, acts, a);
      RunSnoc(configs, acts, a);
      acts := acts + [a];
      world := Run(configs, acts);
    }

    /** The callers' critical sections between two of the kernel's own. */
    method Callers()
      requires Valid()
      modifies this
      ensures Valid() && old(acts) <= acts && |components| == |old(components)|
      ensures state == old(state) && snapshot == old(snapshot)
      ensures world.ctl == old(world.ctl) && world.outcome == old(world.outcome)
    {
      var moves: seq<(nat, nat, CallerMove)> := *;
      for k := 0 to |moves|
        invariant Valid() && old(acts) <= acts && |components| == |old(components)|
        invariant state == old(state) && snapshot == old(snapshot)
        invariant world.ctl == old(world.ctl) && world.outcome == old(world.outcome)
      {
        CallerMoves(moves[k].0, moves[k].1, moves[k].2);
      }
    }

    method CallerMoves(n: nat, user: nat, move: CallerMove)
      requires Valid()
      modifies this
      ensures Valid() && acts == old(acts) + [Caller(n, user, move)] && |components| == |old(components)|
      ensures state == old(state) && snapshot == old(snapshot)
      ensures world.ctl == old(world.ctl) && world.outcome == old(world.outcome)
    {
      NextIsSafe(configs, acts, Caller(n, user, move));
      if n < |components| {
        var l := components[n].lease;
        match move {
          case TryAcquire =>
            if L.MayAttempt(l, user) {
              components := components[n := components[n].(lease := L.Attempt(l, user))];
            }
          case Leave =>
            components := components[n := components[n].(lease := L.GiveUp(l, user))];
          case Done =>
            if user in l.holders {
              components := components[n := components[n].(lease := L.Release(l, user))];
            }
        }
      }
      Record(Caller(n, user, move));
    }

    // Start -------------------------------------------------------------------------------

    method AdmitStart(snap: Snapshot) returns (admitted: bool)
      requires Valid() && world.ctl.Idle? && state !in {KernelDraining, Failed}
      modifies this`acts, this`world
      ensures Valid() && old(acts) <= acts && admitted == (state == Created)
      ensures world.ctl == if admitted then StartStage(snap, 0, []) else Idle
      ensures !admitted ==> world.outcome == StartRefused
    {
      admitted := state == Created;
      Record(BeginStart(snap));
    }

    method StartStageOne(snap: Snapshot, n: nat, started: seq<nat>) returns (staged: Staged)
      requires Valid() && n < |components| && world.ctl == StartStage(snap, n, started)
      modifies this
      ensures Valid() && old(acts) <= acts && |components| == |old(components)|
      ensures match staged
              case StageFailed => Failing(started)
              case Unchanged => world.ctl == StartStage(snap, n + 1, started)
              case Changed => world.ctl == StartBuild(snap, n, started)
    {
      Callers();
      var decodes: bool := *;
      var (c, s) := Stage(components[n], snap, decodes);
      components, staged := components[n := c], s;
      Record(Tick(decodes));
    }

    /** Where failStart begins. */
    ghost predicate Failing(started: seq<nat>)
      reads this
    {
      world.ctl == if started == [] then FailPending(0) else FailDrain(started, |started|)
    }

    method StartBuildOne(snap: Snapshot, n: nat, started: seq<nat>) returns (built: bool)
      requires Valid() && n < |components| && world.ctl == StartBuild(snap, n, started)
      modifies this
      ensures Valid() && old(acts) <= acts && |components| == |old(components)|
      ensures world.ctl == if built then StartStart(snap, n, started) else StartDiscard(n, started, FinBegin)
    {
      Callers();
      var builds: bool := *;
      var (c, b) := Build(components[n], builds);
      components, built := components[n := if b then c else components[n]], b;
      Record(Tick(builds));
    }

    method StartStartOne(snap: Snapshot, n: nat, started: seq<nat>) returns (done: bool)
      requires Valid() && n < |components| && world.ctl == StartStart(snap, n, started)
      modifies this
      ensures Valid() && old(acts) <= acts && |components| == |old(components)|
      ensures world.ctl == if done then StartReady(snap, n, started) else StartDiscard(n, started, FinBegin)
    {
      Callers();
      var ok: bool := *;
      done := components[n].candidate.Some? && ok;
      Record(Tick(ok));
    }

    method StartReadyOne(snap: Snapshot, n: nat, started: seq<nat>) returns (done: bool)
      requires Valid() && n < |components| && world.ctl == StartReady(snap, n, started)
      modifies this
      ensures Valid() && old(acts) <= acts && |components| == |old(components)|
      ensures world.ctl == if done then StartPublish(snap, n, started) else StartDiscard(n, started, FinBegin)
    {
      Callers();
      var ok: bool := *;
      done := components[n].candidate.Some? && ok;
      Record(Tick(ok));
    }

    method StartPublishOne(snap: Snapshot, n: nat, started: seq<nat>)
      requires Valid() && n < |components| && world.ctl == StartPublish(snap, n, started)
      modifies this
      ensures Valid() && old(acts) <= acts && |components| == |old(components)|
      ensures world.ctl == StartStage(snap, n + 1, started + [n])
    {
      Callers();
      CanPublishNow(configs, acts, snap, n, started);
      components := components[n := PublishInitial(components[n])];
      Record(Tick(true));
    }

    method StartDiscardStep(n: nat, started: seq<nat>, fin: FinStage) returns (next: FinNext)
      requires Valid() && n < |components| && world.ctl == StartDiscard(n, started, fin)
      modifies this
      ensures Valid() && old(acts) <= acts && |components| == |old(components)|
      ensures if next.Again? then FinRank(next.stage) < FinRank(fin) && world.ctl == StartDiscard(n, started, next.stage)
              else Failing(started)
    {
      Callers();
      CanDiscardStarting(configs, acts, n, started, fin);
      var ok: bool := *;
      var (c, x) := FinStep(components[n], AsCandidate, fin, ok);
      components, next := components[n := c], x;
      Record(Tick(ok));
    }

    method StartDiscardOne(n: nat, started: seq<nat>)
      requires Valid() && n < |components| && world.ctl == StartDiscard(n, started, FinBegin)
      modifies this
      ensures Valid() && old(acts) <= acts && |components| == |old(components)| && Failing(started)
    {
      var next := StartDiscardStep(n, started, FinBegin);
      while next.Again?
        invariant Valid() && old(acts) <= acts && n < |components| == |old(components)|
        invariant if next.Again? then world.ctl == StartDiscard(n, started, next.stage) else Failing(started)
        decreases if next.Again? then 1 + FinRank(next.stage) else 0
      {
        next := StartDiscardStep(n, started, next.stage);
      }
    }

    /** Builds, starts, readies and publishes one component, or discards what it built. */
    method StartOne(snap: Snapshot, n: nat, started: seq<nat>) returns (done: bool)
      requires Valid() && n < |components| && world.ctl == StartBuild(snap, n, started)
      modifies this
      ensures Valid() && old(acts) <= acts && |components| == |old(components)|
      ensures if done then world.ctl == StartStage(snap, n + 1, started + [n]) && PublishedUpTo(components, snap, n + 1)
              else Failing(started) && GivenUp(components, n)
    {
      done := PrepareFirst(snap, n, started);
      if done {
        StartPublishOne(snap, n, started);
        PublishedNow(configs, acts, snap, n + 1, started + [n]);
      } else {
        StartDiscardOne(n, started);
        GivenUpNow(configs, acts, started);
      }
    }

    /** Builds one component, starts it and waits until it is ready. */
    method PrepareFirst(snap: Snapshot, n: nat, started: seq<nat>) returns (done: bool)
      requires Valid() && n < |components| && world.ctl == StartBuild(snap, n, started)
      modifies this
      ensures Valid() && old(acts) <= acts && |components| == |old(components)| && n == |started|
      ensures world.ctl == if done then StartPublish(snap, n, started) else StartDiscard(n, started, FinBegin)
    {
      StartedBefore(configs, acts, snap, n, started);
      done := StartBuildOne(snap, n, started);
      if done {
        done := StartStartOne(snap, n, started);
      }
      if done {
        done := StartReadyOne(snap, n, started);
      }
    }

    /** Starts every component in plan order. A kernel is started once, so never while it
        drains or after a failed stop. */
    method Start(snap: Snapshot) returns (outcome: Outcome)
      requires Valid() && world.ctl.Idle? && state !in {KernelDraining, Failed}
      modifies this
      ensures Valid() && world.ctl.Idle? && old(acts) <= acts && outcome == world.outcome
      ensures outcome in {Started, StartFailed, StartRefused} && (outcome == StartRefused <==> old(state) != Created)
      ensures outcome == Started ==>
                && state == Running && snapshot == Some(snap)
                && forall i | 0 <= i < |components| :: components[i].lease.mode == L.Serving && Matches(components[i], snap)
      ensures outcome == StartFailed ==> state == KernelStopped
    {
      var admitted := AdmitStart(snap);
      if !admitted {
        return StartRefused;
      }
      var started: seq<nat> := [];
      var n := 0;
      while n < |components|
        invariant n <= |components| && Valid() && old(acts) <= acts && world.ctl == StartStage(snap, n, started)
      {
        var staged := StartNext(snap, n, started);
        if staged == StageFailed {
          outcome := FailStart(started);
          return;
        }
        started := if staged == Changed then started + [n] else started;
        n := n + 1;
      }
      outcome := Publish(snap, started);
    }

    /** Stages the next component and, if it is configured, starts it. */
    method StartNext(snap: Snapshot, n: nat, started: seq<nat>) returns (staged: Staged)
      requires Valid() && n < |components| && world.ctl == StartStage(snap, n, started)
      modifies this
      ensures Valid() && old(acts) <= acts
      ensures match staged
              case StageFailed => Failing(started)
              case Unchanged => |components| == |old(components)| && world.ctl == StartStage(snap, n + 1, started)
              case Changed => |components| == |old(components)| && world.ctl == StartStage(snap, n + 1, started + [n])
    {
      staged := StartStageOne(snap, n, started);
      if staged == Changed {
        var done := StartOne(snap, n, started);
        staged := if done then Changed else StageFailed;
      }
    }

    method Publish(snap: Snapshot, started: seq<nat>) returns (outcome: Outcome)
      requires Valid() && world.ctl == StartStage(snap, |components|, started)
      modifies this
      ensures Valid() && world.ctl.Idle? && old(acts) <= acts && outcome == world.outcome == Started
      ensures state == Running && snapshot == Some(snap)
      ensures forall i | 0 <= i < |components| :: components[i].lease.mode == L.Serving && Matches(components[i], snap)
    {
      Callers();
      snapshot := Some(snap);
      state := Running;
      Record(Tick(true));
      forall i | 0 <= i < |components|
        ensures components[i].lease.mode == L.Serving && Matches(components[i], snap)
      {
        SnapshotIsServed(configs, acts, i);
      }
      return Started;
    }

    method FailDrainOne(started: seq<nat>, k: nat) returns (drained: bool)
      requires Valid() && 0 < k <= |started| && world.ctl == FailDrain(started, k)
      modifies this
      ensures Valid() && old(acts) <= acts
      ensures world.ctl == if drained then FailDrain(started, k - 1) else FailPending(0)
    {
      var ready := FailBeginDrain(started, k);
      if ready.None? {
        return false;
      }
      drained := FailAwaitDrain(started, k, ready.value);
    }

    method FailBeginDrain(started: seq<nat>, k: nat) returns (ready: Option<nat>)
      requires Valid() && 0 < k <= |started| && world.ctl == FailDrain(started, k)
      modifies this
      ensures Valid() && old(acts) <= acts && started[k - 1] < |components|
      ensures world.ctl == if ready.Some? then FailWait(started, k, ready.value) else FailPending(0)
    {
      Callers();
      NextIsSafe(configs, acts, Tick(true));
      var (c, r) := BeginDrain(components[started[k - 1]], false);
      components, ready := if r.Some? then components[started[k - 1] := c] else components, r;
      Record(Tick(true));
    }

    method FailAwaitDrain(started: seq<nat>, k: nat, ready: nat) returns (drained: bool)
      requires Valid() && 0 < k <= |started| && started[k - 1] < |components| && world.ctl == FailWait(started, k, ready)
      modifies this
      ensures Valid() && old(acts) <= acts
      ensures world.ctl == if drained then FailDrain(started, k - 1) else FailPending(0)
    {
      Callers();
      drained := *;
      drained := drained && ChannelClosed(components[started[k - 1]], ready);
      Record(Tick(drained));
    }

    method FailTakeOne(started: seq<nat>, k: nat)
      requires Valid() && 0 < k <= |started| && world.ctl == FailTake(started, k)
      modifies this
      ensures Valid() && old(acts) <= acts && world.ctl == FailTake(started, k - 1)
    {
      Callers();
      CanTakeFailing(configs, acts, started, k);
      components := components[started[k - 1] := PrepareStop(components[started[k - 1]])];
      Record(Tick(true));
    }

    method FailStopStep(started: seq<nat>, k: nat, fin: FinStage) returns (next: FinNext)
      requires Valid() && 0 < k <= |started| && world.ctl == FailStop(started, k, fin)
      modifies this
      ensures Valid() && old(acts) <= acts && (next.Again? ==> FinRank(next.stage) < FinRank(fin))
      ensures world.ctl == if next.Again? then FailStop(started, k, next.stage) else FailStop(started, k - 1, FinBegin)
    {
      Callers();
      CanStopFailing(configs, acts, started, k, fin);
      var ok: bool := *;
      var (c, x) := FinStep(components[started[k - 1]], AsStopping, fin, ok);
      components, next := components[started[k - 1] := c], x;
      Record(Tick(ok));
    }

    /** Undoes the components already started; whatever cannot be drained is left to itself. */
    method StopStarted(started: seq<nat>) returns (drained: bool)
      requires Valid() && Failing(started)
      modifies this
      ensures Valid() && old(acts) <= acts && world.ctl == FailPending(0)
      ensures AllAbandoned(components) && (drained ==> AllStopped(components, started))
    {
      drained := started == [];
      if !drained {
        drained := DrainStarted(started);
        if drained {
          StopTaken(started);
        }
      }
      AbandonedNow(configs, acts, 0);
    }

    method DrainStarted(started: seq<nat>) returns (drained: bool)
      requires Valid() && world.ctl == FailDrain(started, |started|)
      modifies this
      ensures Valid() && old(acts) <= acts && world.ctl == if drained then FailDrain(started, 0) else FailPending(0)
    {
      var k := |started|;
      while k > 0
        invariant 0 <= k <= |started| && Valid() && old(acts) <= acts && world.ctl == FailDrain(started, k)
      {
        drained := FailDrainOne(started, k);
        if !drained {
          return;
        }
        k := k - 1;
      }
      return true;
    }

    method StopTaken(started: seq<nat>)
      requires Valid() && world.ctl == FailDrain(started, 0)
      modifies this
      ensures Valid() && old(acts) <= acts && world.ctl == FailPending(0) && AllStopped(components, started)
    {
      TakeStarted(started);
      Record(Tick(true));
      FinalizeTaken(started);
    }

    method TakeStarted(started: seq<nat>)
      requires Valid() && world.ctl == FailDrain(started, 0)
      modifies this
      ensures Valid() && old(acts) <= acts && world.ctl == FailTake(started, 0)
    {
      Record(Tick(true));
      var k := |started|;
      while k > 0
        invariant 0 <= k <= |started| && Valid() && old(acts) <= acts && world.ctl == FailTake(started, k)
      {
        FailTakeOne(started, k);
        k := k - 1;
      }
    }

    method FinalizeTaken(started: seq<nat>)
      requires Valid() && world.ctl == FailStop(started, |started|, FinBegin)
      modifies this
      ensures Valid() && old(acts) <= acts && world.ctl == FailPending(0) && AllStopped(components, started)
    {
      var k, fin := |started|, FinBegin;
      while k > 0
        invariant 0 <= k <= |started| && Valid() && old(acts) <= acts && world.ctl == FailStop(started, k, fin)
        decreases k, FinRank(fin)
      {
        var next := FailStopStep(started, k, fin);
        match next
        case Again(stage) => fin := stage;
        case Finished(_) => k, fin := k - 1, FinBegin;
      }
      StoppedNow(configs, acts, started, 0, fin);
      Record(Tick(true));
    }

    method FailPendingOne(k: nat)
      requires Valid() && k < |components| && world.ctl == FailPending(k)
      modifies this
      ensures Valid() && old(acts) <= acts && |components| == |old(components)| && world.ctl == FailPending(k + 1)
    {
      Callers();
      NextIsSafe(configs, acts, Tick(true));
      components := components[k := components[k].(lease := L.StopPending(components[k].lease))];
      Record(Tick(true));
    }

    method FailPendings()
      requires Valid() && world.ctl == FailPending(0)
      modifies this
      ensures Valid() && old(acts) <= acts && world.ctl == FailPending(|components|)
    {
      var k := 0;
      while k < |components|
        invariant k <= |components| && Valid() && old(acts) <= acts && world.ctl == FailPending(k)
      {
        FailPendingOne(k);
        k := k + 1;
      }
    }

    method FailStart(started: seq<nat>) returns (outcome: Outcome)
      requires Valid() && Failing(started)
      modifies this
      ensures Valid() && world.ctl.Idle? && old(acts) <= acts && outcome == world.outcome == StartFailed
      ensures state == KernelStopped && AllAbandoned(components)
    {
      var _ := StopStarted(started);
      FailPendings();
      FinishFailedStart();
      return StartFailed;
    }

    method FinishFailedStart()
      requires Valid() && world.ctl == FailPending(|components|)
      modifies this
      ensures Valid() && world.ctl.Idle? && old(acts) <= acts && world.outcome == StartFailed
      ensures state == KernelStopped && AllAbandoned(components)
    {
      Callers();
      AbandonedNow(configs, acts, |components|);
      state := KernelStopped;
      Record(Tick(true));
    }

    // Reload ------------------------------------------------------------------------------

    /** A critical section of a reload: the reload goes on, or returns with its result. */
    ghost method RecordReload(ok: bool, job: Job)
      requires world == Run(configs, acts) && JobOf(world.ctl) == Some(job)
      modifies this`acts, this`world
      ensures world == Run(configs, acts) == Apply(old(world), Tick(ok)) && acts == old(acts) + [Tick(ok)]
      ensures !world.panicked
      ensures world.ctl.Idle? ==> ReloadResult(job.base, job.before, job.snap, world)
    {
      ghost var w := world;
      Record(Tick(ok));
      ReloadGoesOn(w, Tick(ok));
    }

    method StageOne(snap: Snapshot, n: nat, ghost job: Job) returns (staged: Staged, restarts: bool)
      requires Valid() && n < |components| && world.ctl == ReloadStage(job, n) && job.snap == snap
      modifies this
      ensures Valid() && old(acts) <= acts && |components| == |old(components)|
      ensures staged == StageFailed ==>
                world.ctl.Idle? && world.outcome == ReloadRejected && ReloadResult(job.base, job.before, snap, world)
      ensures staged == Unchanged ==> world.ctl == ReloadStage(job, n + 1)
      ensures staged == Changed ==> world.ctl == ReloadStage(job.(changed := job.changed + [n],
           restart := if restarts then job.restart + [n] else job.restart), n + 1)
    {
      Callers();
      var decodes: bool := *;
      var (c, s) := Stage(components[n], snap, decodes);
      components, staged, restarts := components[n := c], s, c.restartRequired;
      RecordReload(decodes, job);
    }

    method StageEnd(snap: Snapshot, changed: seq<nat>, restart: seq<nat>, ghost job: Job) returns (outcome: Outcome)
      requires Valid() && world.ctl == ReloadStage(job, |components|)
      requires job.snap == snap && job.changed == changed && job.restart == restart
      modifies this
      ensures Valid() && old(acts) <= acts
      ensures outcome != NoOutcome ==>
                world.ctl.Idle? && world.outcome == outcome && ReloadResult(job.base, job.before, snap, world)
      ensures outcome == NoOutcome ==> world.ctl == ReloadBuild(job, 0)
    {
      Callers();
      if |restart| > 0 {
        outcome := ReloadRestart(restart);
      } else if |changed| == 0 {
        snapshot := Some(snap);
        outcome := ReloadUnchanged;
      } else {
        outcome := NoOutcome;
      }
      RecordReload(true, job);
    }

    /** Compares every component with the candidate snapshot. */
    method StageAll(snap: Snapshot, ghost job0: Job) returns (changed: seq<nat>, outcome: Outcome, ghost job: Job)
      requires Valid() && world.ctl == ReloadStage(job0, 0) && job0.snap == snap && job0.changed == job0.restart == []
      modifies this
      ensures Valid() && old(acts) <= acts
      ensures job == job0.(changed := changed, restart := job.restart)
      ensures outcome != NoOutcome ==>
                world.ctl.Idle? && world.outcome == outcome && ReloadResult(job.base, job.before, snap, world)
      ensures outcome == NoOutcome ==> world.ctl == ReloadBuild(job, 0)
    {
      changed, job := [], job0;
      var restart: seq<nat> := [];
      var n := 0;
      while n < |components|
        invariant n <= |components| && Valid() && old(acts) <= acts
        invariant world.ctl == ReloadStage(job, n) && job == job0.(changed := changed, restart := restart)
      {
        var staged, restarts := StageOne(snap, n, job);
        if staged == StageFailed {
          outcome := ReloadRejected;
          return;
        }
        if staged == Changed {
          changed := changed + [n];
          restart := if restarts then restart + [n] else restart;
          job := job.(changed := changed, restart := restart);
        }
        n := n + 1;
      }
      outcome := StageEnd(snap, changed, restart, job);
    }

    /** Builds, starts and readies the candidate of one changed component. */
    method PrepareOne(changed: seq<nat>, k: nat, ghost job: Job) returns (ready: bool)
      requires Valid() && k < |changed| && world.ctl == ReloadBuild(job, k) && job.changed == changed
      modifies this
      ensures Valid() && old(acts) <= acts && |components| == |old(components)|
      ensures world.ctl == if ready then ReloadBuild(job, k + 1) else ReloadDiscard(job, k + 1, FinBegin)
    {
      ready := BuildOne(changed, k, job);
      if ready {
        ready := StartCandidate(changed, k, job);
      }
      if ready {
        ready := ReadyCandidate(changed, k, job);
      }
    }

    method BuildOne(changed: seq<nat>, k: nat, ghost job: Job) returns (built: bool)
      requires Valid() && k < |changed| && world.ctl == ReloadBuild(job, k) && job.changed == changed
      modifies this
      ensures Valid() && old(acts) <= acts && |components| == |old(components)|
      ensures world.ctl == if built then ReloadStart(job, k) else ReloadDiscard(job, k + 1, FinBegin)
      ensures changed[k] < |components|
    {
      Callers();
      var builds: bool := *;
      NextIsSafe(configs, acts, Tick(builds));
      var (c, b) := Build(components[changed[k]], builds);
      components, built := if b then components[changed[k] := c] else components, b;
      RecordReload(builds, job);
    }

    method StartCandidate(changed: seq<nat>, k: nat, ghost job: Job) returns (started: bool)
      requires Valid() && k < |changed| && world.ctl == ReloadStart(job, k) && job.changed == changed
      requires changed[k] < |components|
      modifies this
      ensures Valid() && old(acts) <= acts && |components| == |old(components)|
      ensures world.ctl == if started then ReloadReady(job, k) else ReloadDiscard(job, k + 1, FinBegin)
    {
      Callers();
      var starts: bool := *;
      started := components[changed[k]].candidate.Some? && starts;
      RecordReload(starts, job);
    }

    method ReadyCandidate(changed: seq<nat>, k: nat, ghost job: Job) returns (ready: bool)
      requires Valid() && k < |changed| && world.ctl == ReloadReady(job, k) && job.changed == changed
      requires changed[k] < |components|
      modifies this
      ensures Valid() && old(acts) <= acts && |components| == |old(components)|
      ensures world.ctl == if ready then ReloadBuild(job, k + 1) else ReloadDiscard(job, k + 1, FinBegin)
    {
      Callers();
      var isReady: bool := *;
      ready := components[changed[k]].candidate.Some? && isReady;
      RecordReload(isReady, job);
    }

    /** Prepares every changed component, or stops at the first that cannot be. */
    method PrepareAll(changed: seq<nat>, ghost job: Job) returns (failed: bool, count: nat)
      requires Valid() && world.ctl == ReloadBuild(job, 0) && job.changed == changed
      modifies this
      ensures Valid() && old(acts) <= acts && count <= |changed|
      ensures world.ctl == if failed then ReloadDiscard(job, count, FinBegin) else ReloadDrain(job, |changed|)
      ensures if failed then ServeAsBefore(components, job) else ChangedAre(components, job, SToDrain)
    {
      var k := 0;
      while k < |changed|
        invariant k <= |changed| && Valid() && old(acts) <= acts && world.ctl == ReloadBuild(job, k)
      {
        var ready := PrepareOne(changed, k, job);
        if !ready {
          ServingAsBefore(configs, acts, job, k + 1);
          return true, k + 1;
        }
        k := k + 1;
      }
      RecordReload(true, job);
      PreparedNow(configs, acts, job);
      return false, |changed|;
    }

    /** Starts draining one component and waits for its callers, or for the deadline. */
    method DrainOne(changed: seq<nat>, k: nat, ghost job: Job) returns (drained: bool, from: nat)
      requires Valid() && 0 < k <= |changed| && world.ctl == ReloadDrain(job, k) && job.changed == changed
      modifies this
      ensures Valid() && old(acts) <= acts && from <= |changed|
      ensures world.ctl == if drained then ReloadDrain(job, k - 1) else ReloadRollback(job, from)
    {
      var ready := BeginDrainOne(changed, k, job);
      if ready.None? {
        return false, k;
      }
      drained := AwaitDrain(changed, k, ready.value, job);
      from := k - 1;
    }

    method BeginDrainOne(changed: seq<nat>, k: nat, ghost job: Job) returns (ready: Option<nat>)
      requires Valid() && 0 < k <= |changed| && world.ctl == ReloadDrain(job, k) && job.changed == changed
      modifies this
      ensures Valid() && old(acts) <= acts && changed[k - 1] < |components|
      ensures world.ctl == if ready.Some? then ReloadWait(job, k, ready.value) else ReloadRollback(job, k)
    {
      Callers();
      CanDrainNow(configs, acts, job, k);
      var (c, r) := BeginDrain(components[changed[k - 1]], false);
      components, ready := if r.Some? then components[changed[k - 1] := c] else components, r;
      RecordReload(true, job);
    }

    /** The select of the drain loop: after any moves of the callers, either the channel is
        closed and was picked, or the deadline was. */
    method AwaitDrain(changed: seq<nat>, k: nat, ready: nat, ghost job: Job) returns (drained: bool)
      requires Valid() && 0 < k <= |changed| && world.ctl == ReloadWait(job, k, ready) && job.changed == changed
      requires changed[k - 1] < |components|
      modifies this
      ensures Valid() && old(acts) <= acts
      ensures world.ctl == if drained then ReloadDrain(job, k - 1) else ReloadRollback(job, k - 1)
    {
      Callers();
      drained := *;
      drained := drained && ChannelClosed(components[changed[k - 1]], ready);
      RecordReload(drained, job);
    }

    method DrainAll(changed: seq<nat>, ghost job: Job) returns (drained: bool, from: nat)
      requires Valid() && world.ctl == ReloadDrain(job, |changed|) && job.changed == changed
      modifies this
      ensures Valid() && old(acts) <= acts && from <= |changed|
      ensures world.ctl == if drained then ReloadCommit(job, 0) else ReloadRollback(job, from)
      ensures if drained then ChangedAre(components, job, SDrained) else DrainingFrom(components, job, from)
    {
      var k := |changed|;
      while k > 0
        invariant 0 <= k <= |changed| && Valid() && old(acts) <= acts && world.ctl == ReloadDrain(job, k)
      {
        drained, from := DrainOne(changed, k, job);
        if !drained {
          StillDraining(configs, acts, job, from);
          return;
        }
        k := k - 1;
      }
      RecordReload(true, job);
      DrainedNow(configs, acts, job);
      return true, 0;
    }

    method RollbackOne(changed: seq<nat>, k: nat, ghost job: Job)
      requires Valid() && k < |changed| && world.ctl == ReloadRollback(job, k) && job.changed == changed
      modifies this
      ensures Valid() && old(acts) <= acts && world.ctl == ReloadRollback(job, k + 1)
    {
      Callers();
      CanRollbackNow(configs, acts, job, k);
      components := components[changed[k] := Rollback(components[changed[k]])];
      RecordReload(true, job);
    }

    method RollbackAll(changed: seq<nat>, from: nat, ghost job: Job)
      requires Valid() && from <= |changed| && world.ctl == ReloadRollback(job, from) && job.changed == changed
      modifies this
      ensures Valid() && old(acts) <= acts && world.ctl == ReloadDiscard(job, |changed|, FinBegin)
      ensures ServeAsBefore(components, job)
    {
      var k := from;
      while k < |changed|
        invariant k <= |changed| && Valid() && old(acts) <= acts && world.ctl == ReloadRollback(job, k)
      {
        RollbackOne(changed, k, job);
        k := k + 1;
      }
      RecordReload(true, job);
      ServingAsBefore(configs, acts, job, |changed|);
    }

    /** One critical section, or one finalizer call, of discarding a candidate. */
    method DiscardStep(changed: seq<nat>, k: nat, fin: FinStage, ghost job: Job) returns (next: FinNext)
      requires Valid() && 0 < k <= |changed| && world.ctl == ReloadDiscard(job, k, fin) && job.changed == changed
      modifies this
      ensures Valid() && old(acts) <= acts && (next.Again? ==> FinRank(next.stage) < FinRank(fin))
      ensures world.ctl == if next.Again? then ReloadDiscard(job, k, next.stage) else ReloadDiscard(job, k - 1, FinBegin)
    {
      Callers();
      var ok: bool := *;
      CanDiscardNow(configs, acts, job, k, fin);
      var (c, n) := FinStep(components[changed[k - 1]], AsCandidate, fin, ok);
      components, next := components[changed[k - 1] := c], n;
      RecordReload(ok, job);
    }

    /** Discards the first `count` candidates, last one first, and gives the reload up. */
    method DiscardAll(changed: seq<nat>, count: nat, ghost job: Job) returns (outcome: Outcome)
      requires Valid() && count <= |changed| && world.ctl == ReloadDiscard(job, count, FinBegin) && job.changed == changed
      modifies this
      ensures Valid() && old(acts) <= acts
      ensures world.ctl.Idle? && world.outcome == outcome && ReloadResult(job.base, job.before, job.snap, world)
    {
      var k, fin := count, FinBegin;
      while k > 0
        invariant 0 <= k <= |changed| && Valid() && old(acts) <= acts && world.ctl == ReloadDiscard(job, k, fin)
        decreases k, FinRank(fin)
      {
        var next := DiscardStep(changed, k, fin, job);
        match next
        case Again(stage) => fin := stage;
        case Finished(_) => k, fin := k - 1, FinBegin;
      }
      RecordReload(true, job);
      return ReloadRejected;
    }

    method CommitOne(changed: seq<nat>, k: nat, ghost job: Job)
      requires Valid() && k < |changed| && world.ctl == ReloadCommit(job, k) && job.changed == changed
      modifies this
      ensures Valid() && old(acts) <= acts && world.ctl == ReloadCommit(job, k + 1)
    {
      Callers();
      CanCommitNow(configs, acts, job, k);
      components := components[changed[k] := Commit(components[changed[k]])];
      RecordReload(true, job);
    }

    /** The point of no return: every drained component takes its candidate. */
    method CommitAll(snap: Snapshot, changed: seq<nat>, ghost job: Job)
      requires Valid() && world.ctl == ReloadCommit(job, 0) && job.changed == changed && job.snap == snap
      modifies this
      ensures Valid() && old(acts) <= acts && world.ctl == ReloadPublish(job)
      ensures ChangedAre(components, job, SToResume)
    {
      var k := 0;
      while k < |changed|
        invariant k <= |changed| && Valid() && old(acts) <= acts && world.ctl == ReloadCommit(job, k)
      {
        CommitOne(changed, k, job);
        k := k + 1;
      }
      RecordReload(true, job);
      CommittedNow(configs, acts, job);
    }

    method PublishSnapshot(snap: Snapshot, ghost job: Job)
      requires Valid() && world.ctl == ReloadPublish(job) && job.snap == snap
      modifies this
      ensures Valid() && old(acts) <= acts && world.ctl == ReloadResume(job, 0)
    {
      Callers();
      snapshot := Some(snap);
      RecordReload(true, job);
    }

    method ResumeOne(changed: seq<nat>, k: nat, ghost job: Job)
      requires Valid() && k < |changed| && world.ctl == ReloadResume(job, k) && job.changed == changed
      modifies this
      ensures Valid() && old(acts) <= acts && world.ctl == ReloadResume(job, k + 1)
    {
      Callers();
      CanResumeNow(configs, acts, job, k);
      components := components[changed[k] := Resume(components[changed[k]])];
      RecordReload(true, job);
    }

    method ResumeAll(changed: seq<nat>, ghost job: Job)
      requires Valid() && world.ctl == ReloadResume(job, 0) && job.changed == changed
      modifies this
      ensures Valid() && old(acts) <= acts && world.ctl == ReloadRetire(job, |changed|, FinBegin, false)
      ensures ChangedAre(components, job, SToRetire) && ServeAll(components, job.snap)
    {
      var k := 0;
      while k < |changed|
        invariant k <= |changed| && Valid() && old(acts) <= acts && world.ctl == ReloadResume(job, k)
      {
        ResumeOne(changed, k, job);
        k := k + 1;
      }
      ResumedNow(configs, acts, job);
      RecordReload(true, job);
    }

    method RetireStep(changed: seq<nat>, k: nat, fin: FinStage, failed: bool, ghost job: Job) returns (next: FinNext)
      requires Valid() && 0 < k <= |changed| && world.ctl == ReloadRetire(job, k, fin, failed) && job.changed == changed
      modifies this
      ensures Valid() && old(acts) <= acts && (next.Again? ==> FinRank(next.stage) < FinRank(fin))
      ensures world.ctl == if next.Again? then ReloadRetire(job, k, next.stage, failed)
                           else ReloadRetire(job, k - 1, FinBegin, failed || next.failed)
    {
      Callers();
      var ok: bool := *;
      CanRetireNow(configs, acts, job, k, fin, failed);
      var (c, n) := FinStep(components[changed[k - 1]], AsRetired, fin, ok);
      components, next := components[changed[k - 1] := c], n;
      RecordReload(ok, job);
    }

    /** Finalizes what the changed components served before, in reverse. */
    method RetireAll(changed: seq<nat>, ghost job: Job) returns (outcome: Outcome)
      requires Valid() && world.ctl == ReloadRetire(job, |changed|, FinBegin, false) && job.changed == changed
      modifies this
      ensures Valid() && old(acts) <= acts
      ensures world.ctl.Idle? && world.outcome == outcome && ReloadResult(job.base, job.before, job.snap, world)
    {
      var k, fin, failed := |changed|, FinBegin, false;
      while k > 0
        invariant 0 <= k <= |changed| && Valid() && old(acts) <= acts && world.ctl == ReloadRetire(job, k, fin, failed)
        decreases k, FinRank(fin)
      {
        var next := RetireStep(changed, k, fin, failed, job);
        match next
        case Again(stage) => fin := stage;
        case Finished(f) => k, fin, failed := k - 1, FinBegin, failed || f;
      }
      RecordReload(true, job);
      return if failed then ReloadCommittedCleanup else ReloadApplied;
    }

    method AdmitReload(snap: Snapshot) returns (admitted: bool)
      requires Valid() && world.ctl.Idle?
      modifies this`acts, this`world
      ensures Valid() && old(acts) <= acts && admitted == (state == Running)
      ensures admitted ==> world.ctl == ReloadStage(Job(snap, [], [], Bases(components), snapshot), 0)
      ensures !admitted ==> world.ctl.Idle? && world.outcome == ReloadRefused
    {
      admitted := state == Running;
      Record(BeginReload(snap));
    }

    /** A reload, with callers acting between any two of its critical sections, is all or
        nothing. */
    method Reload(snap: Snapshot) returns (outcome: Outcome)
      requires Valid() && world.ctl.Idle?
      modifies this
      ensures Valid() && world.ctl.Idle? && old(acts) <= acts && outcome == world.outcome
      ensures old(state) != Running ==>
                outcome == ReloadRefused && state == old(state) && snapshot == old(snapshot) && components == old(components)
      ensures old(state) == Running ==> ReloadResult(old(Bases(components)), old(snapshot), snap, world)
    {
      ghost var job := Job(snap, [], [], Bases(components), snapshot);
      var admitted := AdmitReload(snap);
      if !admitted {
        return ReloadRefused;
      }
      var changed: seq<nat>;
      changed, outcome, job := StageAll(snap, job);
      if outcome != NoOutcome {
        return;
      }
      var failed, count := PrepareAll(changed, job);
      if failed {
        outcome := DiscardAll(changed, count, job);
        return;
      }
      outcome := SwapAll(snap, changed, job);
    }

    /** Drains the changed components and switches all of them, or none. */
    method SwapAll(snap: Snapshot, changed: seq<nat>, ghost job: Job) returns (outcome: Outcome)
      requires Valid() && world.ctl == ReloadDrain(job, |changed|) && job.changed == changed && job.snap == snap
      modifies this
      ensures Valid() && old(acts) <= acts
      ensures world.ctl.Idle? && world.outcome == outcome && ReloadResult(job.base, job.before, snap, world)
    {
      var drained, from := DrainAll(changed, job);
      if !drained {
        RollbackAll(changed, from, job);
        outcome := DiscardAll(changed, |changed|, job);
        return;
      }
      Switch(snap, changed, job);
      outcome := RetireAll(changed, job);
    }

    method Switch(snap: Snapshot, changed: seq<nat>, ghost job: Job)
      requires Valid() && world.ctl == ReloadCommit(job, 0) && job.changed == changed && job.snap == snap
      modifies this
      ensures Valid() && old(acts) <= acts && world.ctl == ReloadRetire(job, |changed|, FinBegin, false)
    {
      CommitAll(snap, changed, job);
      PublishSnapshot(snap, job);
      ResumeAll(changed, job);
    }

    // Stop --------------------------------------------------------------------------------

    /** Where an admitted stop continues. */
    ghost predicate Stopping(was: KernelState)
      reads this
    {
      match was
      case KernelStopped => world.ctl.Idle? && world.outcome == StopDone && state == KernelStopped
      case Created => world.ctl == StopPendings(0) && state == KernelStopped
      case Failed => world.ctl == StopFinal(|components|, AsCandidate, FinBegin, false) && state == Failed
      case Running => world.ctl == StopDrain(|components|, false) && state == KernelDraining
      case KernelDraining => world.ctl == StopDrain(|components|, false) && state == KernelDraining
    }

    method AdmitStop()
      requires Valid() && world.ctl.Idle?
      modifies this
      ensures Valid() && old(acts) <= acts && Stopping(old(state))
    {
      if state == Created {
        state := KernelStopped;
      } else if state == Running {
        state := KernelDraining;
      }
      Record(BeginStop);
    }

    method StopPendingOne(k: nat)
      requires Valid() && k < |components| && world.ctl == StopPendings(k)
      modifies this
      ensures Valid() && old(acts) <= acts && world.ctl == StopPendings(k + 1)
      ensures |components| == |old(components)| && state == old(state)
    {
      Callers();
      NextIsSafe(configs, acts, Tick(true));
      components := components[k := components[k].(lease := L.StopPending(components[k].lease))];
      Record(Tick(true));
    }

    method StopUnstarted() returns (outcome: Outcome)
      requires Valid() && world.ctl == StopPendings(0)
      modifies this
      ensures Valid() && world.ctl.Idle? && old(acts) <= acts && outcome == world.outcome == StopDone && state == old(state)
    {
      var k := 0;
      while k < |components|
        invariant k <= |components| && Valid() && old(acts) <= acts && world.ctl == StopPendings(k) && state == old(state)
      {
        StopPendingOne(k);
        k := k + 1;
      }
      Record(Tick(true));
      return StopDone;
    }

    /** Starts one terminal drain; a component that cannot drain does not hold up the rest. */
    method StopBeginDrain(k: nat, failed: bool) returns (ready: Option<nat>)
      requires Valid() && 0 < k <= |components| && world.ctl == StopDrain(k, failed)
      modifies this
      ensures Valid() && old(acts) <= acts && |components| == |old(components)| && state == old(state)
      ensures world.ctl == if ready.Some? then StopWait(k, ready.value, failed) else StopDrain(k - 1, true)
    {
      Callers();
      var (c, r) := BeginDrain(components[k - 1], true);
      components, ready := if r.Some? then components[k - 1 := c] else components, r;
      Record(Tick(true));
    }

    method StopAwaitDrain(k: nat, ready: nat, failed: bool) returns (drained: bool)
      requires Valid() && 0 < k <= |components| && world.ctl == StopWait(k, ready, failed)
      modifies this
      ensures Valid() && old(acts) <= acts && |components| == |old(components)| && state == old(state)
      ensures if drained then world.ctl == StopDrain(k - 1, failed) else world.ctl.Idle? && world.outcome == StopIncomplete
    {
      Callers();
      drained := *;
      drained := drained && ChannelClosed(components[k - 1], ready);
      Record(Tick(drained));
    }

    method StopDrainOne(k: nat, was: bool) returns (failed: bool, timedOut: bool)
      requires Valid() && 0 < k <= |components| && world.ctl == StopDrain(k, was)
      modifies this
      ensures Valid() && old(acts) <= acts && |components| == |old(components)| && state == old(state)
      ensures if timedOut then world.ctl.Idle? && world.outcome == StopIncomplete else world.ctl == StopDrain(k - 1, failed)
    {
      var ready := StopBeginDrain(k, was);
      if ready.None? {
        return true, false;
      }
      var drained := StopAwaitDrain(k, ready.value, was);
      return was, !drained;
    }

    method DrainForStop() returns (drained: bool)
      requires Valid() && world.ctl == StopDrain(|components|, false)
      modifies this
      ensures Valid() && old(acts) <= acts && state == old(state)
      ensures if drained then world.ctl == StopTake(|components|) else world.ctl.Idle? && world.outcome == StopIncomplete
      ensures if drained then AllDrained(components) else AllStoppable(components)
    {
      DrainingNow(configs, acts, |components|, false);
      var k, failed, timedOut := |components|, false, false;
      while k > 0
        invariant 0 <= k <= |components| && Valid() && old(acts) <= acts && world.ctl == StopDrain(k, failed) && state == old(state)
      {
        failed, timedOut := StopDrainOne(k, failed);
        if timedOut {
          StoppableNow(configs, acts);
          return false;
        }
        k := k - 1;
      }
      DrainingNow(configs, acts, 0, failed);
      Record(Tick(true));
      AllDrainedNow(configs, acts);
      return true;
    }

    method StopTakeOne(k: nat)
      requires Valid() && 0 < k <= |components| && world.ctl == StopTake(k)
      modifies this
      ensures Valid() && old(acts) <= acts && world.ctl == StopTake(k - 1) && |components| == |old(components)|
    {
      Callers();
      CanTakeStopping(configs, acts, k);
      components := components[k - 1 := PrepareStop(components[k - 1])];
      Record(Tick(true));
    }

    method TakeAll()
      requires Valid() && world.ctl == StopTake(|components|)
      modifies this
      ensures Valid() && old(acts) <= acts && world.ctl == StopFinal(|components|, AsCandidate, FinBegin, false)
    {
      var k := |components|;
      while k > 0
        invariant 0 <= k <= |components| && Valid() && old(acts) <= acts && world.ctl == StopTake(k)
      {
        StopTakeOne(k);
        k := k - 1;
      }
      Record(Tick(true));
    }

    method StopFinalStep(k: nat, role: Role, fin: FinStage, failed: bool) returns (next: FinNext)
      requires Valid() && 0 < k <= |components| && world.ctl == StopFinal(k, role, fin, failed)
      modifies this
      ensures Valid() && old(acts) <= acts && |components| == |old(components)|
      ensures next.Again? ==> FinRank(next.stage) < FinRank(fin) && world.ctl == StopFinal(k, role, next.stage, failed)
      ensures next.Finished? ==> world.ctl == match role
                                              case AsCandidate => StopFinal(k, AsRetired, FinBegin, failed || next.failed)
                                              case AsRetired => StopFinal(k, AsStopping, FinBegin, failed || next.failed)
                                              case AsStopping => StopFinal(k - 1, AsCandidate, FinBegin, failed || next.failed)
    {
      Callers();
      CanFinalizeStopping(configs, acts, k, role, fin, failed);
      var ok: bool := *;
      var (c, x) := FinStep(components[k - 1], role, fin, ok);
      components, next := components[k - 1 := c], x;
      Record(Tick(ok));
    }

    /** Finalizes what one component owns through one of its three pointers. */
    method FinalizeOwned(k: nat, role: Role, failed: bool) returns (f: bool)
      requires Valid() && 0 < k <= |components| && world.ctl == StopFinal(k, role, FinBegin, failed)
      modifies this
      ensures Valid() && old(acts) <= acts && |components| == |old(components)|
      ensures world.ctl == match role
                           case AsCandidate => StopFinal(k, AsRetired, FinBegin, failed || f)
                           case AsRetired => StopFinal(k, AsStopping, FinBegin, failed || f)
                           case AsStopping => StopFinal(k - 1, AsCandidate, FinBegin, failed || f)
    {
      var fin := FinBegin;
      while true
        invariant Valid() && old(acts) <= acts && |components| == |old(components)|
        invariant world.ctl == StopFinal(k, role, fin, failed)
        decreases FinRank(fin)
      {
        var next := StopFinalStep(k, role, fin, failed);
        match next
        case Again(stage) => fin := stage;
        case Finished(bad) => return bad;
      }
    }

    /** Discards, finishes retiring and stops every component, last one first. */
    method FinalizeAll() returns (outcome: Outcome)
      requires Valid() && world.ctl == StopFinal(|components|, AsCandidate, FinBegin, false)
      modifies this
      ensures Valid() && world.ctl.Idle? && old(acts) <= acts && outcome == world.outcome
      ensures (outcome == StopDone && state == KernelStopped) || (outcome == StopFailed && state == Failed)
      ensures AllSettled(components, outcome == StopDone)
    {
      var k, failed := |components|, false;
      while k > 0
        invariant 0 <= k <= |components| && Valid() && old(acts) <= acts
        invariant world.ctl == StopFinal(k, AsCandidate, FinBegin, failed)
      {
        failed := FinalizeOne(k, failed);
        k := k - 1;
      }
      outcome := FinishStop(failed);
    }

    method FinalizeOne(k: nat, was: bool) returns (failed: bool)
      requires Valid() && 0 < k <= |components| && world.ctl == StopFinal(k, AsCandidate, FinBegin, was)
      modifies this
      ensures Valid() && old(acts) <= acts && |components| == |old(components)|
      ensures world.ctl == StopFinal(k - 1, AsCandidate, FinBegin, failed)
    {
      var discard := FinalizeOwned(k, AsCandidate, was);
      var retire := FinalizeOwned(k, AsRetired, was || discard);
      var stop := FinalizeOwned(k, AsStopping, was || discard || retire);
      failed := was || discard || retire || stop;
    }

    method FinishStop(failed: bool) returns (outcome: Outcome)
      requires Valid() && world.ctl == StopFinal(0, AsCandidate, FinBegin, failed)
      modifies this
      ensures Valid() && world.ctl.Idle? && old(acts) <= acts && outcome == world.outcome
      ensures (outcome == StopDone && state == KernelStopped) || (outcome == StopFailed && state == Failed)
      ensures AllSettled(components, outcome == StopDone)
    {
      Callers();
      SettledNow(configs, acts, failed);
      state := if failed then Failed else KernelStopped;
      Record(Tick(true));
      return if failed then StopFailed else StopDone;
    }

    /** Stops the kernel; it can be tried again after an incomplete drain or a failed
        finalizer. A nil result means that nothing built by a kernel that once ran is left. */
    method Stop() returns (outcome: Outcome)
      requires Valid() && world.ctl.Idle?
      modifies this
      ensures Valid() && world.ctl.Idle? && old(acts) <= acts && outcome == world.outcome
      ensures match outcome
              case StopDone => state == KernelStopped
              case StopIncomplete => state == KernelDraining && old(state) in {Running, KernelDraining}
              case StopFailed => state == Failed && old(state) !in {Created, KernelStopped}
              case _ => false
      ensures outcome == StopDone && world.reached ==>
                forall i, g | 0 <= i < |components| && 0 <= g < |components[i].slots| ::
                  && Owners(components[i], g) == 0 && components[i].slots[g].state == Finalized
                  && components[i].slots[g].attempts == if components[i].policy == DrainThenTerminalClose then 1 else 0
    {
      var was := state;
      AdmitStop();
      if was == KernelStopped {
        outcome := StopDone;
      } else if was == Created {
        outcome := StopUnstarted();
      } else if was == Failed {
        outcome := FinalizeAll();
      } else {
        outcome := DrainAndFinalize();
      }
      if outcome == StopDone && world.reached {
        StoppedMeansFinalized(configs, acts);
      }
    }

    method DrainAndFinalize() returns (outcome: Outcome)
      requires Valid() && world.ctl == StopDrain(|components|, false) && state == KernelDraining
      modifies this
      ensures Valid() && world.ctl.Idle? && old(acts) <= acts && outcome == world.outcome
      ensures match outcome
              case StopDone => state == KernelStopped
              case StopIncomplete => state == KernelDraining
              case StopFailed => state == Failed
              case _ => false
    {
      var drained := DrainForStop();
      if !drained {
        return StopIncomplete;
      }
      TakeAll();
      outcome := FinalizeAll();
    }
  }

  function FinRank(fin: FinStage): nat {
    match fin
    case FinBegin => 2
    case FinRun => 1
    case FinDrop => 0
  }
}
