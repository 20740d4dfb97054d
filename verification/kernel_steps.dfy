/** The invariant is inductive, part one: what each tick of the kernel's operation thread
    does to the statuses of the components. */
module KernelSteps {
  import opened Wrappers
  import opened Finalization
  import opened Components
  import opened KernelMachine
  import opened KernelInvariant
  import opened ComponentLemmas
  import L = Leases

  /** The tick replaced at most component `n`, kept it in order, and moved nobody to an
      instance that was not being served before. */
  predicate Framed(w: World, w': World, n: nat) {
    && !w'.panicked && w'.history == w.history && |w'.comps| == |w.comps|
    && (forall i | 0 <= i < |w.comps| && i != n :: w'.comps[i] == w.comps[i])
    && (n < |w.comps| ==> CompOk(w'.comps[n]) && ServesNoOther(w.comps[n], w'.comps[n]))
    && (w'.reached <==> w.reached || w'.state == Running)
    && (w'.state != w.state ==> w'.state in {KernelStopped, Failed} || (w.state == Created && w'.state == Running))
    && (w'.state == Failed ==> w.state in {KernelDraining, Failed})
  }

  predicate ServesNoOther(c: Comp, c': Comp) {
    && (c'.lease.current == c.lease.current || (c'.lease.current.None? && c'.lease.mode == L.Stopped))
    && (c.lease.mode == L.Stopped ==> c'.lease.mode == L.Stopped)
  }

  predicate Sound(w: World, n: nat) {
    !w.panicked && (n < |w.comps| ==> CompOk(w.comps[n])) && (w.state == Running ==> w.reached)
  }

  // startCandidate --------------------------------------------------------------------

  lemma StartStageStep(w: World, snap: Snapshot, n: nat, started: seq<nat>, ok: bool)
    requires Sound(w, n) && StartStageInv(w, snap, n, started)
    ensures var w' := TickStartStage(w, snap, n, started, ok);
            && Framed(w, w', n)
            && match w'.ctl
               case Idle => IdleInv(w')
               case StartBuild(s, n', st) => StartBuildInv(w', s, n', st)
               case FailPending(k) => FailPendingInv(w', k)
               case FailDrain(st, k) => FailDrainInv(w', st, k)
               case _ => false
  {
    if n < |w.comps| {
      StageEffect(w.comps[n], snap, ok);
    }
  }

  lemma StartBuildStep(w: World, snap: Snapshot, n: nat, started: seq<nat>, ok: bool)
    requires Sound(w, n) && StartBuildInv(w, snap, n, started)
    ensures var w' := TickStartBuild(w, snap, n, started, ok);
            && Framed(w, w', n)
            && match w'.ctl
               case StartStart(s, n', st) => FirstBuilt(w', s, n', st)
               case StartDiscard(n', st, fin) => StartDiscardInv(w', n', st, fin)
               case _ => false
  {
    BuildEffect(w.comps[n], snap, ok);
  }

  lemma StartProbeStep(w: World, snap: Snapshot, n: nat, started: seq<nat>, ok: bool)
    requires Sound(w, n) && FirstBuilt(w, snap, n, started)
    ensures var w' := TickStartStart(w, snap, n, started, ok);
            Framed(w, w', n) && FirstBuilt(w', snap, n, started) &&
            (w'.ctl == StartReady(snap, n, started) ||
             (w'.ctl == StartDiscard(n, started, FinBegin) && StartDiscardInv(w', n, started, FinBegin)))
    ensures var w' := TickStartReady(w, snap, n, started, ok);
            Framed(w, w', n) && FirstBuilt(w', snap, n, started) &&
            (w'.ctl == StartPublish(snap, n, started) ||
             (w'.ctl == StartDiscard(n, started, FinBegin) && StartDiscardInv(w', n, started, FinBegin)))
  {
  }

  lemma StartPublishStep(w: World, snap: Snapshot, n: nat, started: seq<nat>, ok: bool)
    requires Sound(w, n) && FirstBuilt(w, snap, n, started)
    ensures var w' := TickStartPublish(w, snap, n, started, ok);
            && w' == w.(comps := w'.comps, ctl := StartStage(snap, n + 1, started + [n]))
            && w'.comps == w.comps[n := PublishInitial(w.comps[n])]
            && CompOk(w'.comps[n]) && Published(w'.comps[n])
            && StartStageInv(w', snap, n + 1, started + [n])
  {
    PublishEffect(w.comps[n], snap);
  }

  lemma StartDiscardStep(w: World, n: nat, started: seq<nat>, fin: FinStage, ok: bool)
    requires Sound(w, n) && StartDiscardInv(w, n, started, fin)
    ensures var w' := TickStartDiscard(w, n, started, fin, ok);
            && Framed(w, w', n)
            && match w'.ctl
               case StartDiscard(n', st, fin') => StartDiscardInv(w', n', st, fin')
               case FailPending(k) => FailPendingInv(w', k)
               case FailDrain(st, k) => FailDrainInv(w', st, k)
               case _ => false
  {
    FinStepEffect(w.comps[n], AsCandidate, fin, ok);
  }

  // failStart -------------------------------------------------------------------------

  lemma FailDrainStep(w: World, started: seq<nat>, k: nat, ok: bool)
    requires FailDrainInv(w, started, k) && Sound(w, if k > 0 then k - 1 else |w.comps|)
    ensures var w' := TickFailDrain(w, started, k, ok);
            && Framed(w, w', if k > 0 then k - 1 else |w.comps|)
            && match w'.ctl
               case FailTake(st, k') => FailTakeInv(w', st, k')
               case FailWait(st, k', ready) => FailWaitInv(w', st, k', ready)
               case _ => false
  {
    if k > 0 {
      BeginDrainEffect(w.comps[k - 1], false);
    }
  }

  lemma FailWaitStep(w: World, started: seq<nat>, k: nat, ready: nat, ok: bool)
    requires w.ctl == FailWait(started, k, ready) && FailWaitInv(w, started, k, ready) && Sound(w, k - 1) == true
    ensures var w' := TickFailWait(w, started, k, ready, ok);
            && Framed(w, w', k - 1) == true
            && match w'.ctl
               case FailPending(k') => FailPendingInv(w', k')
               case FailDrain(st, k') => FailDrainInv(w', st, k')
               case _ => w' == w
  {
    if ChannelClosed(w.comps[k - 1], ready) {
      ClosedMeansDrained(w.comps[k - 1], ready);
    }
  }

  lemma FailTakeStep(w: World, started: seq<nat>, k: nat, ok: bool)
    requires FailTakeInv(w, started, k) && Sound(w, if k > 0 then k - 1 else |w.comps|)
    ensures var w' := TickFailTake(w, started, k, ok);
            && Framed(w, w', if k > 0 then k - 1 else |w.comps|)
            && match w'.ctl
               case FailTake(st, k') => FailTakeInv(w', st, k')
               case FailStop(st, k', fin) => FailStopInv(w', st, k', fin)
               case _ => false
  {
    if k > 0 {
      PrepareStopEffect(w.comps[k - 1]);
    }
  }

  lemma FailStopStep(w: World, started: seq<nat>, k: nat, fin: FinStage, ok: bool)
    requires FailStopInv(w, started, k, fin) && Sound(w, if k > 0 then k - 1 else |w.comps|)
    ensures var w' := TickFailStop(w, started, k, fin, ok);
            && Framed(w, w', if k > 0 then k - 1 else |w.comps|)
            && match w'.ctl
               case FailStop(st, k', fin') => FailStopInv(w', st, k', fin')
               case FailPending(k') => FailPendingInv(w', k')
               case _ => false
  {
    if k > 0 {
      FinStepEffect(w.comps[k - 1], AsStopping, fin, ok);
    }
  }

  lemma FailPendingStep(w: World, k: nat, ok: bool)
    requires FailPendingInv(w, k) && Sound(w, k) && !w.reached
    ensures var w' := TickFailPending(w, k, ok);
            && Framed(w, w', k)
            && match w'.ctl
               case FailPending(k') => FailPendingInv(w', k')
               case Idle => IdleInv(w')
               case _ => false
  {
    if k < |w.comps| {
      StopPendingEffect(w.comps[k]);
    }
  }

  // reloadCandidate: preparation ------------------------------------------------------

  /** Between `w` and `w'` only the component at position `k` of the changed list moved. */
  predicate Moved(w: World, w': World, job: Job, k: nat) {
    && JobOk(w, job) && k < |job.changed| && w'.state == w.state && |w'.comps| == |w.comps|
    && (forall i | 0 <= i < |w.comps| && i != job.changed[k] :: w'.comps[i] == w.comps[i])
  }

  lemma MovedOthers(w: World, w': World, job: Job, k: nat)
    requires Moved(w, w', job, k) && OthersHeld(w, job)
    ensures JobOk(w', job) && OthersHeld(w', job)
  {
  }

  lemma MovedRange(w: World, w': World, job: Job, k: nat, from: nat, to: int, s: Status)
    requires Moved(w, w', job, k) && JobOk(w', job) && to <= |job.changed|
    requires Range(w, job, from, to, s) && !(from <= k < to)
    ensures Range(w', job, from, to, s)
  {
    forall j: nat | from <= j < to ensures At(w', job, j, s) {
      assert At(w, job, j, s);
    }
  }

  /** Both ends of the list around position `k`. */
  lemma MovedAround(w: World, w': World, job: Job, k: nat, below: Status, above: Status)
    requires Moved(w, w', job, k) && OthersHeld(w, job)
    requires Range(w, job, 0, k, below) && Range(w, job, k + 1, |job.changed|, above)
    ensures JobOk(w', job) && OthersHeld(w', job)
    ensures Range(w', job, 0, k, below) && Range(w', job, k + 1, |job.changed|, above)
  {
    MovedOthers(w, w', job, k);
    MovedRange(w, w', job, k, 0, k, below);
    MovedRange(w, w', job, k, k + 1, |job.changed|, above);
  }

  lemma SameRange(w: World, w': World, job: Job, from: nat, to: int, s: Status)
    requires JobOk(w, job) && to <= |job.changed| && w'.state == w.state && w'.comps == w.comps
    requires Range(w, job, from, to, s)
    ensures JobOk(w', job) && Range(w', job, from, to, s)
  {
    forall j: nat | from <= j < to ensures At(w', job, j, s) {
      assert At(w, job, j, s);
    }
  }

  lemma WeakerRange(w: World, job: Job, from: nat, to: int, s: Status, t: Status)
    requires JobOk(w, job) && to <= |job.changed|
    requires Range(w, job, from, to, s)
    requires (s, t) in {(SDrained, SToCommit), (SToDrain, SToDiscard), (SToBuild, SHeld), (SClean, SKept)}
    ensures Range(w, job, from, to, t)
  {
    forall j: nat | from <= j < to ensures At(w, job, j, t) {
      assert At(w, job, j, s);
    }
  }

  /** Staging one more component, changed or not. */
  lemma ReloadStageStep(w: World, job: Job, n: nat, ok: bool)
    requires ReloadStageInv(w, job, n) && Sound(w, n) && n < |w.comps|
    ensures var w' := TickReloadStage(w, job, n, ok);
            && Framed(w, w', n)
            && match w'.ctl
               case ReloadStage(job', n') => ReloadStageInv(w', job', n')
               case Idle => IdleInv(w')
               case _ => false
  {
    var w' := TickReloadStage(w, job, n, ok);
    var (c, staged) := Stage(w.comps[n], job.snap, ok);
    StageEffect(w.comps[n], job.snap, ok);
    if staged == Changed {
      StagedRestart(w, w', job, w'.ctl.job, n);
      StagedChanged(w, w', job, w'.ctl.job, n);
    } else if staged == Unchanged {
      SameRange(w, w', job, 0, |job.changed|, SToBuild);
    }
  }

  lemma StagedChanged(w: World, w': World, job: Job, job': Job, n: nat)
    requires ReloadStageInv(w, job, n) && n < |w.comps|
    requires w'.state == w.state && w'.snapshot == w.snapshot && |w'.comps| == |w.comps|
    requires forall i | 0 <= i < |w.comps| && i != n :: w'.comps[i] == w.comps[i]
    requires job' == job.(changed := job.changed + [n], restart := job'.restart)
    requires RestartsOk(w', job')
    requires ToBuild(w'.comps[n], job.base[n], job.before.value, job.snap)
    ensures ReloadStageInv(w', job', n + 1)
  {
    forall j: nat | j < |job'.changed| ensures At(w', job', j, SToBuild) {
      if j < |job.changed| {
        assert At(w, job, j, SToBuild);
      }
    }
    assert forall i | 0 <= i < n && i !in job'.changed :: i !in job.changed;
  }

  lemma StagedRestart(w: World, w': World, job: Job, job': Job, n: nat)
    requires RestartsOk(w, job) && Ascending(job.changed, n) && n < |w.comps| == |w'.comps|
    requires forall i | 0 <= i < |w.comps| && i != n :: w'.comps[i] == w.comps[i]
    requires job'.changed == job.changed + [n]
    requires job'.restart == if w'.comps[n].restartRequired then job.restart + [n] else job.restart
    ensures RestartsOk(w', job')
  {
    assert n !in job.changed;
  }

  /** After the last component: restart required, nothing changed, or build. */
  lemma ReloadStagedStep(w: World, job: Job, ok: bool)
    requires ReloadStageInv(w, job, |w.comps|) && Sound(w, |w.comps|)
    ensures var w' := TickReloadStage(w, job, |w.comps|, ok);
            && Framed(w, w', |w.comps|)
            && match w'.ctl
               case ReloadBuild(job', k) => ReloadBuildInv(w', job', k)
               case Idle => IdleInv(w')
               case _ => false
  {
    var w' := TickReloadStage(w, job, |w.comps|, ok);
    SameRange(w, w', job, 0, |job.changed|, SToBuild);
    forall i | 0 <= i < |w.comps| && job.changed == []
      ensures Matches(w.comps[i], job.snap)
    {
      AgreeingMatches(w.comps[i], job.before.value, job.snap);
    }
  }

  /** The component a list position names, or nobody when the position is past the list. */
  function Named(w: World, s: seq<nat>, k: int): nat {
    if 0 <= k < |s| then s[k] else |w.comps|
  }

  lemma ReloadBuildStep(w: World, job: Job, k: nat, ok: bool)
    requires ReloadBuildInv(w, job, k) && Sound(w, Named(w, job.changed, k))
    ensures var w' := TickReloadBuild(w, job, k, ok);
            && Framed(w, w', Named(w, job.changed, k))
            && match w'.ctl
               case ReloadStart(job', k') => Preparing(w', job', k')
               case ReloadDiscard(job', k', fin) => ReloadDiscardInv(w', job', k', fin)
               case ReloadDrain(job', k') => ReloadDrainInv(w', job', k')
               case _ => false
  {
    var w' := TickReloadBuild(w, job, k, ok);
    if k < |job.changed| {
      var n := job.changed[k];
      assert At(w, job, k, SToBuild);
      BuildStatus(w.comps[n], job.base[n], job.before.value, job.snap, ok);
      MovedAround(w, w', job, k, SToDrain, SToBuild);
      if w'.ctl.ReloadStart? {
        assert At(w', job, k, SToDrain);
      } else {
        WeakerRange(w', job, 0, k, SToDrain, SToDiscard);
        WeakerRange(w', job, k + 1, |job.changed|, SToBuild, SHeld);
      }
    } else {
      SameRange(w, w', job, 0, k, SToDrain);
    }
  }

  /** A candidate that does not become ready is discarded together with the earlier ones. */
  lemma ProbeFailed(w: World, job: Job, k: nat)
    requires BeforeCommit(w, job) && k < |job.changed|
    requires Range(w, job, 0, k + 1, SToDrain) && Range(w, job, k + 1, |job.changed|, SToBuild)
    ensures ReloadDiscardInv(w, job, k + 1, FinBegin)
  {
    assert At(w, job, k, SToDrain);
    WeakerRange(w, job, 0, k, SToDrain, SToDiscard);
    WeakerRange(w, job, k + 1, |job.changed|, SToBuild, SHeld);
  }

  lemma ReloadProbeStep(w: World, job: Job, k: nat, ok: bool)
    requires Preparing(w, job, k) && Sound(w, Named(w, job.changed, k))
    ensures var w' := TickReloadStart(w, job, k, ok);
            && Framed(w, w', Named(w, job.changed, k)) && w'.comps == w.comps && Preparing(w', job, k)
            && (w'.ctl == ReloadReady(job, k) ||
                (w'.ctl == ReloadDiscard(job, k + 1, FinBegin) && ReloadDiscardInv(w', job, k + 1, FinBegin)))
    ensures var w' := TickReloadReady(w, job, k, ok);
            && Framed(w, w', Named(w, job.changed, k)) && w'.comps == w.comps && ReloadBuildInv(w', job, k + 1)
            && (w'.ctl == ReloadBuild(job, k + 1) ||
                (w'.ctl == ReloadDiscard(job, k + 1, FinBegin) && ReloadDiscardInv(w', job, k + 1, FinBegin)))
  {
    var w' := TickReloadStart(w, job, k, ok);
    var w'' := TickReloadReady(w, job, k, ok);
    SameRange(w, w', job, 0, k + 1, SToDrain);
    SameRange(w, w', job, k + 1, |job.changed|, SToBuild);
    SameRange(w, w'', job, 0, k + 1, SToDrain);
    SameRange(w, w'', job, k + 1, |job.changed|, SToBuild);
    ProbeFailed(w', job, k);
    ProbeFailed(w'', job, k);
  }

  // reloadCandidate: drain, roll back, discard ------------------------------------------

  lemma ReloadDrainStep(w: World, job: Job, k: nat, ok: bool)
    requires ReloadDrainInv(w, job, k) && Sound(w, Named(w, job.changed, k - 1))
    ensures var w' := TickReloadDrain(w, job, k, ok);
            && Framed(w, w', Named(w, job.changed, k - 1))
            && match w'.ctl
               case ReloadCommit(job', k') => ReloadCommitInv(w', job', k')
               case ReloadWait(job', k', ready) => ReloadWaitInv(w', job', k', ready)
               case _ => false
  {
    var w' := TickReloadDrain(w, job, k, ok);
    if k > 0 {
      var n := job.changed[k - 1];
      assert At(w, job, k - 1, SToDrain);
      DrainStatus(w.comps[n], job.base[n], job.before.value, job.snap);
      MovedAround(w, w', job, k - 1, SToDrain, SDrained);
    } else {
      SameRange(w, w', job, 0, |job.changed|, SDrained);
    }
  }

  /** A deadline while draining: what is drained so far rolls back. */
  lemma DrainAbandoned(w: World, w': World, job: Job, k: nat)
    requires BeforeCommit(w, job) && k < |job.changed|
    requires Range(w, job, 0, k, SToDrain) && At(w, job, k, SToCommit) && Range(w, job, k + 1, |job.changed|, SDrained)
    requires w' == Goto(w, w'.ctl)
    ensures ReloadRollbackInv(w', job, k)
  {
    WeakerRange(w, job, k + 1, |job.changed|, SDrained, SToCommit);
    WeakerRange(w, job, 0, k, SToDrain, SToDiscard);
    SameRange(w, w', job, 0, k, SToDiscard);
    SameRange(w, w', job, k + 1, |job.changed|, SToCommit);
    assert At(w', job, k, SToCommit);
  }

  /** The drain channel closed: one more component is drained. */
  lemma DrainAdvanced(w: World, w': World, job: Job, k: nat)
    requires BeforeCommit(w, job) && k < |job.changed|
    requires Range(w, job, 0, k, SToDrain) && At(w, job, k, SToCommit) && Range(w, job, k + 1, |job.changed|, SDrained)
    requires w.comps[job.changed[k]].lease.drainDone && w' == Goto(w, w'.ctl)
    ensures ReloadDrainInv(w', job, k)
  {
    SameRange(w, w', job, 0, k, SToDrain);
    SameRange(w, w', job, k + 1, |job.changed|, SDrained);
    assert At(w', job, k, SDrained);
  }

  lemma ReloadWaitStep(w: World, job: Job, k: nat, ready: nat, ok: bool)
    requires w.ctl == ReloadWait(job, k, ready) && ReloadWaitInv(w, job, k, ready) && Sound(w, Named(w, job.changed, k - 1))
    ensures var w' := TickReloadWait(w, job, k, ready, ok);
            && Framed(w, w', Named(w, job.changed, k - 1)) && w'.comps == w.comps
            && match w'.ctl
               case ReloadDrain(job', k') => ReloadDrainInv(w', job', k')
               case ReloadRollback(job', k') => ReloadRollbackInv(w', job', k')
               case _ => w' == w
  {
    var w' := TickReloadWait(w, job, k, ready, ok);
    if !ok {
      DrainAbandoned(w, w', job, k - 1);
    } else if ChannelClosed(w.comps[job.changed[k - 1]], ready) {
      ClosedMeansDrained(w.comps[job.changed[k - 1]], ready);
      DrainAdvanced(w, w', job, k - 1);
    }
  }

  lemma ReloadRollbackStep(w: World, job: Job, k: nat, ok: bool)
    requires ReloadRollbackInv(w, job, k) && Sound(w, Named(w, job.changed, k)) && k < |job.changed|
    ensures var w' := TickReloadRollback(w, job, k, ok);
            && Framed(w, w', Named(w, job.changed, k))
            && w'.ctl == ReloadRollback(job, k + 1) && ReloadRollbackInv(w', job, k + 1)
  {
    var w' := TickReloadRollback(w, job, k, ok);
    var n := job.changed[k];
    assert At(w, job, k, SToCommit);
    RollbackStatus(w.comps[n], job.base[n], job.before.value, job.snap);
    MovedAround(w, w', job, k, SToDiscard, SToCommit);
    assert At(w', job, k, SToDiscard);
  }

  lemma ReloadRolledBackStep(w: World, job: Job, ok: bool)
    requires ReloadRollbackInv(w, job, |job.changed|) && Sound(w, |w.comps|)
    ensures var w' := TickReloadRollback(w, job, |job.changed|, ok);
            && Framed(w, w', |w.comps|)
            && w'.ctl == ReloadDiscard(job, |job.changed|, FinBegin)
            && ReloadDiscardInv(w', job, |job.changed|, FinBegin)
  {
    var w' := TickReloadRollback(w, job, |job.changed|, ok);
    SameRange(w, w', job, 0, |job.changed|, SToDiscard);
    if |job.changed| > 0 {
      assert At(w', job, |job.changed| - 1, SToDiscard);
    }
  }

  lemma DiscardedAll(w: World, job: Job)
    requires BeforeCommit(w, job) && Range(w, job, 0, |job.changed|, SHeld)
    ensures forall i | 0 <= i < |w.comps| :: Held(w.comps[i], job.base[i], job.before.value)
  {
    forall i | 0 <= i < |w.comps| ensures Held(w.comps[i], job.base[i], job.before.value) {
      if i in job.changed {
        var j :| 0 <= j < |job.changed| && job.changed[j] == i;
        assert At(w, job, j, SHeld);
      } else {
        assert Untouched(w.comps[i], job.base[i], job);
      }
    }
  }

  lemma DiscardedOne(w: World, job: Job, k: nat)
    requires BeforeCommit(w, job) && k < |job.changed|
    requires Range(w, job, 0, k, SToDiscard) && At(w, job, k, SHeld) && Range(w, job, k + 1, |job.changed|, SHeld)
    ensures ReloadDiscardInv(w, job, k, FinBegin)
  {
    if k > 0 {
      assert At(w, job, k - 1, SToDiscard);
    }
  }

  lemma ReloadDiscardStep(w: World, job: Job, k: nat, fin: FinStage, ok: bool)
    requires ReloadDiscardInv(w, job, k, fin) && Sound(w, Named(w, job.changed, k - 1)) && k > 0
    ensures var w' := TickReloadDiscard(w, job, k, fin, ok);
            && Framed(w, w', Named(w, job.changed, k - 1))
            && match w'.ctl
               case ReloadDiscard(job', k', fin') => ReloadDiscardInv(w', job', k', fin')
               case _ => false
  {
    var w' := TickReloadDiscard(w, job, k, fin, ok);
    var n := job.changed[k - 1];
    DiscardStatus(w.comps[n], job.base[n], job.before.value, fin, ok);
    MovedAround(w, w', job, k - 1, SToDiscard, SHeld);
    if w'.ctl.k < k {
      assert At(w', job, k - 1, SHeld);
      DiscardedOne(w', job, k - 1);
    }
  }

  lemma ReloadDiscardedStep(w: World, job: Job, fin: FinStage, ok: bool)
    requires ReloadDiscardInv(w, job, 0, fin) && Sound(w, |w.comps|)
    ensures var w' := TickReloadDiscard(w, job, 0, fin, ok);
            Framed(w, w', |w.comps|) && w'.ctl.Idle? && IdleInv(w')
  {
    DiscardedAll(w, job);
  }

  // reloadCandidate: commit, resume, retire ---------------------------------------------

  lemma ReloadCommitStep(w: World, job: Job, k: nat, ok: bool)
    requires ReloadCommitInv(w, job, k) && Sound(w, Named(w, job.changed, k))
    ensures var w' := TickReloadCommit(w, job, k, ok);
            && w' == w.(comps := w'.comps, ctl := w'.ctl)
            && (k < |job.changed| ==>
                  && CanCommit(w.comps[job.changed[k]])
                  && w'.comps == w.comps[job.changed[k] := Commit(w.comps[job.changed[k]])]
                  && CompOk(w'.comps[job.changed[k]])
                  && w.comps[job.changed[k]].lease.current.value < w.comps[job.changed[k]].candidate.value
                  && w'.comps[job.changed[k]].lease.mode == w.comps[job.changed[k]].lease.mode)
            && (k == |job.changed| ==> w'.comps == w.comps)
            && match w'.ctl
               case ReloadCommit(job', k') => job' == job && k' == k + 1 <= |job.changed| && ReloadCommitInv(w', job, k')
               case ReloadPublish(job') => job' == job && k == |job.changed| && ReloadPublishInv(w', job)
               case _ => false
  {
    var w' := TickReloadCommit(w, job, k, ok);
    if k < |job.changed| {
      var n := job.changed[k];
      assert At(w, job, k, SDrained);
      CommitStatus(w.comps[n], job.base[n], job.before.value, job.snap);
      MovedAround(w, w', job, k, SToResume, SDrained);
      assert At(w', job, k, SToResume);
    } else {
      SameRange(w, w', job, 0, k, SToResume);
    }
  }

  lemma ReloadPublishStep(w: World, job: Job, ok: bool)
    requires ReloadPublishInv(w, job) && !w.panicked
    ensures var w' := TickReloadPublish(w, job, ok);
            && w' == w.(snapshot := Some(job.snap), ctl := ReloadResume(job, 0), history := w'.history)
            && w'.history == w.history + [Switched(w.comps, job.changed)]
            && ReloadResumeInv(w', job, 0)
  {
    SameRange(w, TickReloadPublish(w, job, ok), job, 0, |job.changed|, SToResume);
    SwitchedAll(w, job);
  }

  lemma SwitchedAll(w: World, job: Job)
    requires JobOk(w, job) && Range(w, job, 0, |job.changed|, SToResume)
    ensures Switched(w.comps, job.changed).Keys == (set i | i in job.changed)
  {
    forall i | i in job.changed ensures i in Switched(w.comps, job.changed) {
      var j :| 0 <= j < |job.changed| && job.changed[j] == i;
      assert At(w, job, j, SToResume);
    }
  }

  lemma ResumedAll(w: World, job: Job)
    requires AfterCommit(w, job) && Range(w, job, 0, |job.changed|, SToRetire)
    ensures ReloadRetireInv(w, job, |job.changed|, FinBegin, false)
  {
    if |job.changed| > 0 {
      assert At(w, job, |job.changed| - 1, SToRetire);
    }
  }

  lemma ReloadResumeStep(w: World, job: Job, k: nat, ok: bool)
    requires ReloadResumeInv(w, job, k) && Sound(w, Named(w, job.changed, k)) && k < |job.changed|
    ensures var w' := TickReloadResume(w, job, k, ok);
            && Framed(w, w', Named(w, job.changed, k))
            && w'.ctl == ReloadResume(job, k + 1) && ReloadResumeInv(w', job, k + 1)
  {
    var w' := TickReloadResume(w, job, k, ok);
    var n := job.changed[k];
    assert At(w, job, k, SToResume);
    ResumeStatus(w.comps[n], job.base[n], job.snap);
    MovedAround(w, w', job, k, SToRetire, SToResume);
    assert At(w', job, k, SToRetire);
  }

  lemma ReloadResumedStep(w: World, job: Job, ok: bool)
    requires ReloadResumeInv(w, job, |job.changed|) && Sound(w, |w.comps|)
    ensures var w' := TickReloadResume(w, job, |job.changed|, ok);
            && Framed(w, w', |w.comps|)
            && w'.ctl == ReloadRetire(job, |job.changed|, FinBegin, false)
            && ReloadRetireInv(w', job, |job.changed|, FinBegin, false)
  {
    var w' := TickReloadResume(w, job, |job.changed|, ok);
    SameRange(w, w', job, 0, |job.changed|, SToRetire);
    ResumedAll(w', job);
  }

  /** A reload ends with every component serving what the new snapshot says. */
  lemma RetiredAll(w: World, job: Job, s: Status)
    requires AfterCommit(w, job) && s in {SKept, SClean} && Range(w, job, 0, |job.changed|, s)
    ensures forall i | 0 <= i < |w.comps| :: Steady(w.comps[i]) && Matches(w.comps[i], job.snap)
  {
    forall i | 0 <= i < |w.comps| ensures Steady(w.comps[i]) && Matches(w.comps[i], job.snap) {
      if i in job.changed {
        var j :| 0 <= j < |job.changed| && job.changed[j] == i;
        assert At(w, job, j, s);
      } else {
        assert Untouched(w.comps[i], job.base[i], job);
        AgreeingMatches(w.comps[i], job.before.value, job.snap);
      }
    }
  }

  /** The component at `k` is done; the one before it is next. */
  lemma RetiredOne(w: World, job: Job, k: nat, before: bool, failed: bool)
    requires AfterCommit(w, job) && k < |job.changed| && (before ==> failed)
    requires Range(w, job, 0, k, SToRetire) && At(w, job, k, if failed then SKept else SClean)
    requires Range(w, job, k + 1, |job.changed|, if before then SKept else SClean)
    ensures ReloadRetireInv(w, job, k, FinBegin, failed)
  {
    if failed && !before {
      WeakerRange(w, job, k + 1, |job.changed|, SClean, SKept);
    }
    if k > 0 {
      assert At(w, job, k - 1, SToRetire);
    }
  }

  lemma ReloadRetireFramed(w: World, job: Job, k: nat, fin: FinStage, failed: bool, ok: bool)
    requires ReloadRetireInv(w, job, k, fin, failed) && Sound(w, Named(w, job.changed, k - 1)) && k > 0
    ensures Framed(w, TickReloadRetire(w, job, k, fin, failed, ok), job.changed[k - 1])
  {
    RetireStatus(w.comps[job.changed[k - 1]], job.base[job.changed[k - 1]], job.snap, fin, ok);
  }

  lemma ReloadRetireStep(w: World, job: Job, k: nat, fin: FinStage, failed: bool, ok: bool)
    requires ReloadRetireInv(w, job, k, fin, failed) && Sound(w, Named(w, job.changed, k - 1)) == true && k > 0
    ensures var w' := TickReloadRetire(w, job, k, fin, failed, ok);
            match w'.ctl
            case ReloadRetire(job', k', fin', failed') => ReloadRetireInv(w', job', k', fin', failed') == true
            case _ => false
  {
    var (c, next) := FinStep(w.comps[job.changed[k - 1]], AsRetired, fin, ok);
    RetireStatus(w.comps[job.changed[k - 1]], job.base[job.changed[k - 1]], job.snap, fin, ok);
    assert TickReloadRetire(w, job, k, fin, failed, ok).comps == w.comps[job.changed[k - 1] := c];
    RetireMoves(w, TickReloadRetire(w, job, k, fin, failed, ok), job, k, fin, failed, c, next);
  }

  lemma RetireMoves(w: World, w': World, job: Job, k: nat, fin: FinStage, failed: bool, c: Comp, next: FinNext)
    requires ReloadRetireInv(w, job, k, fin, failed) && Sound(w, Named(w, job.changed, k - 1)) == true && k > 0
    requires var i, b := job.changed[k - 1], job.base[job.changed[k - 1]];
             && w'.state == w.state && w'.snapshot == w.snapshot && w'.history == w.history && w'.reached == w.reached
             && w'.comps == w.comps[i := c]
             && CompOk(c) && c.lease == w.comps[i].lease
             && (next.Again? ==> Retiring(c, b, job.snap, next.stage))
             && (next.Finished? ==> Steady(c) && Swapped(c, b, job.snap) && (!next.failed ==> c.retired.None?))
    ensures if next.Again? then ReloadRetireInv(w', job, k, next.stage, failed) == true
            else ReloadRetireInv(w', job, k - 1, FinBegin, failed || next.failed) == true
  {
    MovedAround(w, w', job, k - 1, SToRetire, if failed then SKept else SClean);
    if next.Finished? {
      RetiredOne(w', job, k - 1, failed, failed || next.failed);
    }
  }

  lemma ReloadRetiredStep(w: World, job: Job, fin: FinStage, failed: bool, ok: bool)
    requires ReloadRetireInv(w, job, 0, fin, failed) && Sound(w, |w.comps|)
    ensures var w' := TickReloadRetire(w, job, 0, fin, failed, ok);
            Framed(w, w', |w.comps|) && w'.ctl.Idle? && IdleInv(w')
  {
    RetiredAll(w, job, if failed then SKept else SClean);
  }

  // Stop ------------------------------------------------------------------------------

  lemma StopPendingsStep(w: World, k: nat, ok: bool)
    requires StopPendingsInv(w, k) && Sound(w, k)
    ensures var w' := TickStopPendings(w, k, ok);
            && Framed(w, w', k)
            && match w'.ctl
               case StopPendings(k') => StopPendingsInv(w', k')
               case Idle => IdleInv(w')
               case _ => false
  {
    if k < |w.comps| {
      StopPendingEffect(w.comps[k]);
    }
  }

  lemma StopDrainStep(w: World, k: nat, failed: bool, ok: bool)
    requires StopDrainInv(w, k, failed) && Sound(w, if k > 0 then k - 1 else |w.comps|)
    ensures var w' := TickStopDrain(w, k, failed, ok);
            && Framed(w, w', if k > 0 then k - 1 else |w.comps|)
            && match w'.ctl
               case StopTake(k') => StopTakeInv(w', k')
               case StopWait(k', ready, f) => StopWaitInv(w', k', ready, f)
               case _ => false
  {
    if k > 0 {
      BeginDrainEffect(w.comps[k - 1], true);
    }
  }

  lemma StopWaitStep(w: World, k: nat, ready: nat, failed: bool, ok: bool)
    requires w.ctl == StopWait(k, ready, failed) && StopWaitInv(w, k, ready, failed) && Sound(w, k - 1)
    ensures var w' := TickStopWait(w, k, ready, failed, ok);
            && Framed(w, w', k - 1)
            && match w'.ctl
               case StopDrain(k', f) => StopDrainInv(w', k', f)
               case Idle => IdleInv(w')
               case _ => w' == w
  {
    if ChannelClosed(w.comps[k - 1], ready) {
      ClosedMeansDrained(w.comps[k - 1], ready);
    }
  }

  lemma StopTakeStep(w: World, k: nat, ok: bool)
    requires StopTakeInv(w, k) && Sound(w, if k > 0 then k - 1 else |w.comps|)
    ensures var w' := TickStopTake(w, k, ok);
            && Framed(w, w', if k > 0 then k - 1 else |w.comps|)
            && match w'.ctl
               case StopTake(k') => StopTakeInv(w', k')
               case StopFinal(k', role, fin, failed) => StopFinalInv(w', k', role, fin, failed)
               case _ => false
  {
    if k > 0 {
      PrepareStopEffect(w.comps[k - 1]);
    }
  }

  lemma StopFinalFramed(w: World, k: nat, role: Role, fin: FinStage, failed: bool, ok: bool)
    requires StopFinalInv(w, k, role, fin, failed) && k > 0 && Sound(w, k - 1)
    ensures Framed(w, TickStopFinal(w, k, role, fin, failed, ok), k - 1)
  {
    FinalizeStatus(w.comps[k - 1], role, fin, failed, ok);
  }

  lemma StopFinalStep(w: World, k: nat, role: Role, fin: FinStage, failed: bool, ok: bool)
    requires StopFinalInv(w, k, role, fin, failed) && k > 0 && Sound(w, k - 1)
    ensures var w' := TickStopFinal(w, k, role, fin, failed, ok);
            match w'.ctl
            case StopFinal(k', role', fin', failed') => StopFinalInv(w', k', role', fin', failed')
            case _ => false
  {
    FinalizeStatus(w.comps[k - 1], role, fin, failed, ok);
  }

  lemma StopFinishedStep(w: World, role: Role, fin: FinStage, failed: bool, ok: bool)
    requires StopFinalInv(w, 0, role, fin, failed) && Sound(w, |w.comps|)
    ensures var w' := TickStopFinal(w, 0, role, fin, failed, ok);
            Framed(w, w', |w.comps|) && w'.ctl.Idle? && IdleInv(w')
  {
  }
}
