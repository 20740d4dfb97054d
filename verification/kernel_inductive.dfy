/** Every run keeps the invariant. */
module KernelInductive {
  import opened Wrappers
  import opened Finalization
  import opened Components
  import opened KernelMachine
  import opened KernelInvariant
  import opened ComponentLemmas
  import opened KernelSteps
  import opened KernelCallers
  import L = Leases

  // The parts of the invariant that do not depend on the program counter -----------------

  predicate CompsOk(w: World) {
    forall i | 0 <= i < |w.comps| :: CompOk(w.comps[i])
  }

  predicate Bookkeeping(w: World) {
    && (w.state == Created ==> w.history == [] && !w.reached)
    && (w.state in {Running, KernelDraining, Failed} ==> w.reached)
  }

  predicate NotSwitching(w: World) {
    !w.ctl.ReloadCommit? && !w.ctl.ReloadPublish?
  }

  lemma FramedHistory(w: World, w': World, n: nat)
    requires HistoryInv(w) && OriginInv(w) && Framed(w, w', n) && NotSwitching(w)
    ensures HistoryInv(w') && OriginInv(w')
  {
    forall x | 0 <= x < |w'.history| ensures EntryOk(w', w'.history[x]) {
      assert EntryOk(w, w.history[x]);
    }
    forall i | 0 <= i < |w'.comps| && w'.comps[i].lease.current.Some?
      ensures w'.comps[i].lease.current.value == 0 || BeingSwitched(w', i) || Recorded(w', i, w'.comps[i].lease.current.value)
    {
      var g := w'.comps[i].lease.current.value;
      assert w'.comps[i].lease.current == w.comps[i].lease.current;
      assert g == 0 || Recorded(w, i, g);
    }
  }

  lemma FramedKeeps(w: World, w': World, n: nat)
    requires Inv(w) == true && Framed(w, w', n) && NotSwitching(w) && ControlInv(w') == true
    ensures Inv(w') == true
  {
    FramedHistory(w, w', n);
  }

  /** Publishing the first instances happens before any reload is recorded. */
  lemma PublishKeeps(w: World, w': World, n: nat)
    requires Inv(w) == true && w.ctl.StartPublish? && n < |w.comps| && ControlInv(w') == true
    requires |w'.comps| == |w.comps| && w' == w.(comps := w.comps[n := w'.comps[n]], ctl := w'.ctl)
    requires CompOk(w'.comps[n]) && Published(w'.comps[n]) && w.state == Created
    ensures Inv(w') == true
  {
    PublishedOrigin(w, w', n);
  }

  lemma PublishedOrigin(w: World, w': World, n: nat)
    requires OriginInv(w) && NotSwitching(w) && n < |w.comps| && w.history == []
    requires |w'.comps| == |w.comps| && w'.history == w.history && Published(w'.comps[n])
    requires forall i | 0 <= i < |w.comps| && i != n :: w'.comps[i] == w.comps[i]
    ensures HistoryInv(w') && OriginInv(w')
  {
    forall i | 0 <= i < |w'.comps| && w'.comps[i].lease.current.Some?
      ensures w'.comps[i].lease.current.value == 0 || BeingSwitched(w', i) || Recorded(w', i, w'.comps[i].lease.current.value)
    {
      if i != n {
        var g := w.comps[i].lease.current.value;
        assert g == 0 || Recorded(w, i, g);
      }
    }
  }

  /** Committing one component moves it forward to the reload's candidate. */
  lemma CommitHistory(w: World, w': World, job: Job, k: nat)
    requires HistoryInv(w) && OriginInv(w) && w.ctl == ReloadCommit(job, k) && k < |job.changed|
    requires job.changed[k] < |w.comps| && w'.ctl == ReloadCommit(job, k + 1)
    requires w'.history == w.history && |w'.comps| == |w.comps| && w'.comps == w.comps[job.changed[k] := w'.comps[job.changed[k]]]
    requires var c, c' := w.comps[job.changed[k]], w'.comps[job.changed[k]];
             c.lease.current.Some? && c'.lease.current.Some? && c.lease.current.value < c'.lease.current.value && c.lease.mode == c'.lease.mode
    ensures HistoryInv(w') && OriginInv(w')
  {
    var n := job.changed[k];
    assert job.changed[..k + 1] == job.changed[..k] + [n];
    forall x | 0 <= x < |w'.history| ensures EntryOk(w', w'.history[x]) {
      assert EntryOk(w, w.history[x]);
    }
    forall i | 0 <= i < |w'.comps| && w'.comps[i].lease.current.Some?
      ensures w'.comps[i].lease.current.value == 0 || BeingSwitched(w', i) || Recorded(w', i, w'.comps[i].lease.current.value)
    {
      if i != n {
        var g := w.comps[i].lease.current.value;
        assert g == 0 || BeingSwitched(w, i) || Recorded(w, i, g);
      }
    }
  }

  /** The recorded reload names exactly the slots its components now serve. */
  lemma PublishHistory(w: World, w': World, job: Job)
    requires HistoryInv(w) && OriginInv(w) && w.ctl == ReloadPublish(job)
    requires forall j | 0 <= j < |job.changed| :: job.changed[j] < |w.comps|
    requires w'.comps == w.comps && w'.history == w.history + [Switched(w.comps, job.changed)]
    ensures HistoryInv(w') && OriginInv(w')
  {
    var last := |w.history|;
    assert w'.history[last] == Switched(w.comps, job.changed);
    forall x | 0 <= x < |w'.history| ensures EntryOk(w', w'.history[x]) {
      if x < last {
        assert w'.history[x] == w.history[x] && EntryOk(w, w.history[x]);
      }
    }
    forall i | 0 <= i < |w'.comps| && w'.comps[i].lease.current.Some?
      ensures w'.comps[i].lease.current.value == 0 || Recorded(w', i, w'.comps[i].lease.current.value)
    {
      var g := w.comps[i].lease.current.value;
      if i in job.changed {
        assert i in w'.history[last] && w'.history[last][i] == g;
      } else if g != 0 {
        assert Recorded(w, i, g);
        var x :| 0 <= x < |w.history| && i in w.history[x] && w.history[x][i] == g;
        assert w'.history[x] == w.history[x];
      }
    }
  }

  // One tick of the operation thread -----------------------------------------------------

  /** The component the operation thread is about to touch, or nobody. */
  function Touched(w: World): nat {
    match w.ctl
    case Idle => |w.comps|
    case StartStage(_, n, _) => n
    case StartBuild(_, n, _) => n
    case StartStart(_, n, _) => n
    case StartReady(_, n, _) => n
    case StartDiscard(n, _, _) => n
    case StartPublish(_, n, _) => n
    case FailDrain(_, k) => if k > 0 then k - 1 else |w.comps|
    case FailWait(_, k, _) => if k > 0 then k - 1 else |w.comps|
    case FailTake(_, k) => if k > 0 then k - 1 else |w.comps|
    case FailStop(_, k, _) => if k > 0 then k - 1 else |w.comps|
    case FailPending(k) => k
    case ReloadStage(_, n) => n
    case ReloadBuild(job, k) => Named(w, job.changed, k)
    case ReloadStart(job, k) => Named(w, job.changed, k)
    case ReloadReady(job, k) => Named(w, job.changed, k)
    case ReloadDrain(job, k) => Named(w, job.changed, k - 1)
    case ReloadWait(job, k, _) => Named(w, job.changed, k - 1)
    case ReloadRollback(job, k) => Named(w, job.changed, k)
    case ReloadDiscard(job, k, _) => Named(w, job.changed, k - 1)
    case ReloadCommit(job, k) => Named(w, job.changed, k)
    case ReloadPublish(_) => |w.comps|
    case ReloadResume(job, k) => Named(w, job.changed, k)
    case ReloadRetire(job, k, _, _) => Named(w, job.changed, k - 1)
    case StopPendings(k) => k
    case StopDrain(k, _) => if k > 0 then k - 1 else |w.comps|
    case StopWait(k, _, _) => if k > 0 then k - 1 else |w.comps|
    case StopTake(k) => if k > 0 then k - 1 else |w.comps|
    case StopFinal(k, _, _, _) => if k > 0 then k - 1 else |w.comps|
  }

  lemma StartStageTick(w: World, ok: bool)
    requires ControlInv(w) == true && Sound(w, Touched(w)) && w.ctl.StartStage?
    ensures var w' := TickAny(w, ok); Framed(w, w', Touched(w)) && ControlInv(w') == true
  {
    var StartStage(snap, n, started) := w.ctl;
    StartStageStep(w, snap, n, started, ok);
  }

  lemma StartBuildTick(w: World, ok: bool)
    requires ControlInv(w) == true && Sound(w, Touched(w)) && w.ctl.StartBuild?
    ensures var w' := TickAny(w, ok); Framed(w, w', Touched(w)) && ControlInv(w') == true
  {
    var StartBuild(snap, n, started) := w.ctl;
    StartBuildStep(w, snap, n, started, ok);
  }

  lemma StartStartTick(w: World, ok: bool)
    requires ControlInv(w) == true && Sound(w, Touched(w)) && w.ctl.StartStart?
    ensures var w' := TickAny(w, ok); Framed(w, w', Touched(w)) && ControlInv(w') == true
  {
    var StartStart(snap, n, started) := w.ctl;
    StartProbeStep(w, snap, n, started, ok);
  }

  lemma StartReadyTick(w: World, ok: bool)
    requires ControlInv(w) == true && Sound(w, Touched(w)) && w.ctl.StartReady?
    ensures var w' := TickAny(w, ok); Framed(w, w', Touched(w)) && ControlInv(w') == true
  {
    var StartReady(snap, n, started) := w.ctl;
    StartProbeStep(w, snap, n, started, ok);
  }

  lemma StartDiscardTick(w: World, ok: bool)
    requires ControlInv(w) == true && Sound(w, Touched(w)) && w.ctl.StartDiscard?
    ensures var w' := TickAny(w, ok); Framed(w, w', Touched(w)) && ControlInv(w') == true
  {
    var StartDiscard(n, started, fin) := w.ctl;
    StartDiscardStep(w, n, started, fin, ok);
  }

  lemma FailDrainTick(w: World, ok: bool)
    requires ControlInv(w) == true && Sound(w, Touched(w)) && w.ctl.FailDrain?
    ensures var w' := TickAny(w, ok); Framed(w, w', Touched(w)) && ControlInv(w') == true
  {
    var FailDrain(started, k) := w.ctl;
    FailDrainStep(w, started, k, ok);
  }

  lemma FailWaitTick(w: World, ok: bool)
    requires ControlInv(w) == true && Sound(w, Touched(w)) && w.ctl.FailWait?
    ensures var w' := TickAny(w, ok); Framed(w, w', Touched(w)) && ControlInv(w') == true
  {
    var FailWait(started, k, ready) := w.ctl;
    FailWaitStep(w, started, k, ready, ok);
  }

  lemma FailTakeTick(w: World, ok: bool)
    requires ControlInv(w) == true && Sound(w, Touched(w)) && w.ctl.FailTake?
    ensures var w' := TickAny(w, ok); Framed(w, w', Touched(w)) && ControlInv(w') == true
  {
    var FailTake(started, k) := w.ctl;
    FailTakeStep(w, started, k, ok);
  }

  lemma FailStopTick(w: World, ok: bool)
    requires ControlInv(w) == true && Sound(w, Touched(w)) && w.ctl.FailStop?
    ensures var w' := TickAny(w, ok); Framed(w, w', Touched(w)) && ControlInv(w') == true
  {
    var FailStop(started, k, fin) := w.ctl;
    FailStopStep(w, started, k, fin, ok);
  }

  lemma FailPendingTick(w: World, ok: bool)
    requires ControlInv(w) == true && Sound(w, Touched(w)) && w.ctl.FailPending? && !w.reached
    ensures var w' := TickAny(w, ok); Framed(w, w', Touched(w)) && ControlInv(w') == true
  {
    var FailPending(k) := w.ctl;
    FailPendingStep(w, k, ok);
  }

  lemma ReloadStageTick(w: World, ok: bool)
    requires ControlInv(w) == true && Sound(w, Touched(w)) && w.ctl.ReloadStage?
    ensures var w' := TickAny(w, ok); Framed(w, w', Touched(w)) && ControlInv(w') == true
  {
    var ReloadStage(job, n) := w.ctl;
    if n < |w.comps| {
      ReloadStageStep(w, job, n, ok);
    } else {
      ReloadStagedStep(w, job, ok);
    }
  }

  lemma ReloadBuildTick(w: World, ok: bool)
    requires ControlInv(w) == true && Sound(w, Touched(w)) && w.ctl.ReloadBuild?
    ensures var w' := TickAny(w, ok); Framed(w, w', Touched(w)) && ControlInv(w') == true
  {
    var ReloadBuild(job, k) := w.ctl;
    ReloadBuildStep(w, job, k, ok);
  }

  lemma ReloadStartTick(w: World, ok: bool)
    requires ControlInv(w) == true && Sound(w, Touched(w)) && w.ctl.ReloadStart?
    ensures var w' := TickAny(w, ok); Framed(w, w', Touched(w)) && ControlInv(w') == true
  {
    var ReloadStart(job, k) := w.ctl;
    ReloadProbeStep(w, job, k, ok);
  }

  lemma ReloadReadyTick(w: World, ok: bool)
    requires ControlInv(w) == true && Sound(w, Touched(w)) && w.ctl.ReloadReady?
    ensures var w' := TickAny(w, ok); Framed(w, w', Touched(w)) && ControlInv(w') == true
  {
    var ReloadReady(job, k) := w.ctl;
    ReloadProbeStep(w, job, k, ok);
  }

  lemma ReloadDrainTick(w: World, ok: bool)
    requires ControlInv(w) == true && Sound(w, Touched(w)) && w.ctl.ReloadDrain?
    ensures var w' := TickAny(w, ok); Framed(w, w', Touched(w)) && ControlInv(w') == true
  {
    var ReloadDrain(job, k) := w.ctl;
    ReloadDrainStep(w, job, k, ok);
  }

  lemma ReloadWaitTick(w: World, ok: bool)
    requires ControlInv(w) == true && Sound(w, Touched(w)) && w.ctl.ReloadWait?
    ensures var w' := TickAny(w, ok); Framed(w, w', Touched(w)) && ControlInv(w') == true
  {
    var ReloadWait(job, k, ready) := w.ctl;
    ReloadWaitStep(w, job, k, ready, ok);
  }

  lemma ReloadRollbackTick(w: World, ok: bool)
    requires ControlInv(w) == true && Sound(w, Touched(w)) && w.ctl.ReloadRollback?
    ensures var w' := TickAny(w, ok); Framed(w, w', Touched(w)) && ControlInv(w') == true
  {
    var ReloadRollback(job, k) := w.ctl;
    if k < |job.changed| {
      ReloadRollbackStep(w, job, k, ok);
    } else {
      ReloadRolledBackStep(w, job, ok);
    }
  }

  lemma ReloadDiscardTick(w: World, ok: bool)
    requires ControlInv(w) == true && Sound(w, Touched(w)) && w.ctl.ReloadDiscard?
    ensures var w' := TickAny(w, ok); Framed(w, w', Touched(w)) && ControlInv(w') == true
  {
    var ReloadDiscard(job, k, fin) := w.ctl;
    if k > 0 {
      ReloadDiscardStep(w, job, k, fin, ok);
    } else {
      ReloadDiscardedStep(w, job, fin, ok);
    }
  }

  lemma ReloadResumeTick(w: World, ok: bool)
    requires ControlInv(w) == true && Sound(w, Touched(w)) && w.ctl.ReloadResume?
    ensures var w' := TickAny(w, ok); Framed(w, w', Touched(w)) && ControlInv(w') == true
  {
    var ReloadResume(job, k) := w.ctl;
    if k < |job.changed| {
      ReloadResumeStep(w, job, k, ok);
    } else {
      ReloadResumedStep(w, job, ok);
    }
  }

  lemma ReloadRetireTick(w: World, ok: bool)
    requires ControlInv(w) == true && Sound(w, Touched(w)) && w.ctl.ReloadRetire?
    ensures var w' := TickAny(w, ok); Framed(w, w', Touched(w)) && ControlInv(w') == true
  {
    var ReloadRetire(job, k, fin, failed) := w.ctl;
    if k > 0 {
      ReloadRetireFramed(w, job, k, fin, failed, ok);
      ReloadRetireStep(w, job, k, fin, failed, ok);
    } else {
      ReloadRetiredStep(w, job, fin, failed, ok);
    }
  }

  lemma StopPendingsTick(w: World, ok: bool)
    requires ControlInv(w) == true && Sound(w, Touched(w)) && w.ctl.StopPendings?
    ensures var w' := TickAny(w, ok); Framed(w, w', Touched(w)) && ControlInv(w') == true
  {
    var StopPendings(k) := w.ctl;
    StopPendingsStep(w, k, ok);
  }

  lemma StopDrainTick(w: World, ok: bool)
    requires ControlInv(w) == true && Sound(w, Touched(w)) && w.ctl.StopDrain?
    ensures var w' := TickAny(w, ok); Framed(w, w', Touched(w)) && ControlInv(w') == true
  {
    var StopDrain(k, failed) := w.ctl;
    StopDrainStep(w, k, failed, ok);
  }

  lemma StopWaitTick(w: World, ok: bool)
    requires ControlInv(w) == true && Sound(w, Touched(w)) && w.ctl.StopWait?
    ensures var w' := TickAny(w, ok); Framed(w, w', Touched(w)) && ControlInv(w') == true
  {
    var StopWait(k, ready, failed) := w.ctl;
    StopWaitStep(w, k, ready, failed, ok);
  }

  lemma StopTakeTick(w: World, ok: bool)
    requires ControlInv(w) == true && Sound(w, Touched(w)) && w.ctl.StopTake?
    ensures var w' := TickAny(w, ok); Framed(w, w', Touched(w)) && ControlInv(w') == true
  {
    var StopTake(k) := w.ctl;
    StopTakeStep(w, k, ok);
  }

  lemma StopFinalTick(w: World, ok: bool)
    requires ControlInv(w) == true && Sound(w, Touched(w)) && w.ctl.StopFinal?
    ensures var w' := TickAny(w, ok); Framed(w, w', Touched(w)) && ControlInv(w') == true
  {
    var StopFinal(k, role, fin, failed) := w.ctl;
    if k > 0 {
      StopFinalFramed(w, k, role, fin, failed, ok);
      StopFinalStep(w, k, role, fin, failed, ok);
    } else {
      StopFinishedStep(w, role, fin, failed, ok);
    }
  }

  lemma TickControl(w: World, ok: bool)
    requires ControlInv(w) == true && Sound(w, Touched(w)) && (w.ctl.FailPending? ==> !w.reached)
    requires !w.ctl.Idle? && !w.ctl.StartPublish? && NotSwitching(w)
    ensures var w' := TickAny(w, ok); Framed(w, w', Touched(w)) && ControlInv(w') == true
  {
    match w.ctl
    case StartStage(_, _, _) => StartStageTick(w, ok);
    case StartBuild(_, _, _) => StartBuildTick(w, ok);
    case StartStart(_, _, _) => StartStartTick(w, ok);
    case StartReady(_, _, _) => StartReadyTick(w, ok);
    case StartDiscard(_, _, _) => StartDiscardTick(w, ok);
    case FailDrain(_, _) => FailDrainTick(w, ok);
    case FailWait(_, _, _) => FailWaitTick(w, ok);
    case FailTake(_, _) => FailTakeTick(w, ok);
    case FailStop(_, _, _) => FailStopTick(w, ok);
    case FailPending(_) => FailPendingTick(w, ok);
    case ReloadStage(_, _) => ReloadStageTick(w, ok);
    case ReloadBuild(_, _) => ReloadBuildTick(w, ok);
    case ReloadStart(_, _) => ReloadStartTick(w, ok);
    case ReloadReady(_, _) => ReloadReadyTick(w, ok);
    case ReloadDrain(_, _) => ReloadDrainTick(w, ok);
    case ReloadWait(_, _, _) => ReloadWaitTick(w, ok);
    case ReloadRollback(_, _) => ReloadRollbackTick(w, ok);
    case ReloadDiscard(_, _, _) => ReloadDiscardTick(w, ok);
    case ReloadResume(_, _) => ReloadResumeTick(w, ok);
    case ReloadRetire(_, _, _, _) => ReloadRetireTick(w, ok);
    case StopPendings(_) => StopPendingsTick(w, ok);
    case StopDrain(_, _) => StopDrainTick(w, ok);
    case StopWait(_, _, _) => StopWaitTick(w, ok);
    case StopTake(_) => StopTakeTick(w, ok);
    case StopFinal(_, _, _, _) => StopFinalTick(w, ok);
  }

  lemma TickPublishKeeps(w: World, ok: bool)
    requires Inv(w) == true && w.ctl.StartPublish?
    ensures Inv(TickAny(w, ok)) == true
  {
    StartPublishStep(w, w.ctl.snap, w.ctl.n, w.ctl.started, ok);
    PublishKeeps(w, TickAny(w, ok), w.ctl.n);
  }

  lemma TickCommitKeeps(w: World, ok: bool)
    requires Inv(w) == true && w.ctl.ReloadCommit?
    ensures Inv(TickAny(w, ok)) == true
  {
    var job, k := w.ctl.job, w.ctl.k;
    var w' := TickAny(w, ok);
    assert Sound(w, Named(w, job.changed, k));
    ReloadCommitStep(w, job, k, ok);
    if k < |job.changed| {
      CommitHistory(w, w', job, k);
    } else {
      assert job.changed[..k] == job.changed;
      SwitchingHistory(w, w');
    }
  }

  lemma TickSwitchKeeps(w: World, ok: bool)
    requires Inv(w) == true && w.ctl.ReloadPublish?
    ensures Inv(TickAny(w, ok)) == true
  {
    ReloadPublishStep(w, w.ctl.job, ok);
    PublishHistory(w, TickAny(w, ok), w.ctl.job);
  }

  lemma {:induction false} TickKeeps(w: World, ok: bool)
    requires Inv(w) == true
    ensures Inv(TickAny(w, ok)) == true
  {
    if w.ctl.StartPublish? {
      TickPublishKeeps(w, ok);
    } else if w.ctl.ReloadCommit? {
      TickCommitKeeps(w, ok);
    } else if w.ctl.ReloadPublish? {
      TickSwitchKeeps(w, ok);
    } else if !w.ctl.Idle? {
      TickControl(w, ok);
      FramedKeeps(w, TickAny(w, ok), Touched(w));
    }
  }

  // Beginning an operation, and callers ---------------------------------------------------

  lemma BeginReloadInv(w: World, snap: Snapshot)
    requires IdleInv(w) && w.state == Running
    ensures ReloadStageInv(w, Job(snap, [], [], Bases(w.comps), w.snapshot), 0)
  {
  }

  lemma BeginStopInv(w: World)
    requires IdleInv(w) && w.ctl.Idle? && w.state != KernelStopped && (w.state == Created ==> !w.reached)
    ensures ControlInv(BeginOperation(w, BeginStop)) == true
  {
  }

  lemma BeginControl(w: World, a: Action)
    requires IdleInv(w) && w.ctl.Idle? && Bookkeeping(w)
    ensures var w' := BeginOperation(w, a); ControlInv(w') == true && Bookkeeping(w')
  {
    if a.BeginReload? && w.state == Running {
      BeginReloadInv(w, a.snap);
    } else if a.BeginStop? && w.state != KernelStopped {
      BeginStopInv(w);
    }
  }

  lemma BeginKeeps(w: World, a: Action)
    requires Inv(w) == true && w.ctl.Idle?
    ensures Inv(BeginOperation(w, a)) == true
  {
    BeginControl(w, a);
    SwitchingHistory(w, BeginOperation(w, a));
  }

  lemma SwitchingHistory(w: World, w': World)
    requires HistoryInv(w) && OriginInv(w) && w'.comps == w.comps && w'.history == w.history
    requires forall i | 0 <= i < |w.comps| :: BeingSwitched(w, i) ==> BeingSwitched(w', i)
    ensures HistoryInv(w') && OriginInv(w')
  {
    forall x | 0 <= x < |w'.history| ensures EntryOk(w', w'.history[x]) {
      assert EntryOk(w, w.history[x]);
    }
    forall i | 0 <= i < |w'.comps| && w'.comps[i].lease.current.Some?
      ensures w'.comps[i].lease.current.value == 0 || BeingSwitched(w', i) || Recorded(w', i, w'.comps[i].lease.current.value)
    {
      var g := w.comps[i].lease.current.value;
      assert g == 0 || BeingSwitched(w, i) || Recorded(w, i, g);
    }
  }

  lemma Assemble(w: World)
    requires !w.panicked && CompsOk(w) && ControlInv(w) == true && HistoryInv(w) && OriginInv(w) && Bookkeeping(w)
    ensures Inv(w) == true
  {
  }

  lemma CallerComps(w: World, i: nat, user: nat, move: CallerMove)
    requires !w.panicked && CompsOk(w)
    ensures var w' := CallerStep(w, i, user, move); CompsOk(w') && Interfered(w, w')
  {
    CallerSound(w, i, user, move);
  }

  lemma {:induction false} CallerKeeps(w: World, i: nat, user: nat, move: CallerMove)
    requires Inv(w) == true
    ensures Inv(CallerStep(w, i, user, move)) == true
  {
    var w' := CallerStep(w, i, user, move);
    CallerComps(w, i, user, move);
    CallerControl(w, w');
    InterferedHistory(w, w');
    Assemble(w');
  }

  lemma InterferedHistory(w: World, w': World)
    requires HistoryInv(w) && OriginInv(w) && Interfered(w, w')
    ensures HistoryInv(w') && OriginInv(w')
  {
    forall x | 0 <= x < |w'.history| ensures EntryOk(w', w'.history[x]) {
      assert EntryOk(w, w.history[x]);
    }
    forall i | 0 <= i < |w'.comps| && w'.comps[i].lease.current.Some?
      ensures w'.comps[i].lease.current.value == 0 || BeingSwitched(w', i) || Recorded(w', i, w'.comps[i].lease.current.value)
    {
      assert CallerEffect(w.comps[i], w'.comps[i]);
      assert w'.comps[i].lease.current == w.comps[i].lease.current;
      var g := w.comps[i].lease.current.value;
      assert g == 0 || BeingSwitched(w, i) || Recorded(w, i, g);
    }
  }

  lemma ApplyKeeps(w: World, a: Action)
    requires Inv(w) == true
    ensures Inv(Apply(w, a)) == true
  {
    if a.Tick? {
      TickKeeps(w, a.ok);
    } else if a.Caller? {
      CallerKeeps(w, a.comp, a.user, a.move);
    } else if w.ctl.Idle? {
      BeginKeeps(w, a);
    }
  }

  /** Every world a run can reach satisfies the invariant. */
  lemma {:induction false} RunInv(configs: seq<Config>, actions: seq<Action>)
    ensures Inv(Run(configs, actions)) == true
  {
    if actions == [] {
      InitInv(configs);
    } else {
      RunInv(configs, actions[..|actions| - 1]);
      ApplyKeeps(Run(configs, actions[..|actions| - 1]), actions[|actions| - 1]);
    }
  }

  lemma InitInv(configs: seq<Config>)
    ensures Inv(Init(configs)) == true
  {
    var w := Init(configs);
    forall i | 0 <= i < |w.comps| ensures CompOk(w.comps[i]) && NotStarted(w.comps[i]) {
      assert w.comps[i] == NewComp(configs[i].path, configs[i].restartRequired, configs[i].policy);
    }
  }
}
