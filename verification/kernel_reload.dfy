/** A reload is all or nothing, in every interleaving with callers. */
module KernelReload {
  import opened Wrappers
  import opened Finalization
  import opened Components
  import opened KernelMachine
  import opened KernelInvariant
  import opened ComponentLemmas
  import opened KernelInductive
  import L = Leases

  /** The candidate snapshot changes the component's section. */
  predicate Differs(c: Comp, b: Base, snap: Snapshot) {
    c.path != "" && SectionDigest(snap, c.path) != Some(b.digest)
  }

  predicate SameAs(c: Comp, b: Base) {
    c.lease.mode == L.Serving && c.lease.current == b.current && c.digest == b.digest
  }

  /** What a reload leaves behind when it returns. */
  predicate ReloadResult(base: seq<Base>, before: Option<Snapshot>, snap: Snapshot, w: World) {
    && |base| == |w.comps| && w.state == Running
    && match w.outcome
       case ReloadRejected => w.snapshot == before && (forall i | 0 <= i < |base| :: SameAs(w.comps[i], base[i]))
       case ReloadRestart(ids) =>
         && w.snapshot == before && (forall i | 0 <= i < |base| :: SameAs(w.comps[i], base[i]))
         && ids != []
         && (forall i | 0 <= i < |base| :: i in ids <==> w.comps[i].restartRequired && Differs(w.comps[i], base[i], snap))
       case ReloadUnchanged =>
         && w.snapshot == Some(snap) && (forall i | 0 <= i < |base| :: SameAs(w.comps[i], base[i]))
         && (forall i | 0 <= i < |base| :: !Differs(w.comps[i], base[i], snap))
       case ReloadApplied => Committed(base, snap, w) && (forall i | 0 <= i < |base| && Differs(w.comps[i], base[i], snap) :: NoOwners(w.comps[i]))
       case ReloadCommittedCleanup => Committed(base, snap, w)
       case _ => false
  }

  /** Every component whose section differs serves a younger instance built from the new
      snapshot, every other one the very instance it served before. */
  predicate Committed(base: seq<Base>, snap: Snapshot, w: World)
    requires |base| == |w.comps|
  {
    && w.snapshot == Some(snap)
    && (forall i | 0 <= i < |base| ::
          && w.comps[i].lease.mode == L.Serving && Matches(w.comps[i], snap)
          && if Differs(w.comps[i], base[i], snap)
             then base[i].current.Some? && base[i].current.value < w.comps[i].lease.current.value
             else SameAs(w.comps[i], base[i]))
    && |w.history| > 0
    && w.history[|w.history| - 1].Keys == (set i | 0 <= i < |base| && Differs(w.comps[i], base[i], snap))
  }

  function JobOf(ctl: Control): Option<Job> {
    match ctl
    case ReloadStage(job, _) => Some(job)
    case ReloadBuild(job, _) => Some(job)
    case ReloadStart(job, _) => Some(job)
    case ReloadReady(job, _) => Some(job)
    case ReloadDrain(job, _) => Some(job)
    case ReloadWait(job, _, _) => Some(job)
    case ReloadRollback(job, _) => Some(job)
    case ReloadDiscard(job, _, _) => Some(job)
    case ReloadCommit(job, _) => Some(job)
    case ReloadPublish(job) => Some(job)
    case ReloadResume(job, _) => Some(job)
    case ReloadRetire(job, _, _, _) => Some(job)
    case _ => None
  }

  predicate SameReload(job: Option<Job>, base: seq<Base>, before: Option<Snapshot>, snap: Snapshot) {
    job.Some? && job.value.base == base && job.value.before == before && job.value.snap == snap
  }

  /** A reload that found nothing to do, or must not go on, returns before touching anything. */
  lemma StageEnds(w: World, job: Job, n: nat, ok: bool)
    requires ReloadStageInv(w, job, n) && w.ctl == ReloadStage(job, n)
    requires n < |w.comps| ==> CompOk(w.comps[n])
    requires TickReloadStage(w, job, n, ok).ctl.Idle?
    ensures ReloadResult(job.base, job.before, job.snap, TickReloadStage(w, job, n, ok))
  {
    if n == |w.comps| {
      forall i | 0 <= i < |w.comps|
        ensures i in job.changed <==> Differs(w.comps[i], job.base[i], job.snap)
      {
        if i in job.changed {
          var j :| 0 <= j < |job.changed| && job.changed[j] == i;
          assert At(w, job, j, SToBuild);
        }
      }
    }
  }

  lemma DiscardEnds(w: World, job: Job, fin: FinStage, ok: bool)
    requires ReloadDiscardInv(w, job, 0, fin)
    ensures ReloadResult(job.base, job.before, job.snap, TickReloadDiscard(w, job, 0, fin, ok))
  {
    forall i | 0 <= i < |w.comps| ensures SameAs(w.comps[i], job.base[i]) {
      if i in job.changed {
        var j :| 0 <= j < |job.changed| && job.changed[j] == i;
        assert At(w, job, j, SHeld);
      } else {
        assert Untouched(w.comps[i], job.base[i], job);
      }
    }
  }

  lemma RetireEnds(w: World, job: Job, fin: FinStage, failed: bool, ok: bool)
    requires ReloadRetireInv(w, job, 0, fin, failed)
    ensures ReloadResult(job.base, job.before, job.snap, TickReloadRetire(w, job, 0, fin, failed, ok))
  {
    forall i | 0 <= i < |w.comps|
      ensures i in job.changed <==> Differs(w.comps[i], job.base[i], job.snap)
      ensures w.comps[i].lease.mode == L.Serving && Matches(w.comps[i], job.snap)
      ensures i in job.changed ==>
                && job.base[i].current.Some? && job.base[i].current.value < w.comps[i].lease.current.value
                && (!failed ==> NoOwners(w.comps[i]))
      ensures i !in job.changed ==> SameAs(w.comps[i], job.base[i])
    {
      if i in job.changed {
        var j :| 0 <= j < |job.changed| && job.changed[j] == i;
        assert At(w, job, j, if failed then SKept else SClean);
      } else {
        assert Untouched(w.comps[i], job.base[i], job);
        AgreeingMatches(w.comps[i], job.before.value, job.snap);
      }
    }
  }

  /** The data of a reload does not change until it returns. */
  lemma JobGoesOn(w: World, ok: bool)
    requires w.ctl.ReloadStage? || w.ctl.ReloadBuild? || w.ctl.ReloadStart? || w.ctl.ReloadReady?
    ensures var w' := TickAny(w, ok);
            (w'.ctl.Idle? && w.ctl.ReloadStage?) ||
            SameReload(JobOf(w'.ctl), w.ctl.job.base, w.ctl.job.before, w.ctl.job.snap)
  {
  }

  lemma SwapGoesOn(w: World, ok: bool)
    requires w.ctl.ReloadDrain? || w.ctl.ReloadWait? || w.ctl.ReloadRollback? || w.ctl.ReloadDiscard?
    ensures var w' := TickAny(w, ok);
            (w'.ctl.Idle? && w.ctl.ReloadDiscard? && w.ctl.k == 0) ||
            SameReload(JobOf(w'.ctl), w.ctl.job.base, w.ctl.job.before, w.ctl.job.snap)
  {
  }

  lemma CommitGoesOn(w: World, ok: bool)
    requires w.ctl.ReloadCommit? || w.ctl.ReloadPublish? || w.ctl.ReloadResume? || w.ctl.ReloadRetire?
    ensures var w' := TickAny(w, ok);
            (w'.ctl.Idle? && w.ctl.ReloadRetire? && w.ctl.k == 0) ||
            SameReload(JobOf(w'.ctl), w.ctl.job.base, w.ctl.job.before, w.ctl.job.snap)
  {
  }

  lemma TickGoesOn(w: World, ok: bool)
    requires ControlInv(w) == true && JobOf(w.ctl).Some?
    requires forall i | 0 <= i < |w.comps| :: CompOk(w.comps[i])
    ensures var job, w' := w.ctl.job, TickAny(w, ok);
            if w'.ctl.Idle? then ReloadResult(job.base, job.before, job.snap, w')
            else SameReload(JobOf(w'.ctl), job.base, job.before, job.snap)
  {
    var job, w' := w.ctl.job, TickAny(w, ok);
    if w.ctl.ReloadStage? || w.ctl.ReloadBuild? || w.ctl.ReloadStart? || w.ctl.ReloadReady? {
      JobGoesOn(w, ok);
      if w'.ctl.Idle? {
        StageEnds(w, job, w.ctl.n, ok);
      }
    } else if w.ctl.ReloadDrain? || w.ctl.ReloadWait? || w.ctl.ReloadRollback? || w.ctl.ReloadDiscard? {
      SwapGoesOn(w, ok);
      if w'.ctl.Idle? {
        DiscardEnds(w, job, w.ctl.fin, ok);
      }
    } else {
      CommitGoesOn(w, ok);
      if w'.ctl.Idle? {
        RetireEnds(w, job, w.ctl.fin, w.ctl.failed, ok);
      }
    }
  }

  lemma {:induction false} ReloadGoesOn(w: World, a: Action)
    requires Inv(w) == true && JobOf(w.ctl).Some?
    ensures var job, w' := w.ctl.job, Apply(w, a);
            if w'.ctl.Idle? then ReloadResult(job.base, job.before, job.snap, w')
            else SameReload(JobOf(w'.ctl), job.base, job.before, job.snap)
  {
    if a.Tick? {
      TickGoesOn(w, a.ok);
    }
  }

  /** The world `k` actions into a reload. */
  function During(configs: seq<Config>, before: seq<Action>, snap: Snapshot, during: seq<Action>, k: nat): World
    requires k <= |during|
  {
    Run(configs, before + [BeginReload(snap)] + during[..k])
  }

  lemma ReloadBegins(w: World, snap: Snapshot)
    requires w.ctl.Idle? && w.state == Running && !w.panicked
    ensures SameReload(JobOf(Apply(w, BeginReload(snap)).ctl), Bases(w.comps), w.snapshot, snap)
    ensures !Apply(w, BeginReload(snap)).ctl.Idle?
  {
  }

  lemma {:induction false} ReloadTracked(configs: seq<Config>, before: seq<Action>, snap: Snapshot, during: seq<Action>, k: nat)
    requires k <= |during|
    requires var w0 := Run(configs, before); w0.ctl.Idle? && w0.state == Running
    requires forall m: nat | m < k :: !During(configs, before, snap, during, m).ctl.Idle?
    ensures var w0, w := Run(configs, before), During(configs, before, snap, during, k);
            if w.ctl.Idle? then ReloadResult(Bases(w0.comps), w0.snapshot, snap, w)
            else SameReload(JobOf(w.ctl), Bases(w0.comps), w0.snapshot, snap)
  {
    var w0 := Run(configs, before);
    var start := before + [BeginReload(snap)];
    if k == 0 {
      assert start + during[..0] == start && start[..|start| - 1] == before;
      RunInv(configs, before);
      ReloadBegins(w0, snap);
    } else {
      ReloadTracked(configs, before, snap, during, k - 1);
      var w := During(configs, before, snap, during, k - 1);
      assert !w.ctl.Idle?;
      assert (start + during[..k])[..|start| + k - 1] == start + during[..k - 1];
      assert During(configs, before, snap, during, k) == Apply(w, during[k - 1]);
      RunInv(configs, start + during[..k - 1]);
      ReloadGoesOn(w, during[k - 1]);
    }
  }

  /** Take any run up to an idle running kernel, begin a reload, and continue with any
      actions - ticks with any outcome, any caller moves - to the point where the reload
      returns. Then either nothing has changed, or everything the new snapshot changes has. */
  lemma {:induction false} ReloadAllOrNothing(configs: seq<Config>, before: seq<Action>, snap: Snapshot, during: seq<Action>)
    requires var w0 := Run(configs, before); w0.ctl.Idle? && w0.state == Running
    requires forall m: nat | m < |during| :: !During(configs, before, snap, during, m).ctl.Idle?
    requires During(configs, before, snap, during, |during|).ctl.Idle?
    ensures var w0 := Run(configs, before);
            ReloadResult(Bases(w0.comps), w0.snapshot, snap, Run(configs, before + [BeginReload(snap)] + during))
  {
    ReloadTracked(configs, before, snap, during, |during|);
    assert during[..|during|] == during;
  }
}
