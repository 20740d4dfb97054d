/** The invariant is inductive, part two: concurrent Use callers disturb nothing. */
module KernelCallers {
  import opened Wrappers
  import opened Finalization
  import opened Components
  import opened KernelMachine
  import opened KernelInvariant
  import opened ComponentLemmas
  import L = Leases

  /** Two worlds that differ by what callers may do to a lease. */
  predicate Interfered(w: World, w': World) {
    && w' == w.(comps := w'.comps) && |w'.comps| == |w.comps|
    && (forall i | 0 <= i < |w.comps| :: CallerEffect(w.comps[i], w'.comps[i]))
  }

  lemma SameCaller(c: Comp)
    ensures CallerEffect(c, c)
  {
  }

  /** A caller's step keeps the component in order and changes only what callers may. */
  lemma CallerMoveSound(c: Comp, user: nat, move: CallerMove)
    requires CompOk(c)
    ensures match move
            case TryAcquire => L.MayAttempt(c.lease, user) ==>
              |c.lease.transitions| > 0 && (c.lease.mode == L.Serving ==> c.lease.current.Some?) &&
              L.CallerStep(c.lease, L.Attempt(c.lease, user)) && CompOk(c.(lease := L.Attempt(c.lease, user)))
            case Leave =>
              L.CallerStep(c.lease, L.GiveUp(c.lease, user)) && CompOk(c.(lease := L.GiveUp(c.lease, user)))
            case Done => user in c.lease.holders ==>
              L.CanRelease(c.lease) &&
              L.CallerStep(c.lease, L.Release(c.lease, user)) && CompOk(c.(lease := L.Release(c.lease, user)))
  {
    var l := c.lease;
    if move == TryAcquire && L.MayAttempt(l, user) {
      L.AttemptOk(l, user);
      CallerKeepsComp(c, L.Attempt(l, user));
    } else if move == Leave {
      L.GiveUpOk(l, user);
      CallerKeepsComp(c, L.GiveUp(l, user));
    } else if move == Done && user in l.holders {
      L.ReleaseOk(l, user);
      CallerKeepsComp(c, L.Release(l, user));
    }
  }

  lemma CallerSound(w: World, i: nat, user: nat, move: CallerMove)
    requires !w.panicked && (i < |w.comps| ==> CompOk(w.comps[i]))
    ensures var w' := CallerStep(w, i, user, move);
            Interfered(w, w') && (i < |w.comps| ==> CompOk(w'.comps[i]))
  {
    if i < |w.comps| {
      CallerMoveSound(w.comps[i], user, move);
    }
  }

  lemma CallerIs(c: Comp, c': Comp, b: Base, job: Job, s: Status)
    requires CallerEffect(c, c') && job.before.Some? && Is(c, b, job, s)
    ensures Is(c', b, job, s)
  {
  }

  lemma CallerRange(w: World, w': World, job: Job, from: nat, to: int, s: Status)
    requires Interfered(w, w') && JobOk(w, job) && to <= |job.changed| && Range(w, job, from, to, s)
    ensures JobOk(w', job) && Range(w', job, from, to, s)
  {
    forall j: nat | from <= j < to ensures At(w', job, j, s) {
      assert At(w, job, j, s);
      CallerIs(w.comps[job.changed[j]], w'.comps[job.changed[j]], job.base[job.changed[j]], job, s);
    }
  }

  lemma CallerOthers(w: World, w': World, job: Job)
    requires Interfered(w, w') && JobOk(w, job) && OthersHeld(w, job)
    ensures JobOk(w', job) && OthersHeld(w', job)
  {
    forall i | 0 <= i < |w'.comps| && i !in job.changed ensures Untouched(w'.comps[i], job.base[i], job) {
      assert Untouched(w.comps[i], job.base[i], job);
      CallerIs(w.comps[i], w'.comps[i], job.base[i], job, SHeld);
    }
  }

  // One lemma for each group of control points. Writing `ControlInv(w) == true` keeps the
  // invariant one fact for the verifier, instead of the conjuncts of all its cases.

  lemma CallerStart(w: World, w': World)
    requires Interfered(w, w') && ControlInv(w) == true
    requires w.ctl.StartStage? || w.ctl.StartBuild? || w.ctl.StartStart? || w.ctl.StartReady? || w.ctl.StartPublish?
    ensures ControlInv(w') == true
  {
  }

  lemma CallerFail(w: World, w': World)
    requires Interfered(w, w') && ControlInv(w) == true
    requires w.ctl.StartDiscard? || w.ctl.FailDrain? || w.ctl.FailWait? || w.ctl.FailPending?
    ensures ControlInv(w') == true
  {
  }

  lemma CallerTaken(w: World, w': World)
    requires Interfered(w, w') && ControlInv(w) == true && (w.ctl.FailTake? || w.ctl.FailStop?)
    ensures ControlInv(w') == true
  {
  }

  lemma CallerPrepare(w: World, w': World)
    requires Interfered(w, w') && ControlInv(w) == true
    requires w.ctl.ReloadBuild? || w.ctl.ReloadStart? || w.ctl.ReloadReady?
    ensures ControlInv(w') == true
  {
    var job, k := w.ctl.job, w.ctl.k;
    var mid := if w.ctl.ReloadBuild? then k else k + 1;
    CallerOthers(w, w', job);
    CallerRange(w, w', job, 0, mid, SToDrain);
    CallerRange(w, w', job, mid, |job.changed|, SToBuild);
  }

  lemma CallerStage(w: World, w': World)
    requires Interfered(w, w') && ControlInv(w) == true && w.ctl.ReloadStage?
    ensures ControlInv(w') == true
  {
    var job := w.ctl.job;
    CallerRange(w, w', job, 0, |job.changed|, SToBuild);
    forall i | 0 <= i < |w.comps| ensures Held(w'.comps[i], job.base[i], job.before.value) {
      CallerIs(w.comps[i], w'.comps[i], job.base[i], job, SHeld);
    }
  }

  lemma CallerDrain(w: World, w': World)
    requires Interfered(w, w') && ControlInv(w) == true && (w.ctl.ReloadDrain? || w.ctl.ReloadWait?)
    ensures ControlInv(w') == true
  {
    var job, k := w.ctl.job, w.ctl.k;
    CallerOthers(w, w', job);
    CallerRange(w, w', job, k, |job.changed|, SDrained);
    if w.ctl.ReloadDrain? {
      CallerRange(w, w', job, 0, k, SToDrain);
    } else {
      CallerRange(w, w', job, 0, k - 1, SToDrain);
      CallerIs(w.comps[job.changed[k - 1]], w'.comps[job.changed[k - 1]], job.base[job.changed[k - 1]], job, SToCommit);
    }
  }

  lemma CallerRollback(w: World, w': World)
    requires Interfered(w, w') && ControlInv(w) == true && w.ctl.ReloadRollback?
    ensures ControlInv(w') == true
  {
    var job, k := w.ctl.job, w.ctl.k;
    CallerOthers(w, w', job);
    CallerRange(w, w', job, 0, k, SToDiscard);
    CallerRange(w, w', job, k, |job.changed|, SToCommit);
  }

  lemma CallerDiscard(w: World, w': World)
    requires Interfered(w, w') && ControlInv(w) == true && w.ctl.ReloadDiscard?
    ensures ControlInv(w') == true
  {
    var job, k: int := w.ctl.job, w.ctl.k;
    CallerOthers(w, w', job);
    CallerRange(w, w', job, 0, k - 1, SToDiscard);
    CallerRange(w, w', job, k, |job.changed|, SHeld);
  }

  lemma CallerCommit(w: World, w': World)
    requires Interfered(w, w') && ControlInv(w) == true && (w.ctl.ReloadCommit? || w.ctl.ReloadPublish? || w.ctl.ReloadResume?)
    ensures ControlInv(w') == true
  {
    var job := w.ctl.job;
    CallerOthers(w, w', job);
    if w.ctl.ReloadCommit? {
      CallerRange(w, w', job, 0, w.ctl.k, SToResume);
      CallerRange(w, w', job, w.ctl.k, |job.changed|, SDrained);
    } else if w.ctl.ReloadPublish? {
      CallerRange(w, w', job, 0, |job.changed|, SToResume);
    } else {
      CallerRange(w, w', job, 0, w.ctl.k, SToRetire);
      CallerRange(w, w', job, w.ctl.k, |job.changed|, SToResume);
    }
  }

  lemma CallerRetire(w: World, w': World)
    requires Interfered(w, w') && ControlInv(w) == true && w.ctl.ReloadRetire?
    ensures ControlInv(w') == true
  {
    var job, k: int := w.ctl.job, w.ctl.k;
    CallerOthers(w, w', job);
    CallerRange(w, w', job, 0, k - 1, SToRetire);
    CallerRange(w, w', job, k, |job.changed|, if w.ctl.failed then SKept else SClean);
  }

  lemma CallerStop(w: World, w': World)
    requires Interfered(w, w') && ControlInv(w) == true
    requires w.ctl.StopPendings? || w.ctl.StopDrain? || w.ctl.StopWait? || w.ctl.StopTake?
    ensures ControlInv(w') == true
  {
  }

  lemma CallerFinal(w: World, w': World)
    requires Interfered(w, w') && ControlInv(w) == true && w.ctl.StopFinal?
    ensures ControlInv(w') == true
  {
  }

  lemma CallerIdle(w: World, w': World)
    requires Interfered(w, w') && ControlInv(w) == true && w.ctl.Idle?
    ensures ControlInv(w') == true
  {
  }

  lemma CallerControl(w: World, w': World)
    requires Interfered(w, w') && ControlInv(w) == true
    ensures ControlInv(w') == true
  {
    match w.ctl
    case Idle => CallerIdle(w, w');
    case StartStage(_, _, _) => CallerStart(w, w');
    case StartBuild(_, _, _) => CallerStart(w, w');
    case StartStart(_, _, _) => CallerStart(w, w');
    case StartReady(_, _, _) => CallerStart(w, w');
    case StartPublish(_, _, _) => CallerStart(w, w');
    case StartDiscard(_, _, _) => CallerFail(w, w');
    case FailDrain(_, _) => CallerFail(w, w');
    case FailWait(_, _, _) => CallerFail(w, w');
    case FailTake(_, _) => CallerTaken(w, w');
    case FailStop(_, _, _) => CallerTaken(w, w');
    case FailPending(_) => CallerFail(w, w');
    case ReloadStage(_, _) => CallerStage(w, w');
    case ReloadBuild(_, _) => CallerPrepare(w, w');
    case ReloadStart(_, _) => CallerPrepare(w, w');
    case ReloadReady(_, _) => CallerPrepare(w, w');
    case ReloadDrain(_, _) => CallerDrain(w, w');
    case ReloadWait(_, _, _) => CallerDrain(w, w');
    case ReloadRollback(_, _) => CallerRollback(w, w');
    case ReloadDiscard(_, _, _) => CallerDiscard(w, w');
    case ReloadCommit(_, _) => CallerCommit(w, w');
    case ReloadPublish(_) => CallerCommit(w, w');
    case ReloadResume(_, _) => CallerCommit(w, w');
    case ReloadRetire(_, _, _, _) => CallerRetire(w, w');
    case StopPendings(_) => CallerStop(w, w');
    case StopDrain(_, _) => CallerStop(w, w');
    case StopWait(_, _, _) => CallerStop(w, w');
    case StopTake(_) => CallerStop(w, w');
    case StopFinal(_, _, _, _) => CallerFinal(w, w');
  }
}
