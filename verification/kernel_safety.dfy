/** What every run of the kernel guarantees, whatever the callers and the environment do. */
module KernelSafety {
  import opened Wrappers
  import opened Finalization
  import opened Components
  import opened KernelMachine
  import opened KernelInvariant
  import opened ComponentLemmas
  import opened KernelInductive
  import L = Leases

  // No panic, no lost wakeup ---------------------------------------------------------------

  /** No run reaches a lifecycle panic, closes a channel twice or follows a nil instance, and
      whenever a lease can answer, everybody waiting on it holds a closed channel. */
  lemma {:induction false} NoPanicNoLostWakeup(configs: seq<Config>, actions: seq<Action>)
    ensures var w := Run(configs, actions);
            && !w.panicked
            && forall i, user | 0 <= i < |w.comps| && user in w.comps[i].lease.waiters
                 && w.comps[i].lease.mode in {L.Serving, L.Stopped} :: L.MayAttempt(w.comps[i].lease, user)
  {
    RunInv(configs, actions);
    var w := Run(configs, actions);
    forall i, user | 0 <= i < |w.comps| && user in w.comps[i].lease.waiters && w.comps[i].lease.mode in {L.Serving, L.Stopped}
      ensures L.MayAttempt(w.comps[i].lease, user)
    {
      assert CompOk(w.comps[i]);
      L.NoLostWakeup(w.comps[i].lease, user);
    }
  }

  // Runs extend runs -----------------------------------------------------------------------

  /** Slots are never forgotten, finalizer invocations never undone. */
  predicate Ages(c: Comp, c': Comp) {
    && |c.slots| <= |c'.slots|
    && (forall g | 0 <= g < |c.slots| ::
          c.slots[g].attempts <= c'.slots[g].attempts && c.slots[g].config == c'.slots[g].config)
  }

  predicate Extends(w: World, w': World) {
    && |w'.comps| == |w.comps| && w.history <= w'.history
    && (forall i | 0 <= i < |w.comps| :: Ages(w.comps[i], w'.comps[i]))
  }

  lemma FinStepAges(c: Comp, role: Role, stage: FinStage, ok: bool)
    requires CanFinalize(c, role)
    ensures Ages(c, FinStep(c, role, stage, ok).0)
  {
  }

  lemma PutExtends(w: World, w': World, n: nat)
    requires |w'.comps| == |w.comps| && w'.history == w.history
    requires forall i | 0 <= i < |w.comps| && i != n :: w'.comps[i] == w.comps[i]
    requires n < |w.comps| ==> Ages(w.comps[n], w'.comps[n])
    ensures Extends(w, w')
  {
  }

  lemma FinalizingExtends(w: World, ok: bool)
    requires w.ctl.StartDiscard? || w.ctl.FailStop? || w.ctl.ReloadDiscard?
    ensures Extends(w, TickAny(w, ok)) == true
  {
    var n, role := Touched(w), if w.ctl.FailStop? then AsStopping else AsCandidate;
    var k: int := if w.ctl.StartDiscard? then w.ctl.n else w.ctl.k - 1;
    var at := if w.ctl.ReloadDiscard? && 0 <= k < |w.ctl.job.changed| then w.ctl.job.changed[k]
              else if w.ctl.FailStop? && 0 <= k < |w.ctl.started| then w.ctl.started[k]
              else n;
    if at < |w.comps| && CanFinalize(w.comps[at], role) {
      FinStepAges(w.comps[at], role, w.ctl.fin, ok);
    }
  }

  lemma RetiringExtends(w: World, ok: bool)
    requires w.ctl.ReloadRetire? || w.ctl.StopFinal?
    ensures Extends(w, TickAny(w, ok)) == true
  {
    var n := Touched(w);
    var role := if w.ctl.StopFinal? then w.ctl.role else AsRetired;
    if n < |w.comps| && CanFinalize(w.comps[n], role) {
      FinStepAges(w.comps[n], role, w.ctl.fin, ok);
    }
  }

  lemma StartingExtends(w: World, ok: bool)
    requires w.ctl.StartStage? || w.ctl.StartBuild? || w.ctl.StartStart? || w.ctl.StartReady? || w.ctl.StartPublish?
    ensures Extends(w, TickAny(w, ok)) == true
  {
  }

  lemma FailingExtends(w: World, ok: bool)
    requires w.ctl.FailDrain? || w.ctl.FailWait?
    ensures Extends(w, TickAny(w, ok)) == true
  {
  }

  lemma TakingExtends(w: World, ok: bool)
    requires w.ctl.FailTake? || w.ctl.StopTake?
    ensures Extends(w, TickAny(w, ok)) == true
  {
  }

  lemma PendingExtends(w: World, ok: bool)
    requires w.ctl.FailPending? || w.ctl.StopPendings?
    ensures Extends(w, TickAny(w, ok)) == true
  {
  }

  lemma PreparingExtends(w: World, ok: bool)
    requires w.ctl.ReloadStage? || w.ctl.ReloadBuild?
    ensures Extends(w, TickAny(w, ok)) == true
  {
  }

  lemma ProbingExtends(w: World, ok: bool)
    requires w.ctl.ReloadStart? || w.ctl.ReloadReady? || w.ctl.ReloadDrain? || w.ctl.ReloadWait?
    ensures Extends(w, TickAny(w, ok)) == true
  {
  }

  lemma RollingExtends(w: World, ok: bool)
    requires w.ctl.ReloadRollback?
    ensures Extends(w, TickAny(w, ok)) == true
  {
  }

  lemma CommittingExtends(w: World, ok: bool)
    requires w.ctl.ReloadCommit?
    ensures Extends(w, TickAny(w, ok)) == true
  {
  }

  lemma ResumingExtends(w: World, ok: bool)
    requires w.ctl.ReloadPublish? || w.ctl.ReloadResume?
    ensures Extends(w, TickAny(w, ok)) == true
  {
  }

  lemma StoppingExtends(w: World, ok: bool)
    requires w.ctl.StopDrain? || w.ctl.StopWait? || w.ctl.Idle?
    ensures Extends(w, TickAny(w, ok)) == true
  {
  }

  lemma ApplyExtends(w: World, a: Action)
    ensures Extends(w, Apply(w, a)) == true
  {
    if a.Tick? {
      match w.ctl {
        case StartDiscard(_, _, _) => FinalizingExtends(w, a.ok);
        case FailStop(_, _, _) => FinalizingExtends(w, a.ok);
        case ReloadDiscard(_, _, _) => FinalizingExtends(w, a.ok);
        case ReloadRetire(_, _, _, _) => RetiringExtends(w, a.ok);
        case StopFinal(_, _, _, _) => RetiringExtends(w, a.ok);
        case StartStage(_, _, _) => StartingExtends(w, a.ok);
        case StartBuild(_, _, _) => StartingExtends(w, a.ok);
        case StartStart(_, _, _) => StartingExtends(w, a.ok);
        case StartReady(_, _, _) => StartingExtends(w, a.ok);
        case StartPublish(_, _, _) => StartingExtends(w, a.ok);
        case FailDrain(_, _) => FailingExtends(w, a.ok);
        case FailWait(_, _, _) => FailingExtends(w, a.ok);
        case FailTake(_, _) => TakingExtends(w, a.ok);
        case FailPending(_) => PendingExtends(w, a.ok);
        case StopPendings(_) => PendingExtends(w, a.ok);
        case ReloadStage(_, _) => PreparingExtends(w, a.ok);
        case ReloadBuild(_, _) => PreparingExtends(w, a.ok);
        case ReloadStart(_, _) => ProbingExtends(w, a.ok);
        case ReloadReady(_, _) => ProbingExtends(w, a.ok);
        case ReloadDrain(_, _) => ProbingExtends(w, a.ok);
        case ReloadWait(_, _, _) => ProbingExtends(w, a.ok);
        case ReloadRollback(_, _) => RollingExtends(w, a.ok);
        case ReloadCommit(_, _) => CommittingExtends(w, a.ok);
        case ReloadPublish(_) => ResumingExtends(w, a.ok);
        case ReloadResume(_, _) => ResumingExtends(w, a.ok);
        case StopTake(_) => TakingExtends(w, a.ok);
        case _ => StoppingExtends(w, a.ok);
      }
    }
  }

  lemma {:induction false} RunExtends(configs: seq<Config>, actions: seq<Action>, more: seq<Action>)
    ensures Extends(Run(configs, actions), Run(configs, actions + more))
  {
    if more == [] {
      assert actions + more == actions;
    } else {
      var n := |more| - 1;
      var w, w', w'' := Run(configs, actions), Run(configs, actions + more[..n]), Run(configs, actions + more);
      assert (actions + more)[..|actions + more| - 1] == actions + more[..n];
      RunExtends(configs, actions, more[..n]);
      ApplyExtends(w', more[n]);
      assert w'' == Apply(w', more[n]);
      forall i | 0 <= i < |w.comps| ensures Ages(w.comps[i], w''.comps[i]) {
        assert Ages(w.comps[i], w'.comps[i]) && Ages(w'.comps[i], w''.comps[i]);
      }
    }
  }

  // Use and finalization -------------------------------------------------------------------

  /** No use after finalize: once the finalizer of an instance has been invoked, no callback
      is running on that instance, now or at any later point of the run. */
  lemma {:induction false} NoUseAfterFinalize(configs: seq<Config>, actions: seq<Action>, more: seq<Action>, i: nat, g: nat)
    requires var w := Run(configs, actions);
             i < |w.comps| && g < |w.comps[i].slots| && w.comps[i].slots[g].attempts > 0
    ensures var w := Run(configs, actions + more);
            && i < |w.comps| && g < |w.comps[i].slots|
            && w.comps[i].lease.current != Some(g)
            && (forall user | user in w.comps[i].lease.holders :: w.comps[i].lease.holders[user] != g)
  {
    RunExtends(configs, actions, more);
    var w0, w := Run(configs, actions), Run(configs, actions + more);
    assert Ages(w0.comps[i], w.comps[i]);
    RunInv(configs, actions + more);
    assert CompOk(w.comps[i]);
    assert SlotOk(w.comps[i].slots[g]);
  }

  /** Every built instance is owned in exactly one place or has been finalized, its finalizer
      has been invoked at most once, and never for an instance that has none. */
  lemma {:induction false} OwnershipConserved(configs: seq<Config>, actions: seq<Action>, i: nat, g: nat)
    requires i < |Run(configs, actions).comps| && g < |Run(configs, actions).comps[i].slots|
    ensures var c := Run(configs, actions).comps[i];
            && (Owners(c, g) == 1 || (Owners(c, g) == 0 && c.slots[g].state == Finalized))
            && c.slots[g].attempts <= (if c.policy == DrainThenTerminalClose then 1 else 0)
            && (c.slots[g].state == Finalized ==>
                  c.slots[g].attempts == if c.policy == DrainThenTerminalClose then 1 else 0)
  {
    RunInv(configs, actions);
    var c := Run(configs, actions).comps[i];
    assert CompOk(c);
    assert SlotOk(c.slots[g]);
  }

  /** A kernel that has been running and is stopped owns nothing: every instance it ever
      built went through its finalizer exactly once and successfully. Stop answers nil for
      such a kernel, however many earlier Stops failed. */
  lemma {:induction false} StoppedMeansFinalized(configs: seq<Config>, actions: seq<Action>)
    requires var w := Run(configs, actions); w.ctl.Idle? && w.reached && w.state == KernelStopped
    ensures var w := Run(configs, actions);
            && BeginOperation(w, BeginStop).outcome == StopDone
            && forall i, g | 0 <= i < |w.comps| && 0 <= g < |w.comps[i].slots| ::
                 && Owners(w.comps[i], g) == 0
                 && w.comps[i].slots[g].state == Finalized
                 && w.comps[i].slots[g].attempts == if w.comps[i].policy == DrainThenTerminalClose then 1 else 0
  {
    RunInv(configs, actions);
    var w := Run(configs, actions);
    forall i, g | 0 <= i < |w.comps| && 0 <= g < |w.comps[i].slots|
      ensures Owners(w.comps[i], g) == 0 && w.comps[i].slots[g].state == Finalized
      ensures w.comps[i].slots[g].attempts == if w.comps[i].policy == DrainThenTerminalClose then 1 else 0
    {
      assert CompOk(w.comps[i]);
      assert NoOwners(w.comps[i]) && w.comps[i].lease.current.None?;
      OwnershipConserved(configs, actions, i, g);
    }
  }

  // The snapshot and the instances --------------------------------------------------------

  /** Between operations of a running kernel, every component serves an instance built from
      the section of the kernel's snapshot, under that section's digest. */
  lemma {:induction false} SnapshotIsServed(configs: seq<Config>, actions: seq<Action>, i: nat)
    requires var w := Run(configs, actions); w.ctl.Idle? && w.state == Running && i < |w.comps|
    ensures var w := Run(configs, actions);
            && w.snapshot.Some?
            && w.comps[i].lease.mode == L.Serving && Matches(w.comps[i], w.snapshot.value)
  {
    RunInv(configs, actions);
  }

  // Consistent cut -------------------------------------------------------------------------

  /** Drained for a reload past its point of no return, and not yet resumed. */
  predicate Switching(w: World, i: nat) {
    match w.ctl
    case ReloadCommit(job, k) => i in job.changed
    case ReloadPublish(job) => i in job.changed
    case ReloadResume(job, k) => k <= |job.changed| && i in job.changed[k..]
    case _ => false
  }

  /** From the first commit of a reload to its own resume no callback runs on a changed component. */
  lemma {:induction false} NobodyHoldsWhileSwitching(w: World, i: nat)
    requires Inv(w) == true && i < |w.comps| && Switching(w, i)
    ensures w.comps[i].lease.holders == map[]
  {
    var j := SwitchingAt(w, i);
    StandsDrained(w, w.ctl.job, j);
    DrainedIsFree(w.comps[i]);
  }

  lemma SwitchingAt(w: World, i: nat) returns (j: nat)
    requires Switching(w, i)
    ensures j < |w.ctl.job.changed| && w.ctl.job.changed[j] == i && (w.ctl.ReloadResume? ==> w.ctl.k <= j)
  {
    var s := w.ctl.job.changed;
    var from := if w.ctl.ReloadResume? then w.ctl.k else 0;
    assert s[0..] == s;
    var d :| 0 <= d < |s[from..]| && s[from..][d] == i;
    j := from + d;
  }

  lemma DrainedIsFree(c: Comp)
    requires CompOk(c) && DrainedFor(c, false)
    ensures c.lease.holders == map[]
  {
    assert |c.lease.holders| == 0;
  }

  lemma StandsDrained(w: World, job: Job, j: nat)
    requires ControlInv(w) && j < |job.changed|
    requires match w.ctl
             case ReloadCommit(job', k) => job' == job
             case ReloadPublish(job') => job' == job
             case ReloadResume(job', k) => job' == job && k <= j
             case _ => false
    ensures job.changed[j] < |w.comps| && DrainedFor(w.comps[job.changed[j]], false)
  {
    assert At(w, job, j, SToResume) || At(w, job, j, SDrained);
  }

  /** Whoever holds an instance younger than its component's first holds one that a recorded
      reload brought in. */
  lemma {:induction false} HolderIsRecorded(configs: seq<Config>, actions: seq<Action>, i: nat, user: nat) returns (x: nat)
    requires var w := Run(configs, actions);
             i < |w.comps| && user in w.comps[i].lease.holders && w.comps[i].lease.holders[user] > 0
    ensures var w := Run(configs, actions);
            x < |w.history| && i in w.history[x] && w.history[x][i] == w.comps[i].lease.holders[user]
  {
    var w := Run(configs, actions);
    RunInv(configs, actions);
    var g := w.comps[i].lease.holders[user];
    assert CompOk(w.comps[i]) && w.comps[i].lease.current == Some(g);
    if BeingSwitched(w, i) {
      NobodyHoldsWhileSwitching(w, i);
    }
    assert Recorded(w, i, g);
    x :| x < |w.history| && i in w.history[x] && w.history[x][i] == g;
  }

  /** Nobody holds an instance older than what history says its component was given. */
  lemma {:induction false} NobodyIsBehind(w: World, x: nat)
    requires Inv(w) == true && x < |w.history|
    ensures forall j, other | j in w.history[x] && j < |w.comps| && other in w.comps[j].lease.holders ::
              w.comps[j].lease.holders[other] >= w.history[x][j]
  {
    assert EntryOk(w, w.history[x]);
    forall j, other | j in w.history[x] && j < |w.comps| && other in w.comps[j].lease.holders
      ensures w.comps[j].lease.holders[other] >= w.history[x][j]
    {
      assert CompOk(w.comps[j]) && Passed(w.comps[j], w.history[x][j]);
    }
  }

  /** Consistent cut: when some caller has acquired an instance `g` that a reload brought in,
      that reload is on record, and from then on nobody holds an instance that is older than
      the reload's on any component the reload changed - in no continuation of the run. */
  lemma {:induction false} ConsistentCut(configs: seq<Config>, actions: seq<Action>, more: seq<Action>, i: nat, user: nat)
    returns (x: nat)
    requires var w := Run(configs, actions);
             i < |w.comps| && user in w.comps[i].lease.holders && w.comps[i].lease.holders[user] > 0
    ensures var w, w' := Run(configs, actions), Run(configs, actions + more);
            && x < |w.history| && i in w.history[x] && w.history[x][i] == w.comps[i].lease.holders[user]
            && forall j, other | j in w.history[x] && j < |w'.comps| && other in w'.comps[j].lease.holders ::
                 w'.comps[j].lease.holders[other] >= w.history[x][j]
  {
    x := HolderIsRecorded(configs, actions, i, user);
    RunInv(configs, actions + more);
    RunExtends(configs, actions, more);
    NobodyIsBehind(Run(configs, actions + more), x);
  }
}
