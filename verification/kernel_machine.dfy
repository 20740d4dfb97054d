/** The kernel as a transition system. The kernel's one operation thread is a program
    counter (`Control`); each `Tick` is one critical section of startCandidate,
    reloadCandidate or Stop, and every `Caller` action is one critical section of a
    concurrent Use call. Tick outcomes the kernel cannot foresee (a builder, a finalizer, a
    deadline) are the boolean the action carries. A run is any sequence of actions. */
module KernelMachine {
  import opened Wrappers
  import opened Finalization
  import opened Components
  import L = Leases

  datatype KernelState = Created | Running | KernelDraining | Failed | KernelStopped

  datatype Outcome =
    | NoOutcome
    | StartRefused | Started | StartFailed
    | ReloadRefused | ReloadUnchanged | ReloadApplied | ReloadCommittedCleanup
    | ReloadRestart(ids: seq<nat>) | ReloadRejected
    | StopDone | StopIncomplete | StopFailed

  /** What a component served before a reload began. */
  datatype Base = Base(current: Option<nat>, digest: string)

  /** The data of one reload: the candidate snapshot, the components found changed, those
      that would need a restart, and what was served when it began. */
  datatype Job = Job(snap: Snapshot, changed: seq<nat>, restart: seq<nat>, base: seq<Base>, before: Option<Snapshot>)

  datatype Control =
    | Idle
    // startCandidate
    | StartStage(snap: Snapshot, n: nat, started: seq<nat>)
    | StartBuild(snap: Snapshot, n: nat, started: seq<nat>)
    | StartStart(snap: Snapshot, n: nat, started: seq<nat>)
    | StartReady(snap: Snapshot, n: nat, started: seq<nat>)
    | StartPublish(snap: Snapshot, n: nat, started: seq<nat>)
    | StartDiscard(n: nat, started: seq<nat>, fin: FinStage)
    // failStart
    | FailDrain(started: seq<nat>, k: nat)
    | FailWait(started: seq<nat>, k: nat, ready: nat)
    | FailTake(started: seq<nat>, k: nat)
    | FailStop(started: seq<nat>, k: nat, fin: FinStage)
    | FailPending(k: nat)
    // reloadCandidate
    | ReloadStage(job: Job, n: nat)
    | ReloadBuild(job: Job, k: nat)
    | ReloadStart(job: Job, k: nat)
    | ReloadReady(job: Job, k: nat)
    | ReloadDrain(job: Job, k: nat)
    | ReloadWait(job: Job, k: nat, ready: nat)
    | ReloadRollback(job: Job, k: nat)
    | ReloadDiscard(job: Job, k: nat, fin: FinStage)
    | ReloadCommit(job: Job, k: nat)
    | ReloadPublish(job: Job)
    | ReloadResume(job: Job, k: nat)
    | ReloadRetire(job: Job, k: nat, fin: FinStage, failed: bool)
    // Stop
    | StopPendings(k: nat)
    | StopDrain(k: nat, failed: bool)
    | StopWait(k: nat, ready: nat, failed: bool)
    | StopTake(k: nat)
    | StopFinal(k: nat, role: Role, fin: FinStage, failed: bool)

  /** `history` records, for every committed reload, the slot each changed component switched
      to; `reached` says that the kernel has been running once. */
  datatype World = World(
    state: KernelState, snapshot: Option<Snapshot>, comps: seq<Comp>, ctl: Control,
    outcome: Outcome, history: seq<map<nat, nat>>, reached: bool, panicked: bool)

  datatype Config = Config(path: string, restartRequired: bool, policy: Policy)

  function Init(configs: seq<Config>): World {
    World(Created, None, seq(|configs|, i requires 0 <= i < |configs| =>
      NewComp(configs[i].path, configs[i].restartRequired, configs[i].policy)),
      Idle, NoOutcome, [], false, false)
  }

  datatype CallerMove = TryAcquire | Leave | Done

  datatype Action =
    | BeginStart(snap: Snapshot)
    | BeginReload(snap: Snapshot)
    | BeginStop
    | Tick(ok: bool)
    | Caller(comp: nat, user: nat, move: CallerMove)

  // Small helpers ---------------------------------------------------------------------

  function Put(w: World, i: nat, c: Comp, ctl: Control): World
    requires i < |w.comps|
  {
    w.(comps := w.comps[i := c], ctl := ctl)
  }

  function Goto(w: World, ctl: Control): World {
    w.(ctl := ctl)
  }

  function Panic(w: World): World {
    w.(panicked := true)
  }

  function Finish(w: World, outcome: Outcome): World {
    w.(ctl := Idle, outcome := outcome)
  }

  predicate ChannelClosed(c: Comp, ready: nat) {
    ready < |c.lease.drains| && c.lease.drains[ready]
  }

  function Bases(comps: seq<Comp>): seq<Base> {
    seq(|comps|, i requires 0 <= i < |comps| => Base(comps[i].lease.current, comps[i].digest))
  }

  // Callers ---------------------------------------------------------------------------

  function CallerStep(w: World, i: nat, user: nat, move: CallerMove): World {
    if i >= |w.comps| then w
    else
      var l := w.comps[i].lease;
      match move
      case TryAcquire =>
        if !L.MayAttempt(l, user) then w
        else if |l.transitions| == 0 || (l.mode == L.Serving && l.current.None?) then Panic(w)
        else w.(comps := w.comps[i := w.comps[i].(lease := L.Attempt(l, user))])
      case Leave =>
        w.(comps := w.comps[i := w.comps[i].(lease := L.GiveUp(l, user))])
      case Done =>
        if user !in l.holders then w
        else if !L.CanRelease(l) then Panic(w)
        else w.(comps := w.comps[i := w.comps[i].(lease := L.Release(l, user))])
  }

  // startCandidate --------------------------------------------------------------------

  function BeginFailStart(w: World, started: seq<nat>): World {
    if |started| == 0 then Goto(w, FailPending(0)) else Goto(w, FailDrain(started, |started|))
  }

  function TickStartStage(w: World, snap: Snapshot, n: nat, started: seq<nat>, ok: bool): World {
    if n >= |w.comps| then
      Finish(w.(snapshot := Some(snap), state := Running, reached := true), Started)
    else
      var (c, staged) := Stage(w.comps[n], snap, ok);
      (match staged
       case StageFailed => BeginFailStart(w, started)
       case Unchanged => Goto(w, StartStage(snap, n + 1, started))
       case Changed => Put(w, n, c, StartBuild(snap, n, started)))
  }

  function TickStartBuild(w: World, snap: Snapshot, n: nat, started: seq<nat>, ok: bool): World {
    if n >= |w.comps| then Panic(w)
    else
      var (c, built) := Build(w.comps[n], ok);
      if built then Put(w, n, c, StartStart(snap, n, started))
      else Goto(w, StartDiscard(n, started, FinBegin))
  }

  function TickStartStart(w: World, snap: Snapshot, n: nat, started: seq<nat>, ok: bool): World {
    if n < |w.comps| && w.comps[n].candidate.Some? && ok then Goto(w, StartReady(snap, n, started))
    else Goto(w, StartDiscard(n, started, FinBegin))
  }

  function TickStartReady(w: World, snap: Snapshot, n: nat, started: seq<nat>, ok: bool): World {
    if n < |w.comps| && w.comps[n].candidate.Some? && ok then Goto(w, StartPublish(snap, n, started))
    else Goto(w, StartDiscard(n, started, FinBegin))
  }

  function TickStartPublish(w: World, snap: Snapshot, n: nat, started: seq<nat>, ok: bool): World {
    if n >= |w.comps| || !CanPublish(w.comps[n]) then Panic(w)
    else Put(w, n, PublishInitial(w.comps[n]), StartStage(snap, n + 1, started + [n]))
  }

  function TickStartDiscard(w: World, n: nat, started: seq<nat>, fin: FinStage, ok: bool): World {
    if n >= |w.comps| || !CanFinalize(w.comps[n], AsCandidate) then Panic(w)
    else
      var (c, next) := FinStep(w.comps[n], AsCandidate, fin, ok);
      var w' := w.(comps := w.comps[n := c]);
      (match next
       case Again(stage) => Goto(w', StartDiscard(n, started, stage))
       case Finished(_) => BeginFailStart(w', started))
  }

  function TickFailDrain(w: World, started: seq<nat>, k: nat, ok: bool): World {
    if k == 0 then Goto(w, FailTake(started, |started|))
    else if k > |started| || started[k - 1] >= |w.comps| then Panic(w)
    else
      var (c, ready) := BeginDrain(w.comps[started[k - 1]], false);
      (match ready
       case None => Goto(w, FailPending(0))
       case Some(ch) => Put(w, started[k - 1], c, FailWait(started, k, ch)))
  }

  function TickFailWait(w: World, started: seq<nat>, k: nat, ready: nat, ok: bool): World {
    if !ok then Goto(w, FailPending(0))
    else if 0 < k <= |started| && started[k - 1] < |w.comps| && ChannelClosed(w.comps[started[k - 1]], ready) then
      Goto(w, FailDrain(started, k - 1))
    else w
  }

  function TickFailTake(w: World, started: seq<nat>, k: nat, ok: bool): World {
    if k == 0 then Goto(w, FailStop(started, |started|, FinBegin))
    else if k > |started| || started[k - 1] >= |w.comps| || !CanPrepareStop(w.comps[started[k - 1]]) then Panic(w)
    else Put(w, started[k - 1], PrepareStop(w.comps[started[k - 1]]), FailTake(started, k - 1))
  }

  function TickFailStop(w: World, started: seq<nat>, k: nat, fin: FinStage, ok: bool): World {
    if k == 0 then Goto(w, FailPending(0))
    else if k > |started| || started[k - 1] >= |w.comps| || !CanFinalize(w.comps[started[k - 1]], AsStopping) then Panic(w)
    else
      var (c, next) := FinStep(w.comps[started[k - 1]], AsStopping, fin, ok);
      Put(w, started[k - 1], c,
        match next
        case Again(stage) => FailStop(started, k, stage)
        case Finished(_) => FailStop(started, k - 1, FinBegin))
  }

  function TickFailPending(w: World, k: nat, ok: bool): World {
    if k >= |w.comps| then Finish(w.(state := KernelStopped), StartFailed)
    else if !L.CanStopPending(w.comps[k].lease) then Panic(w)
    else Put(w, k, w.comps[k].(lease := L.StopPending(w.comps[k].lease)), FailPending(k + 1))
  }

  // reloadCandidate -------------------------------------------------------------------

  function TickReloadStage(w: World, job: Job, n: nat, ok: bool): World {
    if n >= |w.comps| then
      if |job.restart| > 0 then Finish(w, ReloadRestart(job.restart))
      else if |job.changed| == 0 then Finish(w.(snapshot := Some(job.snap)), ReloadUnchanged)
      else Goto(w, ReloadBuild(job, 0))
    else
      var (c, staged) := Stage(w.comps[n], job.snap, ok);
      (match staged
       case StageFailed => Finish(w, ReloadRejected)
       case Unchanged => Goto(w, ReloadStage(job, n + 1))
       case Changed =>
         Put(w, n, c, ReloadStage(job.(changed := job.changed + [n],
           restart := if c.restartRequired then job.restart + [n] else job.restart), n + 1)))
  }

  function TickReloadBuild(w: World, job: Job, k: nat, ok: bool): World {
    if k >= |job.changed| then Goto(w, ReloadDrain(job, |job.changed|))
    else if job.changed[k] >= |w.comps| then Panic(w)
    else
      var (c, built) := Build(w.comps[job.changed[k]], ok);
      if built then Put(w, job.changed[k], c, ReloadStart(job, k))
      else Goto(w, ReloadDiscard(job, k + 1, FinBegin))
  }

  function TickReloadStart(w: World, job: Job, k: nat, ok: bool): World {
    if k < |job.changed| && job.changed[k] < |w.comps| && w.comps[job.changed[k]].candidate.Some? && ok
    then Goto(w, ReloadReady(job, k))
    else Goto(w, ReloadDiscard(job, k + 1, FinBegin))
  }

  function TickReloadReady(w: World, job: Job, k: nat, ok: bool): World {
    if k < |job.changed| && job.changed[k] < |w.comps| && w.comps[job.changed[k]].candidate.Some? && ok
    then Goto(w, ReloadBuild(job, k + 1))
    else Goto(w, ReloadDiscard(job, k + 1, FinBegin))
  }

  function TickReloadDrain(w: World, job: Job, k: nat, ok: bool): World {
    if k == 0 then Goto(w, ReloadCommit(job, 0))
    else if k > |job.changed| || job.changed[k - 1] >= |w.comps| then Panic(w)
    else
      var (c, ready) := BeginDrain(w.comps[job.changed[k - 1]], false);
      (match ready
       case None => Goto(w, ReloadRollback(job, k))
       case Some(ch) => Put(w, job.changed[k - 1], c, ReloadWait(job, k, ch)))
  }

  function TickReloadWait(w: World, job: Job, k: nat, ready: nat, ok: bool): World {
    if k == 0 then Panic(w)
    else if !ok then Goto(w, ReloadRollback(job, k - 1))
    else if k <= |job.changed| && job.changed[k - 1] < |w.comps| && ChannelClosed(w.comps[job.changed[k - 1]], ready)
    then Goto(w, ReloadDrain(job, k - 1))
    else w
  }

  function TickReloadRollback(w: World, job: Job, k: nat, ok: bool): World {
    if k >= |job.changed| then Goto(w, ReloadDiscard(job, |job.changed|, FinBegin))
    else if job.changed[k] >= |w.comps| || !CanResume(w.comps[job.changed[k]]) then Panic(w)
    else Put(w, job.changed[k], Rollback(w.comps[job.changed[k]]), ReloadRollback(job, k + 1))
  }

  function TickReloadDiscard(w: World, job: Job, k: nat, fin: FinStage, ok: bool): World {
    if k == 0 then Finish(w, ReloadRejected)
    else if k > |job.changed| || job.changed[k - 1] >= |w.comps|
            || !CanFinalize(w.comps[job.changed[k - 1]], AsCandidate) then Panic(w)
    else
      var (c, next) := FinStep(w.comps[job.changed[k - 1]], AsCandidate, fin, ok);
      Put(w, job.changed[k - 1], c,
        match next
        case Again(stage) => ReloadDiscard(job, k, stage)
        case Finished(_) => ReloadDiscard(job, k - 1, FinBegin))
  }

  /** The slots a committed reload switched its components to. */
  function Switched(comps: seq<Comp>, changed: seq<nat>): map<nat, nat> {
    map i | i in changed && i < |comps| && comps[i].lease.current.Some? :: comps[i].lease.current.value
  }

  function TickReloadCommit(w: World, job: Job, k: nat, ok: bool): World {
    if k >= |job.changed| then Goto(w, ReloadPublish(job))
    else if job.changed[k] >= |w.comps| || !CanCommit(w.comps[job.changed[k]]) then Panic(w)
    else Put(w, job.changed[k], Commit(w.comps[job.changed[k]]), ReloadCommit(job, k + 1))
  }

  function TickReloadPublish(w: World, job: Job, ok: bool): World {
    w.(snapshot := Some(job.snap), ctl := ReloadResume(job, 0),
       history := w.history + [Switched(w.comps, job.changed)])
  }

  function TickReloadResume(w: World, job: Job, k: nat, ok: bool): World {
    if k >= |job.changed| then Goto(w, ReloadRetire(job, |job.changed|, FinBegin, false))
    else if job.changed[k] >= |w.comps| || !CanResume(w.comps[job.changed[k]]) then Panic(w)
    else Put(w, job.changed[k], Resume(w.comps[job.changed[k]]), ReloadResume(job, k + 1))
  }

  function TickReloadRetire(w: World, job: Job, k: nat, fin: FinStage, failed: bool, ok: bool): World {
    if k == 0 then Finish(w, if failed then ReloadCommittedCleanup else ReloadApplied)
    else if k > |job.changed| || job.changed[k - 1] >= |w.comps|
            || !CanFinalize(w.comps[job.changed[k - 1]], AsRetired) then Panic(w)
    else
      var (c, next) := FinStep(w.comps[job.changed[k - 1]], AsRetired, fin, ok);
      Put(w, job.changed[k - 1], c,
        match next
        case Again(stage) => ReloadRetire(job, k, stage, failed)
        case Finished(f) => ReloadRetire(job, k - 1, FinBegin, failed || f))
  }

  // Stop ------------------------------------------------------------------------------

  function TickStopPendings(w: World, k: nat, ok: bool): World {
    if k >= |w.comps| then Finish(w, StopDone)
    else if !L.CanStopPending(w.comps[k].lease) then Panic(w)
    else Put(w, k, w.comps[k].(lease := L.StopPending(w.comps[k].lease)), StopPendings(k + 1))
  }

  function TickStopDrain(w: World, k: nat, failed: bool, ok: bool): World {
    if k == 0 then
      if failed then Finish(w, StopIncomplete) else Goto(w, StopTake(|w.comps|))
    else if k > |w.comps| then Panic(w)
    else
      var (c, ready) := BeginDrain(w.comps[k - 1], true);
      (match ready
       case None => Goto(w, StopDrain(k - 1, true))
       case Some(ch) => Put(w, k - 1, c, StopWait(k, ch, failed)))
  }

  function TickStopWait(w: World, k: nat, ready: nat, failed: bool, ok: bool): World {
    if !ok then Finish(w, StopIncomplete)
    else if 0 < k <= |w.comps| && ChannelClosed(w.comps[k - 1], ready) then Goto(w, StopDrain(k - 1, failed))
    else w
  }

  function TickStopTake(w: World, k: nat, ok: bool): World {
    if k == 0 then Goto(w, StopFinal(|w.comps|, AsCandidate, FinBegin, false))
    else if k > |w.comps| || !CanPrepareStop(w.comps[k - 1]) then Panic(w)
    else Put(w, k - 1, PrepareStop(w.comps[k - 1]), StopTake(k - 1))
  }

  function TickStopFinal(w: World, k: nat, role: Role, fin: FinStage, failed: bool, ok: bool): World {
    if k == 0 then
      Finish(w.(state := if failed then Failed else KernelStopped), if failed then StopFailed else StopDone)
    else if k > |w.comps| || !CanFinalize(w.comps[k - 1], role) then Panic(w)
    else
      var (c, next) := FinStep(w.comps[k - 1], role, fin, ok);
      Put(w, k - 1, c,
        match next
        case Again(stage) => StopFinal(k, role, stage, failed)
        case Finished(f) =>
          match role
          case AsCandidate => StopFinal(k, AsRetired, FinBegin, failed || f)
          case AsRetired => StopFinal(k, AsStopping, FinBegin, failed || f)
          case AsStopping => StopFinal(k - 1, AsCandidate, FinBegin, failed || f))
  }

  // The machine -----------------------------------------------------------------------

  function TickAny(w: World, ok: bool): World {
    match w.ctl
    case Idle => w
    case StartStage(snap, n, started) => TickStartStage(w, snap, n, started, ok)
    case StartBuild(snap, n, started) => TickStartBuild(w, snap, n, started, ok)
    case StartStart(snap, n, started) => TickStartStart(w, snap, n, started, ok)
    case StartReady(snap, n, started) => TickStartReady(w, snap, n, started, ok)
    case StartPublish(snap, n, started) => TickStartPublish(w, snap, n, started, ok)
    case StartDiscard(n, started, fin) => TickStartDiscard(w, n, started, fin, ok)
    case FailDrain(started, k) => TickFailDrain(w, started, k, ok)
    case FailWait(started, k, ready) => TickFailWait(w, started, k, ready, ok)
    case FailTake(started, k) => TickFailTake(w, started, k, ok)
    case FailStop(started, k, fin) => TickFailStop(w, started, k, fin, ok)
    case FailPending(k) => TickFailPending(w, k, ok)
    case ReloadStage(job, n) => TickReloadStage(w, job, n, ok)
    case ReloadBuild(job, k) => TickReloadBuild(w, job, k, ok)
    case ReloadStart(job, k) => TickReloadStart(w, job, k, ok)
    case ReloadReady(job, k) => TickReloadReady(w, job, k, ok)
    case ReloadDrain(job, k) => TickReloadDrain(w, job, k, ok)
    case ReloadWait(job, k, ready) => TickReloadWait(w, job, k, ready, ok)
    case ReloadRollback(job, k) => TickReloadRollback(w, job, k, ok)
    case ReloadDiscard(job, k, fin) => TickReloadDiscard(w, job, k, fin, ok)
    case ReloadCommit(job, k) => TickReloadCommit(w, job, k, ok)
    case ReloadPublish(job) => TickReloadPublish(w, job, ok)
    case ReloadResume(job, k) => TickReloadResume(w, job, k, ok)
    case ReloadRetire(job, k, fin, failed) => TickReloadRetire(w, job, k, fin, failed, ok)
    case StopPendings(k) => TickStopPendings(w, k, ok)
    case StopDrain(k, failed) => TickStopDrain(w, k, failed, ok)
    case StopWait(k, ready, failed) => TickStopWait(w, k, ready, failed, ok)
    case StopTake(k) => TickStopTake(w, k, ok)
    case StopFinal(k, role, fin, failed) => TickStopFinal(w, k, role, fin, failed, ok)
  }

  /** The operation mutex: a new operation begins only when the previous one has returned.
      The coordinator starts a kernel once, so a start never meets a draining or failed one. */
  function BeginOperation(w: World, a: Action): World {
    if !w.ctl.Idle? then w
    else
      match a
      case BeginStart(snap) =>
        (match w.state
         case Created => Goto(w, StartStage(snap, 0, []))
         case Running => Finish(w, StartRefused)
         case KernelStopped => Finish(w, StartRefused)
         case KernelDraining => w
         case Failed => w)
      case BeginReload(snap) =>
        if w.state == Running then Goto(w, ReloadStage(Job(snap, [], [], Bases(w.comps), w.snapshot), 0))
        else Finish(w, ReloadRefused)
      case BeginStop =>
        (match w.state
         case KernelStopped => Finish(w, StopDone)
         case Created => Goto(w.(state := KernelStopped), StopPendings(0))
         case Failed => Goto(w, StopFinal(|w.comps|, AsCandidate, FinBegin, false))
         case Running => Goto(w.(state := KernelDraining), StopDrain(|w.comps|, false))
         case KernelDraining => Goto(w, StopDrain(|w.comps|, false)))
      case _ => w
  }

  /** Every action is defined in every world; one that is not enabled changes nothing. A
      panic ends the process. */
  function Apply(w: World, a: Action): World {
    if w.panicked then w
    else
      match a
      case Tick(ok) => TickAny(w, ok)
      case Caller(i, user, move) => CallerStep(w, i, user, move)
      case _ => BeginOperation(w, a)
  }

  function Run(configs: seq<Config>, actions: seq<Action>): World {
    if actions == [] then Init(configs)
    else Apply(Run(configs, actions[..|actions| - 1]), actions[|actions| - 1])
  }
}
