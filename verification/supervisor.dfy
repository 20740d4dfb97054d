/** The process supervisor: participants are started in order and stopped in reverse under a
    shared deadline, with force for those that support it. What participants, tasks and the
    clock do is chosen freely; the ghost log records every call and every answer. */
module Supervisors {
  import opened Wrappers

  // Errors ------------------------------------------------------------------------------------

  datatype Error = Canceled | DeadlineExceeded | Other(tag: string) | Wrapped(cause: Error) | Joined(causes: seq<Error>)

  type Result = Option<Error>

  /** errors.Join of two results: nothing if both are nothing. */
  function Join(a: Result, b: Result): (r: Result)
    ensures r.None? <==> a.None? && b.None?
  {
    match (a, b)
    case (None, None) => None
    case (Some(x), None) => Some(Joined([x]))
    case (None, Some(y)) => Some(Joined([y]))
    case (Some(x), Some(y)) => Some(Joined([x, y]))
  }

  predicate IsOnlyCancellation(e: Error) {
    match e
    case Canceled => true
    case Joined(causes) => causes != [] && forall i | 0 <= i < |causes| :: IsOnlyCancellation(causes[i])
    case Wrapped(cause) => IsOnlyCancellation(cause)
    case _ => false
  }

  /** The errors at the ends of the chains and joins; an empty join is an end of its own. */
  function Leaves(e: Error): seq<Error> {
    match e
    case Joined(causes) => if causes == [] then [e] else LeavesOf(causes)
    case Wrapped(cause) => Leaves(cause)
    case _ => [e]
  }

  function LeavesOf(es: seq<Error>): seq<Error> {
    if es == [] then [] else LeavesOf(es[..|es| - 1]) + Leaves(es[|es| - 1])
  }

  predicate AllCanceled(es: seq<Error>) {
    forall i | 0 <= i < |es| :: es[i] == Canceled
  }

  lemma AllCanceledConcat(a: seq<Error>, b: seq<Error>)
    ensures AllCanceled(a + b) <==> AllCanceled(a) && AllCanceled(b)
  {
    assert forall i | 0 <= i < |a| :: (a + b)[i] == a[i];
    assert forall i | 0 <= i < |b| :: (a + b)[|a| + i] == b[i];
  }

  /** Only cancellation means: every error the tree was built from is the cancellation. */
  lemma {:induction false} OnlyCancellationLeaves(e: Error)
    ensures IsOnlyCancellation(e) <==> AllCanceled(Leaves(e))
    ensures Leaves(e) != []
  {
    if e.Joined? && e.causes != [] {
      OnlyCancellationAll(e.causes);
      assert Leaves(e) == LeavesOf(e.causes);
    } else if e.Wrapped? {
      OnlyCancellationLeaves(e.cause);
      assert Leaves(e) == Leaves(e.cause);
    } else {
      assert Leaves(e)[0] == e;
    }
  }

  lemma {:induction false} OnlyCancellationAll(es: seq<Error>)
    ensures (forall i | 0 <= i < |es| :: IsOnlyCancellation(es[i])) <==> AllCanceled(LeavesOf(es))
    ensures es != [] ==> LeavesOf(es) != []
    decreases es
  {
    if es != [] {
      var n := |es| - 1;
      OnlyCancellationAll(es[..n]);
      OnlyCancellationLeaves(es[n]);
      assert forall i | 0 <= i < n :: es[..n][i] == es[i];
      AllCanceledConcat(LeavesOf(es[..n]), Leaves(es[n]));
    }
  }

  /** A cancelled run does not report its own cancellation. */
  function NormalizeCancellation(ctx: Result, r: Result): Result {
    if ctx == Some(Canceled) && r.Some? && IsOnlyCancellation(r.value) then None else r
  }

  // Units -------------------------------------------------------------------------------------

  datatype Phase = StartPhase | ReadyPhase | RunPhase | StopPhase | ForcePhase
  datatype UnitState = Pending | Running | Ready | Stopped | Forced | Failed
  datatype Unit = Unit(phase: Phase, state: UnitState, attempt: nat)

  datatype Participant = Participant(name: string, forceable: bool)
  datatype Task = Task(name: string, confirms: bool)

  datatype Lifecycle = Created | RunningNow | Finished

  // The log -----------------------------------------------------------------------------------

  datatype Event =
    | StartReturned(i: nat, r: Result)
    | StopCalled(i: nat)
    | StopReturned(i: nat, r: Result)
    | StopOverran(i: nat)
    | ForceCalled(i: nat)
    | ForceReturned(i: nat, r: Result)
    | ForceOverran(i: nat)
    | TaskReturned(i: nat, r: Result)

  /** The participants that started, in order. */
  function Started(log: seq<Event>): seq<nat> {
    if log == [] then []
    else
      var e := log[|log| - 1];
      Started(log[..|log| - 1]) + (if e.StartReturned? && e.r.None? then [e.i] else [])
  }

  function Stops(log: seq<Event>): seq<nat> {
    if log == [] then []
    else
      var e := log[|log| - 1];
      Stops(log[..|log| - 1]) + (if e.StopCalled? then [e.i] else [])
  }

  function Forces(log: seq<Event>): seq<nat> {
    if log == [] then []
    else
      var e := log[|log| - 1];
      Forces(log[..|log| - 1]) + (if e.ForceCalled? then [e.i] else [])
  }

  function Reversed(s: seq<nat>): (r: seq<nat>)
    ensures |r| == |s| && forall k | 0 <= k < |s| :: r[k] == s[|s| - 1 - k]
  {
    seq(|s|, k requires 0 <= k < |s| => s[|s| - 1 - k])
  }

  /** The stop of `i` failed or overran. */
  predicate StopWentWrong(log: seq<Event>, i: nat) {
    StopOverran(i) in log || exists k :: 0 <= k < |log| && log[k].StopReturned? && log[k].i == i && log[k].r.Some?
  }

  /** Force is used only on participants that support it, and only after their stop went wrong. */
  predicate ForceJustified(log: seq<Event>, participants: seq<Participant>) {
    log == [] ||
    var (before, e) := (log[..|log| - 1], log[|log| - 1]);
    && ForceJustified(before, participants)
    && (e.ForceCalled? ==> e.i < |participants| && participants[e.i].forceable && StopWentWrong(before, e.i))
  }

  lemma WrongStays(log: seq<Event>, more: seq<Event>, i: nat)
    requires StopWentWrong(log, i)
    ensures StopWentWrong(log + more, i)
  {
    if StopOverran(i) !in log {
      var k :| 0 <= k < |log| && log[k].StopReturned? && log[k].i == i && log[k].r.Some?;
      assert (log + more)[k] == log[k];
    }
  }

  lemma JustifiedSnoc(log: seq<Event>, e: Event, participants: seq<Participant>)
    requires ForceJustified(log, participants)
    requires e.ForceCalled? ==> e.i < |participants| && participants[e.i].forceable && StopWentWrong(log, e.i)
    ensures ForceJustified(log + [e], participants)
  {
    assert (log + [e])[..|log|] == log;
  }

  predicate Distinct(s: seq<nat>) {
    forall i, j | 0 <= i < j < |s| :: s[i] != s[j]
  }

  /** No stop so far failed or overran. */
  predicate StopsClean(log: seq<Event>) {
    forall k | 0 <= k < |log| :: !log[k].StopOverran? && (log[k].StopReturned? ==> log[k].r.None?)
  }

  /** Every stop called so far answered nil in time. */
  predicate StopsAnswered(log: seq<Event>) {
    forall i | i in Stops(log) :: StopReturned(i, None) in log
  }

  predicate TasksClean(log: seq<Event>) {
    forall k | 0 <= k < |log| && log[k].TaskReturned? :: log[k].r.Some? ==> IsOnlyCancellation(log[k].r.value)
  }

  predicate TaskDone(log: seq<Event>, t: nat) {
    exists k :: 0 <= k < |log| && log[k].TaskReturned? && log[k].i == t
  }

  lemma LogSnoc(log: seq<Event>, e: Event)
    ensures Started(log + [e]) == Started(log) + (if e.StartReturned? && e.r.None? then [e.i] else [])
    ensures Stops(log + [e]) == Stops(log) + (if e.StopCalled? then [e.i] else [])
    ensures Forces(log + [e]) == Forces(log) + (if e.ForceCalled? then [e.i] else [])
    ensures (log + [e])[..|log|] == log
  {
    assert (log + [e])[..|log|] == log;
  }

  // The supervisor ----------------------------------------------------------------------------

  /** What a stopped participant still owes once the graceful deadline has passed. */
  datatype Late = LateStop | LateForce

  class Supervisor {
    const participants: seq<Participant>
    var tasks: seq<Task>
    var state: Lifecycle
    var units: seq<Unit>
    ghost var log: seq<Event>

    ghost predicate Valid()
      reads this
    {
      && (state != Created ==> |units| == |participants| + |tasks|)
      && (state == Created ==> log == [])
      && (state != RunningNow ==> Orderly(participants, log))
    }

    constructor (participants: seq<Participant>)
      ensures Valid() && this.participants == participants && tasks == [] && state == Created && log == []
    {
      this.participants := participants;
      tasks, state, units, log := [], Created, [], [];
    }

    method Transition(u: nat, phase: Phase, unitState: UnitState, attempt: bool)
      requires u < |units|
      modifies this`units
      ensures |units| == |old(units)| && units[u].state == unitState && units[u].phase == phase
      ensures forall v | 0 <= v < |units| && v != u :: units[v] == old(units[v])
    {
      var unit := units[u];
      if unit.phase != phase {
        unit := unit.(phase := phase, attempt := 0);
      }
      if attempt {
        unit := unit.(attempt := unit.attempt + 1);
      }
      units := units[u := unit.(state := unitState)];
    }

    /** Units nobody started are done. */
    method SettleUnstarted()
      modifies this`units
      ensures |units| == |old(units)|
      ensures forall u | 0 <= u < |units| ::
                if old(units[u]).state == Pending && old(units[u]).attempt == 0
                then units[u] == old(units[u]).(state := Stopped) else units[u] == old(units[u])
    {
      var u := 0;
      while u < |units|
        invariant u <= |units| == |old(units)|
        invariant forall v | 0 <= v < u ::
                    if old(units[v]).state == Pending && old(units[v]).attempt == 0
                    then units[v] == old(units[v]).(state := Stopped) else units[v] == old(units[v])
        invariant forall v | u <= v < |units| :: units[v] == old(units[v])
      {
        if units[u].state == Pending && units[u].attempt == 0 {
          units := units[u := units[u].(state := Stopped)];
        }
        u := u + 1;
      }
    }

    // Shutdown ------------------------------------------------------------------------------

    /** Calls Stop of participant `i` and waits for it or for the graceful deadline. */
    method StopOne(i: nat) returns (late: bool, answer: Result)
      requires i < |participants| && i < |units|
      modifies this`units, this`log
      ensures log == old(log) + StopEvents(i, late, answer) && (late ==> answer == None)
      ensures |units| == |old(units)| && forall u | 0 <= u < |units| && u != i :: units[u] == old(units[u])
    {
      Transition(i, StopPhase, Running, true);
      log := log + [StopCalled(i)];
      late, answer := *, None;
      if late {
        log := log + [StopOverran(i)];
        Transition(i, StopPhase, Pending, false);
        return;
      }
      answer := *;
      log := log + [StopReturned(i, answer)];
      Transition(i, StopPhase, if answer.Some? then Failed else Stopped, false);
    }

    /** Stops one participant and notes what it still owes. */
    method StopNext(i: nat, ghost started: seq<nat>, order: seq<nat>, joined0: Result, pending0: set<nat>, candidates0: set<nat>)
      returns (joined: Result, pending: set<nat>, candidates: set<nat>)
      requires i < |participants| <= |units| && Stopping(participants, started, log, joined0, order, pending0, candidates0) == true
      modifies this`units, this`log
      ensures old(log) <= log && NoTasks(log[|old(log)|..])
      ensures Stopping(participants, started, log, joined, order + [i], pending, candidates) == true
      ensures |units| == |old(units)| && forall u | 0 <= u < |units| && u != i :: units[u] == old(units[u])
    {
      joined, pending, candidates := joined0, pending0, candidates0;
      var late, answer := StopOne(i);
      StopGoesOn(participants, started, old(log), joined, order, pending, candidates, i, late, answer);
      if late {
        joined := Join(joined, Some(Wrapped(DeadlineExceeded)));
        pending := pending + {i};
      } else if answer.Some? {
        joined := Join(joined, Some(Wrapped(answer.value)));
      }
      if participants[i].forceable && (late || answer.Some?) {
        candidates := candidates + {i};
      }
    }

    /** Stops the started participants in reverse, each exactly once, whatever the others do. */
    method StopAll(started: seq<nat>) returns (joined: Result, order: seq<nat>, pending: set<nat>, candidates: set<nat>)
      requires |participants| <= |units| && forall i | i in started :: i < |participants|
      requires Unstopped(participants, log, started) == true
      modifies this`units, this`log
      ensures order == Reversed(started) && old(log) <= log && NoTasks(log[|old(log)|..])
      ensures Stopping(participants, started, log, joined, order, pending, candidates) == true
      ensures |units| == |old(units)| && forall u | 0 <= u < |units| && u !in started :: units[u] == old(units[u])
    {
      joined, order, pending, candidates := None, [], {}, {};
      NothingStopped(participants, log, started);
      var k := |started|;
      while k > 0
        invariant 0 <= k <= |started| && |order| == |started| - k && order == Reversed(started)[..|order|]
        invariant old(log) <= log && NoTasks(log[|old(log)|..])
        invariant Stopping(participants, started, log, joined, order, pending, candidates) == true
        invariant |units| == |old(units)| && forall u | 0 <= u < |units| && u !in started :: units[u] == old(units[u])
      {
        k := k - 1;
        assert started[k] in started && Reversed(started)[|order|] == started[k];
        ghost var before := log;
        joined, pending, candidates := StopNext(started[k], started, order, joined, pending, candidates);
        StillNoTasks(old(log), before, log);
        order := order + [started[k]];
      }
    }

    /** Calls ForceStop of participant `i` and waits for it or for the final deadline. */
    method ForceOne(i: nat) returns (late: bool, answer: Result)
      requires i < |units|
      modifies this`units, this`log
      ensures log == old(log) + ForceEvents(i, late, answer)
      ensures |units| == |old(units)| && forall u | 0 <= u < |units| && u != i :: units[u] == old(units[u])
    {
      Transition(i, ForcePhase, Running, true);
      log := log + [ForceCalled(i)];
      late, answer := *, None;
      if late {
        log := log + [ForceOverran(i)];
        Transition(i, ForcePhase, Pending, false);
        return;
      }
      answer := *;
      log := log + [ForceReturned(i, answer)];
      Transition(i, ForcePhase, if answer.Some? then Failed else Forced, false);
    }

    /** Forces, in the order they were stopped, those that may be and still have to be. */
    method ForceAll(started: seq<nat>, order: seq<nat>, joined0: Result, pending0: set<nat>, candidates: set<nat>)
      returns (joined: Result, pending: set<nat>)
      requires |participants| <= |units| && Distinct(order) && (forall i | i in order :: i < |participants| && i in started)
      requires Stopping(participants, started, log, joined0, order, pending0, candidates) == true
      modifies this`units, this`log
      ensures old(log) <= log && NoTasks(log[|old(log)|..])
      ensures Forcing(participants, started, log, joined, order, |order|, pending, candidates)
      ensures |units| == |old(units)| && forall u | 0 <= u < |units| && u !in started :: units[u] == old(units[u])
    {
      joined, pending := joined0, pending0;
      for k := 0 to |order|
        invariant old(log) <= log && NoTasks(log[|old(log)|..])
        invariant Forcing(participants, started, log, joined, order, k, pending, candidates)
        invariant |units| == |old(units)| && forall u | 0 <= u < |units| && u !in started :: units[u] == old(units[u])
      {
        var i := order[k];
        assert i in order;
        ForcingSkips(participants, started, log, joined, order, k, pending, candidates);
        if i in candidates {
          ghost var before := log;
          var force, late, answer, e;
          force, late, answer, pending, e := ForceCandidate(i, pending);
          if force {
            NoTasksMore(old(log), before, ForceEvents(i, late, answer));
            ForceGoesOn(participants, started, before, joined, order, k, candidates, late, answer, pending, e.value);
          }
          joined := if e.Some? then Join(joined, e) else joined;
        }
      }
    }

    /** Forces one candidate, unless its late stop has answered well in the meantime. */
    method ForceCandidate(i: nat, pending0: set<nat>)
      returns (force: bool, late: bool, answer: Result, pending: set<nat>, e: Result)
      requires i < |units|
      modifies this`units, this`log
      ensures log == if force then old(log) + ForceEvents(i, late, answer) else old(log)
      ensures (force ==> e.Some?) && (!force ==> i in pending0)
      ensures |units| == |old(units)| && forall u | 0 <= u < |units| && u != i :: units[u] == old(units[u])
    {
      force, late, answer, pending, e := true, false, None, pending0, None;
      if i in pending {
        var arrived: bool, stopped: Result := *, *;
        if arrived {
          pending := pending - {i};
          e := if stopped.Some? then Some(Wrapped(stopped.value)) else None;
          force := stopped.Some?;
          Transition(i, StopPhase, if stopped.Some? then Failed else Stopped, false);
        }
      }
      if force {
        late, answer := ForceOne(i);
        pending := if late then pending + {i} else pending - {i};
        e := Join(e, Some(Wrapped(if late then DeadlineExceeded else if answer.Some? then answer.value else Other("forced"))));
      }
    }

    /** Waits, until the final deadline, for the calls that have not answered. It collects answers
        of such calls alone, each once; the result is nil only if it was and all of them are, and
        every unit that answered shows how. */
    method AwaitPending(order: seq<nat>, joined0: Result, pending0: set<nat>) returns (joined: Result, collected: map<nat, Result>)
      requires forall i | i in order :: i < |participants| <= |units|
      modifies this`units
      ensures forall i | i in collected :: i in pending0 && i in order
      ensures joined.None? <==> joined0.None? && forall i | i in collected :: collected[i].None?
      ensures |units| == |old(units)| && forall u | 0 <= u < |units| && u !in collected :: units[u] == old(units[u])
      ensures forall i | i in collected :: i < |units| &&
                units[i].state in (if collected[i].Some? then {Failed} else {Stopped, Forced})
    {
      joined, collected := joined0, map[];
      var pending := pending0;
      for k := 0 to |order|
        invariant pending == pending0 - collected.Keys && forall i | i in collected :: i in pending0 && i in order
        invariant joined.None? <==> joined0.None? && forall i | i in collected :: collected[i].None?
        invariant |units| == |old(units)| && forall u | 0 <= u < |units| && u !in collected :: units[u] == old(units[u])
        invariant forall i | i in collected :: i < |units| &&
                    units[i].state in (if collected[i].Some? then {Failed} else {Stopped, Forced})
      {
        var i := order[k];
        assert i in order;
        var arrived: bool, forced: bool, answer: Result := *, *, *;
        if i in pending && arrived {
          pending := pending - {i};
          ghost var before := collected;
          collected := collected[i := answer];
          assert forall j | j in before :: j in collected && collected[j] == before[j];
          assert i in collected && forall j | j in collected :: j == i || j in before;
          joined := if answer.Some? then Join(joined, Some(Wrapped(answer.value))) else joined;
          Transition(i, if forced then ForcePhase else StopPhase, if answer.Some? then Failed else if forced then Forced else Stopped, false);
        }
      }
    }

    // Tasks -----------------------------------------------------------------------------------

    /** Waits for unanswered tasks until the final deadline. */
    method WaitTasks(completed0: set<nat>) returns (joined: Result)
      requires |units| == |participants| + |tasks| && forall t | t in completed0 :: t < |tasks| && TaskDone(log, t)
      modifies this`units, this`log
      ensures old(log) <= log && OnlyTasks(log[|old(log)|..])
      ensures joined.None? ==> forall t | 0 <= t < |tasks| :: TaskDone(log, t)
      ensures joined.None? && TasksClean(old(log)) ==> TasksClean(log)
      ensures |units| == |old(units)| && forall u | 0 <= u < |participants| :: units[u] == old(units[u])
    {
      joined := None;
      var completed := completed0;
      while |completed| < |tasks|
        invariant forall t: nat | t in completed :: t < |tasks| && TaskDone(log, t)
        invariant old(log) <= log && OnlyTasks(log[|old(log)|..])
        invariant joined.None? && TasksClean(old(log)) ==> TasksClean(log)
        invariant |units| == |old(units)| && forall u | 0 <= u < |participants| :: units[u] == old(units[u])
        decreases |tasks| - |completed|
      {
        var expired: bool := *;
        if expired {
          joined := Join(joined, Some(Wrapped(DeadlineExceeded)));
          return;
        }
        SomeTaskMissing(completed, |tasks|);
        var t: nat :| t < |tasks| && t !in completed;
        var answer: Result := *;
        ghost var before := log;
        log := log + [TaskReturned(t, answer)];
        TaskLogged(old(log), before, t, answer);
        completed := completed + {t};
        if answer.Some? && !IsOnlyCancellation(answer.value) {
          joined := Join(joined, Some(Wrapped(answer.value)));
          Transition(|participants| + t, StopPhase, Failed, false);
        } else {
          Transition(|participants| + t, StopPhase, Stopped, false);
        }
      }
      AllTasksIn(completed, |tasks|);
    }

    // The whole shutdown ------------------------------------------------------------------------

    /** Stops, forces and waits for what has not answered. */
    method StopParticipants(started: seq<nat>) returns (joined: Result)
      requires |participants| <= |units| && Distinct(started) && forall i | i in started :: i < |participants|
      requires Unstopped(participants, log, started) == true
      modifies this`units, this`log
      ensures old(log) <= log && NoTasks(log[|old(log)|..])
      ensures (Orderly(participants, log) && Started(log) == started && (joined.None? ==> Clean(log))) == true
      ensures |units| == |old(units)| && forall u | 0 <= u < |units| && u !in started :: units[u] == old(units[u])
    {
      ReversedDistinct(started);
      var joined1, order, pending, candidates := StopAll(started);
      ghost var log1 := log;
      var joined2, left := ForceAll(started, order, joined1, pending, candidates);
      StillNoTasks(old(log), log1, log);
      var result, _ := AwaitPending(order, joined2, left);
      return result;
    }

    /** The whole shutdown. Whatever goes wrong, every started participant is asked to stop
        once, in reverse, and nothing is forced that was not asked first and failed to stop. */
    method Shutdown(started: seq<nat>, withTasks: bool, completed: set<nat>) returns (joined: Result)
      requires |participants| + |tasks| == |units| && Distinct(started) && forall i | i in started :: i < |participants|
      requires Unstopped(participants, log, started) == true
      requires forall t | t in completed :: t < |tasks| && TaskDone(log, t)
      modifies this`units, this`log
      ensures old(log) <= log && Orderly(participants, log) && Started(log) == started
      ensures joined.None? ==> Clean(log)
      ensures joined.None? && withTasks ==> forall t | 0 <= t < |tasks| :: TaskDone(log, t)
      ensures joined.None? && TasksClean(old(log)) ==> TasksClean(log)
      ensures |units| == |old(units)| && forall u | 0 <= u < |participants| && u !in started :: units[u] == old(units[u])
    {
      joined := StopParticipants(started);
      ghost var stopped := log;
      StillDone(old(log), stopped);
      if withTasks {
        var waited := WaitTasks(completed);
        TasksAppended(participants, stopped, log[|stopped|..]);
        assert log == stopped + log[|stopped|..];
        joined := Join(joined, waited);
      }
    }

    // Running -----------------------------------------------------------------------------------

    /** Checks every owner name and that no two owners share one. */
    method ValidateOwners() returns (ok: bool)
      ensures ok <==> OwnersOk(participants, tasks)
    {
      var names := Names(participants, tasks);
      var seen: set<string> := {};
      for k := 0 to |names|
        invariant forall n :: n in seen <==> n in names[..k]
        invariant NamesOk(names[..k])
      {
        assert names[..k + 1] == names[..k] + [names[k]];
        var valid := ValidateName(names[k]);
        if !valid || names[k] in seen {
          assert names[..k + 1][k] == names[k];
          NamesBad(names, k);
          return false;
        }
        seen := seen + {names[k]};
      }
      assert names[..|names|] == names;
      return true;
    }

    static method ValidateName(name: string) returns (ok: bool)
      ensures ok <==> NameOk(name)
    {
      if name == "" || |name| > MAX_NAME {
        return false;
      }
      for k := 0 to |name|
        invariant forall j | 0 <= j < k :: NameCharOk(name[j], j == 0)
      {
        var c := name[k];
        var valid := ('a' <= c <= 'z') || ('0' <= c <= '9');
        if k > 0 {
          valid := valid || c == '.' || c == '_' || c == '-';
        }
        if !valid {
          return false;
        }
      }
      return true;
    }

    method BeginRun(allowTasks: bool) returns (ok: bool)
      requires Valid()
      modifies this
      ensures Valid() && tasks == old(tasks)
      ensures ok <==> old(state) == Created && OwnersOk(participants, tasks) && (allowTasks || tasks == [])
      ensures ok ==> state == RunningNow && log == [] && forall u | 0 <= u < |units| :: units[u].state == Pending && units[u].attempt == 0
      ensures !ok ==> state == old(state) && log == old(log) && units == old(units)
    {
      var valid := ValidateOwners();
      if !valid || (!allowTasks && tasks != []) || state != Created {
        return false;
      }
      state := RunningNow;
      units := seq(|participants|, _ => Unit(StartPhase, Pending, 0)) + seq(|tasks|, _ => Unit(RunPhase, Pending, 0));
      return true;
    }

    /** Starts the participants in order, up to the first that fails. */
    method StartAll() returns (started: seq<nat>, failure: Result)
      requires |participants| <= |units| && log == []
      modifies this`units, this`log
      ensures (forall k | 0 <= k < |started| :: started[k] == k) && |started| <= |participants|
      ensures Unstopped(participants, log, started) && NoTasks(log)
      ensures |units| == |old(units)|
      ensures failure.None? ==> |started| == |participants|
      ensures failure.Some? ==> |started| < |participants| && units[|started|].state == Failed
    {
      started := [];
      for i := 0 to |participants|
        invariant |started| == i && (forall k | 0 <= k < i :: started[k] == k)
        invariant Unstopped(participants, log, started) && NoTasks(log) && |units| == |old(units)|
      {
        Transition(i, StartPhase, Running, true);
        var answer: Result := *;
        LogSnoc(log, StartReturned(i, answer));
        JustifiedSnoc(log, StartReturned(i, answer), participants);
        log := log + [StartReturned(i, answer)];
        if answer.Some? {
          Transition(i, StartPhase, Failed, false);
          return started, Some(Wrapped(answer.value));
        }
        started := started + [i];
        Transition(i, ReadyPhase, Ready, false);
      }
      failure := None;
    }

    /** Reports the run; nil needs both no error and every unit stopped. */
    method Complete(r: Result) returns (err: Result)
      modifies this`state
      ensures state == Finished
      ensures err.None? <==> r.None? && forall u | 0 <= u < |units| :: units[u].state == Stopped
    {
      state := Finished;
      if r.Some? {
        return r;
      }
      for u := 0 to |units|
        invariant forall v | 0 <= v < u :: units[v].state == Stopped
      {
        if units[u].state != Stopped {
          return Some(Other("incomplete shutdown"));
        }
      }
      return None;
    }

    /** Waits for the first task to answer, or for the context to end. */
    method AwaitTermination(completed0: set<nat>) returns (r: Result, ctx: Result, completed: set<nat>)
      requires |units| == |participants| + |tasks| && forall t | t in completed0 :: t < |tasks| && TaskDone(log, t)
      modifies this`units, this`log
      ensures old(log) <= log && OnlyTasks(log[|old(log)|..]) && |units| == |old(units)|
      ensures forall t | t in completed :: t < |tasks| && TaskDone(log, t)
      ensures NormalizeCancellation(ctx, r).None? && TasksClean(old(log)) ==> TasksClean(log)
      ensures forall u | 0 <= u < |participants| :: units[u] == old(units[u])
    {
      completed := completed0;
      var ended: bool, answers: bool := *, *;
      ctx := *;
      if |completed| < |tasks| && answers {
        SomeTaskMissing(completed, |tasks|);
        var t: nat :| t < |tasks| && t !in completed;
        var answer: Result := *;
        TaskLogged(old(log), log, t, answer);
        log := log + [TaskReturned(t, answer)];
        completed := completed + {t};
        if ended && ctx.Some? && (!answer.Some? || IsOnlyCancellation(answer.value)) {
          Transition(|participants| + t, RunPhase, Stopped, false);
          return ctx, ctx, completed;
        }
        Transition(|participants| + t, RunPhase, Failed, false);
        return Some(if answer.Some? then Wrapped(answer.value) else Other("completed unexpectedly")), ctx, completed;
      }
      ctx := if ctx.None? then Some(Canceled) else ctx;
      return ctx, ctx, completed;
    }

    /** Waits for those tasks that confirm being ready; anything else that happens ends the wait. */
    method AwaitReadiness() returns (ready: bool, r: Result, ctx: Result, completed: set<nat>)
      requires |units| == |participants| + |tasks|
      modifies this`units, this`log
      ensures old(log) <= log && OnlyTasks(log[|old(log)|..]) && |units| == |old(units)|
      ensures forall t | t in completed :: t < |tasks| && TaskDone(log, t)
      ensures !ready && NormalizeCancellation(ctx, r).None? && TasksClean(old(log)) ==> TasksClean(log)
      ensures ready ==> completed == {} && log == old(log)
      ensures forall u | 0 <= u < |participants| :: units[u] == old(units[u])
    {
      for t := 0 to |tasks|
        invariant log == old(log) && |units| == |old(units)|
        invariant forall u | 0 <= u < |participants| :: units[u] == old(units[u])
      {
        if tasks[t].confirms {
          var confirmed: bool := *;
          if !confirmed {
            ready := false;
            r, ctx, completed := AwaitTermination({});
            return;
          }
          Transition(|participants| + t, RunPhase, Ready, false);
        }
      }
      return true, None, None, {};
    }

    /** A process run: start, tasks, shutdown. Every started participant is stopped exactly once,
        in reverse, and forced at most once and only after its stop went wrong; the run reports
        nil only if every participant started and stopped cleanly in time, nothing was forced,
        and every task has returned. A second call while one is under way is refused. */
    method Run() returns (err: Result)
      requires Valid()
      modifies this
      ensures Valid() && (old(state) != RunningNow ==> Orderly(participants, log))
      ensures old(state) != Created ==> err.Some? && log == old(log) && state == old(state) && units == old(units)
      ensures err.None? ==> RunClean(participants, tasks, log)
    {
      var begun := BeginRun(true);
      if !begun {
        return Some(Other("not started"));
      }
      var started, failure := StartAll();
      if failure.Some? {
        SettleUnstarted();
        var ctx: Result := *;
        var stopErr := Shutdown(started, false, {});
        err := Complete(Join(NormalizeCancellation(ctx, failure), stopErr));
        return;
      }
      ghost var before := log;
      for t := 0 to |tasks|
        invariant |units| == |participants| + |tasks| && tasks == old(tasks) && state == RunningNow && log == before
      {
        Transition(|participants| + t, RunPhase, Running, true);
      }
      err := RunTasks(started);
    }

    /** Waits for the run to end and says why; nil only if no task has failed. */
    method AwaitEnd(ghost started: seq<nat>) returns (result: Result, completed: set<nat>)
      requires |units| == |participants| + |tasks| && NoTasks(log)
      requires Unstopped(participants, log, started) == true
      modifies this`units, this`log
      ensures Unstopped(participants, log, started) == true
      ensures |units| == |old(units)| && forall t | t in completed :: t < |tasks| && TaskDone(log, t)
      ensures result.None? ==> TasksClean(log)
    {
      ghost var log0 := log;
      var ready, r, ctx;
      ready, r, ctx, completed := AwaitReadiness();
      if ready {
        r, ctx, completed := AwaitTermination(completed);
      }
      StillUnstopped(participants, log0, log, started);
      result := NormalizeCancellation(ctx, r);
    }

    /** The part of a run between the last start and the report. */
    method RunTasks(started: seq<nat>) returns (err: Result)
      requires Valid() && state == RunningNow && |units| == |participants| + |tasks| && |started| == |participants|
      requires forall k | 0 <= k < |started| :: started[k] == k
      requires (Unstopped(participants, log, started) && NoTasks(log)) == true
      modifies this
      ensures Valid() && Orderly(participants, log) && tasks == old(tasks)
      ensures err.None? ==> RunClean(participants, tasks, log)
    {
      var result, completed := AwaitEnd(started);
      assert started == seq(|participants|, k => k);
      var stopErr := Shutdown(started, true, completed);
      err := Complete(Join(result, stopErr));
    }

    /** A one-shot run: start, operate, stop. */
    method RunOperation() returns (err: Result)
      requires Valid()
      modifies this
      ensures Valid() && (old(state) != RunningNow ==> Orderly(participants, log))
      ensures old(state) != Created ==> err.Some? && log == old(log) && state == old(state) && units == old(units)
      ensures err.None? ==> RunClean(participants, [], log)
    {
      var begun := BeginRun(false);
      if !begun {
        return Some(Other("not started"));
      }
      var started, failure := StartAll();
      if failure.Some? {
        SettleUnstarted();
        var stopErr := Shutdown(started, false, {});
        err := Complete(Join(failure, stopErr));
        return;
      }
      assert started == seq(|participants|, k => k) && TasksClean(log);
      var operation: Result := *;
      var stopErr := Shutdown(started, false, {});
      err := Complete(Join(operation, stopErr));
    }
  }

  function StopEvents(i: nat, late: bool, answer: Result): seq<Event> {
    [StopCalled(i), if late then StopOverran(i) else StopReturned(i, answer)]
  }

  /** The participants in `started` are up and nothing has been stopped. */
  ghost predicate Unstopped(participants: seq<Participant>, log: seq<Event>, started: seq<nat>) {
    Started(log) == started && Stops(log) == Forces(log) == [] && StopsClean(log) && ForceJustified(log, participants)
  }

  /** Where the graceful phase stands: `order` has been asked to stop, the errors are joined
      exactly when something went wrong, and only then is anything pending or to be forced. */
  ghost predicate Stopping(participants: seq<Participant>, started: seq<nat>, log: seq<Event>, joined: Result,
                           order: seq<nat>, pending: set<nat>, candidates: set<nat>) {
    && Started(log) == started && Stops(log) == order && Forces(log) == [] && ForceJustified(log, participants)
    && (joined.None? <==> StopsClean(log))
    && (joined.None? ==> StopsAnswered(log) && candidates == {} && pending == {})
    && (forall c | c in candidates :: c in order && c < |participants| && participants[c].forceable && StopWentWrong(log, c))
    && (forall c | c in pending :: c in order)
  }

  lemma NothingStopped(participants: seq<Participant>, log: seq<Event>, started: seq<nat>)
    requires Unstopped(participants, log, started)
    ensures Stopping(participants, started, log, None, [], {}, {}) == true
  {
  }

  lemma StopLogged(log: seq<Event>, i: nat, late: bool, answer: Result, participants: seq<Participant>)
    requires ForceJustified(log, participants)
    ensures var log' := log + StopEvents(i, late, answer);
            && ForceJustified(log', participants)
            && Stops(log') == Stops(log) + [i] && Forces(log') == Forces(log) && Started(log') == Started(log)
  {
    var e1, e2 := StopEvents(i, late, answer)[0], StopEvents(i, late, answer)[1];
    assert log + StopEvents(i, late, answer) == log + [e1] + [e2];
    LogSnoc(log, e1);
    LogSnoc(log + [e1], e2);
    JustifiedSnoc(log, e1, participants);
    JustifiedSnoc(log + [e1], e2, participants);
  }

  lemma StopAnswerLogged(log: seq<Event>, i: nat, late: bool, answer: Result)
    ensures var log' := log + StopEvents(i, late, answer);
            && (StopsClean(log') <==> StopsClean(log) && !late && answer.None?)
            && (late || answer.Some? ==> StopWentWrong(log', i))
            && (!late && answer.None? ==> StopReturned(i, None) in log')
            && (forall e | e in log :: e in log')
  {
    var log' := log + StopEvents(i, late, answer);
    assert log'[|log|] == StopCalled(i) && log'[|log| + 1] == StopEvents(i, late, answer)[1];
    assert forall k | 0 <= k < |log| :: log'[k] == log[k];
  }

  lemma StopGoesOn(participants: seq<Participant>, started: seq<nat>, log: seq<Event>, joined: Result,
                   order: seq<nat>, pending: set<nat>, candidates: set<nat>, i: nat, late: bool, answer: Result)
    requires Stopping(participants, started, log, joined, order, pending, candidates) == true
    requires i < |participants| && (late ==> answer == None)
    ensures Stopping(participants, started, log + StopEvents(i, late, answer),
              if late then Join(joined, Some(Wrapped(DeadlineExceeded)))
              else if answer.Some? then Join(joined, Some(Wrapped(answer.value))) else joined,
              order + [i], if late then pending + {i} else pending,
              if participants[i].forceable && (late || answer.Some?) then candidates + {i} else candidates)
  {
    StopLogged(log, i, late, answer, participants);
    StopAnswerLogged(log, i, late, answer);
    forall c | c in candidates ensures StopWentWrong(log + StopEvents(i, late, answer), c) {
      WrongStays(log, StopEvents(i, late, answer), c);
    }
  }

  function ForceEvents(i: nat, late: bool, answer: Result): seq<Event> {
    [ForceCalled(i), if late then ForceOverran(i) else ForceReturned(i, answer)]
  }

  /** Where the force phase stands after the first `k` stopped participants. */
  ghost predicate Forcing(participants: seq<Participant>, started: seq<nat>, log: seq<Event>, joined: Result,
                          order: seq<nat>, k: nat, pending: set<nat>, candidates: set<nat>)
    requires k <= |order|
  {
    && Started(log) == started && Stops(log) == order && ForceJustified(log, participants)
    && Distinct(Forces(log)) && (forall f | f in Forces(log) :: f in order[..k])
    && (joined.None? ==> Forces(log) == [] && StopsClean(log) && StopsAnswered(log) && candidates == {} && pending == {})
    && (StopsClean(log) && Forces(log) == [] ==> joined.None?)
    && (forall c | c in candidates :: c in order && c < |participants| && participants[c].forceable && StopWentWrong(log, c))
  }

  lemma ForcingSkips(participants: seq<Participant>, started: seq<nat>, log: seq<Event>, joined: Result,
                     order: seq<nat>, k: nat, pending: set<nat>, candidates: set<nat>)
    requires k < |order| && Forcing(participants, started, log, joined, order, k, pending, candidates)
    ensures Forcing(participants, started, log, joined, order, k + 1, pending, candidates)
  {
    assert order[..k + 1] == order[..k] + [order[k]];
  }

  lemma ForceGoesOn(participants: seq<Participant>, started: seq<nat>, log: seq<Event>, joined: Result,
                    order: seq<nat>, k: nat, candidates: set<nat>, late: bool, answer: Result, p: set<nat>, e: Error)
    requires k < |order| && (exists pending :: Forcing(participants, started, log, joined, order, k, pending, candidates)) == true
    requires order[k] in candidates && Distinct(order)
    ensures Forcing(participants, started, log + ForceEvents(order[k], late, answer),
              Join(joined, Some(e)), order, k + 1, p, candidates) == true
  {
    var i := order[k];
    var e1, e2 := ForceEvents(i, late, answer)[0], ForceEvents(i, late, answer)[1];
    var log' := log + ForceEvents(i, late, answer);
    assert log' == log + [e1] + [e2];
    LogSnoc(log, e1);
    LogSnoc(log + [e1], e2);
    JustifiedSnoc(log, e1, participants);
    JustifiedSnoc(log + [e1], e2, participants);
    assert order[..k + 1] == order[..k] + [i] && i !in order[..k];
    forall c | c in candidates ensures StopWentWrong(log', c) {
      WrongStays(log, ForceEvents(i, late, answer), c);
    }
  }

  predicate OnlyTasks(log: seq<Event>) {
    forall k | 0 <= k < |log| :: log[k].TaskReturned?
  }

  lemma TaskLogged(start: seq<Event>, log: seq<Event>, t: nat, answer: Result)
    requires start <= log && OnlyTasks(log[|start|..])
    ensures var log' := log + [TaskReturned(t, answer)];
            && start <= log' && OnlyTasks(log'[|start|..]) && TaskDone(log', t)
            && (forall u | TaskDone(log, u) :: TaskDone(log', u))
            && (TasksClean(log) && (answer.Some? ==> IsOnlyCancellation(answer.value)) ==> TasksClean(log'))
  {
    var log' := log + [TaskReturned(t, answer)];
    assert log'[|log|] == TaskReturned(t, answer);
    assert log'[|start|..] == log[|start|..] + [TaskReturned(t, answer)];
    forall u | TaskDone(log, u) ensures TaskDone(log', u) {
      var k :| 0 <= k < |log| && log[k].TaskReturned? && log[k].i == u;
      assert log'[k] == log[k];
    }
  }

  lemma {:induction false} Initial(n: nat) returns (s: set<nat>)
    ensures |s| == n && forall t :: t in s <==> 0 <= t < n
  {
    if n == 0 {
      s := {};
    } else {
      var r := Initial(n - 1);
      s := r + {n - 1};
    }
  }

  lemma {:induction false} SubsetCard(a: set<nat>, b: set<nat>)
    requires a <= b
    ensures |a| <= |b| && (|a| == |b| ==> a == b)
  {
    if a != {} {
      var x :| x in a;
      SubsetCard(a - {x}, b - {x});
      assert a == (a - {x}) + {x} && b == (b - {x}) + {x};
    }
  }

  /** Fewer completed tasks than tasks: some task has not completed. */
  lemma SomeTaskMissing(completed: set<nat>, n: nat)
    requires |completed| < n && forall t | t in completed :: t < n
    ensures exists t: nat :: t < n && t !in completed
  {
    var all := Initial(n);
    if forall t: nat | t < n :: t in completed {
      SubsetCard(all, completed);
      assert false;
    }
  }

  lemma AllTasksIn(completed: set<nat>, n: nat)
    requires |completed| >= n && forall t | t in completed :: t < n
    ensures forall t: nat | t < n :: t in completed
  {
    var all := Initial(n);
    SubsetCard(completed, all);
  }

  /** The calls of a run so far: stops in reverse start order, each force at most once and only
      where it is due. */
  ghost predicate Orderly(participants: seq<Participant>, log: seq<Event>) {
    Stops(log) == Reversed(Started(log)) && Distinct(Forces(log)) && ForceJustified(log, participants)
  }

  /** Every stop answered nil in time and nothing was forced. */
  ghost predicate Clean(log: seq<Event>) {
    StopsClean(log) && StopsAnswered(log) && Forces(log) == []
  }

  predicate NoTasks(log: seq<Event>) {
    forall k | 0 <= k < |log| :: !log[k].TaskReturned?
  }

  lemma NoTasksMore(start: seq<Event>, log: seq<Event>, more: seq<Event>)
    requires start <= log && NoTasks(log[|start|..]) && NoTasks(more)
    ensures NoTasks((log + more)[|start|..])
  {
    assert (log + more)[|start|..] == log[|start|..] + more;
  }

  lemma StillNoTasks(start: seq<Event>, log: seq<Event>, now: seq<Event>)
    requires start <= log <= now && NoTasks(log[|start|..]) && NoTasks(now[|log|..])
    ensures NoTasks(now[|start|..])
  {
    NoTasksMore(start, log, now[|log|..]);
    assert now == log + now[|log|..];
  }

  lemma ReversedDistinct(s: seq<nat>)
    requires Distinct(s)
    ensures Distinct(Reversed(s)) && forall i | i in Reversed(s) :: i in s
  {
  }

  lemma StillDone(log0: seq<Event>, log1: seq<Event>)
    requires log0 <= log1 && NoTasks(log1[|log0|..])
    ensures forall t | TaskDone(log0, t) :: TaskDone(log1, t)
    ensures TasksClean(log0) ==> TasksClean(log1)
  {
    forall t | TaskDone(log0, t) ensures TaskDone(log1, t) {
      var k :| 0 <= k < |log0| && log0[k].TaskReturned? && log0[k].i == t;
      assert log1[k] == log0[k];
    }
    assert forall k | |log0| <= k < |log1| :: log1[k] == log1[|log0|..][k - |log0|];
  }

  lemma {:induction false} TasksAppended(participants: seq<Participant>, log: seq<Event>, more: seq<Event>)
    requires OnlyTasks(more)
    ensures Started(log + more) == Started(log) && Stops(log + more) == Stops(log) && Forces(log + more) == Forces(log)
    ensures ForceJustified(log, participants) ==> ForceJustified(log + more, participants)
    ensures StopsClean(log) ==> StopsClean(log + more)
    ensures StopsAnswered(log) ==> StopsAnswered(log + more)
  {
    if more == [] {
      assert log + more == log;
    } else {
      var n := |more| - 1;
      TasksAppended(participants, log, more[..n]);
      assert log + more == log + more[..n] + [more[n]];
      LogSnoc(log + more[..n], more[n]);
      if ForceJustified(log, participants) {
        JustifiedSnoc(log + more[..n], more[n], participants);
      }
    }
  }

  lemma StillUnstopped(participants: seq<Participant>, log: seq<Event>, now: seq<Event>, started: seq<nat>)
    requires Unstopped(participants, log, started) && log <= now && OnlyTasks(now[|log|..])
    ensures Unstopped(participants, now, started) == true
  {
    TasksAppended(participants, log, now[|log|..]);
    assert now == log + now[|log|..];
  }

  // Names ---------------------------------------------------------------------------------------

  const MAX_NAME := 128

  predicate NameCharOk(c: char, first: bool) {
    ('a' <= c <= 'z') || ('0' <= c <= '9') || (!first && (c == '.' || c == '_' || c == '-'))
  }

  predicate NameOk(name: string) {
    0 < |name| <= MAX_NAME && forall j | 0 <= j < |name| :: NameCharOk(name[j], j == 0)
  }

  function Names(participants: seq<Participant>, tasks: seq<Task>): seq<string> {
    seq(|participants|, i requires 0 <= i < |participants| => participants[i].name) +
    seq(|tasks|, i requires 0 <= i < |tasks| => tasks[i].name)
  }

  predicate NamesOk(names: seq<string>) {
    && (forall i | 0 <= i < |names| :: NameOk(names[i]))
    && (forall i, j | 0 <= i < j < |names| :: names[i] != names[j])
  }

  predicate OwnersOk(participants: seq<Participant>, tasks: seq<Task>) {
    NamesOk(Names(participants, tasks))
  }

  lemma NamesBad(names: seq<string>, k: nat)
    requires k < |names| && (!NameOk(names[k]) || names[k] in names[..k])
    ensures !NamesOk(names)
  {
    if NameOk(names[k]) {
      var j :| 0 <= j < k && names[..k][j] == names[k];
      assert names[j] == names[k];
    }
  }

  /** What a run that reports nil has done. */
  ghost predicate RunClean(participants: seq<Participant>, tasks: seq<Task>, log: seq<Event>) {
    && Started(log) == seq(|participants|, k => k)
    && Clean(log) && TasksClean(log)
    && forall t | 0 <= t < |tasks| :: TaskDone(log, t)
  }
}
