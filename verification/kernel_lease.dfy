/** The component lease: the gate between concurrent Use callers and a hot-swapped instance.
    Every function below is one critical section of the lease's mutex. Channels are rows of
    a table of "closed" flags, so an old channel held by a waiting caller keeps its identity
    after the lease has replaced it. */
module Leases {
  import opened Wrappers

  datatype Mode = Pending | Serving | Draining | Stopped

  /** `current` is the index of the instance slot being served. `transitions` lists every
      transition channel the lease ever made, the last being the present one; `drains` lists
      the drain channels and `drained` names the present one. `holders` and `waiters` are
      the Use calls in flight: a holder runs its callback on the slot it acquired, a waiter
      blocks on the transition channel it read. */
  datatype Lease = Lease(
    mode: Mode, current: Option<nat>, activeUses: int,
    transitions: seq<bool>, drained: Option<nat>, drains: seq<bool>,
    drainDone: bool, terminal: bool,
    holders: map<nat, nat>, waiters: map<nat, nat>)

  function NewLease(): Lease {
    Lease(Pending, None, 0, [false], None, [], false, false, map[], map[])
  }

  function Transition(l: Lease): nat
    requires |l.transitions| > 0
  {
    |l.transitions| - 1
  }

  predicate TransitionOpen(l: Lease) {
    |l.transitions| > 0 && !l.transitions[|l.transitions| - 1]
  }

  function CloseTransition(l: Lease): Lease
    requires |l.transitions| > 0
  {
    l.(transitions := l.transitions[|l.transitions| - 1 := true])
  }

  // Callers -------------------------------------------------------------------------

  /** A caller may (re)try when it is new to the lease or the channel it waits on is closed. */
  predicate MayAttempt(l: Lease, user: nat) {
    && user !in l.holders
    && (user in l.waiters ==> l.waiters[user] < |l.transitions| && l.transitions[l.waiters[user]])
  }

  predicate Refused(l: Lease) {
    l.mode == Stopped || (l.mode == Draining && l.terminal)
  }

  /** One pass of the acquire loop: take the current instance, wait, or give up. */
  function Attempt(l: Lease, user: nat): Lease
    requires MayAttempt(l, user)
    requires l.mode == Serving ==> l.current.Some?
    requires |l.transitions| > 0
  {
    if l.mode == Serving then
      l.(activeUses := l.activeUses + 1,
         holders := l.holders[user := l.current.value],
         waiters := l.waiters - {user})
    else if Refused(l) then l.(waiters := l.waiters - {user})
    else l.(waiters := l.waiters[user := Transition(l)])
  }

  /** A waiting caller whose context ends leaves without an instance. */
  function GiveUp(l: Lease, user: nat): Lease {
    l.(waiters := l.waiters - {user})
  }

  predicate CanRelease(l: Lease) {
    && l.activeUses > 0
    && (l.mode == Draining && l.activeUses == 1 && !l.drainDone ==>
          l.drained.Some? && l.drained.value < |l.drains| && !l.drains[l.drained.value])
  }

  function Release(l: Lease, user: nat): Lease
    requires CanRelease(l)
  {
    var l' := l.(activeUses := l.activeUses - 1, holders := l.holders - {user});
    if l.mode == Draining && l'.activeUses == 0 && !l.drainDone then
      l'.(drains := l.drains[l.drained.value := true], drainDone := true)
    else l'
  }

  // The kernel ----------------------------------------------------------------------

  predicate CanPublishInitial(l: Lease) {
    l.mode == Pending && TransitionOpen(l)
  }

  function PublishInitial(l: Lease, slot: nat): Lease
    requires CanPublishInitial(l)
  {
    CloseTransition(l).(current := Some(slot), mode := Serving)
  }

  /** The drain channel handed to the kernel, or the error of a lease never published. */
  function BeginDrain(l: Lease, terminal: bool): (Lease, Option<nat>) {
    match l.mode
    case Serving =>
      var done := l.activeUses == 0;
      (l.(mode := Draining, terminal := terminal,
          transitions := l.transitions + [false],
          drains := l.drains + [done], drained := Some(|l.drains|), drainDone := done),
       Some(|l.drains|))
    case Draining => (l.(terminal := l.terminal || terminal), l.drained)
    case Stopped => (l.(drains := l.drains + [true]), Some(|l.drains|))
    case Pending => (l, None)
  }

  predicate CanReplace(l: Lease) {
    l.mode == Draining && l.drainDone && !l.terminal
  }

  function Replace(l: Lease, slot: nat): Lease
    requires CanReplace(l)
  {
    l.(current := Some(slot))
  }

  predicate CanResume(l: Lease) {
    l.mode == Draining && !l.terminal && TransitionOpen(l)
  }

  function Resume(l: Lease): Lease
    requires CanResume(l)
  {
    CloseTransition(l).(mode := Serving, drained := None, drainDone := false)
  }

  predicate CanStopPending(l: Lease) {
    l.mode == Pending ==> TransitionOpen(l)
  }

  function StopPending(l: Lease): Lease
    requires CanStopPending(l)
  {
    if l.mode == Pending then CloseTransition(l).(mode := Stopped) else l
  }

  predicate CanTake(l: Lease) {
    l.mode == Draining && l.drainDone && TransitionOpen(l)
  }

  function Take(l: Lease): Lease
    requires CanTake(l)
  {
    CloseTransition(l).(terminal := true, current := None, mode := Stopped, drained := None, drainDone := false)
  }

  // Invariant -----------------------------------------------------------------------

  /** Every transition channel but the present one is closed, and the present one is open
      exactly while callers must wait. */
  predicate ChannelsOk(l: Lease) {
    && |l.transitions| > 0
    && (forall c | 0 <= c < |l.transitions| - 1 :: l.transitions[c])
    && (TransitionOpen(l) <==> l.mode in {Pending, Draining})
    && (forall u | u in l.waiters :: l.waiters[u] < |l.transitions|)
  }

  /** The drain channel exists exactly while draining and is closed exactly when no callback
      is running. */
  predicate DrainOk(l: Lease) {
    && (l.drained.Some? <==> l.mode == Draining)
    && (l.drained.Some? ==> l.drained.value < |l.drains| && l.drains[l.drained.value] == l.drainDone)
    && (l.drainDone ==> l.mode == Draining)
    && (l.mode == Draining ==> (l.drainDone <==> l.activeUses == 0))
  }

  /** The use count is the number of running callbacks, and all of them run on the current
      slot. */
  predicate HoldersOk(l: Lease) {
    && l.activeUses == |l.holders|
    && (forall u | u in l.holders :: l.current == Some(l.holders[u]))
    && (l.current.Some? <==> l.mode in {Serving, Draining})
    && (forall u | u in l.holders :: u !in l.waiters)
  }

  predicate LeaseOk(l: Lease) {
    && ChannelsOk(l)
    && DrainOk(l)
    && HoldersOk(l)
    && (l.mode in {Pending, Serving} ==> !l.terminal)
  }

  /** No lost wakeup: a lease that can answer has closed the channel of everybody waiting. */
  lemma {:induction false} NoLostWakeup(l: Lease, user: nat)
    requires LeaseOk(l) && user in l.waiters
    requires l.mode in {Serving, Stopped}
    ensures MayAttempt(l, user)
    ensures user in Attempt(l, user).holders <==> l.mode == Serving
    ensures user !in Attempt(l, user).waiters
  {
    var c := l.waiters[user];
    assert c < |l.transitions| - 1 || c == |l.transitions| - 1;
  }

  /** What a caller's step leaves alone; the drain can only complete, never be undone. */
  predicate CallerStep(l: Lease, l': Lease) {
    && l'.mode == l.mode && l'.current == l.current && l'.terminal == l.terminal
    && l'.transitions == l.transitions && l'.drained == l.drained && |l'.drains| == |l.drains|
    && (l.drainDone ==> l'.drainDone)
  }

  lemma AttemptOk(l: Lease, user: nat)
    requires LeaseOk(l) && MayAttempt(l, user)
    ensures LeaseOk(Attempt(l, user)) && CallerStep(l, Attempt(l, user))
  {
    if l.mode == Serving {
      AddedCount(l.holders, user, l.current.value);
    }
  }

  lemma GiveUpOk(l: Lease, user: nat)
    requires LeaseOk(l)
    ensures LeaseOk(GiveUp(l, user)) && CallerStep(l, GiveUp(l, user))
  {
  }

  lemma {:induction false} ReleaseOk(l: Lease, user: nat)
    requires LeaseOk(l) && user in l.holders
    ensures CanRelease(l)
    ensures LeaseOk(Release(l, user)) && CallerStep(l, Release(l, user))
  {
    RemovedCount(l.holders, user);
  }

  lemma AddedCount(m: map<nat, nat>, key: nat, value: nat)
    requires key !in m
    ensures |m[key := value]| == |m| + 1
  {
    assert m[key := value].Keys == m.Keys + {key};
  }

  lemma RemovedCount(m: map<nat, nat>, key: nat)
    requires key in m
    ensures |m - {key}| == |m| - 1
  {
    assert (m - {key}).Keys == m.Keys - {key};
  }

  lemma BeginDrainOk(l: Lease, terminal: bool)
    requires LeaseOk(l)
    ensures var (l', ready) := BeginDrain(l, terminal);
            && LeaseOk(l')
            && (ready.Some? <==> l.mode != Pending)
            && (ready.Some? ==> ready.value < |l'.drains|)
            && (l.mode in {Serving, Draining} ==> l'.mode == Draining && ready == l'.drained)
  {
  }

  lemma PublishInitialOk(l: Lease, slot: nat)
    requires LeaseOk(l) && l.mode == Pending
    ensures CanPublishInitial(l) && LeaseOk(PublishInitial(l, slot))
  {
  }

  lemma ResumeOk(l: Lease)
    requires LeaseOk(l) && l.mode == Draining && !l.terminal
    ensures CanResume(l) && LeaseOk(Resume(l))
  {
  }

  lemma {:induction false} ReplaceOk(l: Lease, slot: nat)
    requires LeaseOk(l) && CanReplace(l)
    ensures LeaseOk(Replace(l, slot))
  {
    assert l.holders == map[];
  }

  lemma StopPendingOk(l: Lease)
    requires LeaseOk(l)
    ensures CanStopPending(l) && LeaseOk(StopPending(l))
  {
  }

  lemma {:induction false} TakeOk(l: Lease)
    requires LeaseOk(l) && l.mode == Draining && l.drainDone
    ensures CanTake(l) && LeaseOk(Take(l))
  {
    assert l.holders == map[];
  }
}
