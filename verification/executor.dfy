/** Idempotent execution over the in-memory store: any number of executors try to run
    operations under keys, and the store's claim decides who may. */
module Executors {
  import opened Wrappers
  import opened MemoryStores

  /** An operation under way, with the end of its lease. */
  datatype Execution = Execution(key: Key, until: Option<int>)

  datatype World = World(store: Memory, clock: int, running: map<nat, Execution>, completed: map<Key, Option<int>>)

  /** Each call on the store is one step; `age` is how long before it the caller read the clock.
      A failed operation releases its claim and leaves its record in a later step. An operation is
      abandoned when it ends and the store refuses its completion or its release. */
  datatype Action =
    | TryStart(id: nat, key: Key, leaseTTL: int, age: nat)
    | Succeed(id: nat, retention: int, age: nat)
    | Fail(id: nat)
    | RecordFailure(key: Key)
    | Abandon(id: nat)
    | Tick(elapsed: nat)

  function Init(clock: int): World {
    World(EMPTY, clock, map[], map[])
  }

  function Lease(leaseTTL: int, now: int): Option<int> {
    if leaseTTL > 0 then Some(now + leaseTTL) else None
  }

  /** The claim decides; the completion check before it only answers duplicates early. */
  function Start(w: World, id: nat, key: Key, leaseTTL: int, now: int): World {
    if id in w.running then w
    else
      var (store, claimed) := Claim(w.store, key, leaseTTL, now);
      if claimed then w.(store := store, running := w.running[id := Execution(key, Lease(leaseTTL, now))]) else w
  }

  function Apply(w: World, a: Action): World {
    match a
    case TryStart(id, key, leaseTTL, age) => Start(w, id, key, leaseTTL, w.clock - age)
    case Succeed(id, retention, age) =>
      if id !in w.running then w
      else
        var key, createdAt := w.running[id].key, w.clock - age;
        World(Put(w.store, Complete(key, retention, Record("completed", Some(createdAt))), w.clock), w.clock,
              w.running - {id}, w.completed[key := Until(retention, createdAt)])
    case Fail(id) =>
      if id !in w.running then w
      else w.(store := Put(w.store, Release(w.running[id].key), w.clock), running := w.running - {id})
    case RecordFailure(key) => w.(store := Put(w.store, Note(key, Record("failed", Some(w.clock))), w.clock))
    case Abandon(id) => w.(running := w.running - {id})
    case Tick(elapsed) => w.(clock := w.clock + elapsed)
  }

  function Run(clock: int, actions: seq<Action>): World {
    if actions == [] then Init(clock)
    else Apply(Run(clock, actions[..|actions| - 1]), actions[|actions| - 1])
  }

  // Exclusion -----------------------------------------------------------------------------------

  /** No two operations are under way under one key. */
  predicate Exclusive(w: World) {
    forall i, j | i in w.running && j in w.running && i != j :: w.running[i].key != w.running[j].key
  }

  /** What a caller reads of the clock is not before the end of the lease of operation `i`. */
  predicate Expired(w: World, i: nat, age: nat) {
    i in w.running && w.running[i].until.Some? && w.running[i].until.value <= w.clock - age
  }

  /** A new operation claims a key whose operation, still under way, has outlived its lease. */
  predicate Joins(w: World, a: Action) {
    && a.TryStart? && a.id !in w.running
    && exists i :: i in w.running && w.running[i].key == a.key && Expired(w, i, a.age)
  }

  predicate Inv(w: World) {
    && (forall id | id in w.running ::
          && w.running[id].key in w.store.claims
          && w.store.claims[w.running[id].key] == ClaimState(RunningStatus, w.running[id].until))
    && Exclusive(w)
    && (forall k | k in w.completed && (w.completed[k].None? || w.clock < w.completed[k].value) ::
          k in w.store.claims && w.store.claims[k] == ClaimState(CompletedStatus, w.completed[k]))
  }

  /** While an operation is under way under a key, a second one is started under it if and only
      if the lease of the first has ended by the clock the second reads. */
  lemma GrantedExactly(w: World, id: nat, i: nat, leaseTTL: int, age: nat)
    requires Inv(w) && i in w.running && id !in w.running
    ensures id in Apply(w, TryStart(id, w.running[i].key, leaseTTL, age)).running <==> Expired(w, i, age)
  {
  }

  lemma GrantedPastLeases(w: World, a: Action)
    requires Inv(w) && a.TryStart? && Claim(w.store, a.key, a.leaseTTL, w.clock - a.age).1
    ensures forall i | i in w.running && w.running[i].key == a.key :: Expired(w, i, a.age)
  {
  }

  lemma ApplyKeeps(w: World, a: Action)
    requires Inv(w) && !Joins(w, a)
    ensures Inv(Apply(w, a)) == true
  {
    if a.TryStart? && a.id !in w.running && Claim(w.store, a.key, a.leaseTTL, w.clock - a.age).1 {
      GrantedPastLeases(w, a);
    }
  }

  lemma JoiningOverlaps(w: World, a: Action)
    requires Inv(w) && Joins(w, a)
    ensures !Exclusive(Apply(w, a))
  {
    var i :| i in w.running && w.running[i].key == a.key && Expired(w, i, a.age);
    GrantedExactly(w, a.id, i, a.leaseTTL, a.age);
    var w' := Apply(w, a);
    assert a.id in w'.running && i in w'.running && w'.running[a.id].key == w'.running[i].key;
  }

  ghost predicate ExclusiveThroughout(clock: int, actions: seq<Action>) {
    forall k | 0 <= k <= |actions| :: Exclusive(Run(clock, actions[..k]))
  }

  ghost predicate NeverJoined(clock: int, actions: seq<Action>) {
    forall k | 0 <= k < |actions| :: !Joins(Run(clock, actions[..k]), actions[k])
  }

  lemma {:induction false} RunInv(clock: int, actions: seq<Action>)
    requires NeverJoined(clock, actions)
    ensures Inv(Run(clock, actions))
  {
    if actions != [] {
      var n := |actions| - 1;
      NeverSnoc(clock, actions, n);
      RunInv(clock, actions[..n]);
      ApplyKeeps(Run(clock, actions[..n]), actions[n]);
    }
  }

  lemma NeverSnoc(clock: int, actions: seq<Action>, n: nat)
    requires n + 1 == |actions|
    ensures NeverJoined(clock, actions) <==> NeverJoined(clock, actions[..n]) && Joins(Run(clock, actions[..n]), actions[n]) == false
  {
    assert forall k | 0 <= k <= n :: actions[..n][..k] == actions[..k];
    assert forall k | 0 <= k < n :: actions[..n][k] == actions[k];
  }

  lemma ExclusiveSnoc(clock: int, actions: seq<Action>, n: nat)
    requires n + 1 == |actions|
    ensures ExclusiveThroughout(clock, actions) <==> ExclusiveThroughout(clock, actions[..n]) && Exclusive(Run(clock, actions)) == true
  {
    assert actions[..n + 1] == actions;
    assert forall k | 0 <= k <= n :: actions[..n][..k] == actions[..k];
  }

  /** Two operations overlap under one key somewhere in a run if and only if some operation was
      started past the lease of one still under way. */
  lemma {:induction false} ExclusiveExactly(clock: int, actions: seq<Action>)
    ensures ExclusiveThroughout(clock, actions) <==> NeverJoined(clock, actions)
  {
    if actions == [] {
      assert Exclusive(Run(clock, actions[..0]));
    } else {
      var n := |actions| - 1;
      ExclusiveExactly(clock, actions[..n]);
      NeverSnoc(clock, actions, n);
      ExclusiveSnoc(clock, actions, n);
      if NeverJoined(clock, actions[..n]) {
        RunInv(clock, actions[..n]);
        if Joins(Run(clock, actions[..n]), actions[n]) {
          JoiningOverlaps(Run(clock, actions[..n]), actions[n]);
        } else {
          ApplyKeeps(Run(clock, actions[..n]), actions[n]);
        }
      }
    }
  }

  predicate LeaseFree(actions: seq<Action>) {
    forall k | 0 <= k < |actions| && actions[k].TryStart? :: actions[k].leaseTTL <= 0
  }

  lemma {:induction false} NoLeases(clock: int, actions: seq<Action>)
    requires LeaseFree(actions)
    ensures forall i | i in Run(clock, actions).running :: Run(clock, actions).running[i].until.None?
  {
    if actions != [] {
      NoLeases(clock, actions[..|actions| - 1]);
    }
  }

  /** Without leases operations exclude each other, whatever time they take. */
  lemma {:induction false} LeaseFreeExcludes(clock: int, actions: seq<Action>)
    requires LeaseFree(actions)
    ensures ExclusiveThroughout(clock, actions)
  {
    forall k | 0 <= k < |actions| ensures !Joins(Run(clock, actions[..k]), actions[k]) {
      NoLeases(clock, actions[..k]);
    }
    ExclusiveExactly(clock, actions);
  }

  /** No operation is under way at the end of its lease. */
  predicate Within(w: World) {
    forall id | id in w.running :: w.running[id].until.Some? ==> w.clock < w.running[id].until.value
  }

  predicate Punctual(clock: int, actions: seq<Action>) {
    forall k | 0 <= k <= |actions| :: Within(Run(clock, actions[..k]))
  }

  /** Operations that settle within their leases exclude each other. */
  lemma {:induction false} PunctualExcludes(clock: int, actions: seq<Action>)
    requires Punctual(clock, actions)
    ensures NeverJoined(clock, actions) && ExclusiveThroughout(clock, actions)
    ensures forall i, age: nat | i in Run(clock, actions).running :: !Expired(Run(clock, actions), i, age)
  {
    assert actions[..|actions|] == actions;
    assert Within(Run(clock, actions[..|actions|]));
    forall k | 0 <= k < |actions| ensures !Joins(Run(clock, actions[..k]), actions[k]) {
      assert Within(Run(clock, actions[..k]));
    }
    ExclusiveExactly(clock, actions);
  }

  /** As long as nobody has joined an overrunning operation, no two operations run under one key,
      and none starts while a completion of its key is retained, or while one is under way whose
      lease has not ended. */
  lemma {:induction false} OneAtATime(clock: int, actions: seq<Action>, id: nat, key: Key, leaseTTL: int, age: nat)
    requires NeverJoined(clock, actions)
    ensures var w := Run(clock, actions);
            && Exclusive(w)
            && (forall i | i in w.running && w.running[i].key == key && !Expired(w, i, age) ::
                  Apply(w, TryStart(id, key, leaseTTL, age)) == w)
            && (key in w.completed && (w.completed[key].None? || w.clock < w.completed[key].value) ==>
                  Apply(w, TryStart(id, key, leaseTTL, age)) == w)
  {
    RunInv(clock, actions);
  }

  /** An operation that outlives its lease can be joined, under the same key, by one of another
      executor over the same store; within one executor concurrent calls share one run. */
  lemma {:induction false} OverrunBreaksExclusion(key: Key)
    ensures var w := Run(0, [TryStart(0, key, 1, 0), Tick(1), TryStart(1, key, 1, 0)]);
            0 in w.running && 1 in w.running && w.running[0].key == w.running[1].key
  {
    var a := [TryStart(0, key, 1, 0), Tick(1), TryStart(1, key, 1, 0)];
    assert a[..2][..1] == a[..1] && a[..1][..0] == [];
    var w1 := Apply(Init(0), a[0]);
    assert Run(0, a[..1]) == w1;
    var w2 := Apply(w1, a[1]);
    assert Run(0, a[..2]) == w2;
  }

  // Claims nobody settles ---------------------------------------------------------------------------

  /** The operation under this claim was abandoned. */
  predicate Orphaned(w: World, key: Key, until: Option<int>) {
    && key in w.store.claims && w.store.claims[key] == ClaimState(RunningStatus, until)
    && forall i | i in w.running :: w.running[i].key != key
  }

  lemma {:induction false} AbandoningOrphans(clock: int, actions: seq<Action>, id: nat)
    requires NeverJoined(clock, actions) && id in Run(clock, actions).running
    ensures var e := Run(clock, actions).running[id]; Orphaned(Apply(Run(clock, actions), Abandon(id)), e.key, e.until)
  {
    RunInv(clock, actions);
  }

  /** An orphaned claim only goes when a new operation is granted the key, which happens if and only
      if its lease has ended by the clock that one reads. */
  lemma OrphanExactly(w: World, key: Key, until: Option<int>, a: Action)
    requires Orphaned(w, key, until)
    ensures Orphaned(Apply(w, a), key, until) <==>
              !(a.TryStart? && a.key == key && a.id !in w.running && until.Some? && until.value <= w.clock - a.age)
  {
  }

  /** Without a lease it never goes: the key is blocked for good. */
  lemma {:induction false} OrphanedForever(clock: int, actions: seq<Action>, more: seq<Action>, key: Key)
    requires Orphaned(Run(clock, actions), key, None)
    ensures Orphaned(Run(clock, actions + more), key, None)
  {
    if more == [] {
      assert actions + more == actions;
    } else {
      var n := |more| - 1;
      OrphanedForever(clock, actions, more[..n], key);
      assert (actions + more)[..|actions + more| - 1] == actions + more[..n];
      OrphanExactly(Run(clock, actions + more[..n]), key, None, more[n]);
    }
  }

  // The executor ----------------------------------------------------------------------------------

  /** Which calls on the store fail; a call that fails has no effect. */
  datatype Outage = Outage(check: bool, claim: bool, settle: bool, note: bool)

  /** What an execution comes to, and which of its last calls the store took. */
  datatype Result =
    | Invalid
    | Unavailable
    | Duplicate
    | AlreadyRunning
    | Completed(stored: bool)
    | OperationFailed(released: bool, noted: bool)

  class Executor {
    const store: MemoryStore

    constructor (store: MemoryStore)
      ensures this.store == store
    {
      this.store := store;
    }

    /** One execution: `succeeds` is what the operation, retried as configured, comes to. The
        operation runs only under a fresh claim. It leaves a retained completion or a released
        claim, with one record either way, as far as the store takes them; a completion the store
        does not take leaves the claim to its lease. */
    method Execute(key: Key, leaseTTL: int, retention: int, now: int, end: int, succeeds: bool, down: Outage) returns (r: Result)
      requires now <= end
      modifies store
      ensures r == Invalid <==> key == "" || leaseTTL < 0 || retention < 0
      ensures r == Unavailable <==> r != Invalid && (down.check || (!IsCompleted(old(store.Value()), key, now) && down.claim))
      ensures r == Duplicate <==> r !in {Invalid, Unavailable} && IsCompleted(old(store.Value()), key, now)
      ensures r == AlreadyRunning <==>
                && r !in {Invalid, Unavailable} && !IsCompleted(old(store.Value()), key, now)
                && !Claim(old(store.Value()), key, leaseTTL, now).1
      ensures r in {Invalid, Unavailable, Duplicate, AlreadyRunning} ==> store.Value() == old(store.Value())
      ensures r.Completed? ==> succeeds && r.stored == !down.settle
      ensures r.OperationFailed? ==> !succeeds && r.released == !down.settle && r.noted == !down.note
      ensures r == Completed(true) ==>
                && RecordsAt(store.Value(), key) == RecordsAt(old(store.Value()), key) + [Record("completed", Some(end))]
                && key in store.claims && store.claims[key] == ClaimState(CompletedStatus, Until(retention, end))
      ensures r == Completed(false) ==>
                && store.records == old(store.records)
                && key in store.claims && store.claims[key] == ClaimState(RunningStatus, Lease(leaseTTL, now))
      ensures r.OperationFailed? ==>
                && RecordsAt(store.Value(), key) ==
                   RecordsAt(old(store.Value()), key) + (if r.noted then [Record("failed", Some(end))] else [])
                && if r.released then key !in store.claims
                   else key in store.claims && store.claims[key] == ClaimState(RunningStatus, Lease(leaseTTL, now))
      ensures r.Completed? || r.OperationFailed? ==> store.claims - {key} == old(store.claims) - {key}
    {
      if key == "" || leaseTTL < 0 || retention < 0 {
        return Invalid;
      }
      if down.check {
        return Unavailable;
      }
      var done := store.Completed(key, now);
      if done {
        return Duplicate;
      }
      if down.claim {
        return Unavailable;
      }
      var claimed := store.TryClaim(key, leaseTTL, now);
      if !claimed {
        return AlreadyRunning;
      }
      if succeeds {
        if !down.settle {
          store.Write(MemoryStores.Complete(key, retention, Record("completed", Some(end))), end);
        }
        return Completed(!down.settle);
      }
      if !down.settle {
        store.Write(Release(key), end);
      }
      if !down.note {
        store.Write(Note(key, Record("failed", Some(end))), end);
      }
      return OperationFailed(!down.settle, !down.note);
    }
  }
}
