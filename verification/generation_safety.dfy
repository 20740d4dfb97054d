/** What every run of the coordinator keeps: the reference law of the pools and the state
    machine of the generations. */
module GenerationSafety {
  import opened Wrappers
  import opened GenerationPools
  import opened GenerationMachine

  /** Handles and the tables of the generations name each other. */
  predicate Linked(w: World) {
    && (forall g, o | 0 <= g < |w.gens| && o in w.gens[g].handles ::
          && w.gens[g].handles[o] < |w.handles|
          && w.handles[w.gens[g].handles[o]].holder == g && w.handles[w.gens[g].handles[o]].key.owner == o)
    && (forall i | 0 <= i < |w.handles| ::
          && w.handles[i].holder < |w.gens| && w.handles[i].key.owner in w.gens[w.handles[i].holder].handles
          && w.gens[w.handles[i].holder].handles[w.handles[i].key.owner] == i)
  }

  predicate Sound(w: World) {
    PoolOk(w.pool, w.handles) && Linked(w) && !w.broken
  }

  /** A generation holds its resources exactly until it is settled. */
  predicate HeldOk(w: World) {
    forall i | 0 <= i < |w.handles| && w.handles[i].holder < |w.gens| ::
      w.handles[i].released == w.gens[w.handles[i].holder].settled
  }

  // Acquiring -----------------------------------------------------------------------------------

  /** Only generation `g` gained handles, none of them released. */
  predicate AcquiredBy(w: World, w': World, g: nat) {
    && g < |w.gens| == |w'.gens| && w.handles <= w'.handles
    && (forall h | 0 <= h < |w.gens| && h != g :: w'.gens[h] == w.gens[h])
    && w'.gens[g] == w.gens[g].(handles := w'.gens[g].handles)
    && (forall i | |w.handles| <= i < |w'.handles| :: w'.handles[i].holder == g && !w'.handles[i].released)
    && w' == w.(pool := w'.pool, handles := w'.handles, gens := w'.gens)
  }

  function AcquireRank(o: Owner): (k: nat)
    ensures k < OWNERS && AcquireOrder(k) == o
  {
    match o
    case Logger => 0 case Database => 1 case Cache => 2 case I18n => 3 case Storage => 4 case Metrics => 5 case Execution => 6
  }

  function ReleaseRank(o: Owner): (k: nat)
    ensures k < OWNERS && ReleaseOrder(k) == o
  {
    match o
    case Metrics => 0 case Storage => 1 case I18n => 2 case Cache => 3 case Database => 4 case Logger => 5 case Execution => 6
  }

  lemma RanksInvert(k: nat)
    requires k < OWNERS
    ensures AcquireRank(AcquireOrder(k)) == k && ReleaseRank(ReleaseOrder(k)) == k
  {
  }

  lemma {:induction false} AddHandleLinked(w: World, g: nat, owner: Owner, p: Pool, key: Key, entry: nat)
    requires Linked(w) && g < |w.gens| && owner !in w.gens[g].handles && key.owner == owner
    ensures Linked(AddHandle(w, g, owner, p, key, entry)) == true
  {
  }

  lemma {:induction false} AddHandleAcquired(w: World, g: nat, owner: Owner, p: Pool, key: Key, entry: nat)
    requires Linked(w) && g < |w.gens| && owner !in w.gens[g].handles
    ensures AcquiredBy(w, AddHandle(w, g, owner, p, key, entry), g) == true
  {
  }

  lemma {:induction false} AcquiredTwice(w: World, w1: World, w2: World, g: nat)
    requires AcquiredBy(w, w1, g) && AcquiredBy(w1, w2, g)
    ensures AcquiredBy(w, w2, g) == true
  {
  }

  /** Whatever acquiring stops at, what was acquired is accounted for. */
  lemma {:induction false} AcquireFromOk(w: World, g: nat, k: nat, fate: PrepareFate)
    requires PoolOk(w.pool, w.handles) == true && Linked(w) == true && !w.broken && g < |w.gens| && k <= OWNERS
    requires forall o | o in w.gens[g].handles :: AcquireRank(o) < k
    ensures var w' := AcquireFrom(w, g, k, fate).0;
            PoolOk(w'.pool, w'.handles) == true && Linked(w') == true && !w'.broken && AcquiredBy(w, w', g) == true
    decreases OWNERS - k, 1
  {
    AcquiredNothing(w, g);
    if k >= OWNERS || fate.reached <= k {
      return;
    }
    var owner := AcquireOrder(k);
    if KeyFor(w.gens[g].snapshot, owner).None? {
      return;
    }
    var key := KeyFor(w.gens[g].snapshot, owner).value;
    var (p, r) := Acquire(w.pool, key, owner in fate.builds);
    if r == Refused {
      return;
    }
    AcquireNext(w, g, k, owner, p, key, r.entry, owner in fate.builds);
    AcquireRest(w, AddHandle(w, g, owner, p, key, r.entry), g, k, fate);
  }

  lemma {:induction false} AcquireRest(w: World, w1: World, g: nat, k: nat, fate: PrepareFate)
    requires k < OWNERS && AcquiredBy(w, w1, g) == true
    requires PoolOk(w1.pool, w1.handles) == true && Linked(w1) == true && !w1.broken
    requires g < |w1.gens| && forall o | o in w1.gens[g].handles :: AcquireRank(o) < k + 1
    ensures var w' := AcquireFrom(w1, g, k + 1, fate).0;
            PoolOk(w'.pool, w'.handles) == true && Linked(w') == true && !w'.broken && AcquiredBy(w, w', g) == true
    decreases OWNERS - k, 0
  {
    AcquireFromOk(w1, g, k + 1, fate);
    AcquiredTwice(w, w1, AcquireFrom(w1, g, k + 1, fate).0, g);
  }

  lemma AcquiredNothing(w: World, g: nat)
    requires g < |w.gens|
    ensures AcquiredBy(w, w, g) == true
  {
  }

  lemma {:induction false} AcquireNext(w: World, g: nat, k: nat, owner: Owner, p: Pool, key: Key, entry: nat, builds: bool)
    requires PoolOk(w.pool, w.handles) == true && Linked(w) == true && g < |w.gens| && k < OWNERS && owner == AcquireOrder(k)
    requires forall o | o in w.gens[g].handles :: AcquireRank(o) < k
    requires key.owner == owner && Acquire(w.pool, key, builds).0 == p
    requires Acquire(w.pool, key, builds).1 == Reused(entry) || Acquire(w.pool, key, builds).1 == Built(entry)
    ensures var w1 := AddHandle(w, g, owner, p, key, entry);
            && PoolOk(w1.pool, w1.handles) == true && Linked(w1) == true && AcquiredBy(w, w1, g) == true
            && forall o | o in w1.gens[g].handles :: AcquireRank(o) < k + 1
  {
    AcquireOk(w.pool, w.handles, key, builds, g);
    RanksInvert(k);
    AddHandleLinked(w, g, owner, p, key, entry);
    AddHandleAcquired(w, g, owner, p, key, entry);
  }

  // Releasing -----------------------------------------------------------------------------------

  /** Only handles of generation `g` changed, and only to released. */
  predicate ReleasedBy(w: World, w': World, g: nat) {
    && w'.gens == w.gens && |w'.handles| == |w.handles|
    && (forall i | 0 <= i < |w.handles| ::
          && w'.handles[i] == w.handles[i].(released := w'.handles[i].released, failed := w'.handles[i].failed)
          && (w.handles[i].released ==> w'.handles[i] == w.handles[i])
          && (w.handles[i].holder != g ==> w'.handles[i] == w.handles[i]))
    && w' == w.(pool := w'.pool, handles := w'.handles, broken := w'.broken)
  }

  lemma {:induction false} ReleasedLinked(w: World, i: nat, failed: bool)
    requires Linked(w) && i < |w.handles|
    ensures Linked(w.(handles := w.handles[i := w.handles[i].(released := true, failed := failed)])) == true
  {
  }

  lemma {:induction false} LinkedAlike(w: World, w': World)
    requires Linked(w) && w'.gens == w.gens && w'.handles == w.handles
    ensures Linked(w') == true
  {
  }

  lemma {:induction false} ReleaseHandleFrame(w: World, i: nat, closes: bool)
    requires Linked(w) == true && !w.broken && i < |w.handles|
    requires !w.handles[i].released ==> Release(w.pool, w.handles[i], closes).1 != InvariantFailed
    ensures var w' := ReleaseHandle(w, i, closes).0;
            Linked(w') == true && !w'.broken && ReleasedBy(w, w', w.handles[i].holder) && w'.handles[i].released
  {
    if !w.handles[i].released {
      var failed := Release(w.pool, w.handles[i], closes).1 == CloseFailed;
      ReleasedLinked(w, i, failed);
      LinkedAlike(w.(handles := w.handles[i := w.handles[i].(released := true, failed := failed)]), ReleaseHandle(w, i, closes).0);
    }
  }

  lemma {:induction false} ReleaseHandleOk(w: World, i: nat, closes: bool)
    requires PoolOk(w.pool, w.handles) == true && Linked(w) == true && !w.broken && i < |w.handles|
    ensures var w' := ReleaseHandle(w, i, closes).0;
            && PoolOk(w'.pool, w'.handles) == true && Linked(w') == true && !w'.broken
            && ReleasedBy(w, w', w.handles[i].holder) == true && w'.handles[i].released
  {
    if !w.handles[i].released {
      var (p, r) := Release(w.pool, w.handles[i], closes);
      ReleaseOk(w.pool, w.handles, i, closes, r == CloseFailed);
    }
    ReleaseHandleFrame(w, i, closes);
  }

  /** Whatever fails on the way, every resource of the generation is released. */
  lemma {:induction false} ReleaseFromOk(w: World, g: nat, k: nat, closes: set<Owner>)
    requires Sound(w) == true && g < |w.gens| && k <= OWNERS
    ensures var w' := ReleaseFrom(w, g, k, closes).0;
            Sound(w') == true && ReleasedBy(w, w', g) == true && FreedFrom(w, w', g, k) == true
    decreases OWNERS - k
  {
    if k < OWNERS {
      var owner := ReleaseOrder(k);
      RanksInvert(k);
      if owner !in w.gens[g].handles {
        ReleaseFromOk(w, g, k + 1, closes);
        NothingAtRank(w, ReleaseFrom(w, g, k + 1, closes).0, g, k);
      } else {
        var i := w.gens[g].handles[owner];
        var w1 := ReleaseHandle(w, i, owner in closes).0;
        ReleaseHandleOk(w, i, owner in closes);
        ReleaseFromOk(w1, g, k + 1, closes);
        ReleasedTwice(w, w1, ReleaseFrom(w1, g, k + 1, closes).0, g, k, i);
      }
    }
  }

  /** What generation `g` held from rank `k` on is released. */
  predicate FreedFrom(w: World, w': World, g: nat, k: nat) {
    |w'.handles| == |w.handles| &&
    forall i | 0 <= i < |w.handles| && w.handles[i].holder == g && ReleaseRank(w.handles[i].key.owner) >= k ::
      w'.handles[i].released
  }

  lemma {:induction false} NothingAtRank(w: World, w': World, g: nat, k: nat)
    requires Linked(w) && g < |w.gens| && k < OWNERS && ReleaseOrder(k) !in w.gens[g].handles && FreedFrom(w, w', g, k + 1)
    ensures FreedFrom(w, w', g, k) == true
  {
    forall i | 0 <= i < |w.handles| && w.handles[i].holder == g && ReleaseRank(w.handles[i].key.owner) >= k
      ensures w'.handles[i].released
    {
      assert ReleaseOrder(ReleaseRank(w.handles[i].key.owner)) == w.handles[i].key.owner;
    }
  }

  lemma {:induction false} ReleasedTwice(w: World, w1: World, w2: World, g: nat, k: nat, i: nat)
    requires Linked(w) && g < |w.gens| && k < OWNERS && ReleaseOrder(k) in w.gens[g].handles && i == w.gens[g].handles[ReleaseOrder(k)]
    requires ReleasedBy(w, w1, g) && w1.handles[i].released && ReleasedBy(w1, w2, g) && FreedFrom(w1, w2, g, k + 1)
    ensures ReleasedBy(w, w2, g) == true && FreedFrom(w, w2, g, k) == true
  {
    forall j | 0 <= j < |w.handles| && w.handles[j].holder == g && ReleaseRank(w.handles[j].key.owner) >= k
      ensures w2.handles[j].released
    {
      assert ReleaseOrder(ReleaseRank(w.handles[j].key.owner)) == w.handles[j].key.owner;
    }
  }

  lemma {:induction false} ReleaseResourcesOk(w: World, g: nat, fate: CloseFate)
    requires Sound(w) == true && g < |w.gens|
    ensures var w' := ReleaseResources(w, g, fate).0;
            && Sound(w') == true && ReleasedBy(w, w', g) == true
            && forall i | 0 <= i < |w.handles| && w.handles[i].holder == g :: w'.handles[i].released
  {
    ReleaseFromOk(w, g, 0, fate.closes);
  }

  // Generations -----------------------------------------------------------------------------------

  /** The pools account for every handle and settled generations hold none. */
  predicate Kept(w: World) {
    Sound(w) && HeldOk(w)
  }

  /** No handle is forgotten or handed to another key. */
  predicate SameKeys(w: World, w': World) {
    |w.handles| <= |w'.handles| && forall i | 0 <= i < |w.handles| :: w'.handles[i].key == w.handles[i].key
  }

  predicate OnlyGens(w: World, w': World) {
    SameKeys(w, w') && w' == w.(pool := w'.pool, handles := w'.handles, gens := w'.gens, hubs := w'.hubs, broken := w'.broken)
  }

  /** Only the pools, the hubs, the handles of generation `g` and its own outcome changed. */
  predicate OnlyGen(w: World, w': World, g: nat) {
    && g < |w.gens| == |w'.gens|
    && (forall h | 0 <= h < |w.gens| && h != g :: w'.gens[h] == w.gens[h])
    && w'.gens[g].snapshot == w.gens[g].snapshot && w'.gens[g].handles == w.gens[g].handles
    && w'.gens[g].committed == w.gens[g].committed && w'.gens[g].serving == w.gens[g].serving
    && (w.gens[g].settled ==> w'.gens[g].settled)
    && OnlyGens(w, w')
  }

  /** Changing what a generation remembers of its participants and outcome links nothing anew. */
  lemma {:induction false} PutGenLinked(w: World, g: nat, n: Generation)
    requires Linked(w) && g < |w.gens| && n.handles == w.gens[g].handles
    ensures Linked(PutGen(w, g, n)) == true
  {
  }

  lemma {:induction false} EndOk(w: World, g: nat, n: Generation, fate: CloseFate, ok: bool)
    requires Kept(w) == true && g < |w.gens| && !w.gens[g].settled
    requires n.handles == w.gens[g].handles && !n.settled
    ensures var w' := Settle(ReleaseResources(PutGen(w, g, n), g, fate).0, g, ok);
            && Kept(w') == true && g < |w'.gens| && w'.gens[g] == n.(settled := true, failed := !ok)
            && |w'.gens| == |w.gens| && (forall h | 0 <= h < |w.gens| && h != g :: w'.gens[h] == w.gens[h])
            && OnlyGens(w, w') && w'.hubs == w.hubs
  {
    var w1 := PutGen(w, g, n);
    PutGenLinked(w, g, n);
    assert Sound(w1);
    ReleaseResourcesOk(w1, g, fate);
    var w2 := ReleaseResources(w1, g, fate).0;
    PutGenLinked(w2, g, n.(settled := true, failed := !ok));
    EndHeld(w, w1, w2, g, n, ok);
    EndOnly(w, w1, w2, g, n, ok);
  }

  lemma {:induction false} EndOnly(w: World, w1: World, w2: World, g: nat, n: Generation, ok: bool)
    requires g < |w.gens| && w1 == PutGen(w, g, n) && ReleasedBy(w1, w2, g) && !n.settled
    ensures var w' := Settle(w2, g, ok);
            && |w'.gens| == |w.gens| && w'.gens[g] == n.(settled := true, failed := !ok) && OnlyGens(w, w') == true && w'.hubs == w.hubs
            && forall h | 0 <= h < |w.gens| && h != g :: w'.gens[h] == w.gens[h]
  {
  }

  lemma {:induction false} EndHeld(w: World, w1: World, w2: World, g: nat, n: Generation, ok: bool)
    requires HeldOk(w) && g < |w.gens| && w1 == PutGen(w, g, n) && ReleasedBy(w1, w2, g)
    requires forall i | 0 <= i < |w1.handles| && w1.handles[i].holder == g :: w2.handles[i].released
    ensures HeldOk(Settle(w2, g, ok)) == true
  {
  }

  lemma {:induction false} AbortOk(w: World, g: nat, fate: AbortFate)
    requires Kept(w) == true && g < |w.gens| && !w.gens[g].committed
    ensures var w' := AbortGeneration(w, g, fate).0;
            && Kept(w') == true && OnlyGen(w, w', g) && w'.gens[g].settled
            && w'.hubs == if w.gens[g].settled then w.hubs else Muted(w.hubs, g)
  {
    if !w.gens[g].settled {
      var (n', stopped) := StopParticipants(w.gens[g], fate.participants);
      var w0 := w.(hubs := Muted(w.hubs, g));
      SameAccounts(w, w0);
      EndOk(w0, g, n', fate.close,
            fate.teardown && !Routed(w.hubs, g) && stopped && ReleaseResources(PutGen(w0, g, n'), g, fate.close).1);
    }
  }

  lemma EndServersFrame(n: Generation, force: bool, fate: StopFate)
    ensures var n1 := EndServers(n, force, fate).0; n1 == n.(api := n1.api, ops := n1.ops)
  {
  }

  /** What a stop owes whoever relies on it. */
  predicate StoppedOk(w: World, g: nat, w': World, ok: bool) {
    && OnlyGen(w, w', g)
    && (ok ==> w'.gens[g].settled && !w'.gens[g].failed)
    && (!w'.gens[g].settled ==> w'.handles == w.handles && w'.pool == w.pool)
  }

  lemma {:induction false} QuietEndOk(w: World, g: nat, n1: Generation, fate: StopFate)
    requires Kept(w) == true && g < |w.gens| && !w.gens[g].settled && n1 == w.gens[g].(api := n1.api, ops := n1.ops)
    ensures var (w', ok) := EndQuietly(w, g, n1, fate);
            Kept(w') == true && StoppedOk(w, g, w', ok) == true && w'.hubs == w.hubs
  {
    var (n2, stopped) := StopParticipants(n1, fate.participants);
    if stopped {
      EndOk(w, g, n2, fate.close, ReleaseResources(PutGen(w, g, n2), g, fate.close).1);
    } else {
      PutGenLinked(w, g, n2);
    }
  }

  lemma {:induction false} UnquietEndOk(w: World, g: nat, n1: Generation)
    requires Kept(w) == true && g < |w.gens| && !w.gens[g].settled && n1 == w.gens[g].(api := n1.api, ops := n1.ops)
    ensures Kept(PutGen(w, g, n1)) == true && StoppedOk(w, g, PutGen(w, g, n1), false) == true
  {
    PutGenLinked(w, g, n1);
  }

  lemma StoppedApart(w: World, w1: World, g: nat, w': World, ok: bool)
    requires w1 == w.(hubs := w1.hubs) && StoppedOk(w1, g, w', ok)
    ensures StoppedOk(w, g, w', ok) == true
  {
  }

  /** A successful stop settles the generation; an unsettled one keeps its resources, and the pools
      theirs. */
  lemma {:induction false} StopGenerationOk(w: World, g: nat, force: bool, fate: StopFate)
    requires Kept(w) == true && g < |w.gens|
    ensures var (w', ok) := StopGeneration(w, g, force, fate);
            && Kept(w') == true && StoppedOk(w, g, w', ok)
            && w'.hubs == if w.gens[g].committed && !w.gens[g].settled then Withdrawn(w.hubs, g) else w.hubs
  {
    var n := w.gens[g];
    if n.committed && !n.settled {
      EndServersFrame(n, force, fate);
      var w1 := w.(hubs := Withdrawn(w.hubs, g));
      SameAccounts(w, w1);
      var (n1, quiet) := EndServers(n, force, fate);
      if quiet {
        QuietEndOk(w1, g, n1, fate);
      } else {
        UnquietEndOk(w1, g, n1);
      }
      StoppedApart(w, w1, g, StopGeneration(w, g, force, fate).0, StopGeneration(w, g, force, fate).1);
    }
  }

  /** Nothing of the generation was asked to end. */
  predicate Unasked(n: Generation) {
    !n.participantsDone && n.api == n.ops == SERVING
  }

  /** One more generation, uncommitted, and settled unless it was prepared. */
  predicate Prepared(w: World, w': World, snapshot: Snapshot, r: Option<nat>) {
    && OnlyGens(w, w') && |w'.gens| == |w.gens| + 1
    && (forall g | 0 <= g < |w.gens| :: w'.gens[g] == w.gens[g])
    && w'.gens[|w.gens|].snapshot == snapshot && !w'.gens[|w.gens|].committed
    && (r.Some? ==> r.value == |w.gens| && Unasked(w'.gens[|w.gens|])) && w'.gens[|w.gens|].settled == r.None?
    && w'.hubs == if r.Some? then w.hubs else Muted(w.hubs, |w.gens|)
  }

  lemma {:induction false} PrepareOk(w: World, snapshot: Snapshot, fate: PrepareFate)
    requires Kept(w) == true
    ensures var (w', r) := Prepare(w, snapshot, fate); Kept(w') == true && Prepared(w, w', snapshot, r) == true
  {
    var g := |w.gens|;
    var n := Candidate(snapshot);
    var w1 := w.(gens := w.gens + [n]);
    NewGenLinked(w, n);
    NewGenHeld(w, n);
    AcquireFromOk(w1, g, 0, fate);
    var w2 := AcquireFrom(w1, g, 0, fate).0;
    AcquiredHeld(w1, w2, g);
    assert Kept(w2);
    AcquiredPrepared(w, w1, w2, n, snapshot);
    if Prepare(w, snapshot, fate).1.None? {
      AbortOk(w2, g, fate.abort);
      AbortedPrepared(w, w2, AbortGeneration(w2, g, fate.abort).0, snapshot);
    }
  }

  lemma AcquiredPrepared(w: World, w1: World, w2: World, n: Generation, snapshot: Snapshot)
    requires w1 == w.(gens := w.gens + [n]) && n.snapshot == snapshot && !n.committed && !n.settled && Unasked(n)
    requires AcquiredBy(w1, w2, |w.gens|)
    ensures Prepared(w, w2, snapshot, Some(|w.gens|)) == true
  {
  }

  lemma AbortedPrepared(w: World, w2: World, w3: World, snapshot: Snapshot)
    requires Prepared(w, w2, snapshot, Some(|w.gens|)) && OnlyGen(w2, w3, |w.gens|) && w3.gens[|w.gens|].settled
    requires w3.hubs == Muted(w.hubs, |w.gens|)
    ensures Prepared(w, w3, snapshot, None) == true
  {
  }

  lemma {:induction false} NewGenLinked(w: World, n: Generation)
    requires Linked(w) && n.handles == map[]
    ensures Linked(w.(gens := w.gens + [n])) == true
  {
  }

  lemma {:induction false} NewGenHeld(w: World, n: Generation)
    requires HeldOk(w) && Linked(w)
    ensures HeldOk(w.(gens := w.gens + [n])) == true
  {
  }

  lemma {:induction false} AcquiredHeld(w: World, w': World, g: nat)
    requires HeldOk(w) && AcquiredBy(w, w', g) && !w.gens[g].settled && Linked(w)
    ensures HeldOk(w') == true
  {
  }

  // The coordinator -------------------------------------------------------------------------------

  predicate Serves(w: World, g: nat) {
    g < |w.gens| && w.gens[g].committed && w.gens[g].serving
  }

  /** Every generation that still owes its end is the current or the retiring one. */
  predicate NoneForgotten(w: World) {
    forall g | 0 <= g < |w.gens| && !w.gens[g].settled :: w.current == Some(g) || w.retiring == Some(g)
  }

  predicate CoordinatorOk(w: World) {
    && (w.current.Some? ==> Serves(w, w.current.value))
    && (w.retiring.Some? ==> w.retiring.value < |w.gens| && w.gens[w.retiring.value].committed && w.retiring != w.current && w.current.Some?)
    && match w.state
       case New => w.current.None? && w.retiring.None? && w.retiringId.None? && w.gens == [] && !w.cleanup
       case Running =>
         && w.current.Some? && !w.gens[w.current.value].settled && w.ready && w.currentId == w.current
         && w.configDigest == w.gens[w.current.value].snapshot.digest
         && w.retiring.None? && w.retiringId.None? && !w.cleanup
       case Degraded =>
         && w.current.Some? && !w.gens[w.current.value].settled && !w.ready && w.currentId == w.current
         && w.configDigest == w.gens[w.current.value].snapshot.digest
         && w.retiring.Some? && w.retiringId == w.retiring && w.cleanup
       case Stopped => w.current.None? && w.retiring.None? && !w.cleanup
       case Failed => true
       case Draining => false
  }

  predicate Inv(w: World) {
    Sound(w) && HeldOk(w) && NoneForgotten(w) && CoordinatorOk(w)
  }

  /** One more generation: settled, or committed and serving in place of the previous one. */
  predicate Installed(w: World, w': World, snapshot: Snapshot, previous: Option<nat>, r: Option<nat>) {
    && OnlyGens(w, w') && |w'.gens| == |w.gens| + 1 && w'.gens[|w.gens|].snapshot == snapshot
    && match r
       case None => w'.gens[|w.gens|].settled && forall g | 0 <= g < |w.gens| :: w'.gens[g] == w.gens[g]
       case Some(n) =>
         && n == |w.gens| && Serves(w', n) && !w'.gens[n].settled && Unasked(w'.gens[n])
         && forall g | 0 <= g < |w.gens| :: w'.gens[g] == if previous == Some(g) then w.gens[g].(serving := false) else w.gens[g]
  }

  lemma {:induction false} CommitInstalls(w: World, w1: World, snapshot: Snapshot, previous: Option<nat>, fate: CommitFate)
    requires Prepared(w, w1, snapshot, Some(|w.gens|)) && (previous.Some? ==> previous.value < |w.gens|)
    requires CommitGeneration(w1, |w.gens|, previous, fate).1
    ensures Installed(w, CommitGeneration(w1, |w.gens|, previous, fate).0, snapshot, previous, Some(|w.gens|)) == true
  {
  }

  lemma {:induction false} AbortInstalls(w: World, w1: World, w2: World, w3: World, snapshot: Snapshot, previous: Option<nat>)
    requires Prepared(w, w1, snapshot, Some(|w.gens|)) && w2 == w1.(hubs := w2.hubs)
    requires OnlyGen(w2, w3, |w.gens|) && w3.gens[|w.gens|].settled
    ensures Installed(w, w3, snapshot, previous, None) == true
  {
  }

  lemma {:induction false} InstallOk(w: World, snapshot: Snapshot, previous: Option<nat>, fate: ReloadFate)
    requires Kept(w) == true && (previous.Some? ==> previous.value < |w.gens|)
    ensures var (w', r) := Install(w, snapshot, previous, fate);
            Kept(w') == true && Installed(w, w', snapshot, previous, r) == true
  {
    PrepareOk(w, snapshot, fate.prepare);
    var (w1, r) := Prepare(w, snapshot, fate.prepare);
    if r.None? {
      assert Installed(w, w1, snapshot, previous, None);
    } else {
      PreparedGoesOn(w, w1, snapshot, previous, fate);
    }
  }

  lemma {:induction false} PreparedGoesOn(w: World, w1: World, snapshot: Snapshot, previous: Option<nat>, fate: ReloadFate)
    requires Kept(w1) == true && Prepared(w, w1, snapshot, Some(|w.gens|)) && (previous.Some? ==> previous.value < |w.gens|)
    ensures |w.gens| < |w1.gens|
    ensures var (w2, ok) := CommitGeneration(w1, |w.gens|, previous, fate.commit);
            && |w.gens| < |w2.gens|
            && var w3 := if ok then w2 else AbortGeneration(w2, |w.gens|, fate.abort).0;
               Kept(w3) == true && Installed(w, w3, snapshot, previous, if ok then Some(|w.gens|) else None) == true
  {
    CommitOk(w1, |w.gens|, previous, fate.commit);
    var (w2, ok) := CommitGeneration(w1, |w.gens|, previous, fate.commit);
    if ok {
      CommitInstalls(w, w1, snapshot, previous, fate.commit);
    } else {
      AbortOk(w2, |w.gens|, fate.abort);
      AbortInstalls(w, w1, w2, AbortGeneration(w2, |w.gens|, fate.abort).0, snapshot, previous);
    }
  }

  lemma {:induction false} CommitOk(w: World, g: nat, previous: Option<nat>, fate: CommitFate)
    requires Kept(w) && g < |w.gens| && (previous.Some? ==> previous.value < |w.gens| && previous.value != g)
    ensures var (w', ok) := CommitGeneration(w, g, previous, fate);
            Kept(w') == true && (!ok ==> w' == w.(hubs := w'.hubs))
  {
    var (h, ok) := Switch(w.hubs, w.gens[g].snapshot, g, AddressOf(w, previous, false), AddressOf(w, previous, true), fate);
    var w0 := w.(hubs := h);
    SameAccounts(w, w0);
    var w1 := PutGen(w0, g, w.gens[g].(committed := true, serving := true));
    PutGenLinked(w0, g, w1.gens[g]);
    if previous.Some? {
      PutGenLinked(w1, previous.value, w1.gens[previous.value].(serving := false));
    }
  }

  /** What the coordinator alone remembers does not touch the accounts. */
  lemma {:induction false} SameAccounts(w: World, w': World)
    requires Kept(w) && w'.pool == w.pool && w'.handles == w.handles && w'.gens == w.gens && w'.broken == w.broken
    ensures Kept(w') == true
  {
  }

  lemma {:induction false} StartOk(w: World, fate: ReloadFate)
    requires Kept(w) == true && NoneForgotten(w) && CoordinatorOk(w)
    ensures Consistent(StartOp(w, fate)) == true
  {
    if w.state == New {
      if fate.loads.None? {
        SameAccounts(w, FailStart(w));
      } else {
        InstallOk(w, fate.loads.value, None, fate);
        var (w1, r) := Install(w, fate.loads.value, None, fate);
        FirstOk(w, w1, fate.loads.value, r);
      }
    }
  }

  lemma {:induction false} FirstOk(w: World, w1: World, snapshot: Snapshot, r: Option<nat>)
    requires Kept(w1) == true && CoordinatorOk(w) && w.state == New && Installed(w, w1, snapshot, None, r)
    ensures var w' := if r.None? then FailStart(w1) else Publish(w1, r.value, None);
            Kept(w') == true && NoneForgotten(w') && CoordinatorOk(w')
  {
    SameAccounts(w1, if r.None? then FailStart(w1) else Publish(w1, r.value, None));
  }

  lemma {:induction false} RejectOk(w: World, w1: World)
    requires Kept(w1) == true && NoneForgotten(w) && CoordinatorOk(w) && w.state == Running
    requires OnlyGens(w, w1) && |w1.gens| >= |w.gens| && (forall g | 0 <= g < |w.gens| :: w1.gens[g] == w.gens[g])
    requires forall g | |w.gens| <= g < |w1.gens| :: w1.gens[g].settled
    ensures Consistent(Reject(w1)) == true
  {
    SameAccounts(w1, Reject(w1));
  }

  lemma {:induction false} ReloadOk(w: World, fate: ReloadFate)
    requires Kept(w) == true && NoneForgotten(w) && CoordinatorOk(w)
    ensures Consistent(ReloadOp(w, fate)) == true
  {
    if w.state != Running {
      assert ReloadOp(w, fate) == w;
    } else if NothingToDo(w, fate) {
      assert ReloadOp(w, fate) == Reject(w);
      RejectOk(w, w);
    } else {
      assert ReloadOp(w, fate) == Replace(w, fate.loads.value, w.current.value, fate);
      ReplaceOk(w, fate.loads.value, fate);
    }
  }

  predicate Consistent(w: World) {
    Kept(w) && NoneForgotten(w) && CoordinatorOk(w)
  }

  predicate NothingToDo(w: World, fate: ReloadFate)
    requires w.current.Some? && w.current.value < |w.gens|
  {
    fate.loads.None? || !fate.diffs || fate.loads.value.digest == w.gens[w.current.value].snapshot.digest
  }

  lemma {:induction false} ReplaceOk(w: World, snapshot: Snapshot, fate: ReloadFate)
    requires Kept(w) == true && NoneForgotten(w) && CoordinatorOk(w) && w.state == Running
    ensures Consistent(Replace(w, snapshot, w.current.value, fate)) == true
  {
    InstallOk(w, snapshot, w.current, fate);
    var (w1, r) := Install(w, snapshot, w.current, fate);
    if r.None? {
      RejectOk(w, w1);
    } else {
      SwitchOk(w, w1, snapshot, r.value, fate.retire);
    }
  }

  /** The published generation is current; the previous one ends, or is kept to be ended. */
  lemma {:induction false} SwitchOk(w: World, w1: World, snapshot: Snapshot, g: nat, fate: StopFate)
    requires Kept(w1) == true && NoneForgotten(w) && CoordinatorOk(w) && w.state == Running
    requires Installed(w, w1, snapshot, w.current, Some(g)) == true
    ensures var w' := RetirePrevious(Publish(w1, g, w.current), w.current.value, fate);
            Consistent(w') == true
  {
    var w2 := Publish(w1, g, w.current);
    SameAccounts(w1, w2);
    StopGenerationOk(w2, w.current.value, false, fate);
    var (w3, ok) := StopGeneration(w2, w.current.value, false, fate);
    SameAccounts(w3, RetirePrevious(w2, w.current.value, fate));
    Switched(w, w1, w3, snapshot, g, ok);
  }

  lemma {:induction false} Switched(w: World, w1: World, w3: World, snapshot: Snapshot, g: nat, ok: bool)
    requires NoneForgotten(w) && CoordinatorOk(w) && w.state == Running && Installed(w, w1, snapshot, w.current, Some(g))
    requires OnlyGen(Publish(w1, g, w.current), w3, w.current.value) && (ok ==> w3.gens[w.current.value].settled)
    ensures var w' := if ok then w3.(retiring := None, retiringId := None)
                      else w3.(state := Degraded, ready := false, cleanup := true);
            (NoneForgotten(w') && CoordinatorOk(w')) == true
  {
  }

  lemma {:induction false} StopOneOk(w: World, g: Option<nat>, force: bool, fate: StopFate)
    requires Kept(w) == true && (g.Some? ==> g.value < |w.gens|)
    ensures var (w', ok) := StopOne(w, g, force, fate);
            && Kept(w') == true && OnlyGens(w, w') && |w'.gens| == |w.gens|
            && (forall h | 0 <= h < |w.gens| ::
                  && w'.gens[h].committed == w.gens[h].committed && w'.gens[h].serving == w.gens[h].serving
                  && w'.gens[h].snapshot == w.gens[h].snapshot && (w.gens[h].settled ==> w'.gens[h].settled))
            && (ok && g.Some? ==> w'.gens[g.value].settled)
  {
    if g.Some? {
      StopGenerationOk(w, g.value, force, fate);
    }
  }

  /** Stopping asks both generations; only when both have ended are they let go. */
  lemma {:induction false} FinishOk(w: World, w0: World, force: bool, fate: StopAllFate)
    requires Kept(w) == true && NoneForgotten(w) && CoordinatorOk(w)
    requires w0 == w.(state := w0.state, ready := w0.ready)
    ensures var (w1, a) := StopOne(w0, w.current, force, fate.current);
            var (w2, b) := StopOne(w1, w.retiring, force, fate.retiring);
            var w' := Finish(w2, force || (a && b), a && b && fate.factory);
            Kept(w') == true && NoneForgotten(w') && CoordinatorOk(w')
  {
    SameAccounts(w, w0);
    StopOneOk(w0, w.current, force, fate.current);
    var (w1, a) := StopOne(w0, w.current, force, fate.current);
    StopOneOk(w1, w.retiring, force, fate.retiring);
    var (w2, b) := StopOne(w1, w.retiring, force, fate.retiring);
    SameAccounts(w2, Finish(w2, force || (a && b), a && b && fate.factory));
  }

  lemma {:induction false} BreakOk(w: World, g: nat, management: bool)
    requires Kept(w) == true && NoneForgotten(w) && CoordinatorOk(w)
    ensures var w' := BreakOp(w, g, management); Kept(w') == true && NoneForgotten(w') && CoordinatorOk(w')
  {
    if g < |w.gens| {
      PutGenLinked(w, g, w.gens[g].(ops := Broke(w.gens[g].ops)));
      PutGenLinked(w, g, w.gens[g].(api := Broke(w.gens[g].api)));
    }
  }

  lemma {:induction false} ApplyOk(w: World, op: Operation)
    requires Kept(w) == true && NoneForgotten(w) == true && CoordinatorOk(w) == true
    ensures var w' := Apply(w, op); Kept(w') == true && NoneForgotten(w') == true && CoordinatorOk(w') == true
  {
    match op
    case Start(fate) => StartOk(w, fate);
    case Reload(fate) => ReloadOk(w, fate);
    case Stop(all) => FinishOk(w, w.(state := Draining, ready := false), false, all);
    case ForceStop(all) => FinishOk(w, w, true, all);
    case Break(g, management) => BreakOk(w, g, management);
  }

  lemma {:induction false} RunInv(ops: seq<Operation>)
    ensures var w := Run(ops); Kept(w) == true && NoneForgotten(w) == true && CoordinatorOk(w) == true
  {
    if ops == [] {
      assert Kept(INIT);
    } else {
      RunInv(ops[..|ops| - 1]);
      ApplyOk(Run(ops[..|ops| - 1]), ops[|ops| - 1]);
    }
  }

  // Main results ------------------------------------------------------------------------------------

  /** In every run an entry has exactly as many references as unreleased handles; its finalizer
      has run once if there are none and never otherwise; no release ever finds the invariant
      broken; and what the pools hold is exactly what the unsettled generations hold. */
  lemma {:induction false} PoolReferenceLaw(ops: seq<Operation>)
    ensures var w := Run(ops);
            && !w.broken
            && (forall e | 0 <= e < |w.pool.entries| ::
                  && w.pool.entries[e].refs == Held(w.handles, e)
                  && w.pool.entries[e].closes == (if Held(w.handles, e) == 0 then 1 else 0))
            && (forall k :: k in w.pool.byID <==>
                  exists g, o :: 0 <= g < |w.gens| && !w.gens[g].settled && o in w.gens[g].handles
                                 && w.gens[g].handles[o] < |w.handles| && w.handles[w.gens[g].handles[o]].key == k)
  {
    RunInv(ops);
    var w := Run(ops);
    forall k | k in w.pool.byID
      ensures exists g, o :: 0 <= g < |w.gens| && !w.gens[g].settled && o in w.gens[g].handles
                             && w.gens[g].handles[o] < |w.handles| && w.handles[w.gens[g].handles[o]].key == k
    {
      var i := SomeoneHolds(w.handles, w.pool.byID[k]);
      var g, o := w.handles[i].holder, w.handles[i].key.owner;
      assert w.gens[g].handles[o] == i && !w.gens[g].settled && w.handles[i].key == k;
    }
    forall k, g, o | 0 <= g < |w.gens| && !w.gens[g].settled && o in w.gens[g].handles
                     && w.gens[g].handles[o] < |w.handles| && w.handles[w.gens[g].handles[o]].key == k
      ensures k in w.pool.byID
    {
      HeldPositive(w.handles, w.gens[g].handles[o]);
    }
  }

  /** Between operations: a running coordinator has one ready current generation, whose
      configuration it reports, nothing retiring and no debt; a degraded one keeps the
      generation it failed to retire; and every generation that has not ended is one of the two. */
  lemma {:induction false} CoordinatorStates(ops: seq<Operation>)
    ensures NoneForgotten(Run(ops)) && CoordinatorOk(Run(ops))
  {
    RunInv(ops);
  }

  /** A stopped coordinator has let go of everything: the pools are empty and every resource
      ever built was closed once. */
  lemma {:induction false} StoppedMeansClosed(ops: seq<Operation>)
    requires Run(ops).state == Stopped
    ensures var w := Run(ops);
            && w.pool.byID == map[] && (forall g | 0 <= g < |w.gens| :: w.gens[g].settled)
            && (forall e | 0 <= e < |w.pool.entries| :: w.pool.entries[e].refs == 0 && w.pool.entries[e].closes == 1)
            && (forall i | 0 <= i < |w.handles| :: w.handles[i].released)
  {
    RunInv(ops);
    var w := Run(ops);
    if w.pool.byID != map[] {
      var k :| k in w.pool.byID;
      var g := Holder(w, k);
      assert false;
    }
  }

  lemma {:induction false} Holder(w: World, k: Key) returns (g: nat)
    requires Kept(w) && k in w.pool.byID
    ensures g < |w.gens| && !w.gens[g].settled
  {
    var i := SomeoneHolds(w.handles, w.pool.byID[k]);
    g := w.handles[i].holder;
  }

  lemma {:induction false} StillHeld(w: World, w1: World, k: Key)
    requires Kept(w) && Kept(w1) && SameKeys(w, w1) && k in w.pool.byID
    requires |w.gens| <= |w1.gens| && forall g | 0 <= g < |w.gens| :: w1.gens[g] == w.gens[g]
    ensures k in w1.pool.byID
  {
    var i := SomeoneHolds(w.handles, w.pool.byID[k]);
    var g, o := w.handles[i].holder, w.handles[i].key.owner;
    assert w1.gens[g].handles[o] == i && !w1.gens[g].settled;
    assert w1.handles[i].holder == g && !w1.handles[i].released;
    HeldPositive(w1.handles, i);
  }

  lemma {:induction false} HeldBefore(w: World, w1: World, k: Key)
    requires Kept(w) && Kept(w1) && SameKeys(w, w1) && k in w1.pool.byID
    requires |w.gens| <= |w1.gens| && (forall g | 0 <= g < |w.gens| :: w1.gens[g] == w.gens[g])
    requires forall g | |w.gens| <= g < |w1.gens| :: w1.gens[g].settled
    ensures k in w.pool.byID
  {
    var i := SomeoneHolds(w1.handles, w1.pool.byID[k]);
    var g, o := w1.handles[i].holder, w1.handles[i].key.owner;
    assert !w1.gens[g].settled && g < |w.gens|;
    assert w.gens[g].handles[o] == i && w.handles[i].holder == g && !w.handles[i].released;
    HeldPositive(w.handles, i);
  }

  /** A generation that came and went left the pools holding what they held. */
  lemma {:induction false} SameHolders(w: World, w1: World)
    requires Kept(w) == true && Kept(w1) == true && SameKeys(w, w1)
    requires |w.gens| <= |w1.gens| && (forall g | 0 <= g < |w.gens| :: w1.gens[g] == w.gens[g])
    requires forall g | |w.gens| <= g < |w1.gens| :: w1.gens[g].settled
    ensures w1.pool.byID.Keys == w.pool.byID.Keys
  {
    forall k | k in w.pool.byID ensures k in w1.pool.byID {
      StillHeld(w, w1, k);
    }
    forall k | k in w1.pool.byID ensures k in w.pool.byID {
      HeldBefore(w, w1, k);
    }
  }

  /** The same generation stays current, and the pools hold what they held. */
  predicate Unmoved(w: World, w': World) {
    && w'.state == Running && w'.current == w.current && w'.configDigest == w.configDigest
    && w.current.Some? && w.current.value < |w.gens| <= |w'.gens| && w'.gens[w.current.value] == w.gens[w.current.value]
    && w'.pool.byID.Keys == w.pool.byID.Keys
  }

  /** A new generation serves the new configuration; the previous one has ended or is retained. */
  predicate Moved(w: World, w': World, snapshot: Snapshot) {
    && w'.current == Some(|w.gens|) && w'.configDigest == snapshot.digest
    && w.current.Some? && w.current.value < |w'.gens|
    && if w'.state == Running then w'.gens[w.current.value].settled
       else w'.state == Degraded && w'.retiring == w.current && w'.cleanup
  }

  predicate ReloadResult(w: World, fate: ReloadFate, w': World) {
    if w.state != Running then w' == w
    else Unmoved(w, w') == true || (fate.loads.Some? && Moved(w, w', fate.loads.value) == true)
  }

  lemma {:induction false} OutcomeOf(w: World, fate: ReloadFate)
    requires Kept(w) == true && CoordinatorOk(w) && w.state == Running
    ensures ReloadResult(w, fate, ReloadOp(w, fate)) == true
  {
    if NothingToDo(w, fate) {
      UnmovedBy(w, w);
    } else {
      InstallOk(w, fate.loads.value, w.current, fate);
      var (w1, r) := Install(w, fate.loads.value, w.current, fate);
      InstalledMoves(w, w1, fate, r);
    }
  }

  /** A reload is refused outright, rejected with the same current generation and the same
      resources held, or applied; then the previous generation has ended or is retained. */
  lemma {:induction false} ReloadOutcome(ops: seq<Operation>, fate: ReloadFate)
    ensures ReloadResult(Run(ops), fate, Apply(Run(ops), Reload(fate)))
  {
    RunInv(ops);
    if Run(ops).state == Running {
      OutcomeOf(Run(ops), fate);
    }
  }

  lemma {:induction false} InstalledMoves(w: World, w1: World, fate: ReloadFate, r: Option<nat>)
    requires Kept(w) == true && Kept(w1) == true && CoordinatorOk(w) && w.state == Running && fate.loads.Some?
    requires Installed(w, w1, fate.loads.value, w.current, r)
    ensures ReloadResult(w, fate, if r.None? then Reject(w1) else RetirePrevious(Publish(w1, r.value, w.current), w.current.value, fate.retire)) == true
  {
    if r.None? {
      UnmovedBy(w, w1);
    } else {
      MovedBy(w, w1, fate.loads.value, r.value, fate.retire);
    }
  }

  lemma {:induction false} UnmovedBy(w: World, w1: World)
    requires Kept(w) == true && Kept(w1) == true && CoordinatorOk(w) && w.state == Running
    requires OnlyGens(w, w1) && |w.gens| <= |w1.gens| && (forall g | 0 <= g < |w.gens| :: w1.gens[g] == w.gens[g])
    requires forall g | |w.gens| <= g < |w1.gens| :: w1.gens[g].settled
    ensures Unmoved(w, Reject(w1)) == true
  {
    SameHolders(w, w1);
  }

  lemma {:induction false} MovedBy(w: World, w1: World, snapshot: Snapshot, g: nat, fate: StopFate)
    requires Kept(w1) == true && CoordinatorOk(w) && w.state == Running && Installed(w, w1, snapshot, w.current, Some(g))
    ensures Moved(w, RetirePrevious(Publish(w1, g, w.current), w.current.value, fate), snapshot) == true
  {
    var w2 := Publish(w1, g, w.current);
    SameAccounts(w1, w2);
    StopGenerationOk(w2, w.current.value, false, fate);
  }

  /** A participant that fails to stop is never asked again, so its generation can never end:
      nothing the coordinator does later settles it, frees what it holds, or reaches Stopped. */
  lemma {:induction false} FailedParticipantIsFinal(ops: seq<Operation>, more: seq<Operation>, g: nat)
    requires g < |Run(ops).gens| && Stuck(Run(ops).gens[g])
    ensures var w := Run(ops + more);
            && g < |w.gens| && Stuck(w.gens[g]) && w.state != Stopped
            && forall i | 0 <= i < |w.handles| && w.handles[i].holder == g :: !w.handles[i].released
  {
    StuckForever(ops, more, g);
    RunInv(ops + more);
  }

  lemma {:induction false} StuckForever(ops: seq<Operation>, more: seq<Operation>, g: nat)
    requires g < |Run(ops).gens| && Stuck(Run(ops).gens[g])
    ensures g < |Run(ops + more).gens| && Stuck(Run(ops + more).gens[g])
  {
    if more == [] {
      assert ops + more == ops;
    } else {
      var n := |more| - 1;
      StuckForever(ops, more[..n], g);
      assert (ops + more)[..|ops + more| - 1] == ops + more[..n];
      RunInv(ops + more[..n]);
      StuckStays(Run(ops + more[..n]), more[n], g);
    }
  }

  predicate Stuck(n: Generation) {
    n.committed && !n.settled && n.participantsDone && n.participantsFailed
  }

  lemma {:induction false} StuckRefuses(w: World, g: nat, force: bool, fate: StopFate)
    requires g < |w.gens| && Stuck(w.gens[g])
    ensures var (w', ok) := StopGeneration(w, g, force, fate); !ok && |w'.gens| == |w.gens| && Stuck(w'.gens[g])
  {
    EndServersFrame(w.gens[g], force, fate);
  }

  lemma {:induction false} StopStuck(w: World, g: Option<nat>, force: bool, fate: StopFate, x: nat)
    requires Kept(w) == true && x < |w.gens| && Stuck(w.gens[x]) && (g.Some? ==> g.value < |w.gens|)
    ensures var w' := StopOne(w, g, force, fate).0; x < |w'.gens| && Stuck(w'.gens[x])
  {
    if g == Some(x) {
      StuckRefuses(w, x, force, fate);
    } else if g.Some? {
      StopGenerationOk(w, g.value, force, fate);
    }
  }

  lemma {:induction false} StuckStays(w: World, op: Operation, x: nat)
    requires Kept(w) == true && CoordinatorOk(w) == true && x < |w.gens| && Stuck(w.gens[x])
    ensures var w' := Apply(w, op); x < |w'.gens| && Stuck(w'.gens[x])
  {
    match op {
      case Start(fate) =>
      case Reload(fate) => ReloadStuck(w, fate, x);
      case Stop(all) =>
        StopAllStuck(w, w.(state := Draining, ready := false), false, all, x);
      case ForceStop(all) =>
        StopAllStuck(w, w, true, all, x);
      case Break(g, management) =>
    }
  }

  lemma {:induction false} ReloadStuck(w: World, fate: ReloadFate, x: nat)
    requires Kept(w) == true && x < |w.gens| && Stuck(w.gens[x])
    ensures var w' := ReloadOp(w, fate); x < |w'.gens| && Stuck(w'.gens[x])
  {
    if fate.loads.Some? && w.current.Some? && w.current.value < |w.gens| {
      ReplaceStuck(w, fate.loads.value, w.current.value, fate, x);
    }
  }

  lemma {:induction false} ReplaceStuck(w: World, snapshot: Snapshot, previous: nat, fate: ReloadFate, x: nat)
    requires Kept(w) == true && x < |w.gens| && Stuck(w.gens[x]) && previous < |w.gens|
    ensures var w' := Replace(w, snapshot, previous, fate); x < |w'.gens| && Stuck(w'.gens[x])
  {
    var (w1, r) := Install(w, snapshot, Some(previous), fate);
    InstallOk(w, snapshot, Some(previous), fate);
    InstallStuck(w, w1, snapshot, Some(previous), r, x);
    if r.Some? {
      PublishStuck(w1, r.value, Some(previous), fate.retire, x);
    }
  }

  lemma {:induction false} InstallStuck(w: World, w1: World, snapshot: Snapshot, previous: Option<nat>, r: Option<nat>, x: nat)
    requires Installed(w, w1, snapshot, previous, r) && x < |w.gens| && Stuck(w.gens[x])
    ensures x < |w1.gens| && Stuck(w1.gens[x])
  {
  }

  lemma {:induction false} PublishStuck(w1: World, g: nat, previous: Option<nat>, fate: StopFate, x: nat)
    requires Kept(w1) == true && x < |w1.gens| && Stuck(w1.gens[x]) && g < |w1.gens| && previous.Some?
    ensures var w' := RetirePrevious(Publish(w1, g, previous), previous.value, fate); x < |w'.gens| && Stuck(w'.gens[x])
  {
    var w2 := Publish(w1, g, previous);
    SameAccounts(w1, w2);
    if previous.value < |w2.gens| {
      StopStuck(w2, previous, false, fate, x);
    }
  }

  lemma {:induction false} StopAllStuck(w: World, w0: World, force: bool, fate: StopAllFate, x: nat)
    requires Kept(w) == true && CoordinatorOk(w) && x < |w.gens| && Stuck(w.gens[x])
    requires w0 == w.(state := w0.state, ready := w0.ready)
    ensures var w1 := StopOne(w0, w.current, force, fate.current).0;
            var w2 := StopOne(w1, w.retiring, force, fate.retiring).0;
            x < |w2.gens| && Stuck(w2.gens[x])
  {
    SameAccounts(w, w0);
    StopStuck(w0, w.current, force, fate.current, x);
    StopOneOk(w0, w.current, force, fate.current);
    StopStuck(StopOne(w0, w.current, force, fate.current).0, w.retiring, force, fate.retiring, x);
  }
}
