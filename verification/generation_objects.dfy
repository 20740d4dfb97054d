/** The pool and the coordinator as objects. Every operation of the coordinator is proved to
    do to its abstract value what GenerationMachine says; the ghost list `ops` is the run so
    far, so each operation also ends in the states GenerationSafety describes. */
module GenerationObjects {
  import opened Wrappers
  import opened GenerationPools
  import opened GenerationMachine
  import opened GenerationSafety

  class ResourcePool {
    var byID: map<Key, nat>
    var entries: seq<Entry>

    function Value(): Pool
      reads this
    {
      Pool(byID, entries)
    }

    constructor ()
      ensures Value() == EMPTY_POOL
    {
      byID, entries := map[], [];
    }

    method AcquireNow(key: Key, builds: bool) returns (r: Acquired)
      modifies this
      ensures (Value(), r) == Acquire(old(Value()), key, builds)
    {
      if key.digest == "" {
        return Refused;
      }
      if key in byID {
        var e := byID[key];
        if e >= |entries| {
          return Refused;
        }
        entries := entries[e := entries[e].(refs := entries[e].refs + 1)];
        return Reused(e);
      }
      if !builds {
        return Refused;
      }
      byID := byID[key := |entries|];
      entries := entries + [Entry(key, 1, 0)];
      return Built(|entries| - 1);
    }

    method ReleaseNow(h: Handle, closes: bool) returns (r: ReleaseResult)
      modifies this
      ensures (Value(), r) == Release(old(Value()), h, closes)
    {
      if h.key !in byID || byID[h.key] != h.entry || h.entry >= |entries| || entries[h.entry].refs <= 0 {
        return InvariantFailed;
      }
      var n := entries[h.entry];
      if n.refs - 1 > 0 {
        entries := entries[h.entry := n.(refs := n.refs - 1)];
        return Kept;
      }
      byID := byID - {h.key};
      entries := entries[h.entry := n.(refs := n.refs - 1, closes := n.closes + 1)];
      return if closes then Closed else CloseFailed;
    }
  }

  lemma EndAfterPut(w: World, g: nat, n: Generation, fate: StopFate)
    requires g < |w.gens|
    ensures EndQuietly(PutGen(w, g, n), g, n, fate) == EndQuietly(w, g, n, fate)
  {
    var n2 := StopParticipants(n, fate.participants).0;
    assert PutGen(PutGen(w, g, n), g, n2) == PutGen(w, g, n2);
  }

  /** One server of a generation: its two ends, each tried once and remembered. */
  class HttpServer {
    var phase: Phase
    var runFailed: bool
    var graceful: Option<bool>
    var forced: Option<bool>

    function Value(): Server
      reads this
    {
      Server(phase, runFailed, graceful, forced)
    }

    constructor ()
      ensures Value() == SERVING
    {
      phase, runFailed, graceful, forced := Up, false, None, None;
    }

    /** Serving returned although nobody asked it to. */
    method RunBreaks()
      modifies this
      ensures Value() == Broke(old(Value()))
    {
      if phase == Up {
        phase, runFailed := Broken, true;
      }
    }

    method Stop(fate: ServerFate) returns (ok: bool)
      modifies this
      ensures (Value(), ok) == StopServer(old(Value()), fate)
    {
      if graceful.Some? {
        return graceful.value && fate.ends;
      }
      match phase {
        case Down => ok := true;
        case Cut => ok := false;
        case Broken => ok := fate.ends && !runFailed;
        case _ =>
          phase := Ending;
          ok := fate.ends && !runFailed;
          if ok {
            phase := Down;
          }
      }
      graceful := Some(ok);
    }

    method ForceStop(fate: ServerFate) returns (ok: bool)
      modifies this
      ensures (Value(), ok) == ForceServer(old(Value()), fate)
    {
      if forced.Some? {
        return forced.value && fate.ends;
      }
      ok := phase == Down || phase == Cut;
      if !ok {
        phase := Ending;
        ok := fate.ends && !runFailed;
        if ok {
          phase := Cut;
        }
      }
      forced := Some(ok);
    }
  }

  class Coordinator {
    const pool: ResourcePool
    var handles: seq<Handle>
    var gens: seq<Generation>
    var hubs: Hubs
    var current: Option<nat>
    var retiring: Option<nat>
    var state: Lifecycle
    var ready: bool
    var currentId: Option<nat>
    var retiringId: Option<nat>
    var configDigest: string
    var cleanup: bool
    ghost var broken: bool
    ghost var ops: seq<Operation>

    ghost function Value(): World
      reads this, pool
    {
      World(pool.Value(), handles, gens, hubs, current, retiring, state, ready, currentId, retiringId, configDigest, cleanup, broken)
    }

    ghost predicate Valid()
      reads this, pool
    {
      Value() == Run(ops)
    }

    constructor ()
      ensures Valid() && ops == [] && fresh(pool)
    {
      pool := new ResourcePool();
      handles, gens, hubs, current, retiring := [], [], NO_HUBS, None, None;
      state, ready, currentId, retiringId, configDigest, cleanup := New, false, None, None, "", false;
      broken, ops := false, [];
    }

    // One generation ------------------------------------------------------------------------

    method AcquireOne(g: nat, k: nat, fate: PrepareFate) returns (ok: bool)
      requires g < |gens| && k < OWNERS
      modifies this`handles, this`gens, pool
      ensures |gens| == |old(gens)|
      ensures AcquireFrom(old(Value()), g, k, fate) == if ok then AcquireFrom(Value(), g, k + 1, fate) else (Value(), false)
    {
      if fate.reached <= k {
        return false;
      }
      var owner := AcquireOrder(k);
      var key := KeyFor(gens[g].snapshot, owner);
      if key.None? {
        return false;
      }
      var r := pool.AcquireNow(key.value, owner in fate.builds);
      if r == Refused {
        return false;
      }
      gens := gens[g := gens[g].(handles := gens[g].handles[owner := |handles|])];
      handles := handles + [Handle(g, key.value, r.entry, false, false)];
      return true;
    }

    /** Acquires the generation's resources in order, up to the first that fails. */
    method AcquireAll(g: nat, fate: PrepareFate) returns (ok: bool)
      requires g < |gens|
      modifies this`handles, this`gens, pool
      ensures (Value(), ok) == AcquireFrom(old(Value()), g, 0, fate)
      ensures |gens| == |old(gens)|
    {
      ok := AcquireRest(g, 0, fate);
    }

    method AcquireRest(g: nat, k: nat, fate: PrepareFate) returns (ok: bool)
      requires g < |gens| && k <= OWNERS
      modifies this`handles, this`gens, pool
      ensures (Value(), ok) == AcquireFrom(old(Value()), g, k, fate)
      ensures |gens| == |old(gens)|
      decreases OWNERS - k
    {
      if k == OWNERS {
        return fate.reached > OWNERS;
      }
      ok := AcquireOne(g, k, fate);
      if ok {
        ok := AcquireRest(g, k + 1, fate);
      }
    }

    method ReleaseOne(i: nat, closes: bool) returns (ok: bool)
      modifies this`handles, this`broken, pool
      ensures (Value(), ok) == ReleaseHandle(old(Value()), i, closes)
    {
      if i >= |handles| {
        return true;
      }
      if handles[i].released {
        return !handles[i].failed;
      }
      var r := pool.ReleaseNow(handles[i], closes);
      handles := handles[i := handles[i].(released := true, failed := r == CloseFailed)];
      broken := broken || r == InvariantFailed;
      return r == Kept || r == Closed;
    }

    /** Releases everything the generation holds, whatever fails on the way. */
    method ReleaseAll(g: nat, fate: CloseFate) returns (ok: bool)
      requires g < |gens|
      modifies this`handles, this`broken, pool
      ensures (Value(), ok) == ReleaseResources(old(Value()), g, fate)
    {
      ok := true;
      var k := 0;
      while k < OWNERS
        invariant k <= OWNERS
        invariant ReleaseFrom(old(Value()), g, 0, fate.closes).0 == ReleaseFrom(Value(), g, k, fate.closes).0
        invariant ReleaseFrom(old(Value()), g, 0, fate.closes).1 == (ok && ReleaseFrom(Value(), g, k, fate.closes).1)
      {
        var owner := ReleaseOrder(k);
        if owner in gens[g].handles {
          var released := ReleaseOne(gens[g].handles[owner], owner in fate.closes);
          ok := ok && released;
        }
        k := k + 1;
      }
      ok := ok && fate.others;
    }

    method Abort(g: nat, fate: AbortFate) returns (ok: bool)
      requires g < |gens|
      modifies this`handles, this`gens, this`hubs, this`broken, pool
      ensures (Value(), ok) == AbortGeneration(old(Value()), g, fate)
    {
      if gens[g].committed {
        return false;
      }
      if gens[g].settled {
        return !gens[g].failed;
      }
      var routed := Routed(hubs, g);
      hubs := Muted(hubs, g);
      var (n, stopped) := StopParticipants(gens[g], fate.participants);
      gens := gens[g := n];
      var released := ReleaseAll(g, fate.close);
      ok := fate.teardown && !routed && stopped && released;
      gens := gens[g := gens[g].(settled := true, failed := !ok)];
    }

    /** The servers one after the other; by force the second whatever the first comes to. */
    method EndBothServers(g: nat, force: bool, fate: StopFate) returns (quiet: bool)
      requires g < |gens|
      modifies this`gens
      ensures var (n, ok) := EndServers(old(gens)[g], force, fate); quiet == ok && gens == old(gens)[g := n]
    {
      assert gens[g := gens[g]] == gens;
      if !force && !fate.quiet {
        return false;
      }
      var (api, a) := EndServer(gens[g].api, force, fate.api);
      gens := gens[g := gens[g].(api := api)];
      if !force && !a {
        return false;
      }
      var (ops, b) := EndServer(gens[g].ops, force, fate.ops);
      gens := gens[g := gens[g].(ops := ops)];
      assert gens == old(gens)[g := gens[g]];
      return fate.quiet && a && b;
    }

    method End(g: nat, force: bool, fate: StopFate) returns (ok: bool)
      requires g < |gens|
      modifies this`handles, this`gens, this`hubs, this`broken, pool
      ensures (Value(), ok) == StopGeneration(old(Value()), g, force, fate)
    {
      if !gens[g].committed {
        return false;
      }
      if gens[g].settled {
        return !gens[g].failed;
      }
      hubs := Withdrawn(hubs, g);
      ghost var w := Value();
      var quiet := EndBothServers(g, force, fate);
      if !quiet {
        return false;
      }
      EndAfterPut(w, g, gens[g], fate);
      ok := EndRest(g, fate);
    }

    /** The participants, and once they have stopped the resources. */
    method EndRest(g: nat, fate: StopFate) returns (ok: bool)
      requires g < |gens|
      modifies this`handles, this`gens, this`broken, pool
      ensures (Value(), ok) == EndQuietly(old(Value()), g, old(gens)[g], fate)
    {
      var (n, stopped) := StopParticipants(gens[g], fate.participants);
      gens := gens[g := n];
      if !stopped {
        return false;
      }
      ok := ReleaseAll(g, fate.close);
      gens := gens[g := gens[g].(settled := true, failed := !ok)];
    }

    method PrepareNow(snapshot: Snapshot, fate: PrepareFate) returns (g: Option<nat>)
      modifies this`handles, this`gens, this`hubs, this`broken, pool
      ensures (Value(), g) == Prepare(old(Value()), snapshot, fate)
    {
      var n := |gens|;
      gens := gens + [Candidate(snapshot)];
      var ok := AcquireAll(n, fate);
      if ok {
        return Some(n);
      }
      var _ := Abort(n, fate.abort);
      return None;
    }

    method CommitNow(g: nat, previous: Option<nat>, fate: CommitFate) returns (ok: bool)
      requires g < |gens|
      modifies this`gens, this`hubs
      ensures (Value(), ok) == CommitGeneration(old(Value()), g, previous, fate) && |gens| == |old(gens)|
    {
      ok := SwitchNow(gens[g].snapshot, g, previous, fate);
      if ok {
        gens := gens[g := gens[g].(committed := true, serving := true)];
        if previous.Some? && previous.value < |gens| && previous.value != g {
          gens := gens[previous.value := gens[previous.value].(serving := false)];
        }
      }
    }

    /** The hubs in order; what was switched before a failure stays switched. */
    method SwitchNow(s: Snapshot, g: nat, previous: Option<nat>, fate: CommitFate) returns (ok: bool)
      modifies this`hubs
      ensures (hubs, ok) == Switch(old(hubs), s, g, AddressOf(old(Value()), previous, false), AddressOf(old(Value()), previous, true), fate)
    {
      var api, ops: Option<(string, nat)> := None, None;
      if previous.Some? && previous.value < |gens| {
        api := Some((gens[previous.value].snapshot.address, previous.value));
        ops := Some((gens[previous.value].snapshot.management, previous.value));
      }
      if !fate.opens || Refuses(hubs.routes, s.address, api) {
        return false;
      }
      hubs := hubs.(routes := Redirect(hubs.routes, s.address, g, api));
      if Refuses(hubs.managed, s.management, ops) {
        return false;
      }
      hubs := hubs.(managed := Redirect(hubs.managed, s.management, g, ops));
      if !fate.consumes {
        hubs := hubs.(messaging := if fate.restores then hubs.messaging else None);
        return false;
      }
      hubs := hubs.(messaging := Some(g));
      if !fate.schedules {
        hubs := hubs.(schedule := if fate.keeps then hubs.schedule else None);
        return false;
      }
      hubs := hubs.(schedule := Some(g));
      return true;
    }

    method InstallNow(snapshot: Snapshot, previous: Option<nat>, fate: ReloadFate) returns (g: Option<nat>)
      modifies this`handles, this`gens, this`hubs, this`broken, pool
      ensures (Value(), g) == Install(old(Value()), snapshot, previous, fate)
    {
      g := PrepareNow(snapshot, fate.prepare);
      if g.None? || g.value >= |gens| {
        return None;
      }
      var committed := CommitNow(g.value, previous, fate.commit);
      if !committed {
        var _ := Abort(g.value, fate.abort);
        g := None;
      }
    }

    // The coordinator's operations --------------------------------------------------------------

    ghost method Record(op: Operation)
      requires Value() == Apply(Run(ops), op)
      modifies this`ops
      ensures Valid() && ops == old(ops) + [op]
    {
      assert (ops + [op])[..|ops|] == ops;
      ops := ops + [op];
    }

    method PublishNow(g: nat, previous: Option<nat>)
      modifies this`current, this`retiring, this`currentId, this`retiringId, this`state, this`ready, this`cleanup, this`configDigest
      ensures Value() == Publish(old(Value()), g, previous)
    {
      current, currentId, retiring := Some(g), Some(g), previous;
      if previous.Some? {
        retiringId := previous;
      }
      state, ready, cleanup := Running, true, false;
      configDigest := if g < |gens| then gens[g].snapshot.digest else "";
    }

    method StartNow(fate: ReloadFate)
      requires Valid()
      modifies this, pool
      ensures Valid() && ops == old(ops) + [Operation.Start(fate)]
      ensures old(state) != New ==> Value() == old(Value())
      ensures old(state) == New ==> state == Running || state == Failed
      ensures state == Running ==> current.Some? && ready && !cleanup && retiring == None
    {
      if state == New {
        if fate.loads.None? {
          state, ready := Failed, false;
        } else {
          var g := InstallNow(fate.loads.value, None, fate);
          if g.None? {
            state, ready := Failed, false;
          } else {
            PublishNow(g.value, None);
          }
        }
      }
      Record(Operation.Start(fate));
      CoordinatorStates(ops);
    }

    /** Loads, prepares and commits a new generation and ends the previous one. */
    method ReloadNow(fate: ReloadFate)
      requires Valid()
      modifies this, pool
      ensures Valid() && ops == old(ops) + [Operation.Reload(fate)]
      ensures ReloadResult(old(Value()), fate, Value())
    {
      ghost var before := ops;
      CoordinatorStates(ops);
      if state == Running && !cleanup && current.Some? && current.value < |gens| {
        if fate.loads.None? || !fate.diffs || fate.loads.value.digest == gens[current.value].snapshot.digest {
          state, ready := Running, true;
        } else {
          ReplaceNow(fate.loads.value, fate);
        }
      }
      Record(Operation.Reload(fate));
      ReloadOutcome(before, fate);
    }

    method ReplaceNow(snapshot: Snapshot, fate: ReloadFate)
      requires current.Some?
      modifies this`handles, this`gens, this`hubs, this`broken, pool, this`current, this`retiring, this`currentId, this`retiringId, this`state, this`ready, this`cleanup, this`configDigest
      ensures match Install(old(Value()), snapshot, old(current), fate)
              case (w1, None) => Value() == Reject(w1)
              case (w1, Some(g)) => Value() == RetirePrevious(Publish(w1, g, old(current)), old(current).value, fate.retire)
    {
      var previous := current.value;
      var g := InstallNow(snapshot, current, fate);
      if g.None? {
        state, ready := Running, true;
        return;
      }
      PublishNow(g.value, current);
      RetireNow(previous, fate.retire);
    }

    method RetireNow(previous: nat, fate: StopFate)
      modifies this`handles, this`gens, this`hubs, this`broken, pool, this`retiring, this`retiringId, this`state, this`ready, this`cleanup
      ensures Value() == RetirePrevious(old(Value()), previous, fate)
    {
      if previous < |gens| {
        var ended := End(previous, false, fate);
        if ended {
          retiring, retiringId := None, None;
        } else {
          state, ready, cleanup := Degraded, false, true;
        }
      }
    }

    method EndIfAny(g: Option<nat>, force: bool, fate: StopFate) returns (ok: bool)
      modifies this`handles, this`gens, this`hubs, this`broken, pool
      ensures (Value(), ok) == StopOne(old(Value()), g, force, fate)
    {
      if g.None? || g.value >= |gens| {
        return true;
      }
      ok := End(g.value, force, fate);
    }

    method EndBoth(force: bool, fate: StopAllFate)
      modifies this`handles, this`gens, this`hubs, this`broken, pool, this`current, this`retiring, this`state, this`cleanup
      ensures var (w1, a) := StopOne(old(Value()), old(current), force, fate.current);
              var (w2, b) := StopOne(w1, old(retiring), force, fate.retiring);
              Value() == Finish(w2, force || (a && b), a && b && fate.factory)
    {
      var a := EndIfAny(current, force, fate.current);
      var b := EndIfAny(retiring, force, fate.retiring);
      if force || (a && b) {
        hubs := NO_HUBS;
      }
      if a && b && fate.factory {
        current, retiring, state, cleanup := None, None, Stopped, false;
      } else {
        state, cleanup := Failed, true;
      }
    }

    /** Ends both generations. When it reports Stopped, every resource ever built is closed. */
    method StopNow(fate: StopAllFate)
      requires Valid()
      modifies this, pool
      ensures Valid() && ops == old(ops) + [Operation.Stop(fate)]
      ensures state == Stopped || state == Failed
      ensures state == Stopped ==> pool.byID == map[] && forall i | 0 <= i < |handles| :: handles[i].released
    {
      if state != Stopped {
        state, ready := Draining, false;
        EndBoth(false, fate);
      }
      Record(Operation.Stop(fate));
      if state == Stopped {
        StoppedMeansClosed(ops);
      }
    }

    /** A server of a generation that has not ended ceases to serve. */
    method BreakNow(g: nat, management: bool)
      requires Valid()
      modifies this
      ensures Valid() && ops == old(ops) + [Operation.Break(g, management)]
    {
      if g < |gens| && !gens[g].settled {
        if management {
          gens := gens[g := gens[g].(ops := Broke(gens[g].ops))];
        } else {
          gens := gens[g := gens[g].(api := Broke(gens[g].api))];
        }
      }
      Record(Operation.Break(g, management));
    }

    method ForceStopNow(fate: StopAllFate)
      requires Valid()
      modifies this, pool
      ensures Valid() && ops == old(ops) + [Operation.ForceStop(fate)]
      ensures state == Stopped || state == Failed
      ensures state == Stopped ==> pool.byID == map[] && forall i | 0 <= i < |handles| :: handles[i].released
    {
      EndBoth(true, fate);
      Record(Operation.ForceStop(fate));
      if state == Stopped {
        StoppedMeansClosed(ops);
      }
    }
  }
}
