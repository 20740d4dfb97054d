/** The failover store as an object over its two stores. A write runs without interruption;
    the replay of the buffer is the source's loop, with reads and writes of other callers
    between any two of its critical sections. The ghost list `steps` is the run so far. */
module RecoveringStores {
  import opened Wrappers
  import opened MemoryStores
  import opened RecoveryMachine
  import opened RecoveryFailover

  /** What a write tells its caller. */
  datatype WriteResult = Acknowledged | Dropped | Overflowed | GaveUp | Refused | LocalFailed

  class RecoveringStore {
    const cfg: Config
    const primary: MemoryStore
    const local: MemoryStore
    var state: State
    var buffered: seq<Write>
    var dropped: nat
    var transitions: nat
    var backoff: int
    var space: nat
    ghost const given: Config
    ghost var loop: LoopPc
    ghost var steps: seq<Step>
    ghost var world: World

    ghost function Value(): Store
      reads this, primary, local
    {
      Store(cfg, state, buffered, dropped, transitions, backoff, space, loop, primary.Value(), local.Value())
    }

    ghost predicate Valid()
      reads this, primary, local
    {
      && primary != local && world == AtomicRun(given, steps) && world.s == Value()
      && Settled(world) && Inv(world)
    }

    constructor (given: Config)
      ensures Valid() && steps == [] && state == Healthy && fresh(primary) && fresh(local)
    {
      this.given := given;
      cfg := Normalize(given);
      primary := new MemoryStore();
      local := new MemoryStore();
      state := Healthy;
      buffered, dropped, transitions, backoff, space := [], 0, 0, 0, 0;
      loop := Waiting;
      steps := [];
      world := Init(given);
    }

    /** The step just performed. */
    ghost method Record(s: Step)
      requires world == AtomicRun(given, steps)
      modifies this`steps, this`world
      ensures world == AtomicRun(given, steps) == ApplyStep(old(world), s) && steps == old(steps) + [s]
      ensures Settled(world) && Inv(world)
    {
      assert (steps + [s])[..|steps|] == steps;
      steps := steps + [s];
      world := ApplyStep(world, s);
      AtomicSettled(given, steps);
      var actions := AtomicIsRun(given, steps, MaxClaim(steps));
      RunInv(given, actions);
    }

    /** A failed call of the primary: the store degrades unless it already has. */
    method DegradeNow()
      modifies this`state, this`transitions, this`backoff
      ensures Value() == Degrade(old(Value()))
    {
      if state != Healthy {
        return;
      }
      state := Degraded;
      transitions := transitions + 1;
      backoff := cfg.initialBackoff;
    }

    method EnqueueNow(w: Write) returns (r: WriteResult)
      modifies this`buffered, this`dropped
      ensures Value() == Enqueue(old(Value()), w).0
      ensures r == match Enqueue(old(Value()), w).1
                   case Accepted => Acknowledged
                   case DroppedSilently => Dropped
                   case DroppedWithError => Overflowed
                   case MustWait(_) => GaveUp
    {
      if |buffered| < cfg.capacity {
        buffered := buffered + [w];
        return Acknowledged;
      }
      match cfg.overflow
      case Discard =>
        dropped := dropped + 1;
        return Dropped;
      case Alert =>
        dropped := dropped + 1;
        return Overflowed;
      case Block => return GaveUp;
    }

    /** Complete, Release and Record. An acknowledged write is on the primary or, in issue
        order behind everything acknowledged before it, in the buffer. */
    method Write(w: Write, clock: int) returns (r: WriteResult)
      requires Valid()
      modifies this, primary, local
      ensures Valid() && loop == old(loop) && old(steps) <= steps
      ensures world.h.acked == old(world.h.acked) + (if r == Acknowledged then [w] else [])
      ensures dropped == old(dropped) + (if r == Dropped || r == Overflowed then 1 else 0)
      ensures world.h.acked == world.h.effective + Pending(Value())
    {
      ghost var before := world;
      var up: bool, dependency: bool, localUp: bool := *, *, *;
      r := WriteThrough(w, up, dependency, localUp, clock);
      ghost var fate := Fate(up, dependency, localUp, clock);
      WriteSettles(before, w, fate);
      Record(WriteStep(w, fate));
    }

    method WriteThrough(w: Write, up: bool, dependency: bool, localUp: bool, clock: int) returns (r: WriteResult)
      requires primary != local
      modifies this`state, this`transitions, this`backoff, this`buffered, this`dropped, primary, local
      ensures forall f: World | f.s == old(Value()) ::
                var f' := WriteAtOnce(f, w, Fate(up, dependency, localUp, clock));
                Value() == f'.s && f'.h.acked == f.h.acked + (if r == Acknowledged then [w] else [])
      ensures dropped == old(dropped) + (if r == Dropped || r == Overflowed then 1 else 0)
    {
      if state == Healthy {
        if up {
          primary.Write(w, clock);
          return Acknowledged;
        }
        if !dependency {
          return Refused;
        }
        DegradeNow();
      }
      if !localUp {
        return LocalFailed;
      }
      local.Write(w, clock);
      r := EnqueueNow(w);
    }

    /** Asks the primary while healthy; a failure of the dependency turns to the local store. */
    method Claim(key: Key, ttl: int, now: int) returns (r: Option<bool>)
      requires Valid()
      modifies this, primary, local
      ensures Valid() && loop == old(loop) && old(steps) <= steps && world.h.acked == old(world.h.acked)
      ensures r == Some(true) ==>
                || (old(state) == Healthy && !(key in old(primary.claims) && Active(old(primary.claims[key]), now)))
                || (state != Healthy && !(key in old(local.claims) && Active(old(local.claims[key]), now)))
    {
      if state == Healthy {
        var up: bool, dependency: bool := *, *;
        if up {
          var claimed := primary.TryClaim(key, ttl, now);
          Record(OtherStep(PrimaryClaim(key, ttl, now)));
          return Some(claimed);
        }
        if !dependency {
          return None;
        }
        DegradeNow();
        Record(OtherStep(ReadFails));
      }
      r := ClaimLocally(key, ttl, now);
    }

    method ClaimLocally(key: Key, ttl: int, now: int) returns (r: Option<bool>)
      requires Valid() && state != Healthy
      modifies this, local
      ensures Valid() && state == old(state) && loop == old(loop) && old(steps) <= steps && world.h.acked == old(world.h.acked)
      ensures r == Some(true) ==> !(key in old(local.claims) && Active(old(local.claims[key]), now))
    {
      var localUp: bool := *;
      if !localUp {
        return None;
      }
      var claimed := local.TryClaim(key, ttl, now);
      Record(OtherStep(LocalClaim(key, ttl, now)));
      return Some(claimed);
    }

    /** Whatever other callers do between two critical sections of the loop. */
    method Others()
      requires Valid()
      modifies this, primary, local
      ensures Valid() && loop == old(loop) && old(steps) <= steps && old(world.h.acked) <= world.h.acked
    {
      var calls: seq<(bool, Write, int)> := *;
      for i := 0 to |calls|
        invariant Valid() && loop == old(loop) && old(steps) <= steps && old(world.h.acked) <= world.h.acked
      {
        if calls[i].0 {
          var _ := Write(calls[i].1, calls[i].2);
        } else {
          var _ := Claim(calls[i].1.key, calls[i].2, calls[i].2);
        }
      }
    }

    // The recovery loop -------------------------------------------------------------------

    method GrowBackoffNow()
      modifies this`backoff
      ensures Value() == GrowBackoff(old(Value()))
    {
      if backoff <= 0 {
        backoff := cfg.initialBackoff;
      }
      if backoff < cfg.maxBackoff {
        if backoff * 2 < cfg.maxBackoff {
          backoff := backoff * 2;
        } else {
          backoff := cfg.maxBackoff;
        }
      }
    }

    ghost method Advance(ok: bool, clock: int)
      requires world == AtomicRun(given, steps)
      modifies this`steps, this`world, this`loop
      ensures world == AtomicRun(given, steps) == LoopAction(old(world), ok, clock)
      ensures steps == old(steps) + [OtherStep(Loop(ok, clock))] && loop == world.s.loop
      ensures Settled(world) && Inv(world)
    {
      Record(OtherStep(Loop(ok, clock)));
      loop := world.s.loop;
    }

    /** Enters the recovery; only a degraded store can. */
    method BeginRecovery()
      requires Valid() && loop == Starting
      modifies this
      ensures Valid() && loop == Looking && old(steps) <= steps && world.h.acked == old(world.h.acked)
    {
      state := Recovering;
      transitions := transitions + 1;
      Advance(true, 0);
    }

    /** Looks at the head of the buffer, or finds it empty and swaps back. */
    method LookOrSwap() returns (item: Option<Write>)
      requires Valid() && loop == Looking
      modifies this
      ensures Valid() && old(steps) <= steps && world.h.acked == old(world.h.acked)
      ensures match item
              case Some(w) => loop == Calling(w)
              case None => loop == Waiting && state == Healthy && buffered == [] && world.h.effective == world.h.acked
    {
      if |buffered| == 0 {
        state := Healthy;
        transitions := transitions + 1;
        backoff := cfg.initialBackoff;
        item := None;
      } else {
        item := Some(buffered[0]);
      }
      Advance(true, 0);
    }

    method CallPrimary(w: Write, ok: bool, clock: int)
      requires Valid() && loop == Calling(w)
      modifies this, primary
      ensures Valid() && old(steps) <= steps && world.h.acked == old(world.h.acked)
      ensures loop == if ok then Dropping(w) else FallingBack
    {
      if ok {
        primary.Write(w, clock);
      }
      Advance(ok, clock);
    }

    method DropHead(w: Write)
      requires Valid() && loop == Dropping(w)
      modifies this
      ensures Valid() && loop == Looking && old(steps) <= steps && world.h.acked == old(world.h.acked)
    {
      buffered := buffered[1..];
      space := space + 1;
      Advance(true, 0);
    }

    method FallBack()
      requires Valid() && loop == FallingBack
      modifies this
      ensures Valid() && loop == Waiting && state == Degraded && old(steps) <= steps && world.h.acked == old(world.h.acked)
    {
      if state == Recovering {
        state := Degraded;
        transitions := transitions + 1;
        backoff := cfg.initialBackoff;
      }
      GrowBackoffNow();
      Advance(true, 0);
    }

    /** Replays the head of the buffer; it leaves only if the primary took it. */
    method ReplayOne(w: Write, up: bool) returns (ok: bool)
      requires Valid() && loop == Calling(w)
      modifies this, primary, local
      ensures Valid() && ok == up && old(steps) <= steps && old(world.h.acked) <= world.h.acked
      ensures if ok then loop == Looking else loop == Waiting && state == Degraded
    {
      Others();
      var clock: int := *;
      ok := up;
      CallPrimary(w, ok, clock);
      Others();
      if ok {
        DropHead(w);
      } else {
        FallBack();
      }
    }

    /** Replays the buffer until it is empty or a call fails; the deadline of the replay lets
        at most `calls` calls succeed. Returns true only with everything acknowledged so far,
        before or during the replay, on the primary. */
    method Recover(calls: nat) returns (recovered: bool)
      requires Valid() && loop == Starting
      modifies this, primary, local
      ensures Valid() && loop == Waiting && old(steps) <= steps && old(world.h.acked) <= world.h.acked
      ensures if recovered then state == Healthy && buffered == [] && world.h.effective == world.h.acked
              else state == Degraded && world.h.acked == world.h.effective + buffered
    {
      BeginRecovery();
      var left := calls;
      while true
        invariant Valid() && loop == Looking && old(steps) <= steps && old(world.h.acked) <= world.h.acked
        decreases left
      {
        Others();
        var item := LookOrSwap();
        if item.None? {
          return true;
        }
        var up: bool := *;
        var ok := ReplayOne(item.value, up && left > 0);
        if !ok {
          return false;
        }
        left := left - 1;
      }
    }

    method Verify(verified: bool)
      requires Valid() && loop == Waiting && state == Degraded
      modifies this, primary, local
      ensures Valid() && old(steps) <= steps && old(world.h.acked) <= world.h.acked
      ensures loop == if verified then Starting else Waiting
    {
      Advance(true, 0);
      Others();
      if !verified {
        GrowBackoffNow();
      }
      Advance(verified, 0);
      Others();
    }

    /** One round of the loop: a degraded store is verified and, if that passes, recovered. */
    method Round(calls: nat, verified: bool)
      requires Valid() && loop == Waiting
      modifies this, primary, local
      ensures Valid() && loop == Waiting && old(steps) <= steps && old(world.h.acked) <= world.h.acked
      ensures state != Recovering && (state == Healthy ==> buffered == [] && world.h.effective == world.h.acked)
    {
      if state != Degraded {
        return;
      }
      Verify(verified);
      if verified {
        var _ := Recover(calls);
      }
    }
  }
}
