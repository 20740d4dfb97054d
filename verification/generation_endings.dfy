/** Which states of the coordinator can still be stopped, and by which operations. */
module GenerationEndings {
  import opened Wrappers
  import opened GenerationPools
  import opened GenerationMachine
  import opened GenerationSafety

  /** The graceful or the forced end of the server can still answer well: serving did not break
      off, and the end went well before, or has not been tried; a server that was cut off by force
      has no graceful end. */
  predicate CanEnd(s: Server, force: bool) {
    && !s.broken
    && if force then s.forced.Some? ==> s.forced.value
       else if s.graceful.Some? then s.graceful.value else s.phase != Cut
  }

  predicate CanEndBoth(n: Generation, force: bool) {
    CanEnd(n.api, force) && CanEnd(n.ops, force)
  }

  /** A generation that ended with an error answers that error ever after. */
  predicate EndedBadly(n: Generation) {
    n.settled && n.failed
  }

  /** Nothing makes such a generation answer this kind of stop well. */
  predicate Hopeless(n: Generation, force: bool) {
    Stuck(n) || EndedBadly(n) || (n.committed && !n.settled && !CanEndBoth(n, force))
  }

  /** The kinds of stop that are asked for. */
  datatype Kinds = Kinds(graceful: bool, forced: bool) {
    predicate Has(force: bool) {
      if force then forced else graceful
    }
  }

  const EITHER := Kinds(true, true)

  function Only(force: bool): Kinds {
    Kinds(!force, force)
  }

  predicate HopelessFor(n: Generation, kinds: Kinds) {
    (kinds.graceful ==> Hopeless(n, false)) && (kinds.forced ==> Hopeless(n, true))
  }

  predicate HopelessAt(w: World, g: Option<nat>, kinds: Kinds) {
    g.Some? && g.value < |w.gens| && HopelessFor(w.gens[g.value], kinds)
  }

  /** The current or the retiring generation is hopeless for all these kinds. */
  predicate DeadEnd(w: World, kinds: Kinds) {
    HopelessAt(w, w.current, kinds) || HopelessAt(w, w.retiring, kinds)
  }

  /** A reload retires the previous generation gracefully. */
  predicate Uses(op: Operation, kinds: Kinds) {
    match op
    case Reload(_) => kinds.graceful
    case Stop(_) => kinds.graceful
    case ForceStop(_) => kinds.forced
    case _ => true
  }

  predicate AllUse(ops: seq<Operation>, kinds: Kinds) {
    forall i | 0 <= i < |ops| :: Uses(ops[i], kinds)
  }

  // Dead ends stay ------------------------------------------------------------------------------

  /** What an end can no longer do, no end makes possible again. */
  lemma EndRemembers(s: Server, force: bool, fate: ServerFate, kind: bool)
    requires !CanEnd(s, kind)
    ensures var (s', ok) := EndServer(s, force, fate); !CanEnd(s', kind) && (force == kind ==> !ok)
  {
  }

  lemma {:induction false} EndsRemember(n: Generation, force: bool, fate: StopFate, kind: bool)
    requires !CanEndBoth(n, kind)
    ensures var (n', ok) := EndServers(n, force, fate); !CanEndBoth(n', kind) && (force == kind ==> !ok)
  {
    if !CanEnd(n.api, kind) {
      EndRemembers(n.api, force, fate.api, kind);
    } else {
      EndRemembers(n.ops, force, fate.ops, kind);
    }
  }

  lemma {:induction false} CornerRefuses(w: World, g: nat, force: bool, fate: StopFate, kinds: Kinds)
    requires g < |w.gens| && w.gens[g].committed && !w.gens[g].settled && !Stuck(w.gens[g])
    requires kinds.Has(force) && forall k: bool | kinds.Has(k) :: !CanEndBoth(w.gens[g], k)
    ensures var (w', ok) := StopGeneration(w, g, force, fate);
            !ok && |w'.gens| == |w.gens| && HopelessFor(w'.gens[g], kinds) == true
  {
    EndServersFrame(w.gens[g], force, fate);
    forall k: bool | kinds.Has(k)
      ensures !CanEndBoth(EndServers(w.gens[g], force, fate).0, k)
    {
      EndsRemember(w.gens[g], force, fate, k);
    }
    EndsRemember(w.gens[g], force, fate, force);
  }

  lemma {:induction false} HopelessRefuses(w: World, g: nat, force: bool, fate: StopFate, kinds: Kinds)
    requires g < |w.gens| && kinds.Has(force) && HopelessFor(w.gens[g], kinds)
    ensures var (w', ok) := StopGeneration(w, g, force, fate);
            !ok && |w'.gens| == |w.gens| && HopelessFor(w'.gens[g], kinds) == true
  {
    var n := w.gens[g];
    assert Hopeless(n, force);
    if Stuck(n) {
      StuckRefuses(w, g, force, fate);
    } else if !EndedBadly(n) {
      CornerRefuses(w, g, force, fate, kinds);
    }
  }

  lemma {:induction false} HopelessKept(w: World, g: Option<nat>, force: bool, fate: StopFate, x: Option<nat>, kinds: Kinds)
    requires GenerationSafety.Kept(w) == true && HopelessAt(w, x, kinds) && kinds.Has(force)
    ensures HopelessAt(StopOne(w, g, force, fate).0, x, kinds) && (g == x ==> !StopOne(w, g, force, fate).1)
  {
    if g.Some? && g.value < |w.gens| {
      if g == x {
        HopelessRefuses(w, g.value, force, fate, kinds);
      } else {
        StopGenerationOk(w, g.value, force, fate);
      }
    }
  }

  lemma {:induction false} HopelessBlocks(w: World, w0: World, force: bool, fate: StopAllFate, kinds: Kinds)
    requires GenerationSafety.Kept(w) == true && CoordinatorOk(w) && DeadEnd(w, kinds) && kinds.Has(force)
    requires w0 == w.(state := w0.state, ready := w0.ready)
    ensures var (w1, a) := StopOne(w0, w.current, force, fate.current);
            var (w2, b) := StopOne(w1, w.retiring, force, fate.retiring);
            !(a && b) && DeadEnd(Finish(w2, force, false), kinds)
  {
    SameAccounts(w, w0);
    StopOneOk(w0, w.current, force, fate.current);
    var w1 := StopOne(w0, w.current, force, fate.current).0;
    StopOneOk(w1, w.retiring, force, fate.retiring);
    var x := if HopelessAt(w, w.current, kinds) then w.current else w.retiring;
    HopelessKept(w0, w.current, force, fate.current, x, kinds);
    HopelessKept(w1, w.retiring, force, fate.retiring, x, kinds);
  }

  lemma {:induction false} HopelessReloads(w: World, snapshot: Snapshot, previous: nat, fate: ReloadFate, kinds: Kinds)
    requires GenerationSafety.Kept(w) == true && w.current == Some(previous) && HopelessAt(w, w.current, kinds) && !w.gens[previous].settled
    requires kinds.graceful
    ensures DeadEnd(Replace(w, snapshot, previous, fate), kinds) && Replace(w, snapshot, previous, fate).state != Stopped
  {
    InstallOk(w, snapshot, Some(previous), fate);
    var (w1, r) := Install(w, snapshot, Some(previous), fate);
    InstalledHopeless(w, w1, snapshot, previous, r, kinds);
    if r.Some? {
      HopelessRetires(w1, r.value, previous, fate.retire, kinds);
    }
  }

  lemma InstalledHopeless(w: World, w1: World, snapshot: Snapshot, previous: nat, r: Option<nat>, kinds: Kinds)
    requires Installed(w, w1, snapshot, Some(previous), r) && HopelessAt(w, Some(previous), kinds)
    ensures HopelessAt(w1, Some(previous), kinds)
  {
  }

  lemma {:induction false} HopelessRetires(w1: World, g: nat, previous: nat, fate: StopFate, kinds: Kinds)
    requires HopelessAt(w1, Some(previous), kinds) && kinds.graceful
    ensures var w' := RetirePrevious(Publish(w1, g, Some(previous)), previous, fate); DeadEnd(w', kinds) && w'.state != Stopped
  {
    HopelessRefuses(Publish(w1, g, Some(previous)), previous, false, fate, kinds);
  }

  lemma {:induction false} HopelessBreaks(w: World, g: nat, management: bool, x: Option<nat>, kinds: Kinds)
    requires HopelessAt(w, x, kinds)
    ensures HopelessAt(BreakOp(w, g, management), x, kinds)
  {
    if g < |w.gens| && x == Some(g) {
      var w' := BreakOp(w, g, management);
      forall k: bool | Hopeless(w.gens[g], k) ensures Hopeless(w'.gens[g], k) {
      }
    }
  }

  lemma {:induction false} DeadEndStays(w: World, op: Operation, kinds: Kinds)
    requires GenerationSafety.Kept(w) == true && CoordinatorOk(w) && DeadEnd(w, kinds) && Uses(op, kinds)
    ensures DeadEnd(Apply(w, op), kinds) && Apply(w, op).state != Stopped
  {
    match op {
      case Start(fate) =>
      case Reload(fate) =>
        if w.state == Running && fate.loads.Some? {
          HopelessReloads(w, fate.loads.value, w.current.value, fate, kinds);
        }
      case Stop(all) => HopelessBlocks(w, w.(state := Draining, ready := false), false, all, kinds);
      case ForceStop(all) => HopelessBlocks(w, w, true, all, kinds);
      case Break(g, management) =>
        HopelessBreaks(w, g, management, if HopelessAt(w, w.current, kinds) then w.current else w.retiring, kinds);
    }
  }

  lemma {:induction false} DeadEndForever(ops: seq<Operation>, more: seq<Operation>, kinds: Kinds)
    requires DeadEnd(Run(ops), kinds) && AllUse(more, kinds)
    ensures DeadEnd(Run(ops + more), kinds) && Run(ops + more).state != Stopped
  {
    if more == [] {
      assert ops + more == ops;
      RunInv(ops);
    } else {
      var n := |more| - 1;
      DeadEndForever(ops, more[..n], kinds);
      assert (ops + more)[..|ops + more| - 1] == ops + more[..n];
      RunInv(ops + more[..n]);
      DeadEndStays(Run(ops + more[..n]), more[n], kinds);
    }
  }

  // Anything else can be stopped ------------------------------------------------------------------

  const OWNERS_ALL: set<Owner> := {Logger, Database, Cache, I18n, Storage, Metrics, Execution}

  const IN_TIME := ServerFate(true, true)

  /** Everything that a stop asks for answers well. */
  const WELL := StopFate(true, IN_TIME, IN_TIME, true, CloseFate(OWNERS_ALL, true))
  const ALL_WELL := StopAllFate(WELL, WELL, true)

  /** Generation `g` still holds everything from rank `k` on. */
  predicate HoldsFrom(w: World, g: nat, k: nat)
    requires g < |w.gens|
  {
    forall o | o in w.gens[g].handles && ReleaseRank(o) >= k && w.gens[g].handles[o] < |w.handles| ::
      !w.handles[w.gens[g].handles[o]].released
  }

  predicate ReleasingAt(w: World, g: nat, k: nat) {
    Sound(w) && g < |w.gens| && HoldsFrom(w, g, k)
  }

  /** The world after the release at rank `k`. */
  function Released(w: World, g: nat, k: nat): World
    requires g < |w.gens| && k < OWNERS
  {
    var owner := ReleaseOrder(k);
    if owner in w.gens[g].handles then ReleaseHandle(w, w.gens[g].handles[owner], true).0 else w
  }

  lemma {:induction false} HeldReleases(w: World, i: nat)
    requires Sound(w) == true && i < |w.handles| && !w.handles[i].released
    ensures var (w1, ok) := ReleaseHandle(w, i, true);
            ok && Sound(w1) == true && w1.gens == w.gens && |w1.handles| == |w.handles| && w1.handles == w.handles[i := w1.handles[i]]
  {
    ReleaseOk(w.pool, w.handles, i, true, false);
    ReleaseHandleOk(w, i, true);
  }

  lemma {:induction false} HoldsLess(w: World, w1: World, g: nat, k: nat)
    requires Linked(w) && g < |w.gens| && k < OWNERS && HoldsFrom(w, g, k) && w1.gens == w.gens
    requires if ReleaseOrder(k) in w.gens[g].handles
             then var i := w.gens[g].handles[ReleaseOrder(k)];
                  |w1.handles| == |w.handles| && w1.handles == w.handles[i := w1.handles[i]]
             else w1 == w
    ensures HoldsFrom(w1, g, k + 1) == true
  {
    RanksInvert(k);
  }

  lemma {:induction false} ReleasesOne(w: World, g: nat, k: nat)
    requires g < |w.gens| && k < OWNERS && ReleasingAt(w, g, k)
    ensures g < |Released(w, g, k).gens| && ReleasingAt(Released(w, g, k), g, k + 1) == true
    ensures ReleaseOrder(k) in w.gens[g].handles ==> ReleaseHandle(w, w.gens[g].handles[ReleaseOrder(k)], true).1
  {
    RanksInvert(k);
    if ReleaseOrder(k) in w.gens[g].handles {
      HeldReleases(w, w.gens[g].handles[ReleaseOrder(k)]);
    }
    HoldsLess(w, Released(w, g, k), g, k);
  }

  /** Releasing everything from rank `k` on answers well. */
  predicate AllReleases(w: World, g: nat, k: nat)
    requires g < |w.gens|
  {
    ReleaseFrom(w, g, k, OWNERS_ALL).1
  }

  lemma ReleasedAll(w: World, g: nat, k: nat)
    requires g < |w.gens| && k >= OWNERS
    ensures AllReleases(w, g, k)
  {
  }

  lemma {:induction false} ReleaseFromIs(w: World, g: nat, k: nat)
    requires g < |w.gens| && k < OWNERS && g < |Released(w, g, k).gens|
    requires ReleaseOrder(k) in w.gens[g].handles ==> ReleaseHandle(w, w.gens[g].handles[ReleaseOrder(k)], true).1
    ensures AllReleases(w, g, k) == AllReleases(Released(w, g, k), g, k + 1)
  {
    assert ReleaseOrder(k) in OWNERS_ALL;
  }

  lemma {:induction false} ReleasesWell(w: World, g: nat, k: nat)
    requires g < |w.gens| && k <= OWNERS && ReleasingAt(w, g, k) == true
    ensures AllReleases(w, g, k)
    decreases OWNERS - k
  {
    if k < OWNERS {
      ReleasesOne(w, g, k);
      ReleaseFromIs(w, g, k);
      ReleasesWell(Released(w, g, k), g, k + 1);
    } else {
      ReleasedAll(w, g, k);
    }
  }

  /** Given time, the servers end if they can. */
  lemma ServersEndWell(n: Generation, force: bool)
    requires CanEndBoth(n, force)
    ensures EndServers(n, force, WELL).1
  {
  }

  lemma {:induction false} QuietEndsWell(w: World, g: nat, n: Generation)
    requires GenerationSafety.Kept(w) == true && g < |w.gens| && !w.gens[g].settled && n == w.gens[g].(api := n.api, ops := n.ops)
    requires !(n.participantsDone && n.participantsFailed)
    ensures EndQuietly(w, g, n, WELL).1
  {
    var n' := StopParticipants(n, true).0;
    PutGenLinked(w, g, n');
    assert HoldsFrom(PutGen(w, g, n'), g, 0);
    ReleasesWell(PutGen(w, g, n'), g, 0);
  }

  lemma {:induction false} EndsWell(w: World, g: nat, force: bool)
    requires GenerationSafety.Kept(w) == true && g < |w.gens| && w.gens[g].committed && !Hopeless(w.gens[g], force)
    ensures StopGeneration(w, g, force, WELL).1
  {
    var n := w.gens[g];
    if !n.settled {
      var w1 := w.(hubs := Withdrawn(w.hubs, g));
      SameAccounts(w, w1);
      ServersEndWell(n, force);
      EndServersFrame(n, force, WELL);
      QuietEndsWell(w1, g, EndServers(n, force, WELL).0);
    }
  }

  /** A graceful stop takes no forced end away. */
  lemma GraceSparesForce(n: Generation, fate: StopFate)
    requires CanEndBoth(n, true)
    ensures CanEndBoth(EndServers(n, false, fate).0, true)
  {
  }

  /** What a graceful stop did not end, force still can. */
  lemma {:induction false} StopLeavesForce(w: World, g: nat)
    requires GenerationSafety.Kept(w) == true && g < |w.gens| && w.gens[g].committed && !HopelessFor(w.gens[g], EITHER)
    ensures var w' := StopGeneration(w, g, false, WELL).0; |w'.gens| == |w.gens| && !Hopeless(w'.gens[g], true)
  {
    var n := w.gens[g];
    StopGenerationOk(w, g, false, WELL);
    if !Hopeless(n, false) {
      EndsWell(w, g, false);
    } else {
      assert CanEndBoth(n, true);
      EndsRemember(n, false, WELL, false);
      EndServersFrame(n, false, WELL);
      GraceSparesForce(n, WELL);
    }
  }

  lemma {:induction false} SecondEndsWell(w0: World, force: bool)
    requires GenerationSafety.Kept(w0) == true && w0.current.Some? && w0.current.value < |w0.gens|
    requires w0.retiring.Some? && w0.retiring != w0.current && w0.retiring.value < |w0.gens|
    requires w0.gens[w0.retiring.value].committed && !Hopeless(w0.gens[w0.retiring.value], force)
    ensures StopOne(StopOne(w0, w0.current, force, WELL).0, w0.retiring, force, WELL).1
  {
    StopGenerationOk(w0, w0.current.value, force, WELL);
    EndsWell(StopOne(w0, w0.current, force, WELL).0, w0.retiring.value, force);
  }

  function StopAll(force: bool): Operation {
    if force then ForceStop(ALL_WELL) else Stop(ALL_WELL)
  }

  /** One stop of this kind in which everything answers well ends both generations. */
  lemma {:induction false} StopsWell(w: World, force: bool)
    requires GenerationSafety.Kept(w) == true && CoordinatorOk(w)
    requires !DeadEnd(w, Only(force))
    ensures Apply(w, StopAll(force)).state == Stopped
  {
    var w0 := if force then w else w.(state := Draining, ready := false);
    SameAccounts(w, w0);
    if w.current.Some? {
      EndsWell(w0, w.current.value, force);
    }
    if w.retiring.Some? {
      SecondEndsWell(w0, force);
    }
    assert StopOne(w0, w.current, force, WELL).1 && StopOne(StopOne(w0, w.current, force, WELL).0, w.retiring, force, WELL).1;
  }

  /** Force can still end what is left. */
  predicate ForceLeft(w: World) {
    !DeadEnd(w, Only(true))
  }

  lemma {:induction false} ForceRemains(w: World, w0: World)
    requires GenerationSafety.Kept(w) == true && CoordinatorOk(w) && !DeadEnd(w, EITHER)
    requires w0 == w.(state := w0.state, ready := w0.ready)
    ensures var w1 := StopOne(w0, w.current, false, WELL).0;
            var w2 := StopOne(w1, w.retiring, false, WELL).0;
            ForceLeft(w2) == true
  {
    SameAccounts(w, w0);
    StopOneOk(w0, w.current, false, WELL);
    var w1 := StopOne(w0, w.current, false, WELL).0;
    if w.current.Some? {
      StopLeavesForce(w0, w.current.value);
      StopGenerationOk(w0, w.current.value, false, WELL);
    }
    StopOneOk(w1, w.retiring, false, WELL);
    if w.retiring.Some? {
      assert w1.gens[w.retiring.value] == w0.gens[w.retiring.value];
      StopLeavesForce(w1, w.retiring.value);
      StopGenerationOk(w1, w.retiring.value, false, WELL);
    }
  }

  /** After a graceful stop that went as well as it could, force ends what is left. */
  lemma {:induction false} StopThenForce(w: World)
    requires Consistent(w) == true && CoordinatorOk(w) && !DeadEnd(w, EITHER)
    ensures Apply(Apply(w, StopAll(false)), StopAll(true)).state == Stopped
  {
    ApplyOk(w, StopAll(false));
    ForceAfterStop(w);
    StopsWell(Apply(w, StopAll(false)), true);
  }

  lemma {:induction false} ForceAfterStop(w: World)
    requires GenerationSafety.Kept(w) == true && CoordinatorOk(w) == true && !DeadEnd(w, EITHER)
    ensures ForceLeft(Apply(w, StopAll(false)))
  {
    if w.state == Stopped {
      assert CoordinatorOk(w);
    } else {
      var w0 := w.(state := Draining, ready := false);
      ForceRemains(w, w0);
      var w1 := StopOne(w0, w.current, false, WELL).0;
      FinishLeaves(StopOne(w1, w.retiring, false, WELL).0);
    }
  }

  lemma FinishLeaves(w: World)
    requires ForceLeft(w)
    ensures forall asked, ok :: ForceLeft(Finish(w, asked, ok)) == true
  {
  }

  /** The stops to try: gracefully first if that is allowed, then by force if that is. */
  function Attempts(kinds: Kinds): seq<Operation> {
    (if kinds.graceful then [StopAll(false)] else []) + (if kinds.forced then [StopAll(true)] else [])
  }

  lemma {:induction false} AttemptsStop(ops: seq<Operation>, kinds: Kinds)
    requires (kinds.graceful || kinds.forced) && !DeadEnd(Run(ops), kinds)
    ensures AllUse(Attempts(kinds), kinds) && Run(ops + Attempts(kinds)).state == Stopped
  {
    RunInv(ops);
    if kinds == EITHER {
      var two := ops + [StopAll(false)];
      assert two[..|ops|] == ops && (two + [StopAll(true)])[..|two|] == two;
      assert ops + Attempts(kinds) == two + [StopAll(true)];
      StopThenForce(Run(ops));
    } else {
      var k := kinds.forced;
      assert kinds == Only(k);
      assert Attempts(kinds) == [StopAll(k)];
      assert (ops + [StopAll(k)])[..|ops|] == ops;
      StopsWell(Run(ops), k);
    }
  }

  /** With these kinds of stop the coordinator can still reach Stopped if and only if neither the
      current nor the retiring generation is hopeless for all of them. */
  lemma {:induction false} StoppableBy(ops: seq<Operation>, kinds: Kinds)
    requires kinds.graceful || kinds.forced
    ensures (exists more :: AllUse(more, kinds) && Run(ops + more).state == Stopped) <==> !DeadEnd(Run(ops), kinds)
  {
    if DeadEnd(Run(ops), kinds) {
      forall more | AllUse(more, kinds) ensures Run(ops + more).state != Stopped {
        DeadEndForever(ops, more, kinds);
      }
    } else {
      AttemptsStop(ops, kinds);
    }
  }

  /** Whatever is done, the coordinator can still reach Stopped if and only if neither generation
      is one whose participants failed to stop, or that ended with an error, or whose servers can
      end neither both gracefully nor both by force. */
  lemma {:induction false} StoppableExactly(ops: seq<Operation>)
    ensures (exists more :: Run(ops + more).state == Stopped) <==> !DeadEnd(Run(ops), EITHER)
  {
    StoppableBy(ops, EITHER);
    forall more ensures AllUse(more, EITHER) {
    }
  }
}
