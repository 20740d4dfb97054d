/** Runs that reach the ends and losses described before. */
module GenerationReached {
  import opened Wrappers
  import opened GenerationPools
  import opened GenerationMachine
  import opened GenerationSafety
  import opened GenerationEndings
  import opened GenerationServing

  function SomeSnapshot(digest: string): Snapshot {
    Snapshot(digest, map o | o in OWNERS_ALL :: "section", "address", "management")
  }

  const PREPARES := PrepareFate(OWNERS + 1, OWNERS_ALL, AbortFate(true, true, CloseFate(OWNERS_ALL, true)))

  const COMMITS := CommitFate(true, true, true, true, true)

  /** A load, a preparation and a commit that succeed, followed by the given retirement. */
  function Succeeds(digest: string, retire: StopFate): ReloadFate {
    ReloadFate(Some(SomeSnapshot(digest)), true, PREPARES, COMMITS, PREPARES.abort, retire)
  }

  /** The next acquire of generation `g` is the one at rank `k`. */
  predicate AcquiringAt(w: World, g: nat, k: nat, digest: string) {
    && PoolOk(w.pool, w.handles) && Linked(w) && g < |w.gens|
    && w.gens[g].snapshot == SomeSnapshot(digest) && forall o | o in w.gens[g].handles :: AcquireRank(o) < k
  }

  function KeyOf(owner: Owner): Key {
    Key(owner, if owner == Metrics then METRICS_DIGEST else "section")
  }

  lemma KeyIs(digest: string, owner: Owner)
    ensures KeyFor(SomeSnapshot(digest), owner) == Some(KeyOf(owner)) && KeyOf(owner).digest != "" && owner in OWNERS_ALL
  {
  }

  /** The world after the acquire at rank `k`, which works. */
  function Acquired(w: World, g: nat, k: nat): World
    requires g < |w.gens| && k < OWNERS
  {
    var (p, r) := Acquire(w.pool, KeyOf(AcquireOrder(k)), true);
    if r.Refused? then w else AddHandle(w, g, AcquireOrder(k), p, KeyOf(AcquireOrder(k)), r.entry)
  }

  lemma AcquireGranted(p: Pool, hs: seq<Handle>, key: Key)
    requires PoolOk(p, hs) && key.digest != ""
    ensures !Acquire(p, key, true).1.Refused?
  {
  }

  lemma {:induction false} AcquiresOne(w: World, g: nat, k: nat, digest: string)
    requires AcquiringAt(w, g, k, digest) && k < OWNERS
    ensures AcquiringAt(Acquired(w, g, k), g, k + 1, digest) == true && !Acquire(w.pool, KeyOf(AcquireOrder(k)), true).1.Refused?
  {
    KeyIs(digest, AcquireOrder(k));
    AcquireGranted(w.pool, w.handles, KeyOf(AcquireOrder(k)));
    var (p, r) := Acquire(w.pool, KeyOf(AcquireOrder(k)), true);
    AcquireNext(w, g, k, AcquireOrder(k), p, KeyOf(AcquireOrder(k)), r.entry, true);
  }

  lemma {:induction false} AcquireFromIs(w: World, g: nat, k: nat, digest: string)
    requires g < |w.gens| && k < OWNERS && w.gens[g].snapshot == SomeSnapshot(digest)
    requires !Acquire(w.pool, KeyOf(AcquireOrder(k)), true).1.Refused?
    ensures AcquireFrom(w, g, k, PREPARES) == AcquireFrom(Acquired(w, g, k), g, k + 1, PREPARES)
  {
    KeyIs(digest, AcquireOrder(k));
  }

  lemma {:induction false} AcquiresWell(w: World, g: nat, k: nat, digest: string)
    requires AcquiringAt(w, g, k, digest) == true && g < |w.gens| && k <= OWNERS
    ensures AcquireFrom(w, g, k, PREPARES).1
    decreases OWNERS - k
  {
    if k < OWNERS {
      AcquiresOne(w, g, k, digest);
      AcquireFromIs(w, g, k, digest);
      AcquiresWell(Acquired(w, g, k), g, k + 1, digest);
    }
  }

  lemma {:induction false} InstallsWell(w: World, digest: string, previous: Option<nat>, retire: StopFate)
    requires GenerationSafety.Kept(w) == true && (previous.Some? ==> previous.value < |w.gens| && Receives(w, previous.value))
    ensures var (w1, r) := Install(w, SomeSnapshot(digest), previous, Succeeds(digest, retire));
            r == Some(|w.gens|) && GenerationSafety.Kept(w1) == true && Installed(w, w1, SomeSnapshot(digest), previous, r) == true
  {
    PreparesWell(w, digest);
    SwitchesWell(w, digest, previous);
    InstallOk(w, SomeSnapshot(digest), previous, Succeeds(digest, retire));
    InstallHubs(w, SomeSnapshot(digest), previous, Succeeds(digest, retire));
  }

  lemma {:induction false} PreparesWell(w: World, digest: string)
    requires GenerationSafety.Kept(w) == true
    ensures Prepare(w, SomeSnapshot(digest), PREPARES).1.Some?
  {
    var n := Candidate(SomeSnapshot(digest));
    NewGenLinked(w, n);
    AcquiresWell(w.(gens := w.gens + [n]), |w.gens|, 0, digest);
    PrepareOk(w, SomeSnapshot(digest), PREPARES);
  }

  lemma SwitchesWell(w: World, digest: string, previous: Option<nat>)
    requires previous.Some? ==> previous.value < |w.gens| && Receives(w, previous.value)
    ensures Switch(w.hubs, SomeSnapshot(digest), |w.gens|, AddressOf(w, previous, false), AddressOf(w, previous, true), COMMITS).1
  {
    if previous.Some? {
      SwitchFails(w.hubs, w.gens[previous.value].snapshot, previous.value, SomeSnapshot(digest), |w.gens|, COMMITS);
    }
  }

  /** One generation runs and has not been asked to stop. */
  predicate FreshlyStarted(w: World) {
    && w.state == Running && w.current == Some(0) && w.retiring.None? && !w.cleanup && |w.gens| == 1
    && w.gens[0].snapshot.digest == "first" && w.gens[0].committed && !w.gens[0].settled && Unasked(w.gens[0])
    && w.gens[0].snapshot.address == "address" && Receives(w, 0)
  }

  const START := Start(Succeeds("first", WELL))

  lemma {:induction false} StartsWell()
    ensures GenerationSafety.Kept(Run([START])) == true && FreshlyStarted(Run([START])) == true
  {
    assert [START][..0] == [];
    assert GenerationSafety.Kept(INIT);
    InstallsWell(INIT, "first", None, WELL);
    StartServes(INIT, START.fate);
    RunInv([START]);
  }

  /** The stop fails and leaves a current generation whose participants failed to stop. */
  predicate StoppedStuck(w: World) {
    w.state == Failed && w.current == Some(0) && w.gens != [] && Stuck(w.gens[0]) && DeadEnd(w, EITHER)
  }

  const FAILING_STOP := Stop(StopAllFate(StopFate(true, IN_TIME, IN_TIME, false, WELL.close), WELL, true))

  lemma {:induction false} StuckAfter(w: World)
    requires GenerationSafety.Kept(w) == true && FreshlyStarted(w)
    ensures StoppedStuck(Apply(w, FAILING_STOP)) == true
  {
    var w0 := w.(state := Draining, ready := false);
    var n := EndServers(w.gens[0], false, FAILING_STOP.all.current).0.(participantsDone := true, participantsFailed := true);
    assert StopOne(w0, Some(0), false, FAILING_STOP.all.current) == (PutGen(w0.(hubs := Withdrawn(w0.hubs, 0)), 0, n), false);
  }

  /** A stop whose participants fail leaves the coordinator unstoppable. */
  lemma {:induction false} StuckIsReachable()
    ensures StoppedStuck(Run([START] + [FAILING_STOP]))
  {
    StartsWell();
    assert ([START] + [FAILING_STOP])[..1] == [START];
    StuckAfter(Run([START]));
  }

  /** The reload was committed, and the previous generation is retained, settled with an error
      though its participants stopped. */
  predicate ReloadedBadly(w: World) {
    w.state == Degraded && w.retiring == Some(0) && w.gens != [] && EndedBadly(w.gens[0]) && !w.gens[0].participantsFailed && DeadEnd(w, EITHER)
  }

  const CLOSES_BADLY := StopFate(true, IN_TIME, IN_TIME, true, CloseFate(OWNERS_ALL, false))
  const FAILING_RELOAD := Reload(Succeeds("second", CLOSES_BADLY))

  lemma {:induction false} ClosesBadly(w: World, g: nat)
    requires GenerationSafety.Kept(w) == true && g < |w.gens|
    requires w.gens[g].committed && !w.gens[g].settled && Unasked(w.gens[g])
    ensures var (w', ok) := StopGeneration(w, g, false, CLOSES_BADLY);
            !ok && OnlyGen(w, w', g) == true && EndedBadly(w'.gens[g]) && !w'.gens[g].participantsFailed
  {
    var (n1, quiet) := EndServers(w.gens[g], false, CLOSES_BADLY);
    var n := n1.(participantsDone := true, participantsFailed := false);
    assert quiet && StopParticipants(n1, true) == (n, true);
    var w1 := w.(hubs := Withdrawn(w.hubs, g));
    SameAccounts(w, w1);
    EndOk(w1, g, n, CLOSES_BADLY.close, false);
    StopGenerationOk(w, g, false, CLOSES_BADLY);
  }

  lemma {:induction false} BadEndAfter(w: World)
    requires GenerationSafety.Kept(w) == true && FreshlyStarted(w)
    ensures ReloadedBadly(Replace(w, SomeSnapshot("second"), 0, FAILING_RELOAD.fate)) == true
  {
    InstallsWell(w, "second", Some(0), CLOSES_BADLY);
    var w1 := Install(w, SomeSnapshot("second"), Some(0), FAILING_RELOAD.fate).0;
    var w2 := Publish(w1, 1, Some(0));
    SameAccounts(w1, w2);
    ClosesBadly(w2, 0);
  }

  /** So does a reload whose previous generation stops its participants but fails to close one
      resource. */
  lemma {:induction false} BadEndIsReachable()
    ensures ReloadedBadly(Run([START] + [FAILING_RELOAD]))
  {
    StartsWell();
    var w := Run([START]);
    assert ([START] + [FAILING_RELOAD])[..1] == [START];
    BadEndAfter(w);
    assert "first"[0] != "second"[0];
    assert Apply(w, FAILING_RELOAD) == Replace(w, SomeSnapshot("second"), 0, FAILING_RELOAD.fate);
  }

  /** The first stop overran an open request, and force was given no time: participants were never
      asked, and the servers have neither end left. */
  predicate Cornered(w: World) {
    && w.state == Failed && w.current == Some(0) && w.gens != [] && DeadEnd(w, EITHER)
    && !Stuck(w.gens[0]) && !w.gens[0].settled && !w.gens[0].participantsDone
  }

  const TOO_LATE := ServerFate(false, false)
  const HURRIED := StopFate(true, TOO_LATE, TOO_LATE, true, WELL.close)
  const OVERRUN_STOP := Stop(StopAllFate(HURRIED, WELL, true))
  const OVERRUN_FORCE := ForceStop(StopAllFate(HURRIED, WELL, true))

  /** The graceful end of the first server is spent. */
  predicate Overrun(w: World) {
    && w.state == Failed && w.current == Some(0) && w.retiring.None? && |w.gens| == 1
    && w.gens[0].committed && !w.gens[0].settled && !w.gens[0].participantsDone
    && w.gens[0].api == Server(Ending, false, Some(false), None) && w.gens[0].ops == SERVING
  }

  lemma {:induction false} OverrunAfter(w: World)
    requires FreshlyStarted(w)
    ensures Overrun(Apply(w, OVERRUN_STOP)) == true
  {
    var w0 := w.(state := Draining, ready := false, hubs := Withdrawn(w.hubs, 0));
    var n := w.gens[0].(api := Server(Ending, false, Some(false), None));
    assert EndServers(w.gens[0], false, HURRIED) == (n, false);
    assert StopOne(w.(state := Draining, ready := false), Some(0), false, HURRIED) == (PutGen(w0, 0, n), false);
  }

  lemma {:induction false} CorneredAfter(w: World)
    requires Overrun(w)
    ensures Cornered(Apply(w, OVERRUN_FORCE)) == true
  {
    var failed := Server(Ending, false, Some(false), Some(false));
    var n := w.gens[0].(api := failed, ops := Server(Ending, false, None, Some(false)));
    assert EndServers(w.gens[0], true, HURRIED) == (n, false);
    assert StopOne(w, Some(0), true, HURRIED) == (PutGen(w.(hubs := Withdrawn(w.hubs, 0)), 0, n), false);
  }

  /** After one stop that overran, no further graceful stop succeeds, but a forced one can. */
  lemma {:induction false} OverrunIsReachable()
    ensures var w := Run([START] + [OVERRUN_STOP]); DeadEnd(w, Only(false)) && !DeadEnd(w, EITHER) && Overrun(w)
  {
    StartsWell();
    assert ([START] + [OVERRUN_STOP])[..1] == [START];
    OverrunAfter(Run([START]));
  }

  /** If that one overruns too, nothing succeeds any more. */
  lemma {:induction false} CornerIsReachable()
    ensures Cornered(Run([START] + [OVERRUN_STOP] + [OVERRUN_FORCE]))
  {
    OverrunIsReachable();
    var two := [START] + [OVERRUN_STOP];
    assert (two + [OVERRUN_FORCE])[..2] == two;
    CorneredAfter(Run(two));
  }

  const HALF_SWITCH := Reload(Succeeds("second", WELL).(commit := COMMITS.(consumes := false)))

  /** A reload whose messages fail to switch is rejected, and the coordinator runs and is ready with
      the generation it had, which no connection reaches any more. */
  lemma {:induction false} ServiceCanBeLost()
    ensures var w := Run([START] + [HALF_SWITCH]); w.state == Running && w.ready && w.current == Some(0) && !Served(w)
  {
    StartsWell();
    var w := Run([START]);
    assert ([START] + [HALF_SWITCH])[..1] == [START];
    assert "first"[0] != "second"[0];
    HalfSwitched(w);
    RunInv([START]);
    StepServes(w, HALF_SWITCH);
  }

  lemma {:induction false} HalfSwitched(w: World)
    requires GenerationSafety.Kept(w) == true && FreshlyStarted(w)
    ensures HalfSwitches(w, HALF_SWITCH.fate)
    ensures var w' := Apply(w, HALF_SWITCH); w'.state == Running && w'.ready && w'.current == Some(0)
  {
    assert "first"[0] != "second"[0];
    PreparesWell(w, "second");
    InstallOk(w, SomeSnapshot("second"), Some(0), HALF_SWITCH.fate);
    InstallHubs(w, SomeSnapshot("second"), Some(0), HALF_SWITCH.fate);
  }
}
