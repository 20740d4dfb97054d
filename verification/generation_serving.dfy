/** When the generation that a coordinator reports as current receives what comes in. */
module GenerationServing {
  import opened Wrappers
  import opened GenerationPools
  import opened GenerationMachine
  import opened GenerationSafety

  predicate Leads(routes: map<string, nat>, address: string, g: nat) {
    address in routes && routes[address] == g
  }

  /** Connections to both its addresses, messages and schedules go to generation `g`. */
  predicate Admits(h: Hubs, s: Snapshot, g: nat) {
    && Leads(h.routes, s.address, g) && Leads(h.managed, s.management, g)
    && h.messaging == Some(g) && h.schedule == Some(g)
  }

  predicate Receives(w: World, g: nat) {
    && g < |w.gens| && Admits(w.hubs, w.gens[g].snapshot, g)
    && w.gens[g].api.phase == Up && w.gens[g].ops.phase == Up
  }

  /** The coordinator runs, or only owes the end of the generation before. */
  predicate Reports(w: World) {
    w.state == Running || w.state == Degraded
  }

  predicate Served(w: World) {
    Reports(w) ==> w.current.Some? && Receives(w, w.current.value)
  }

  /** A reload that prepared its generation and opened publishing, and then fails to switch the
      messages or the schedules. The listeners have been switched by then. */
  predicate HalfSwitches(w: World, fate: ReloadFate) {
    && w.state == Running && w.current.Some? && w.current.value < |w.gens| && !NothingToDo(w, fate)
    && Prepare(w, fate.loads.value, fate.prepare).1.Some?
    && fate.commit.opens && !(fate.commit.consumes && fate.commit.schedules)
  }

  predicate Loses(w: World, op: Operation) {
    match op
    case Reload(fate) => HalfSwitches(w, fate)
    case Break(g, _) => Reports(w) && w.current == Some(g)
    case _ => false
  }

  // Hubs ----------------------------------------------------------------------------------------

  lemma SwitchAdmits(h: Hubs, s: Snapshot, g: nat, api: Option<(string, nat)>, ops: Option<(string, nat)>, fate: CommitFate)
    ensures Switch(h, s, g, api, ops, fate).1 ==> Admits(Switch(h, s, g, api, ops, fate).0, s, g)
  {
  }

  /** Replacing a generation that receives everything fails only where publishing, messages or
      schedules do, and from the second on the listeners no longer lead to it. */
  lemma SwitchFails(h: Hubs, before: Snapshot, x: nat, s: Snapshot, g: nat, fate: CommitFate)
    requires Admits(h, before, x) && g != x
    ensures var (h', ok) := Switch(h, s, g, Some((before.address, x)), Some((before.management, x)), fate);
            && (ok <==> fate.opens && fate.consumes && fate.schedules)
            && if fate.opens then !Leads(h'.routes, before.address, x) else h' == h
  {
  }

  lemma MutedAdmits(h: Hubs, s: Snapshot, x: nat, g: nat)
    requires x != g
    ensures Admits(Muted(h, g), s, x) <==> Admits(h, s, x)
  {
  }

  lemma WithdrawnAdmits(h: Hubs, s: Snapshot, x: nat, g: nat)
    requires x != g && Admits(h, s, x)
    ensures Admits(Withdrawn(h, g), s, x)
  {
  }

  /** What installing a generation does to the hubs. */
  lemma {:induction false} InstallHubs(w: World, snapshot: Snapshot, previous: Option<nat>, fate: ReloadFate)
    requires GenerationSafety.Kept(w) == true && (previous.Some? ==> previous.value < |w.gens|)
    ensures var (w', r) := Install(w, snapshot, previous, fate);
            var (h, ok) := Switch(w.hubs, snapshot, |w.gens|, AddressOf(w, previous, false), AddressOf(w, previous, true), fate.commit);
            if Prepare(w, snapshot, fate.prepare).1.None? then r.None? && w'.hubs == Muted(w.hubs, |w.gens|)
            else r.Some? == ok && w'.hubs == if ok then h else Muted(h, |w.gens|)
  {
    PrepareOk(w, snapshot, fate.prepare);
    var (w1, r) := Prepare(w, snapshot, fate.prepare);
    if r.Some? {
      assert AddressOf(w1, previous, false) == AddressOf(w, previous, false) && AddressOf(w1, previous, true) == AddressOf(w, previous, true);
      CommitOk(w1, r.value, previous, fate.commit);
      var (w2, ok) := CommitGeneration(w1, r.value, previous, fate.commit);
      if !ok {
        AbortOk(w2, r.value, fate.abort);
      }
    }
  }

  // One operation -------------------------------------------------------------------------------

  lemma {:induction false} StartServes(w: World, fate: ReloadFate)
    requires GenerationSafety.Kept(w) == true && CoordinatorOk(w) && Served(w)
    ensures Served(StartOp(w, fate)) == true
  {
    if w.state == New && fate.loads.Some? {
      InstallOk(w, fate.loads.value, None, fate);
      InstallHubs(w, fate.loads.value, None, fate);
      SwitchAdmits(w.hubs, fate.loads.value, |w.gens|, None, None, fate.commit);
    }
  }

  /** A generation that was just installed receives everything, also while the one before ends. */
  lemma {:induction false} RetiringServes(w: World, g: nat, previous: nat, fate: StopFate)
    requires GenerationSafety.Kept(w) == true && Receives(w, g) && previous < |w.gens| && previous != g
    ensures var w' := RetirePrevious(Publish(w, g, Some(previous)), previous, fate); Reports(w') && w'.current == Some(g) && Receives(w', g) == true
  {
    var w1 := Publish(w, g, Some(previous));
    SameAccounts(w, w1);
    StopGenerationOk(w1, previous, false, fate);
    WithdrawnAdmits(w.hubs, w.gens[g].snapshot, g, previous);
  }

  lemma {:induction false} ReplaceServes(w: World, snapshot: Snapshot, x: nat, fate: ReloadFate)
    requires GenerationSafety.Kept(w) == true && w.state == Running && w.current == Some(x) && Receives(w, x)
    ensures Reports(Replace(w, snapshot, x, fate)) == true
    ensures Served(Replace(w, snapshot, x, fate)) <==>
              !(Prepare(w, snapshot, fate.prepare).1.Some? && fate.commit.opens && !(fate.commit.consumes && fate.commit.schedules))
  {
    InstallOk(w, snapshot, Some(x), fate);
    InstallHubs(w, snapshot, Some(x), fate);
    var (w1, r) := Install(w, snapshot, Some(x), fate);
    var s := w.gens[x].snapshot;
    SwitchFails(w.hubs, s, x, snapshot, |w.gens|, fate.commit);
    if r.Some? {
      InstalledReceives(w, w1, snapshot, x, fate);
      RetiringServes(w1, |w.gens|, x, fate.retire);
    } else {
      var h := Switch(w.hubs, snapshot, |w.gens|, Some((s.address, x)), Some((s.management, x)), fate.commit).0;
      MutedAdmits(w.hubs, s, x, |w.gens|);
      MutedAdmits(h, s, x, |w.gens|);
    }
  }

  lemma {:induction false} InstalledReceives(w: World, w1: World, snapshot: Snapshot, x: nat, fate: ReloadFate)
    requires Installed(w, w1, snapshot, Some(x), Some(|w.gens|)) && x < |w.gens|
    requires var (h, ok) := Switch(w.hubs, snapshot, |w.gens|, AddressOf(w, Some(x), false), AddressOf(w, Some(x), true), fate.commit);
             ok && w1.hubs == h
    ensures Receives(w1, |w.gens|) == true
  {
    SwitchAdmits(w.hubs, snapshot, |w.gens|, AddressOf(w, Some(x), false), AddressOf(w, Some(x), true), fate.commit);
  }

  lemma {:induction false} ReloadServes(w: World, fate: ReloadFate)
    requires GenerationSafety.Kept(w) == true && CoordinatorOk(w) && Served(w)
    ensures Served(ReloadOp(w, fate)) <==> !HalfSwitches(w, fate)
  {
    if w.state == Running && !NothingToDo(w, fate) {
      ReplaceServes(w, fate.loads.value, w.current.value, fate);
    }
  }

  lemma {:induction false} StopServes(w: World, force: bool, fate: StopAllFate)
    ensures Served(if force then ForceStopOp(w, fate) else StopOp(w, fate)) == true
  {
  }

  lemma {:induction false} BreakServes(w: World, g: nat, management: bool)
    requires CoordinatorOk(w) && Served(w)
    ensures Served(BreakOp(w, g, management)) <==> !(Reports(w) && w.current == Some(g))
  {
  }

  /** A coordinator whose current generation receives everything keeps it so if and only if the
      operation is neither a half switch nor the break of one of its servers. */
  lemma {:induction false} StepServes(w: World, op: Operation)
    requires GenerationSafety.Kept(w) == true && CoordinatorOk(w) == true && Served(w) == true
    ensures Served(Apply(w, op)) <==> !Loses(w, op)
  {
    match op
    case Start(fate) => StartServes(w, fate);
    case Reload(fate) => ReloadServes(w, fate);
    case Stop(all) => StopServes(w, false, all);
    case ForceStop(all) => StopServes(w, true, all);
    case Break(g, management) => BreakServes(w, g, management);
  }

  // Whole runs ------------------------------------------------------------------------------------

  ghost predicate ServedThroughout(ops: seq<Operation>) {
    forall k | 0 <= k <= |ops| :: Served(Run(ops[..k]))
  }

  ghost predicate NeverLost(ops: seq<Operation>) {
    forall k | 0 <= k < |ops| :: !Loses(Run(ops[..k]), ops[k])
  }

  lemma {:induction false} ServedSnoc(ops: seq<Operation>, n: nat)
    requires n + 1 == |ops|
    ensures ServedThroughout(ops) <==> ServedThroughout(ops[..n]) && Served(Run(ops)) == true
  {
    assert ops[..n + 1] == ops;
    forall k | 0 <= k <= n ensures ops[..n][..k] == ops[..k] {
    }
  }

  lemma {:induction false} LostSnoc(ops: seq<Operation>, n: nat)
    requires n + 1 == |ops|
    ensures NeverLost(ops) <==> NeverLost(ops[..n]) && Loses(Run(ops[..n]), ops[n]) == false
  {
    assert forall k | 0 <= k < n :: ops[..n][..k] == ops[..k] && ops[..n][k] == ops[k];
  }

  /** In every run the coordinator's current generation receives what comes in, at all times at
      which it runs or is degraded, if and only if no reload failed between the listeners and the
      schedules and no server of a current generation broke. */
  lemma {:induction false} ServesExactly(ops: seq<Operation>)
    ensures ServedThroughout(ops) <==> NeverLost(ops)
  {
    if ops == [] {
      assert ops[..0] == [];
    } else {
      var n := |ops| - 1;
      ServesExactly(ops[..n]);
      ServedSnoc(ops, n);
      LostSnoc(ops, n);
      RunInv(ops[..n]);
      if ServedThroughout(ops[..n]) {
        assert ops[..n][..n] == ops[..n];
        assert Served(Run(ops[..n][..n]));
        StepServes(Run(ops[..n]), ops[n]);
      }
    }
  }

  /** A reload in which nothing fails by itself is applied if and only if each listener hub either
      changes its address or still leads to the generation to be replaced. */
  lemma {:induction false} AppliedExactly(ops: seq<Operation>, fate: ReloadFate)
    requires Run(ops).state == Running
    requires var w := Run(ops);
             w.current.Some? && w.current.value < |w.gens| && !NothingToDo(w, fate) && Prepare(w, fate.loads.value, fate.prepare).1.Some?
    requires fate.commit.opens && fate.commit.consumes && fate.commit.schedules
    ensures var w := Run(ops);
            Apply(w, Reload(fate)).current == Some(|w.gens|) <==>
              Replaceable(w.hubs, w.gens[w.current.value].snapshot, w.current.value, fate.loads.value)
  {
    RunInv(ops);
    AppliedOf(Run(ops), fate);
  }

  /** Each hub either changes its address or leads to generation `x`. */
  predicate Replaceable(h: Hubs, s: Snapshot, x: nat, next: Snapshot) {
    && (next.address == s.address ==> Leads(h.routes, s.address, x))
    && (next.management == s.management ==> Leads(h.managed, s.management, x))
  }

  lemma SwitchSucceeds(h: Hubs, s: Snapshot, x: nat, next: Snapshot, g: nat, fate: CommitFate)
    requires fate.opens && fate.consumes && fate.schedules
    ensures Switch(h, next, g, Some((s.address, x)), Some((s.management, x)), fate).1 <==> Replaceable(h, s, x, next)
  {
  }

  lemma {:induction false} RetireKeepsCurrent(w: World, g: nat, x: nat, fate: StopFate)
    requires GenerationSafety.Kept(w) == true && x < |w.gens|
    ensures RetirePrevious(Publish(w, g, Some(x)), x, fate).current == Some(g)
  {
    SameAccounts(w, Publish(w, g, Some(x)));
    StopGenerationOk(Publish(w, g, Some(x)), x, false, fate);
  }

  lemma {:induction false} AppliedOf(w: World, fate: ReloadFate)
    requires GenerationSafety.Kept(w) == true && CoordinatorOk(w) && w.state == Running && !NothingToDo(w, fate)
    requires Prepare(w, fate.loads.value, fate.prepare).1.Some? && fate.commit.opens && fate.commit.consumes && fate.commit.schedules
    ensures ReloadOp(w, fate).current == Some(|w.gens|) <==>
              Replaceable(w.hubs, w.gens[w.current.value].snapshot, w.current.value, fate.loads.value)
  {
    var x, next := w.current.value, fate.loads.value;
    InstallOk(w, next, w.current, fate);
    InstallHubs(w, next, w.current, fate);
    SwitchSucceeds(w.hubs, w.gens[x].snapshot, x, next, |w.gens|, fate.commit);
    var (w1, r) := Install(w, next, w.current, fate);
    if r.Some? {
      RetireKeepsCurrent(w1, r.value, x, fate.retire);
    }
  }

  /** The coordinator runs with generation `x`, and its address does not lead there. */
  predicate Lost(w: World, x: nat, address: string) {
    && w.state == Running && w.ready && w.current == Some(x) && x < |w.gens| && w.gens[x].snapshot.address == address
    && !Leads(w.hubs.routes, address, x)
  }

  /** A reload that keeps the address, or the break of a server. */
  predicate KeepsAddress(op: Operation, address: string) {
    match op
    case Reload(fate) => fate.loads.Some? ==> fate.loads.value.address == address
    case Break(_, _) => true
    case _ => false
  }

  lemma {:induction false} RefusedAgain(w: World, snapshot: Snapshot, x: nat, fate: ReloadFate)
    requires GenerationSafety.Kept(w) == true && Lost(w, x, snapshot.address)
    ensures Lost(Replace(w, snapshot, x, fate), x, snapshot.address) == true
  {
    InstallOk(w, snapshot, Some(x), fate);
    InstallHubs(w, snapshot, Some(x), fate);
  }

  lemma {:induction false} LostReload(w: World, fate: ReloadFate, x: nat, address: string)
    requires GenerationSafety.Kept(w) == true && Lost(w, x, address) && !w.cleanup && (fate.loads.Some? ==> fate.loads.value.address == address)
    ensures Lost(ReloadOp(w, fate), x, address) == true
  {
    if NothingToDo(w, fate) {
      assert ReloadOp(w, fate) == Reject(w);
    } else {
      RefusedAgain(w, fate.loads.value, x, fate);
      assert ReloadOp(w, fate) == Replace(w, fate.loads.value, x, fate);
    }
  }

  lemma LostBreak(w: World, g: nat, management: bool, x: nat, address: string)
    requires Lost(w, x, address)
    ensures Lost(BreakOp(w, g, management), x, address) == true
  {
  }

  lemma NoDebt(w: World)
    requires CoordinatorOk(w)
    ensures w.state == Running ==> !w.cleanup
  {
  }

  lemma {:induction false} LostStep(w: World, op: Operation, x: nat, address: string)
    requires GenerationSafety.Kept(w) == true && CoordinatorOk(w) == true && Lost(w, x, address) == true && KeepsAddress(op, address)
    ensures Lost(Apply(w, op), x, address) == true
  {
    NoDebt(w);
    assert w.state == Running by {
      assert Lost(w, x, address);
    }
    match op
    case Reload(fate) => LostReload(w, fate, x, address);
    case Break(g, management) => LostBreak(w, g, management, x, address);
    case _ =>
  }

  ghost predicate AllKeepAddress(ops: seq<Operation>, address: string) {
    forall i | 0 <= i < |ops| :: KeepsAddress(ops[i], address)
  }

  /** Once lost, the coordinator still runs and is ready, and none of any number of reloads that keep
      the address is ever applied. */
  lemma {:induction false} StaysLost(ops: seq<Operation>, more: seq<Operation>, x: nat, address: string)
    requires Lost(Run(ops), x, address) == true && AllKeepAddress(more, address)
    ensures Lost(Run(ops + more), x, address) == true
  {
    if more == [] {
      assert ops + more == ops;
    } else {
      var n := |more| - 1;
      StaysLost(ops, more[..n], x, address);
      assert (ops + more)[..|ops + more| - 1] == ops + more[..n];
      RunInv(ops + more[..n]);
      LostStep(Run(ops + more[..n]), more[n], x, address);
    }
  }
}
