/** Every action keeps the invariant. */
module HubInductive {
  import opened Wrappers
  import opened HubMachine
  import opened HubInvariant

  // Frames ------------------------------------------------------------------------------------

  /** The driver changes neither what a route holds nor what an accept loop has in hand. */
  predicate SameTraffic(r: Route, r': Route) {
    && r'.entry == r.entry && r'.pending == r.pending && r'.queue == r.queue && r'.completing == r.completing
    && r'.delivered == r.delivered && r'.discarded == r.discarded && r'.signalled == r.signalled
    && r'.willSignal == r.willSignal && r'.drained == r.drained
    && (r.retiring ==> r'.retiring) && (r.closed ==> r'.closed)
  }

  predicate Framed(w: World, w': World) {
    && w'.capacity == w.capacity && w'.reserved == w.reserved && w'.conns == w.conns
    && |w.routes| <= |w'.routes| && |w.entries| <= |w'.entries|
    && (forall i | 0 <= i < |w.routes| :: SameTraffic(w.routes[i], w'.routes[i]))
    && (forall i | |w.routes| <= i < |w'.routes| :: w'.routes[i] == NewRoute(w'.routes[i].entry) && w'.routes[i].entry < |w'.entries|)
    && (forall e | 0 <= e < |w.entries| :: w'.entries[e].acceptor == w.entries[e].acceptor)
    && (forall e | |w.entries| <= e < |w'.entries| :: w'.entries[e].acceptor == Starting)
    && (forall e | 0 <= e < |w'.entries| :: OnEntry(w', e, w'.entries[e].active) && OnEntry(w', e, w'.entries[e].retiring))
    && (forall a | a in w'.table :: w'.table[a] < |w'.entries|)
  }

  lemma {:induction false} NoneReserved(log: seq<Reservation>, i: nat)
    requires forall k | 0 <= k < |log| :: log[k].route != i
    ensures ReservedOn(log, i) == []
  {
    if log != [] {
      NoneReserved(log[..|log| - 1], i);
    }
  }

  lemma FramedConnected(w: World, w': World)
    requires Connected(w) && Framed(w, w') == true && ReservedKnown(w)
    ensures Connected(w')
  {
    forall e | 0 <= e < |w'.entries| ensures EntryOk(w', e) {
      if e < |w.entries| {
        assert EntryOk(w, e);
      }
    }
    forall i | 0 <= i < |w'.routes| ensures RouteOk(w', i) {
      if i < |w.routes| {
        assert RouteOk(w, i) && SameTraffic(w.routes[i], w'.routes[i]);
        assert Sent(w', i) == Sent(w, i);
      } else {
        NoneReserved(w.reserved, i);
        var e := w'.routes[i].entry;
        if e < |w.entries| {
          assert EntryOk(w, e);
        }
        assert Sent(w', i) == [];
      }
    }
  }

  predicate ReservedKnown(w: World) {
    forall k | 0 <= k < |w.reserved| :: w.reserved[k].route < |w.routes|
  }

  lemma LogKnown(w: World)
    requires LogOk(w) && CommitsOk(w)
    ensures ReservedKnown(w)
  {
    forall k | 0 <= k < |w.reserved| ensures w.reserved[k].route < |w.routes| {
      assert w.commits[w.reserved[k].epoch - 1] == w.reserved[k].route;
    }
  }

  lemma FramedDistinct(w: World, w': World)
    requires Distinct(w) && Framed(w, w') == true
    ensures Distinct(w')
  {
    forall e | 0 <= e < |w'.entries| && w'.entries[e].acceptor.Holding? ensures Fresh(w', w'.entries[e].acceptor.conn) {
      assert e < |w.entries| && Fresh(w, w.entries[e].acceptor.conn);
    }
  }

  // The driver is framed ------------------------------------------------------------------------

  predicate Linked(w: World) {
    && (forall e | 0 <= e < |w.entries| :: OnEntry(w, e, w.entries[e].active) && OnEntry(w, e, w.entries[e].retiring))
    && (forall a | a in w.table :: w.table[a] < |w.entries|)
  }

  lemma ConnectedLinked(w: World)
    requires Connected(w)
    ensures Linked(w)
  {
    forall e | 0 <= e < |w.entries| ensures OnEntry(w, e, w.entries[e].active) && OnEntry(w, e, w.entries[e].retiring) {
      assert EntryOk(w, e);
    }
  }

  lemma PutEntryFramed(w: World, e: nat, n: Entry)
    requires Linked(w) && e < |w.entries| && n.acceptor == w.entries[e].acceptor
    requires OnEntry(w, e, n.active) && OnEntry(w, e, n.retiring)
    ensures Framed(w, PutEntry(w, e, n)) == true
  {
  }

  lemma UnregisterFramed(w: World, e: nat, n: Entry)
    requires Linked(w) && e < |w.entries| && n.acceptor == w.entries[e].acceptor
    requires OnEntry(w, e, n.active) && OnEntry(w, e, n.retiring)
    ensures Framed(w, Unregister(w, e, n)) == true
  {
  }

  lemma LeaveFramed(w: World, next: nat, previous: nat)
    requires Linked(w)
    ensures Framed(w, TickLeave(w, next, previous)) == true
  {
  }

  lemma RetireFramed(w: World, next: nat, previous: nat)
    requires Linked(w)
    ensures Framed(w, TickRetire(w, next, previous)) == true
  {
  }

  lemma SwitchFramed(w: World, next: nat)
    requires Linked(w)
    ensures Framed(w, TickSwitch(w, next)) == true
  {
  }

  lemma ActivateFramed(w: World, next: nat, was: Option<nat>)
    requires Linked(w)
    ensures Framed(w, TickActivate(w, next, was)) == true
  {
  }

  lemma SettleFramed(w: World, next: nat, was: Option<nat>)
    requires Linked(w)
    ensures Framed(w, TickSettle(w, next, was)) == true
  {
  }

  lemma FinishFramed(w: World, next: nat, was: Option<nat>)
    requires Linked(w)
    ensures Framed(w, TickFinish(w, next, was)) == true
  {
  }

  lemma AbortCloseFramed(w: World, c: nat)
    requires Linked(w)
    ensures Framed(w, TickAbortClose(w, c)) == true
  {
  }

  lemma AbortDropFramed(w: World, c: nat)
    requires Linked(w)
    ensures Framed(w, TickAbortDrop(w, c)) == true
  {
    if c < |w.routes| && w.routes[c].entry < |w.entries| {
      UnregisterFramed(w, w.routes[c].entry, w.entries[w.routes[c].entry]);
    }
  }

  lemma RetireRouteFramed(w: World, r: nat)
    requires Linked(w)
    ensures Framed(w, TickRetireRoute(w, r)) == true
  {
  }

  lemma StopFramed(w: World, k: nat)
    requires Linked(w)
    ensures Framed(w, TickStop(w, k)) == true
  {
  }

  lemma PrepareFramed(w: World, address: string, binds: bool)
    requires Linked(w)
    ensures Framed(w, BeginPrepare(w, address, binds)) == true
  {
  }

  lemma BeginAbortFramed(w: World)
    requires Linked(w)
    ensures Framed(w, BeginAbort(w)) == true
  {
  }

  lemma BeginRetireFramed(w: World)
    requires Linked(w)
    ensures Framed(w, BeginRetire(w)) == true
  {
  }

  lemma BeginReleaseFramed(w: World, r: nat)
    requires Linked(w)
    ensures Framed(w, BeginRelease(w, r)) == true
  {
    if r < |w.routes| && w.routes[r].entry < |w.entries| && w.entries[w.routes[r].entry].active != Some(r) {
      var e := w.routes[r].entry;
      var n := w.entries[e];
      UnregisterFramed(w, e, if n.retiring == Some(r) then n.(retiring := None) else n);
    }
  }

  lemma TickFramed(w: World)
    requires Linked(w)
    ensures Framed(w, Tick(w)) == true
  {
    match w.ctl
    case Idle =>
    case CommitLeave(next, previous) => LeaveFramed(w, next, previous);
    case CommitRetire(next, previous) => RetireFramed(w, next, previous);
    case CommitSwitch(next) => SwitchFramed(w, next);
    case CommitActivate(next, was) => ActivateFramed(w, next, was);
    case CommitSettle(next, was) => SettleFramed(w, next, was);
    case CommitFinish(next, was) => FinishFramed(w, next, was);
    case AbortClose(c) => AbortCloseFramed(w, c);
    case AbortDrop(c) => AbortDropFramed(w, c);
    case RetireRoute(r) => RetireRouteFramed(w, r);
    case StopEntries(k) => StopFramed(w, k);
  }

  lemma BeginFramed(w: World, op: Operation)
    requires Linked(w)
    ensures Framed(w, Begin(w, op)) == true
  {
    match op
    case Prepare(address, binds) => PrepareFramed(w, address, binds);
    case Commit =>
    case Abort => BeginAbortFramed(w);
    case Retire => BeginRetireFramed(w);
    case Release(r) => BeginReleaseFramed(w, r);
    case Stop =>
  }

  // The driver hands over linearly --------------------------------------------------------------

  lemma LeaveHands(w: World, next: nat, previous: nat)
    requires Handoff(w) == true && Linked(w)
    requires w.ctl == CommitLeave(next, previous)
    ensures Handoff(TickLeave(w, next, previous)) == true
  {
  }

  lemma RetireHands(w: World, next: nat, previous: nat)
    requires Handoff(w) == true && Linked(w)
    requires w.ctl == CommitRetire(next, previous)
    ensures Handoff(TickRetire(w, next, previous)) == true
  {
  }

  lemma SwitchHands(w: World, next: nat)
    requires Handoff(w) == true && Linked(w)
    requires w.ctl == CommitSwitch(next)
    ensures Handoff(TickSwitch(w, next)) == true
  {
  }

  lemma ActivateHands(w: World, next: nat, was: Option<nat>)
    requires Handoff(w) == true && Linked(w)
    requires w.ctl == CommitActivate(next, was)
    ensures Handoff(TickActivate(w, next, was)) == true
  {
  }

  lemma SettleHands(w: World, next: nat, was: Option<nat>)
    requires Handoff(w) == true && Linked(w)
    requires w.ctl == CommitSettle(next, was)
    ensures Handoff(TickSettle(w, next, was)) == true
  {
  }

  lemma FinishHands(w: World, next: nat, was: Option<nat>)
    requires Handoff(w) == true && Linked(w)
    requires w.ctl == CommitFinish(next, was)
    ensures Handoff(TickFinish(w, next, was)) == true
  {
  }

  lemma AbortCloseHands(w: World, c: nat)
    requires Handoff(w) == true && Linked(w)
    requires w.ctl == AbortClose(c)
    ensures Handoff(TickAbortClose(w, c)) == true
  {
  }

  lemma AbortDropHands(w: World, c: nat)
    requires Handoff(w) == true && Linked(w)
    requires w.ctl == AbortDrop(c)
    ensures Handoff(TickAbortDrop(w, c)) == true
  {
  }

  lemma RetireRouteHands(w: World, r: nat)
    requires Handoff(w) == true && Linked(w)
    requires w.ctl == RetireRoute(r)
    ensures Handoff(TickRetireRoute(w, r)) == true
  {
  }

  lemma StopHands(w: World, k: nat)
    requires Handoff(w) == true && Linked(w)
    requires w.ctl == StopEntries(k)
    ensures Handoff(TickStop(w, k)) == true
  {
  }

  lemma PrepareHands(w: World, address: string, binds: bool)
    requires Handoff(w) == true && Linked(w)
    requires w.ctl.Idle?
    ensures Handoff(BeginPrepare(w, address, binds)) == true
  {
  }

  lemma BeginCommitHands(w: World)
    requires Handoff(w) == true && Linked(w)
    requires w.ctl.Idle?
    ensures Handoff(BeginCommit(w)) == true
  {
  }

  lemma BeginAbortHands(w: World)
    requires Handoff(w) == true && Linked(w)
    requires w.ctl.Idle?
    ensures Handoff(BeginAbort(w)) == true
  {
  }

  lemma BeginRetireHands(w: World)
    requires Handoff(w) == true && Linked(w) && w.ctl.Idle?
    ensures Handoff(BeginRetire(w)) == true
  {
    if w.current.Some? {
      var r := w.current.value;
      assert OnlyOpen(w, Some(r)) && Last(w, Some(r));
      if r < |w.routes| && w.routes[r].entry < |w.entries| && w.entries[w.routes[r].entry].active == Some(r) {
        RetireActiveHands(w, r);
      }
    }
  }

  lemma RetireActiveHands(w: World, r: nat)
    requires Handoff(w) == true && w.ctl.Idle? && w.current == Some(r)
    requires r < |w.routes| && w.routes[r].entry < |w.entries| && w.entries[w.routes[r].entry].active == Some(r)
    ensures Handoff(BeginRetire(w)) == true
  {
  }

  lemma BeginReleaseHands(w: World, r: nat)
    requires Handoff(w) == true && Linked(w)
    requires w.ctl.Idle?
    ensures Handoff(BeginRelease(w, r)) == true
  {
  }

  lemma TickHands(w: World)
    requires Handoff(w) == true && Linked(w)
    ensures Handoff(Tick(w)) == true
  {
    match w.ctl
    case Idle =>
    case CommitLeave(next, previous) => LeaveHands(w, next, previous);
    case CommitRetire(next, previous) => RetireHands(w, next, previous);
    case CommitSwitch(next) => SwitchHands(w, next);
    case CommitActivate(next, was) => ActivateHands(w, next, was);
    case CommitSettle(next, was) => SettleHands(w, next, was);
    case CommitFinish(next, was) => FinishHands(w, next, was);
    case AbortClose(c) => AbortCloseHands(w, c);
    case AbortDrop(c) => AbortDropHands(w, c);
    case RetireRoute(r) => RetireRouteHands(w, r);
    case StopEntries(k) => StopHands(w, k);
  }

  lemma BeginHands(w: World, op: Operation)
    requires Handoff(w) == true && Linked(w) && w.ctl.Idle?
    ensures Handoff(Begin(w, op)) == true
  {
    match op
    case Prepare(address, binds) => PrepareHands(w, address, binds);
    case Commit => BeginCommitHands(w);
    case Abort => BeginAbortHands(w);
    case Retire => BeginRetireHands(w);
    case Release(r) => BeginReleaseHands(w, r);
    case Stop =>
  }

  // Traffic -----------------------------------------------------------------------------------

  /** Nothing that decides where connections go has changed. */
  predicate SameRouting(w: World, w': World) {
    && w'.ctl == w.ctl && w'.candidate == w.candidate && w'.current == w.current && w'.commits == w.commits
    && w'.commitRefused == w.commitRefused && w'.closed == w.closed && w'.table == w.table && w'.capacity == w.capacity
    && |w'.entries| == |w.entries| && |w'.routes| == |w.routes|
    && (forall e | 0 <= e < |w.entries| :: w'.entries[e].active == w.entries[e].active && w'.entries[e].retiring == w.entries[e].retiring)
    && (forall i | 0 <= i < |w.routes| ::
          && w'.routes[i].entry == w.routes[i].entry && w'.routes[i].retiring == w.routes[i].retiring
          && w'.routes[i].committed == w.routes[i].committed)
  }

  lemma SameRoutingHands(w: World, w': World)
    requires Handoff(w) == true && SameRouting(w, w') == true && w'.reserved == w.reserved
    ensures Handoff(w') == true
  {
  }

  lemma TakeOk(w: World, i: nat, serve: bool)
    requires i < |w.routes| && RouteOk(w, i) && |w.routes[i].queue| > 0
    ensures RouteOk(PutRoute(w, i, Take(w.routes[i], serve)), i) == true
  {
    var r := w.routes[i];
    var w' := PutRoute(w, i, Take(r, serve));
    assert Sent(w', i) == Sent(w, i);
    assert r.queue == [r.queue[0]] + r.queue[1..];
  }

  lemma CompleteOk(w: World, i: nat)
    requires i < |w.routes| && RouteOk(w, i) && w.routes[i].completing > 0
    ensures w.routes[i].pending > 0
    ensures RouteOk(PutRoute(w, i, Complete(w.routes[i])), i) == true
  {
    assert Sent(PutRoute(w, i, Complete(w.routes[i])), i) == Sent(w, i);
  }

  lemma FlagOk(w: World, i: nat, m: Move)
    requires i < |w.routes| && RouteOk(w, i) && (m.CloseFlag? || m.CloseSignal? || m.Mark? || m.Announce?)
    ensures RouteOk(PutRoute(w, i, RouteStep(w.routes[i], m)), i) == true
  {
    assert Sent(PutRoute(w, i, RouteStep(w.routes[i], m)), i) == Sent(w, i);
  }

  lemma RouteMoveOk(w: World, i: nat, m: Move)
    requires i < |w.routes| && RouteOk(w, i) == true
    ensures RouteOk(PutRoute(w, i, RouteStep(w.routes[i], m)), i) == true
  {
    var r := w.routes[i];
    if RouteStep(r, m) == r {
      assert PutRoute(w, i, r) == w;
    } else if m.Serve? {
      TakeOk(w, i, true);
    } else if m.CloseTake? {
      TakeOk(w, i, false);
    } else if m.Finish? {
      CompleteOk(w, i);
    } else {
      FlagOk(w, i, m);
    }
  }

  /** Which routes and entries a step left alone is enough to know they are as they were. */
  lemma OthersOk(w: World, w': World, t: nat)
    requires Connected(w) == true && SameRouting(w, w') == true && t < |w.routes|
    requires forall i | 0 <= i < |w.routes| && i != t ::
               w'.routes[i] == w.routes[i] && ReservedOn(w'.reserved, i) == ReservedOn(w.reserved, i) && Sent(w', i) == Sent(w, i)
    requires forall e | 0 <= e < |w.entries| :: w'.entries[e].acceptor == w.entries[e].acceptor
               || (w'.entries[e].acceptor.Dispatching? ==> OnEntry(w, e, Some(w'.entries[e].acceptor.route)))
    requires RouteOk(w', t) == true
    ensures Connected(w') == true
  {
    forall j | 0 <= j < |w'.routes| ensures RouteOk(w', j) {
      assert RouteOk(w, j);
    }
    forall e | 0 <= e < |w'.entries| ensures EntryOk(w', e) {
      assert EntryOk(w, e);
    }
  }

  lemma PutTrafficKeeps(w: World, i: nat, r: Route)
    requires Connected(w) == true && Distinct(w) && Handoff(w) == true && i < |w.routes|
    requires r.entry == w.routes[i].entry && r.retiring == w.routes[i].retiring && r.committed == w.routes[i].committed
    requires RouteOk(PutRoute(w, i, r), i) == true
    ensures Inv(PutRoute(w, i, r))
  {
    var w' := PutRoute(w, i, r);
    assert SameRouting(w, w');
    OthersOk(w, w', i);
    SameRoutingHands(w, w');
    assert Distinct(w');
  }

  lemma RouteMoveKeeps(w: World, i: nat, m: Move)
    requires Connected(w) && Distinct(w) == true && Handoff(w) == true && i < |w.routes|
    ensures Inv(PutRoute(w, i, RouteStep(w.routes[i], m))) == true
  {
    assert RouteOk(w, i);
    RouteMoveOk(w, i, m);
    PutTrafficKeeps(w, i, RouteStep(w.routes[i], m));
  }

  /** A step of an accept loop that reserves nothing and hands nothing over. */
  lemma IdleAcceptConnected(w: World, e: nat, n: Entry, conns: nat)
    requires Connected(w) == true && e < |w.entries|
    requires n.active == w.entries[e].active && n.retiring == w.entries[e].retiring
    requires !w.entries[e].acceptor.Dispatching? && !n.acceptor.Dispatching?
    ensures Connected(PutEntry(w, e, n).(conns := conns)) == true
  {
    var w' := PutEntry(w, e, n).(conns := conns);
    forall j | 0 <= j < |w'.routes| ensures RouteOk(w', j) {
      assert RouteOk(w, j) && Sent(w', j) == Sent(w, j);
    }
    forall f | 0 <= f < |w'.entries| ensures EntryOk(w', f) {
      assert EntryOk(w, f);
    }
  }

  lemma IdleAcceptDistinct(w: World, e: nat, n: Entry, conns: nat)
    requires Distinct(w) && e < |w.entries|
    requires conns >= w.conns && (n.acceptor.Holding? ==> n.acceptor.conn == w.conns < conns)
    ensures Distinct(PutEntry(w, e, n).(conns := conns)) == true
  {
  }

  lemma IdleAcceptKeeps(w: World, e: nat, n: Entry, conns: nat)
    requires Connected(w) == true && Distinct(w) == true && Handoff(w) == true && e < |w.entries|
    requires n.active == w.entries[e].active && n.retiring == w.entries[e].retiring
    requires !w.entries[e].acceptor.Dispatching? && !n.acceptor.Dispatching?
    requires conns >= w.conns && (n.acceptor.Holding? ==> n.acceptor.conn == w.conns < conns)
    ensures Inv(PutEntry(w, e, n).(conns := conns))
  {
    IdleAcceptConnected(w, e, n, conns);
    IdleAcceptDistinct(w, e, n, conns);
    SameRoutingHands(w, PutEntry(w, e, n).(conns := conns));
  }

  /** Handing over: the connection leaves the hand and joins the queue or is refused. */
  lemma DispatchRoute(w: World, e: nat, queue: bool)
    requires e < |w.entries| && w.entries[e].acceptor.Dispatching? && EntryOk(w, e)
    requires RouteOk(w, w.entries[e].acceptor.route)
    ensures RouteOk(AcceptStep(w, e, true, queue), w.entries[e].acceptor.route) == true
  {
  }

  lemma DispatchKeeps(w: World, e: nat, queue: bool)
    requires Connected(w) == true && Distinct(w) == true && Handoff(w) == true
    requires e < |w.entries| && w.entries[e].acceptor.Dispatching?
    ensures Inv(AcceptStep(w, e, true, queue))
  {
    var w' := AcceptStep(w, e, true, queue);
    var t := w.entries[e].acceptor.route;
    assert EntryOk(w, e) && RouteOk(w, t);
    DispatchRoute(w, e, queue);
    DispatchFrame(w, e, queue);
    OthersOk(w, w', t);
    SameRoutingHands(w, w');
    DispatchDistinct(w, e, queue);
  }

  lemma DispatchFrame(w: World, e: nat, queue: bool)
    requires Connected(w) && e < |w.entries| && w.entries[e].acceptor.Dispatching?
    ensures var t, w' := w.entries[e].acceptor.route, AcceptStep(w, e, true, queue);
            && SameRouting(w, w') && w'.reserved == w.reserved && t < |w.routes|
            && (forall i | 0 <= i < |w.routes| && i != t :: w'.routes[i] == w.routes[i] && Sent(w', i) == Sent(w, i))
            && (forall f | 0 <= f < |w.entries| :: w'.entries[f].acceptor == w.entries[f].acceptor || !w'.entries[f].acceptor.Dispatching?)
  {
    assert EntryOk(w, e);
    forall i | 0 <= i < |w.routes| ensures w.routes[i].entry < |w.entries| {
      assert RouteOk(w, i);
    }
  }

  lemma DispatchDistinct(w: World, e: nat, queue: bool)
    requires Distinct(w) && e < |w.entries| && w.entries[e].acceptor.Dispatching?
    ensures Distinct(AcceptStep(w, e, true, queue)) == true
  {
  }

  /** A reservation goes to the latest commit. */
  lemma ReserveKeeps(w: World, e: nat, conn: nat, t: nat)
    requires Connected(w) == true && Distinct(w) == true && Handoff(w) == true
    requires e < |w.entries| && w.entries[e].acceptor == Holding(conn)
    requires Target(w.entries[e]) == Some(t) && t < |w.routes| && MayReserve(w.routes[t])
    ensures Inv(AcceptStep(w, e, true, true))
  {
    var w' := AcceptStep(w, e, true, true);
    assert EntryOk(w, e) && RouteOk(w, t);
    ReserveRoute(w, e, conn, t);
    ReserveFrame(w, e, conn, t);
    OthersOk(w, w', t);
    ReserveDistinct(w, e, conn, t);
    ReserveHands(w, e, conn, t);
  }

  lemma ReserveRoute(w: World, e: nat, conn: nat, t: nat)
    requires e < |w.entries| && w.entries[e].acceptor == Holding(conn)
    requires Target(w.entries[e]) == Some(t) && t < |w.routes| && MayReserve(w.routes[t]) && EntryOk(w, e)
    requires RouteOk(w, t)
    ensures RouteOk(AcceptStep(w, e, true, true), t) == true
  {
    var w' := AcceptStep(w, e, true, true);
    assert w'.reserved[..|w'.reserved| - 1] == w.reserved;
    assert Sent(w, t) == [] && Sent(w', t) == [conn];
    assert multiset(ReservedOn(w'.reserved, t)) == multiset(ReservedOn(w.reserved, t)) + multiset([conn]);
  }

  lemma ReserveFrame(w: World, e: nat, conn: nat, t: nat)
    requires Connected(w) && e < |w.entries| && w.entries[e].acceptor == Holding(conn)
    requires Target(w.entries[e]) == Some(t) && t < |w.routes| && MayReserve(w.routes[t])
    ensures var w' := AcceptStep(w, e, true, true);
            && SameRouting(w, w')
            && (forall i | 0 <= i < |w.routes| && i != t ::
                  w'.routes[i] == w.routes[i] && Sent(w', i) == Sent(w, i) && ReservedOn(w'.reserved, i) == ReservedOn(w.reserved, i))
            && (forall f | 0 <= f < |w.entries| :: w'.entries[f].acceptor == w.entries[f].acceptor
                  || (w'.entries[f].acceptor.Dispatching? ==> OnEntry(w, f, Some(w'.entries[f].acceptor.route))))
  {
    var w' := AcceptStep(w, e, true, true);
    assert EntryOk(w, e) && w'.reserved[..|w'.reserved| - 1] == w.reserved;
    forall i | 0 <= i < |w.routes| ensures RouteOk(w, i) {
    }
  }

  lemma ReserveDistinct(w: World, e: nat, conn: nat, t: nat)
    requires Distinct(w) && e < |w.entries| && w.entries[e].acceptor == Holding(conn)
    requires Target(w.entries[e]) == Some(t) && t < |w.routes| && MayReserve(w.routes[t])
    ensures Distinct(AcceptStep(w, e, true, true))
  {
    var w' := AcceptStep(w, e, true, true);
    forall f | 0 <= f < |w'.entries| && w'.entries[f].acceptor.Holding? ensures Fresh(w', w'.entries[f].acceptor.conn) {
      assert f != e && Fresh(w, w.entries[f].acceptor.conn);
    }
    assert Fresh(w, conn);
  }

  lemma LogGrows(w: World, conn: nat, t: nat)
    requires LogOk(w) && Last(w, Some(t))
    ensures LogOk(w.(reserved := w.reserved + [Reservation(conn, t, |w.commits|)])) == true
  {
  }

  lemma ReserveHands(w: World, e: nat, conn: nat, t: nat)
    requires Handoff(w) == true && e < |w.entries| && w.entries[e].acceptor == Holding(conn)
    requires Target(w.entries[e]) == Some(t) && t < |w.routes| && MayReserve(w.routes[t])
    ensures Handoff(AcceptStep(w, e, true, true)) == true
  {
    var w' := AcceptStep(w, e, true, true);
    assert OnlyOpen(w, Admits(w)) && Last(w, Admits(w));
    assert Admits(w) == Some(t);
    LogGrows(w, conn, t);
    LogAlike(w.(reserved := w'.reserved), w');
    SameRoutingHands(w, w'.(reserved := w.reserved));
    WithLog(w'.(reserved := w.reserved), w'.reserved);
  }

  lemma LogAlike(w: World, w': World)
    requires LogOk(w) && SameRouting(w, w') && w'.reserved == w.reserved
    ensures LogOk(w') == true
  {
  }

  lemma WithLog(w: World, log: seq<Reservation>)
    requires Handoff(w) == true && LogOk(w.(reserved := log)) == true
    ensures Handoff(w.(reserved := log)) == true
  {
  }

  lemma AcceptKeeps(w: World, e: nat, ok: bool, queue: bool)
    requires Connected(w) == true && Distinct(w) == true && Handoff(w) == true && e < |w.entries|
    ensures Inv(AcceptStep(w, e, ok, queue)) == true
  {
    var n := w.entries[e];
    var w' := AcceptStep(w, e, ok, queue);
    if n.acceptor.Dispatching? {
      DispatchKeeps(w, e, queue);
    } else if n.acceptor.Holding? && Target(n).Some? && Target(n).value < |w.routes| && MayReserve(w.routes[Target(n).value]) {
      ReserveKeeps(w, e, n.acceptor.conn, Target(n).value);
    } else {
      IdleAcceptKeeps(w, e, w'.entries[e], w'.conns);
    }
  }

  // All actions ---------------------------------------------------------------------------------

  lemma {:induction false} ApplyKeeps(w: World, a: Action)
    requires Inv(w) == true
    ensures Inv(Apply(w, a)) == true
  {
    match a {
      case Operate(op) =>
        if w.ctl.Idle? {
          ConnectedLinked(w);
          LogKnown(w);
          BeginFramed(w, op);
          FramedConnected(w, Begin(w, op));
          FramedDistinct(w, Begin(w, op));
          BeginHands(w, op);
        }
      case Drive =>
        ConnectedLinked(w);
        LogKnown(w);
        TickFramed(w);
        FramedConnected(w, Tick(w));
        FramedDistinct(w, Tick(w));
        TickHands(w);
      case AcceptorMove(e, ok, queue) =>
        if e < |w.entries| {
          AcceptKeeps(w, e, ok, queue);
        }
      case RouteMove(i, m) =>
        if i < |w.routes| {
          RouteMoveKeeps(w, i, m);
        }
    }
  }

  lemma {:induction false} RunInv(capacity: nat, actions: seq<Action>)
    ensures Inv(Run(capacity, actions)) == true
  {
    if actions != [] {
      RunInv(capacity, actions[..|actions| - 1]);
      ApplyKeeps(Run(capacity, actions[..|actions| - 1]), actions[|actions| - 1]);
    }
  }
}
