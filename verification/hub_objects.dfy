/** The virtual listener and the hub as objects. A listener's methods are proved to do what
    the functions of HubMachine say, or, for Close, what the whole loop amounts to. The hub's
    operations perform their critical sections one action at a time, with accept loops,
    servers and closers acting between any two; the ghost list `acts` is the run so far. */
module HubObjects {
  import opened Wrappers
  import opened HubMachine
  import opened HubInvariant
  import opened HubInductive
  import opened HubSafety

  class GenerationListener {
    const entry: nat
    var queue: seq<nat>
    var pending: int
    var retiring: bool
    var closed: bool
    var signalled: bool
    var willSignal: bool
    var drained: bool
    var committed: bool
    var aborted: bool
    ghost var completing: nat
    ghost var delivered: seq<nat>
    ghost var discarded: seq<nat>

    ghost function Value(): Route
      reads this
    {
      Route(entry, queue, completing, pending, retiring, closed, signalled, willSignal, drained, committed, aborted,
            delivered, discarded)
    }

    /** Nobody is between taking a connection and taking back its count, and `hand` reserved
        connections are still on their way. */
    ghost predicate Counted(hand: nat)
      reads this
    {
      completing == 0 && pending == hand + |queue| && (willSignal ==> retiring && pending == 0)
    }

    constructor (entry: nat)
      ensures Value() == NewRoute(entry) && Counted(0)
    {
      this.entry := entry;
      queue, pending, completing := [], 0, 0;
      retiring, closed, signalled, willSignal, drained, committed, aborted := false, false, false, false, false, false, false;
      delivered, discarded := [], [];
    }

    method TryReserve() returns (ok: bool)
      modifies this`pending
      ensures ok == MayReserve(old(Value())) && Value() == if ok then Reserve(old(Value())) else old(Value())
    {
      if closed || retiring {
        return false;
      }
      pending := pending + 1;
      return true;
    }

    method CompletePending()
      requires completing > 0
      modifies this`pending, this`willSignal, this`completing
      ensures Value() == Complete(old(Value()))
    {
      if pending > 0 {
        pending := pending - 1;
      }
      completing := completing - 1;
      willSignal := willSignal || (retiring && pending == 0);
    }

    method MarkDrainedIfNeeded()
      modifies this`willSignal, this`drained
      ensures Value() == Signal(MarkDrained(old(Value())))
    {
      willSignal := willSignal || (retiring && pending == 0);
      if willSignal {
        drained := true;
      }
    }

    method RetireNow(ghost hand: nat)
      requires Counted(hand)
      modifies this`retiring, this`willSignal, this`drained
      ensures Counted(hand) && retiring && queue == old(queue) && pending == old(pending)
      ensures hand == 0 && queue == [] ==> drained
    {
      retiring := true;
      MarkDrainedIfNeeded();
    }

    /** One Accept: the oldest queued connection, or nothing once the listener is closed. */
    method Accept(ghost hand: nat) returns (conn: Option<nat>)
      requires Counted(hand)
      modifies this
      ensures Counted(hand) && retiring == old(retiring) && closed == old(closed)
      ensures old(queue) != [] ==>
                && conn == Some(old(queue)[0]) && queue == old(queue)[1..] && delivered == old(delivered) + [old(queue)[0]]
                && pending == old(pending) - 1
      ensures old(queue) == [] ==> conn == None && queue == [] && pending == old(pending) && delivered == old(delivered)
      ensures discarded == old(discarded) && (old(willSignal) ==> willSignal)
    {
      if queue == [] {
        return None;
      }
      conn := Some(queue[0]);
      delivered := delivered + [queue[0]];
      queue := queue[1..];
      completing := completing + 1;
      CompletePending();
    }

    /** Closes everything queued, in order, and gives every one of them back. */
    method Close(ghost hand: nat)
      requires Counted(hand)
      modifies this
      ensures Counted(hand) && closed && signalled && queue == []
      ensures discarded == old(discarded) + old(queue) && delivered == old(delivered)
      ensures pending == hand && retiring == old(retiring)
      ensures retiring && hand == 0 ==> drained
    {
      closed := true;
      signalled := true;
      while queue != []
        invariant Counted(hand) && closed && signalled && retiring == old(retiring) && delivered == old(delivered)
        invariant discarded + queue == old(discarded) + old(queue)
        decreases |queue|
      {
        assert queue == [queue[0]] + queue[1..];
        discarded := discarded + [queue[0]];
        queue := queue[1..];
        completing := completing + 1;
        CompletePending();
      }
      MarkDrainedIfNeeded();
    }
  }

  class ListenerHub {
    const capacity: nat
    var entries: seq<Entry>
    var table: map<string, nat>
    var routes: seq<Route>
    var closed: bool
    var candidate: Option<nat>
    var current: Option<nat>
    var conns: nat
    ghost const given: nat
    ghost var acts: seq<Action>
    ghost var world: World

    ghost predicate Valid()
      reads this
    {
      && world == Run(given, acts)
      && world.capacity == capacity && world.entries == entries && world.table == table && world.routes == routes
      && world.closed == closed && world.candidate == candidate && world.current == current && world.conns == conns
    }

    constructor (queueCapacity: nat)
      ensures Valid() && acts == [] && world.ctl.Idle? && capacity > 0 && !closed
    {
      given := queueCapacity;
      capacity := if queueCapacity == 0 then DEFAULT_CAPACITY else queueCapacity;
      entries, table, routes, closed, candidate, current, conns := [], map[], [], false, None, None, 0;
      acts := [];
      world := Init(queueCapacity);
    }

    ghost method Record(a: Action)
      requires world == Run(given, acts)
      modifies this`acts, this`world
      ensures world == Run(given, acts) == Apply(old(world), a) && acts == old(acts) + [a]
    {
      assert (acts + [a])[..|acts|] == acts;
      acts := acts + [a];
      world := Apply(world, a);
    }

    // Traffic -----------------------------------------------------------------------------

    method MoveRoute(i: nat, m: Move)
      requires Valid() && i < |routes|
      modifies this
      ensures Valid() && world == Apply(old(world), RouteMove(i, m)) && acts == old(acts) + [RouteMove(i, m)]
    {
      routes := routes[i := RouteStep(routes[i], m)];
      Record(RouteMove(i, m));
    }

    /** Starts the accept loop, accepts a connection, or ends the loop. */
    method AcceptPhysical(e: nat, ok: bool, queue: bool)
      requires Valid() && e < |entries| && (entries[e].acceptor == Starting || entries[e].acceptor == Accepting)
      modifies this
      ensures Valid() && world == Apply(old(world), AcceptorMove(e, ok, queue)) && acts == old(acts) + [AcceptorMove(e, ok, queue)]
    {
      var n := entries[e];
      if n.stopped {
        n := n.(acceptor := Ended);
      } else if n.acceptor == Starting {
        n := if n.activated then n.(acceptor := Accepting) else n;
      } else if !ok {
        n := n.(acceptor := Ended, failed := true);
      } else {
        n := n.(acceptor := Holding(conns));
        conns := conns + 1;
      }
      entries := entries[e := n];
      Record(AcceptorMove(e, ok, queue));
    }

    /** The active route or, without one, the retiring route, if it may still be reserved on.
        It is the route committed last. */
    method PickTarget(e: nat) returns (target: Option<nat>)
      requires Valid() && e < |entries|
      ensures target.Some? ==> target == Target(entries[e]) && target.value < |routes| && MayReserve(routes[target.value])
      ensures target.None? ==> Target(entries[e]).None? || Target(entries[e]).value >= |routes| || !MayReserve(routes[Target(entries[e]).value])
      ensures Last(world, target)
    {
      target := entries[e].active;
      if target.None? {
        target := entries[e].retiring;
      }
      TargetIsLast(given, acts, e);
      if target.Some? && (routes[target.value].closed || routes[target.value].retiring) {
        target := None;
      }
    }

    /** Under the dispatch barrier: picks a route and reserves the connection on it. */
    method ReserveTarget(e: nat, ok: bool, queue: bool) returns (reserved: Option<nat>)
      requires Valid() && e < |entries| && entries[e].acceptor.Holding?
      modifies this
      ensures Valid() && world == Apply(old(world), AcceptorMove(e, ok, queue)) && acts == old(acts) + [AcceptorMove(e, ok, queue)]
      ensures Last(old(world), reserved)
    {
      reserved := PickTarget(e);
      var conn := entries[e].acceptor.conn;
      if reserved.Some? {
        routes := routes[reserved.value := Reserve(routes[reserved.value])];
        entries := entries[e := entries[e].(acceptor := Dispatching(conn, reserved.value))];
      } else {
        entries := entries[e := entries[e].(acceptor := Accepting)];
      }
      Record(AcceptorMove(e, ok, queue));
    }

    /** The select of a reserved connection: the queue, if it has room, or the close signal.
        Nothing happens while neither is possible. */
    method DispatchReserved(e: nat, ok: bool, queue: bool)
      requires Valid() && e < |entries| && entries[e].acceptor.Dispatching?
      modifies this
      ensures Valid() && world == Apply(old(world), AcceptorMove(e, ok, queue)) && acts == old(acts) + [AcceptorMove(e, ok, queue)]
    {
      var conn, t := entries[e].acceptor.conn, entries[e].acceptor.route;
      InHandKnown(given, acts, e);
      if queue && |routes[t].queue| < capacity {
        HandOver(e, t, Enqueue(routes[t], conn));
      } else if !queue && routes[t].signalled {
        HandOver(e, t, Refuse(routes[t], conn));
      }
      Record(AcceptorMove(e, ok, queue));
    }

    method HandOver(e: nat, t: nat, r: Route)
      requires e < |entries| && t < |routes|
      modifies this`entries, this`routes
      ensures routes == old(routes)[t := r] && entries == old(entries)[e := old(entries)[e].(acceptor := Accepting)]
    {
      routes := routes[t := r];
      entries := entries[e := entries[e].(acceptor := Accepting)];
    }

    method MoveAcceptor(e: nat, ok: bool, queue: bool)
      requires Valid() && e < |entries|
      modifies this
      ensures Valid() && world == Apply(old(world), AcceptorMove(e, ok, queue)) && acts == old(acts) + [AcceptorMove(e, ok, queue)]
    {
      match entries[e].acceptor
      case Holding(_) => var _ := ReserveTarget(e, ok, queue);
      case Dispatching(_, _) => DispatchReserved(e, ok, queue);
      case Ended => Record(AcceptorMove(e, ok, queue));
      case _ => AcceptPhysical(e, ok, queue);
    }

    /** Whatever accept loops, servers and closers do between two sections of the driver. */
    method Others()
      requires Valid()
      modifies this
      ensures Valid() && old(acts) <= acts && SameDriver(old(world), world)
    {
      var moves: seq<(bool, nat, bool, bool, Move)> := *;
      for k := 0 to |moves|
        invariant Valid() && old(acts) <= acts && SameDriver(old(world), world)
      {
        var (route, i: nat, ok, queue, move) := moves[k];
        ghost var before := world;
        if route && i < |routes| {
          MoveRoute(i, move);
          TrafficStays(before, RouteMove(i, move));
        } else if !route && i < |entries| {
          MoveAcceptor(i, ok, queue);
          TrafficStays(before, AcceptorMove(i, ok, queue));
        }
      }
    }

    // The driver's operations ---------------------------------------------------------------

    /** Binds an address unless it is bound already, and opens a candidate route on it. */
    method Prepare(address: string, binds: bool) returns (route: Option<nat>)
      requires Valid() && world.ctl.Idle?
      modifies this
      ensures Valid() && world.ctl.Idle? && old(acts) <= acts
      ensures if route.None? then routes == old(routes) && candidate == old(candidate)
              else && candidate == route && route.value == |old(routes)| < |routes|
                   && routes == old(routes) + [NewRoute(routes[route.value].entry)]
    {
      route := None;
      if !closed && candidate.None? && address != "" {
        if address in table {
          var e := table[address];
          TableKnown(given, acts, address);
          if !entries[e].failed && !(entries[e].active.None? && entries[e].retiring.Some?) {
            route := Some(|routes|);
            routes := routes + [NewRoute(e)];
          }
        } else if binds {
          table := table[address := |entries|];
          route := Some(|routes|);
          routes := routes + [NewRoute(|entries|)];
          entries := entries + [Entry(address, None, None, false, false, false, Starting)];
        }
      }
      if route.Some? {
        candidate := route;
      }
      Record(Operate(Operation.Prepare(address, binds)));
    }

    /** Commits the candidate in place of the current route. When it returns true the
        candidate is the last committed route and active, the route it replaced is retired,
        and no address admits connections for anyone else. */
    method Commit() returns (ok: bool)
      requires Valid() && world.ctl.Idle?
      modifies this
      ensures Valid() && world.ctl.Idle? && old(acts) <= acts
      ensures ok <==> candidate != old(candidate)
      ensures !ok ==> world.commits == old(world.commits) && current == old(current)
      ensures ok ==>
                && old(candidate).Some? && candidate == None && current == old(candidate)
                && world.commits == old(world.commits) + [current.value] && ActiveOn(world, current.value)
                && OnlyOpen(world, current)
                && (old(current).Some? ==> old(current).value < |routes| && routes[old(current).value].retiring)
    {
      CandidateKnown(given, acts);
      if candidate.None? || closed || routes[candidate.value].committed || routes[candidate.value].aborted {
        Record(Operate(Operation.Commit));
        return false;
      }
      var next, previous := candidate.value, current;
      var leaves := previous.Some? && routes[previous.value].entry != routes[next].entry;
      Record(Operate(Operation.Commit));
      if leaves {
        LeaveAddress(next, previous.value);
      }
      Install(next, previous);
      return true;
    }

    method Install(next: nat, previous: Option<nat>)
      requires Valid() && world.ctl == CommitSwitch(next)
      requires current == previous || (current.None? && previous.Some? && previous.value < |routes| && routes[previous.value].retiring)
      modifies this
      ensures Valid() && old(acts) <= acts && world.ctl.Idle? && candidate == None && current == Some(next)
      ensures world.commits == old(world.commits) + [next] && ActiveOn(world, next) && OnlyOpen(world, current)
      ensures previous.Some? ==> previous.value < |routes| && routes[previous.value].retiring
    {
      ghost var start := acts;
      PreviousKnown(given, acts, next);
      var was := SwitchTo(next);
      Activate(next, was);
      Settle(next, was);
      FinishCommit(next, was);
      RetiredForever(given, start, acts);
    }

    /** Takes the old address out of service before the new one is switched to. */
    method LeaveAddress(next: nat, previous: nat)
      requires Valid() && world.ctl == CommitLeave(next, previous)
      modifies this
      ensures Valid() && old(acts) <= acts && world.ctl == CommitSwitch(next) && current == None
      ensures candidate == old(candidate) && world.commits == old(world.commits)
      ensures previous < |routes| && routes[previous].retiring
    {
      StopAddress(next, previous);
      Others();
      routes := routes[previous := routes[previous].(retiring := true)];
      current := None;
      Record(Drive);
    }

    method StopAddress(next: nat, previous: nat)
      requires Valid() && world.ctl == CommitLeave(next, previous)
      modifies this
      ensures Valid() && old(acts) <= acts && world.ctl == CommitRetire(next, previous) && previous < |routes|
      ensures candidate == old(candidate) && world.commits == old(world.commits)
    {
      Others();
      LeaveKnown(given, acts, next, previous);
      var e := routes[previous].entry;
      entries := entries[e := entries[e].(active := None, retiring := Some(previous), stopped := true)];
      Record(Drive);
    }

    /** The dispatch barrier: the candidate becomes the active route of its address. */
    method SwitchTo(next: nat) returns (was: Option<nat>)
      requires Valid() && world.ctl == CommitSwitch(next)
      modifies this
      ensures Valid() && old(acts) <= acts && world.ctl == CommitActivate(next, was)
      ensures candidate == old(candidate) && current == old(current) && world.commits == old(world.commits) + [next]
      ensures current.Some? ==> was == current
    {
      Others();
      SwitchKnown(given, acts, next);
      var e := routes[next].entry;
      was := entries[e].active;
      entries := entries[e := entries[e].(active := Some(next), retiring := was)];
      Record(Drive);
    }

    method Activate(next: nat, was: Option<nat>)
      requires Valid() && world.ctl == CommitActivate(next, was)
      modifies this
      ensures Valid() && old(acts) <= acts && world.ctl == CommitSettle(next, was)
      ensures candidate == old(candidate) && current == old(current) && world.commits == old(world.commits)
    {
      Others();
      NextKnown(given, acts, next);
      var e := routes[next].entry;
      entries := entries[e := entries[e].(activated := true)];
      Record(Drive);
    }

    method Settle(next: nat, was: Option<nat>)
      requires Valid() && world.ctl == CommitSettle(next, was)
      modifies this
      ensures Valid() && old(acts) <= acts && world.ctl == CommitFinish(next, was)
      ensures candidate == old(candidate) && current == old(current) && world.commits == old(world.commits)
    {
      Others();
      NextKnown(given, acts, next);
      routes := routes[next := routes[next].(committed := true)];
      Record(Drive);
    }

    method FinishCommit(next: nat, was: Option<nat>)
      requires Valid() && world.ctl == CommitFinish(next, was)
      modifies this
      ensures Valid() && old(acts) <= acts && world.ctl.Idle? && candidate == None && current == Some(next)
      ensures world.commits == old(world.commits) && (was.Some? && was.value < |routes| ==> routes[was.value].retiring)
      ensures ActiveOn(world, next) && OnlyOpen(world, current)
    {
      Others();
      StillServing(given, acts);
      if was.Some? && was.value < |routes| {
        routes := routes[was.value := routes[was.value].(retiring := true)];
      }
      candidate, current := None, Some(next);
      Record(Drive);
      CommitResult(given, acts, next);
    }

    /** Takes the current route out of service; its address stops accepting, and from then on
        no connection is admitted anywhere. */
    method Retire()
      requires Valid() && world.ctl.Idle?
      modifies this
      ensures Valid() && world.ctl.Idle? && old(acts) <= acts && current == None
      ensures OnlyOpen(world, None)
    {
      if current.Some? {
        var r := current.value;
        BeginRetireNow(r);
        Others();
        RetireKnown(given, acts, r);
        routes := routes[r := routes[r].(retiring := true)];
        current := None;
        Record(Drive);
      }
      NoneOpen(given, acts);
    }

    method BeginRetireNow(r: nat)
      requires Valid() && world.ctl.Idle? && current == Some(r)
      modifies this
      ensures Valid() && old(acts) <= acts && world.ctl == RetireRoute(r)
    {
      CurrentKnown(given, acts);
      var e := routes[r].entry;
      if entries[e].active == Some(r) {
        entries := entries[e := entries[e].(active := None, retiring := Some(r), stopped := true)];
      }
      Record(Operate(Operation.Retire));
    }

    /** A route handle that nothing is left to be done for: none, or one aborted before. */
    predicate Settled(route: Option<nat>)
      requires route.Some? ==> route.value < |routes|
      reads this
    {
      route.None? || routes[route.value].aborted
    }

    /** Drops an unsettled route, which can only be the candidate; the current route is untouched
        and still the only one admitted. A committed route is refused, and nothing is done for a
        settled one. */
    method Abort(route: Option<nat>) returns (ok: bool)
      requires Valid() && world.ctl.Idle?
      requires route.Some? ==> route.value < |routes|
      requires route.Some? ==> routes[route.value].committed || routes[route.value].aborted || candidate == route
      modifies this
      ensures Valid() && world.ctl.Idle? && old(acts) <= acts
      ensures ok <==> route.None? || !old(routes)[route.value].committed
      ensures !ok || old(Settled(route)) ==> acts == old(acts) && routes == old(routes) && candidate == old(candidate)
      ensures ok && !old(Settled(route)) ==> candidate == None
      ensures current == old(current) && world.commits == old(world.commits) && OnlyOpen(world, current)
    {
      IdleAdmits(given, acts);
      if route.None? {
        return true;
      }
      var c := route.value;
      if routes[c].committed {
        return false;
      }
      if routes[c].aborted {
        return true;
      }
      routes := routes[c := routes[c].(aborted := true)];
      Record(Operate(Operation.Abort));
      CloseCandidate(c);
      DropCandidate(c);
      return true;
    }

    /** An address left without routes is forgotten and its accept loop ends. */
    method DropCandidate(c: nat)
      requires Valid() && world.ctl == AbortDrop(c)
      modifies this
      ensures Valid() && world.ctl.Idle? && old(acts) <= acts && candidate == None
      ensures current == old(current) && world.commits == old(world.commits) && OnlyOpen(world, current)
    {
      Others();
      DropKnown(given, acts, c);
      PutBack(routes[c].entry, entries[routes[c].entry]);
      candidate := None;
      Record(Drive);
      IdleAdmits(given, acts);
    }

    method CloseCandidate(c: nat)
      requires Valid() && world.ctl == AbortClose(c)
      modifies this
      ensures Valid() && old(acts) <= acts && world.ctl == AbortDrop(c)
      ensures current == old(current) && world.commits == old(world.commits)
    {
      Others();
      DropKnown(given, acts, c);
      routes := routes[c := routes[c].(closed := true)];
      Record(Drive);
    }

    /** Clears a route that is out of service; the active one cannot be released. */
    method Release(r: nat) returns (ok: bool)
      requires Valid() && world.ctl.Idle? && r < |routes| && routes[r].entry < |entries|
      modifies this
      ensures Valid() && world.ctl.Idle? && old(acts) <= acts && ok == (old(entries)[old(routes)[r].entry].active != Some(r))
      ensures current == old(current) && world.commits == old(world.commits)
      ensures !ok ==> entries == old(entries) && table == old(table)
    {
      ok := entries[routes[r].entry].active != Some(r);
      if ok {
        ReleaseNow(r);
      } else {
        Record(Operate(Operation.Release(r)));
      }
    }

    method ReleaseNow(r: nat)
      requires Valid() && world.ctl.Idle? && r < |routes| && routes[r].entry < |entries|
      requires entries[routes[r].entry].active != Some(r)
      modifies this
      ensures Valid() && world.ctl.Idle? && acts == old(acts) + [Operate(Operation.Release(r))]
      ensures current == old(current) && world.commits == old(world.commits)
    {
      var e := routes[r].entry;
      var n := entries[e];
      if n.retiring == Some(r) {
        n := n.(retiring := None);
      }
      ReleaseIs(world, r, e, n);
      PutBack(e, n);
      Record(Operate(Operation.Release(r)));
    }

    method PutBack(e: nat, n: Entry)
      requires Valid() && e < |entries|
      modifies this`entries, this`table
      ensures entries == Unregister(world, e, n).entries && table == Unregister(world, e, n).table
    {
      var gone := n.active.None? && n.retiring.None? && n.address in table && table[n.address] == e;
      if gone {
        table := table - {n.address};
      }
      entries := entries[e := if gone then n.(stopped := true) else n];
    }

    /** Takes every address out of service; a second stop does nothing. */
    method Stop()
      requires Valid() && world.ctl.Idle?
      modifies this
      ensures Valid() && world.ctl.Idle? && old(acts) <= acts && closed
      ensures old(closed) ==> acts == old(acts) && entries == old(entries) && table == old(table) && current == old(current)
      ensures !old(closed) ==> table == map[] && current == None && OnlyOpen(world, None)
    {
      if closed {
        return;
      }
      closed := true;
      Record(Operate(Operation.Stop));
      StopAll();
      ForgetAll();
    }

    method ForgetAll()
      requires Valid() && world.ctl == StopEntries(|entries|) && closed
      modifies this
      ensures Valid() && world.ctl.Idle? && old(acts) <= acts && closed
      ensures table == map[] && current == None && OnlyOpen(world, None)
    {
      Others();
      table, current := map[], None;
      Record(Drive);
      NoneOpen(given, acts);
    }

    method StopAll()
      requires Valid() && world.ctl == StopEntries(0) && closed
      modifies this
      ensures Valid() && old(acts) <= acts && world.ctl == StopEntries(|entries|) && closed
    {
      var k := 0;
      while k < |entries|
        invariant 0 <= k <= |entries| && Valid() && old(acts) <= acts && world.ctl == StopEntries(k) && closed
      {
        StopOne(k);
        k := k + 1;
      }
    }

    method StopOne(k: nat)
      requires Valid() && k < |entries| && world.ctl == StopEntries(k) && closed
      modifies this
      ensures Valid() && old(acts) <= acts && world.ctl == StopEntries(k + 1) && closed && |entries| == |old(entries)|
    {
      Others();
      entries := entries[k := entries[k].(active := None, retiring := None, stopped := true)];
      Record(Drive);
    }
  }

  lemma TargetIsLast(given: nat, acts: seq<Action>, e: nat)
    requires e < |Run(given, acts).entries|
    ensures var w := Run(given, acts);
            var t := Target(w.entries[e]);
            t.Some? ==> t.value < |w.routes| && (!w.routes[t.value].retiring ==> Last(w, t))
  {
    RunInv(given, acts);
    var w := Run(given, acts);
    assert EntryOk(w, e) && OnlyOpen(w, Admits(w));
  }

  lemma InHandKnown(given: nat, acts: seq<Action>, e: nat)
    requires e < |Run(given, acts).entries| && Run(given, acts).entries[e].acceptor.Dispatching?
    ensures Run(given, acts).entries[e].acceptor.route < |Run(given, acts).routes|
  {
    RunInv(given, acts);
    assert EntryOk(Run(given, acts), e);
  }

  lemma TableKnown(given: nat, acts: seq<Action>, address: string)
    requires address in Run(given, acts).table
    ensures Run(given, acts).table[address] < |Run(given, acts).entries|
  {
    RunInv(given, acts);
  }

  lemma CandidateKnown(given: nat, acts: seq<Action>)
    ensures var w := Run(given, acts);
            && (w.candidate.Some? ==> w.candidate.value < |w.routes|)
            && (w.ctl.Idle? && w.current.Some? ==> w.current.value < |w.routes|)
  {
    RunInv(given, acts);
  }

  lemma LeaveKnown(given: nat, acts: seq<Action>, next: nat, previous: nat)
    requires Run(given, acts).ctl == CommitLeave(next, previous)
    ensures var w := Run(given, acts);
            previous < |w.routes| && w.routes[previous].entry < |w.entries|
  {
    RunInv(given, acts);
    assert RouteOk(Run(given, acts), previous);
  }

  lemma SwitchKnown(given: nat, acts: seq<Action>, next: nat)
    requires Run(given, acts).ctl == CommitSwitch(next)
    ensures var w := Run(given, acts);
            && next < |w.routes| && w.routes[next].entry < |w.entries|
            && (w.current.Some? ==> w.entries[w.routes[next].entry].active == w.current)
  {
    RunInv(given, acts);
    assert RouteOk(Run(given, acts), next);
  }

  lemma NextKnown(given: nat, acts: seq<Action>, next: nat)
    requires var c := Run(given, acts).ctl; (c.CommitActivate? || c.CommitSettle?) && c.next == next
    ensures var w := Run(given, acts);
            && next < |w.routes| && w.routes[next].entry < |w.entries|
            && w.entries[w.routes[next].entry].active == Some(next)
  {
    RunInv(given, acts);
  }

  lemma CurrentKnown(given: nat, acts: seq<Action>)
    requires Run(given, acts).ctl.Idle?
    ensures var w := Run(given, acts);
            w.current.Some? ==> w.current.value < |w.routes| && w.routes[w.current.value].entry < |w.entries|
  {
    RunInv(given, acts);
    var w := Run(given, acts);
    if w.current.Some? {
      assert RouteOk(w, w.current.value);
    }
  }

  lemma PreviousKnown(given: nat, acts: seq<Action>, next: nat)
    requires Run(given, acts).ctl == CommitSwitch(next)
    ensures var w := Run(given, acts); w.current.Some? ==> w.current.value < |w.routes|
  {
    RunInv(given, acts);
  }

  lemma RetireKnown(given: nat, acts: seq<Action>, r: nat)
    requires Run(given, acts).ctl == RetireRoute(r)
    ensures r < |Run(given, acts).routes|
  {
    RunInv(given, acts);
  }

  lemma ReleaseIs(w: World, r: nat, e: nat, n: Entry)
    requires r < |w.routes| && w.routes[r].entry == e < |w.entries| && w.entries[e].active != Some(r) && w.ctl.Idle?
    requires n == if w.entries[e].retiring == Some(r) then w.entries[e].(retiring := None) else w.entries[e]
    ensures Apply(w, Operate(Operation.Release(r))) == Unregister(w, e, n)
  {
  }

  lemma DropKnown(given: nat, acts: seq<Action>, c: nat)
    requires Run(given, acts).ctl == AbortDrop(c) || Run(given, acts).ctl == AbortClose(c)
    ensures c < |Run(given, acts).routes| && Run(given, acts).routes[c].entry < |Run(given, acts).entries|
  {
    RunInv(given, acts);
    assert RouteOk(Run(given, acts), c);
  }

  lemma IdleAdmits(given: nat, acts: seq<Action>)
    requires Run(given, acts).ctl.Idle?
    ensures OnlyOpen(Run(given, acts), Run(given, acts).current)
  {
    RunInv(given, acts);
  }

  lemma NoneOpen(given: nat, acts: seq<Action>)
    requires Run(given, acts).ctl.Idle? && Run(given, acts).current.None?
    ensures OnlyOpen(Run(given, acts), None)
  {
    RunInv(given, acts);
  }

  /** A retired route stays retired. */
  lemma RetiredForever(given: nat, start: seq<Action>, acts: seq<Action>)
    requires start <= acts
    ensures var w, w' := Run(given, start), Run(given, acts);
            && |w.routes| <= |w'.routes|
            && forall i | 0 <= i < |w.routes| && w.routes[i].retiring :: w'.routes[i].retiring
  {
    RunGrows(given, start, acts[|start|..]);
    assert start + acts[|start|..] == acts;
    var w, w' := Run(given, start), Run(given, acts);
    forall i | 0 <= i < |w.routes| && w.routes[i].retiring ensures w'.routes[i].retiring {
      assert RouteGrows(w.routes[i], w'.routes[i]);
    }
  }

  lemma StillServing(given: nat, acts: seq<Action>)
    requires Run(given, acts).ctl.CommitFinish?
    ensures !Run(given, acts).closed
  {
    RunInv(given, acts);
  }

  lemma CommitResult(given: nat, acts: seq<Action>, next: nat)
    requires var w := Run(given, acts); w.ctl.Idle? && w.current == Some(next) && !w.closed
    ensures var w := Run(given, acts);
            ActiveOn(w, next) && OnlyOpen(w, Some(next)) && Last(w, Some(next))
  {
    RunInv(given, acts);
  }

  /** Traffic leaves the driver where it stands. */
  predicate SameDriver(w: World, w': World) {
    && w'.ctl == w.ctl && w'.candidate == w.candidate && w'.current == w.current && w'.commits == w.commits
    && w'.closed == w.closed && w'.table == w.table && |w'.entries| == |w.entries| && |w'.routes| == |w.routes|
  }

  lemma AcceptStays(w: World, e: nat, ok: bool, queue: bool)
    requires e < |w.entries|
    ensures SameDriver(w, AcceptStep(w, e, ok, queue))
  {
  }

  lemma TrafficStays(w: World, a: Action)
    requires a.AcceptorMove? || a.RouteMove?
    ensures SameDriver(w, Apply(w, a)) == true
  {
    if a.AcceptorMove? && a.entry < |w.entries| {
      AcceptStays(w, a.entry, a.ok, a.queue);
    }
  }
}
