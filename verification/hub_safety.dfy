/** What the hub guarantees over whole runs. */
module HubSafety {
  import opened Wrappers
  import opened HubMachine
  import opened HubInvariant
  import opened HubInductive

  /** In every run, the pending count of a route is exactly the number of connections reserved
      on it and not yet taken back, so the guard before its decrement always holds; every
      connection reserved on the route is in hand, queued, delivered or discarded, once. */
  lemma {:induction false} ConnectionConservation(capacity: nat, actions: seq<Action>, i: nat)
    requires i < |Run(capacity, actions).routes|
    ensures var w := Run(capacity, actions);
            var r := w.routes[i];
            && r.pending == |Sent(w, i)| + |r.queue| + r.completing && |r.queue| <= w.capacity
            && (r.completing > 0 ==> r.pending > 0)
            && (|Sent(w, i)| > 0 ==> r.pending > 0)
            && multiset(ReservedOn(w.reserved, i)) == multiset(Sent(w, i)) + multiset(r.queue) + multiset(r.delivered) + multiset(r.discarded)
            && forall k, l | 0 <= k < l < |w.reserved| :: w.reserved[k].conn != w.reserved[l].conn
  {
    RunInv(capacity, actions);
    assert RouteOk(Run(capacity, actions), i);
  }

  // Growth --------------------------------------------------------------------------------------

  predicate RouteGrows(r: Route, r': Route) {
    r'.entry == r.entry && (r.retiring ==> r'.retiring) && (r.drained ==> r'.drained) && (r.willSignal ==> r'.willSignal)
  }

  predicate Grows(w: World, w': World) {
    && w.commits <= w'.commits && w.reserved <= w'.reserved && |w.routes| <= |w'.routes|
    && (forall i | 0 <= i < |w.routes| :: RouteGrows(w.routes[i], w'.routes[i]))
    && (forall k | |w.reserved| <= k < |w'.reserved| ::
          && w'.reserved[k].epoch >= |w.commits|
          && (w'.reserved[k].route < |w.routes| ==> !w.routes[w'.reserved[k].route].retiring))
  }

  lemma FramedGrows(w: World, w': World)
    requires Framed(w, w') == true && w.commits <= w'.commits
    ensures Grows(w, w')
  {
    assert Framed(w, w');
    forall i | 0 <= i < |w.routes| ensures RouteGrows(w.routes[i], w'.routes[i]) {
      assert SameTraffic(w.routes[i], w'.routes[i]);
    }
  }

  lemma AcceptGrows(w: World, e: nat, ok: bool, queue: bool)
    requires e < |w.entries|
    ensures Grows(w, AcceptStep(w, e, ok, queue))
  {
  }

  lemma TickCommits(w: World)
    ensures w.commits <= Tick(w).commits
  {
  }

  lemma BeginCommits(w: World, op: Operation)
    ensures w.commits <= Begin(w, op).commits
  {
  }

  lemma RouteMoveGrows(w: World, i: nat, m: Move)
    requires i < |w.routes|
    ensures Grows(w, PutRoute(w, i, RouteStep(w.routes[i], m)))
  {
    assert RouteGrows(w.routes[i], RouteStep(w.routes[i], m));
  }

  lemma ApplyGrows(w: World, a: Action)
    requires Connected(w) == true
    ensures Grows(w, Apply(w, a)) == true
  {
    ConnectedLinked(w);
    match a {
      case Operate(op) =>
        if w.ctl.Idle? {
          BeginFramed(w, op);
          BeginCommits(w, op);
          FramedGrows(w, Begin(w, op));
        }
      case Drive =>
        TickFramed(w);
        TickCommits(w);
        FramedGrows(w, Tick(w));
      case AcceptorMove(e, ok, queue) =>
        if e < |w.entries| {
          AcceptGrows(w, e, ok, queue);
        }
      case RouteMove(i, m) =>
        if i < |w.routes| {
          RouteMoveGrows(w, i, m);
        }
    }
  }

  lemma {:induction false} RunGrows(capacity: nat, actions: seq<Action>, more: seq<Action>)
    ensures Grows(Run(capacity, actions), Run(capacity, actions + more)) == true
  {
    if more == [] {
      assert actions + more == actions;
    } else {
      var n := |more| - 1;
      RunGrows(capacity, actions, more[..n]);
      assert (actions + more)[..|actions + more| - 1] == actions + more[..n];
      var w' := Run(capacity, actions + more[..n]);
      RunInv(capacity, actions + more[..n]);
      ApplyGrows(w', more[n]);
      GrowsTwice(Run(capacity, actions), w', Run(capacity, actions + more));
    }
  }

  lemma GrowsTwice(w: World, w1: World, w2: World)
    requires Grows(w, w1) && Grows(w1, w2)
    ensures Grows(w, w2) == true
  {
    forall i | 0 <= i < |w.routes| ensures RouteGrows(w.routes[i], w2.routes[i]) {
      assert RouteGrows(w.routes[i], w1.routes[i]) && RouteGrows(w1.routes[i], w2.routes[i]);
    }
    forall k | |w.reserved| <= k < |w2.reserved|
      ensures w2.reserved[k].epoch >= |w.commits|
      ensures w2.reserved[k].route < |w.routes| ==> !w.routes[w2.reserved[k].route].retiring
    {
      if k < |w1.reserved| {
        assert w2.reserved[k] == w1.reserved[k];
      } else if w2.reserved[k].route < |w.routes| {
        assert RouteGrows(w.routes[w2.reserved[k].route], w1.routes[w2.reserved[k].route]);
      }
    }
  }

  // Drain ---------------------------------------------------------------------------------------

  lemma {:induction false} NoneAdded(log: seq<Reservation>, more: seq<Reservation>, i: nat)
    requires forall k | 0 <= k < |more| :: more[k].route != i
    ensures ReservedOn(log + more, i) == ReservedOn(log, i)
  {
    if more == [] {
      assert log + more == log;
    } else {
      NoneAdded(log, more[..|more| - 1], i);
      assert (log + more)[..|log + more| - 1] == log + more[..|more| - 1];
    }
  }

  /** Once a route has signalled that it is drained it stays retired with nothing in hand,
      queued or uncounted, and no connection is ever reserved on it again. */
  lemma {:induction false} StableDrain(capacity: nat, actions: seq<Action>, more: seq<Action>, i: nat)
    requires i < |Run(capacity, actions).routes| && Run(capacity, actions).routes[i].drained
    ensures var w, w' := Run(capacity, actions), Run(capacity, actions + more);
            && i < |w'.routes| && w'.routes[i].drained && w'.routes[i].retiring
            && Sent(w', i) == [] && w'.routes[i].queue == [] && w'.routes[i].completing == 0
            && ReservedOn(w'.reserved, i) == ReservedOn(w.reserved, i)
            && multiset(ReservedOn(w'.reserved, i)) == multiset(w'.routes[i].delivered) + multiset(w'.routes[i].discarded)
  {
    var w, w' := Run(capacity, actions), Run(capacity, actions + more);
    RunInv(capacity, actions);
    RunInv(capacity, actions + more);
    RunGrows(capacity, actions, more);
    assert RouteOk(w, i) && RouteGrows(w.routes[i], w'.routes[i]) && RouteOk(w', i);
    var tail := w'.reserved[|w.reserved|..];
    assert w'.reserved == w.reserved + tail;
    forall k | 0 <= k < |tail| ensures tail[k].route != i {
      assert tail[k] == w'.reserved[|w.reserved| + k];
    }
    NoneAdded(w.reserved, tail, i);
  }

  // Handoff ---------------------------------------------------------------------------------------

  /** Routes are committed once each, every connection is reserved on the route committed last
      at the time, and so the routes of successive reservations never move backwards. */
  lemma {:induction false} LinearHandoff(capacity: nat, actions: seq<Action>)
    ensures var w := Run(capacity, actions);
            && (forall i, j | 0 <= i < j < |w.commits| :: w.commits[i] != w.commits[j])
            && (forall k | 0 <= k < |w.reserved| ::
                  0 < w.reserved[k].epoch <= |w.commits| && w.reserved[k].route == w.commits[w.reserved[k].epoch - 1])
            && (forall k, l | 0 <= k < l < |w.reserved| ::
                  w.reserved[k].epoch <= w.reserved[l].epoch && w.reserved[k].conn != w.reserved[l].conn)
  {
    RunInv(capacity, actions);
  }

  /** Once a commit has left its dispatch barrier, no connection goes to an older route. */
  lemma {:induction false} NoneBehindTheBarrier(capacity: nat, actions: seq<Action>, more: seq<Action>, k: nat)
    requires |Run(capacity, actions).reserved| <= k < |Run(capacity, actions + more).reserved|
    ensures var w, w' := Run(capacity, actions), Run(capacity, actions + more);
            && w.commits <= w'.commits && |w.commits| <= w'.reserved[k].epoch && 0 < w'.reserved[k].epoch <= |w'.commits|
            && w'.reserved[k].route == w'.commits[w'.reserved[k].epoch - 1]
            && forall j | 0 <= j < |w.commits| - 1 :: w'.reserved[k].route != w.commits[j]
  {
    var w, w' := Run(capacity, actions), Run(capacity, actions + more);
    RunInv(capacity, actions);
    RunInv(capacity, actions + more);
    RunGrows(capacity, actions, more);
    assert w'.commits[..|w.commits|] == w.commits;
  }

  /** The previous route of a commit is always the active one, so no commit is refused. */
  lemma {:induction false} CommitNeverRefused(capacity: nat, actions: seq<Action>)
    ensures !Run(capacity, actions).commitRefused
  {
    RunInv(capacity, actions);
  }
}
