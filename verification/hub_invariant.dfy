/** What every world the hub can reach satisfies. */
module HubInvariant {
  import opened Wrappers
  import opened HubMachine

  // Connections -----------------------------------------------------------------------------

  /** The connection the accept loop of the route's address is about to hand to it. */
  function Sent(w: World, i: nat): seq<nat>
    requires i < |w.routes|
  {
    var e := w.routes[i].entry;
    if e < |w.entries| && w.entries[e].acceptor.Dispatching? && w.entries[e].acceptor.route == i
    then [w.entries[e].acceptor.conn] else []
  }

  /** The connections reserved on route `i`, in order. */
  function ReservedOn(log: seq<Reservation>, i: nat): seq<nat> {
    if log == [] then []
    else ReservedOn(log[..|log| - 1], i) + (if log[|log| - 1].route == i then [log[|log| - 1].conn] else [])
  }

  /** Pending counts exactly the reserved connections nobody has taken back yet, and every
      reserved connection is in hand, queued, delivered or discarded. */
  predicate RouteOk(w: World, i: nat)
    requires i < |w.routes|
  {
    var r := w.routes[i];
    && r.entry < |w.entries|
    && r.pending == |Sent(w, i)| + |r.queue| + r.completing
    && |r.queue| <= w.capacity
    && (r.signalled ==> r.closed)
    && (r.drained ==> r.willSignal)
    && (r.willSignal ==> r.retiring && r.pending == 0)
    && multiset(ReservedOn(w.reserved, i)) == multiset(Sent(w, i)) + multiset(r.queue) + multiset(r.delivered) + multiset(r.discarded)
  }

  predicate OnEntry(w: World, e: nat, p: Option<nat>) {
    p.Some? ==> p.value < |w.routes| && w.routes[p.value].entry == e
  }

  predicate EntryOk(w: World, e: nat)
    requires e < |w.entries|
  {
    var n := w.entries[e];
    && OnEntry(w, e, n.active) && OnEntry(w, e, n.retiring)
    && (n.acceptor.Dispatching? ==> OnEntry(w, e, Some(n.acceptor.route)))
  }

  predicate Connected(w: World) {
    && w.capacity > 0
    && (forall a | a in w.table :: w.table[a] < |w.entries|)
    && (forall i | 0 <= i < |w.routes| :: RouteOk(w, i))
    && (forall e | 0 <= e < |w.entries| :: EntryOk(w, e))
  }

  // Connection identity -----------------------------------------------------------------------

  predicate Fresh(w: World, conn: nat) {
    conn < w.conns && forall k | 0 <= k < |w.reserved| :: w.reserved[k].conn != conn
  }

  predicate Distinct(w: World) {
    && (forall k | 0 <= k < |w.reserved| :: w.reserved[k].conn < w.conns)
    && (forall k, l | 0 <= k < l < |w.reserved| :: w.reserved[k].conn != w.reserved[l].conn)
    && (forall e | 0 <= e < |w.entries| && w.entries[e].acceptor.Holding? :: Fresh(w, w.entries[e].acceptor.conn))
    && (forall e, f | 0 <= e < f < |w.entries| && w.entries[e].acceptor.Holding? && w.entries[f].acceptor.Holding? ::
          w.entries[e].acceptor.conn != w.entries[f].acceptor.conn)
  }

  // Handoff -----------------------------------------------------------------------------------

  /** The one route that may still be reserved on. */
  function Admits(w: World): Option<nat> {
    match w.ctl
    case CommitLeave(_, previous) => Some(previous)
    case CommitRetire(_, previous) => Some(previous)
    case CommitActivate(next, _) => Some(next)
    case CommitSettle(next, _) => Some(next)
    case CommitFinish(next, _) => Some(next)
    case RetireRoute(r) => Some(r)
    case _ => w.current
  }

  predicate Last(w: World, p: Option<nat>) {
    p.Some? ==> p.value < |w.routes| && |w.commits| > 0 && w.commits[|w.commits| - 1] == p.value
  }

  /** Wherever a connection arrives, it is reserved on `p` or on nothing. */
  predicate OnlyOpen(w: World, p: Option<nat>) {
    forall e | 0 <= e < |w.entries| ::
      var t := Target(w.entries[e]);
      t.Some? && t.value < |w.routes| && !w.routes[t.value].retiring ==> t == p
  }

  predicate ActiveOn(w: World, r: nat) {
    r < |w.routes| && w.routes[r].entry < |w.entries| && w.entries[w.routes[r].entry].active == Some(r)
  }

  predicate SameEntry(w: World, a: nat, b: nat) {
    a < |w.routes| && b < |w.routes| && w.routes[a].entry == w.routes[b].entry
  }

  /** What holds while the driver stands where it stands. */
  predicate DriverOk(w: World) {
    match w.ctl
    case CommitLeave(next, previous) => Candidate(w, next) && w.current == Some(previous) && ActiveOn(w, previous) && !w.closed
    case CommitRetire(next, previous) => Candidate(w, next) && w.current == Some(previous) && !w.closed
    case CommitSwitch(next) =>
      Candidate(w, next) && !w.closed && (w.current.Some? ==> ActiveOn(w, w.current.value) && SameEntry(w, w.current.value, next))
    case CommitActivate(next, was) => next < |w.routes| && next in w.commits && ActiveOn(w, next) && !w.closed
    case CommitSettle(next, was) => next < |w.routes| && next in w.commits && ActiveOn(w, next) && !w.closed
    case CommitFinish(next, was) => next < |w.routes| && w.routes[next].committed && ActiveOn(w, next) && !w.closed
    case AbortClose(c) => c < |w.routes| && (w.current.Some? && !w.closed ==> ActiveOn(w, w.current.value))
    case AbortDrop(c) => c < |w.routes| && (w.current.Some? && !w.closed ==> ActiveOn(w, w.current.value))
    case RetireRoute(r) => r < |w.routes|
    case StopEntries(k) => w.closed && forall e | 0 <= e < |w.entries| && e < k :: Target(w.entries[e]).None?
    case Idle => w.current.Some? && !w.closed ==> ActiveOn(w, w.current.value)
  }

  predicate Candidate(w: World, next: nat) {
    next < |w.routes| && next !in w.commits
  }

  predicate CommitsOk(w: World) {
    && (forall i | 0 <= i < |w.commits| :: w.commits[i] < |w.routes|)
    && (forall i, j | 0 <= i < j < |w.commits| :: w.commits[i] != w.commits[j])
    && (forall i | 0 <= i < |w.commits| :: w.routes[w.commits[i]].committed
          || ((w.ctl.CommitActivate? || w.ctl.CommitSettle?) && w.ctl.next == w.commits[i]))
    && (w.candidate.Some? ==> w.candidate.value < |w.routes|)
    && !w.commitRefused
  }

  /** Every connection was reserved on the route that was the latest commit at the time. */
  predicate LogOk(w: World) {
    && (forall k | 0 <= k < |w.reserved| ::
          && 0 < w.reserved[k].epoch <= |w.commits|
          && w.commits[w.reserved[k].epoch - 1] == w.reserved[k].route)
    && (forall k, l | 0 <= k < l < |w.reserved| :: w.reserved[k].epoch <= w.reserved[l].epoch)
  }

  predicate Handoff(w: World) {
    OnlyOpen(w, Admits(w)) && Last(w, Admits(w)) && DriverOk(w) && CommitsOk(w) && LogOk(w)
  }

  predicate Inv(w: World) {
    Connected(w) && Distinct(w) && Handoff(w)
  }
}
