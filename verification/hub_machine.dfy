/** The listener hub as a transition system: one driver prepares, commits, aborts, retires and
    releases routes one operation at a time, while the accept loop of every address and the
    servers, closers and drain markers of every route interleave with it. Each action is one
    critical section or one channel operation. */
module HubMachine {
  import opened Wrappers

  /** A virtual listener. `completing` counts the connections already out of its hands whose
      pending count is still to be taken back. */
  datatype Route = Route(
    entry: nat, queue: seq<nat>, completing: nat, pending: int,
    retiring: bool, closed: bool, signalled: bool, willSignal: bool, drained: bool,
    committed: bool, aborted: bool, delivered: seq<nat>, discarded: seq<nat>)

  datatype Acceptor = Starting | Accepting | Holding(conn: nat) | Dispatching(conn: nat, route: nat) | Ended

  /** One physical address. */
  datatype Entry = Entry(
    address: string, active: Option<nat>, retiring: Option<nat>, activated: bool, stopped: bool, failed: bool,
    acceptor: Acceptor)

  /** A connection reserved on a route, and how many commits had been made by then. */
  datatype Reservation = Reservation(conn: nat, route: nat, epoch: nat)

  datatype Control =
    | Idle
    | CommitLeave(next: nat, previous: nat)
    | CommitRetire(next: nat, previous: nat)
    | CommitSwitch(next: nat)
    | CommitActivate(next: nat, was: Option<nat>)
    | CommitSettle(next: nat, was: Option<nat>)
    | CommitFinish(next: nat, was: Option<nat>)
    | AbortClose(candidate: nat)
    | AbortDrop(candidate: nat)
    | RetireRoute(route: nat)
    | StopEntries(k: nat)

  datatype World = World(
    capacity: nat, entries: seq<Entry>, table: map<string, nat>, routes: seq<Route>, closed: bool,
    ctl: Control, candidate: Option<nat>, current: Option<nat>, commitRefused: bool,
    commits: seq<nat>, reserved: seq<Reservation>, conns: nat)

  const DEFAULT_CAPACITY := 64

  function Init(capacity: nat): World {
    World(if capacity == 0 then DEFAULT_CAPACITY else capacity, [], map[], [], false,
          Idle, None, None, false, [], [], 0)
  }

  // Routes ----------------------------------------------------------------------------------

  function NewRoute(entry: nat): Route {
    Route(entry, [], 0, 0, false, false, false, false, false, false, false, [], [])
  }

  predicate MayReserve(r: Route) {
    !r.closed && !r.retiring
  }

  function Reserve(r: Route): Route {
    r.(pending := r.pending + 1)
  }

  /** The send of a reserved connection: into the queue, or refused once the route is closed.
      With both possible either may be picked. */
  function Enqueue(r: Route, conn: nat): Route {
    r.(queue := r.queue + [conn])
  }

  function Refuse(r: Route, conn: nat): Route {
    r.(completing := r.completing + 1, discarded := r.discarded + [conn])
  }

  /** Accept, or the drain loop of Close, takes the head of the queue. */
  function Take(r: Route, serve: bool): Route
    requires |r.queue| > 0
  {
    var conn := r.queue[0];
    var r' := r.(queue := r.queue[1..], completing := r.completing + 1);
    if serve then r'.(delivered := r.delivered + [conn]) else r'.(discarded := r.discarded + [conn])
  }

  /** completePending; the guard is the source's. */
  function Complete(r: Route): Route
    requires r.completing > 0
  {
    var pending := if r.pending > 0 then r.pending - 1 else r.pending;
    r.(completing := r.completing - 1, pending := pending,
       willSignal := r.willSignal || (r.retiring && pending == 0))
  }

  function MarkDrained(r: Route): Route {
    r.(willSignal := r.willSignal || (r.retiring && r.pending == 0))
  }

  function Signal(r: Route): Route {
    if r.willSignal then r.(drained := true) else r
  }

  // Helpers ---------------------------------------------------------------------------------

  function PutRoute(w: World, i: nat, r: Route): World
    requires i < |w.routes|
  {
    w.(routes := w.routes[i := r])
  }

  function PutEntry(w: World, e: nat, n: Entry): World
    requires e < |w.entries|
  {
    w.(entries := w.entries[e := n])
  }

  function Target(e: Entry): Option<nat> {
    if e.active.Some? then e.active else e.retiring
  }

  function RetireRouteAt(w: World, i: nat): World {
    if i < |w.routes| then PutRoute(w, i, w.routes[i].(retiring := true)) else w
  }

  // Accept loops ----------------------------------------------------------------------------

  /** `ok` is false when the physical accept fails for another reason than being closed. */
  function AcceptStep(w: World, e: nat, ok: bool, queue: bool): World
    requires e < |w.entries|
  {
    var n := w.entries[e];
    match n.acceptor
    case Starting =>
      if n.stopped then PutEntry(w, e, n.(acceptor := Ended))
      else if n.activated then PutEntry(w, e, n.(acceptor := Accepting))
      else w
    case Accepting =>
      if n.stopped then PutEntry(w, e, n.(acceptor := Ended))
      else if !ok then PutEntry(w, e, n.(acceptor := Ended, failed := true))
      else PutEntry(w, e, n.(acceptor := Holding(w.conns))).(conns := w.conns + 1)
    case Holding(conn) =>
      (match Target(n)
       case Some(t) =>
         if t < |w.routes| && MayReserve(w.routes[t]) then
           PutRoute(PutEntry(w, e, n.(acceptor := Dispatching(conn, t))), t, Reserve(w.routes[t])).(
             reserved := w.reserved + [Reservation(conn, t, |w.commits|)])
         else PutEntry(w, e, n.(acceptor := Accepting))
       case None => PutEntry(w, e, n.(acceptor := Accepting)))
    case Dispatching(conn, t) =>
      if t >= |w.routes| then w
      else if queue && |w.routes[t].queue| < w.capacity then
        PutRoute(PutEntry(w, e, n.(acceptor := Accepting)), t, Enqueue(w.routes[t], conn))
      else if !queue && w.routes[t].signalled then
        PutRoute(PutEntry(w, e, n.(acceptor := Accepting)), t, Refuse(w.routes[t], conn))
      else w
    case Ended => w
  }

  // Servers and closers -----------------------------------------------------------------------

  datatype Move = Serve | CloseFlag | CloseSignal | CloseTake | Finish | Mark | Announce

  function RouteStep(r: Route, m: Move): Route {
    match m
    case Serve => if |r.queue| > 0 then Take(r, true) else r
    case CloseFlag => r.(closed := true)
    case CloseSignal => if r.closed then r.(signalled := true) else r
    case CloseTake => if r.signalled && |r.queue| > 0 then Take(r, false) else r
    case Finish => if r.completing > 0 then Complete(r) else r
    case Mark => MarkDrained(r)
    case Announce => Signal(r)
  }

  // The driver --------------------------------------------------------------------------------

  datatype Operation =
    | Prepare(address: string, binds: bool)
    | Commit
    | Abort
    | Retire
    | Release(route: nat)
    | Stop

  function BeginPrepare(w: World, address: string, binds: bool): World {
    if w.closed || w.candidate.Some? || address == "" then w
    else if address in w.table then
      var e := w.table[address];
      if e >= |w.entries| || w.entries[e].failed || (w.entries[e].active.None? && w.entries[e].retiring.Some?) then w
      else w.(routes := w.routes + [NewRoute(e)], candidate := Some(|w.routes|))
    else if !binds then w
    else
      w.(entries := w.entries + [Entry(address, None, None, false, false, false, Starting)],
         table := w.table[address := |w.entries|],
         routes := w.routes + [NewRoute(|w.entries|)], candidate := Some(|w.routes|))
  }

  function BeginCommit(w: World): World {
    match w.candidate
    case None => w
    case Some(next) =>
      if w.closed || next >= |w.routes| || w.routes[next].committed || w.routes[next].aborted then w
      else if w.current.Some? && w.current.value < |w.routes| && w.routes[w.current.value].entry != w.routes[next].entry
      then w.(ctl := CommitLeave(next, w.current.value))
      else w.(ctl := CommitSwitch(next))
  }

  function BeginAbort(w: World): World {
    match w.candidate
    case None => w
    case Some(c) =>
      if c >= |w.routes| || w.routes[c].committed || w.routes[c].aborted then w
      else PutRoute(w, c, w.routes[c].(aborted := true)).(ctl := AbortClose(c))
  }

  function BeginRetire(w: World): World {
    match w.current
    case None => w
    case Some(r) =>
      if r >= |w.routes| || w.routes[r].entry >= |w.entries| then w
      else
        var e := w.routes[r].entry;
        var n := w.entries[e];
        if n.active == Some(r)
        then PutEntry(w, e, n.(active := None, retiring := Some(r), stopped := true)).(ctl := RetireRoute(r))
        else w.(ctl := RetireRoute(r))
  }

  function BeginRelease(w: World, r: nat): World {
    if r >= |w.routes| || w.routes[r].entry >= |w.entries| then w
    else
      var e := w.routes[r].entry;
      var n := w.entries[e];
      if n.active == Some(r) then w
      else Unregister(w, e, if n.retiring == Some(r) then n.(retiring := None) else n)
  }

  /** The driver holds one candidate at a time, commits with the active route as previous, and
      commits nothing once the hub is stopped. */
  function Begin(w: World, op: Operation): World {
    match op
    case Prepare(address, binds) => BeginPrepare(w, address, binds)
    case Commit => BeginCommit(w)
    case Abort => BeginAbort(w)
    case Retire => BeginRetire(w)
    case Release(r) => BeginRelease(w, r)
    case Stop => if w.closed then w else w.(closed := true, ctl := StopEntries(0))
  }

  /** Entry `e` becomes `n`; an address without routes is forgotten and its accept loop ends. */
  function Unregister(w: World, e: nat, n: Entry): World
    requires e < |w.entries|
  {
    var gone := n.active.None? && n.retiring.None? && n.address in w.table && w.table[n.address] == e;
    PutEntry(w, e, if gone then n.(stopped := true) else n).(table := if gone then w.table - {n.address} else w.table)
  }

  /** Moving to another address first takes the old one out of service. */
  function TickLeave(w: World, next: nat, previous: nat): World {
    if previous >= |w.routes| || w.routes[previous].entry >= |w.entries| then w
    else
      var e := w.routes[previous].entry;
      PutEntry(w, e, w.entries[e].(active := None, retiring := Some(previous), stopped := true)).(
        ctl := CommitRetire(next, previous))
  }

  function TickRetire(w: World, next: nat, previous: nat): World {
    RetireRouteAt(w, previous).(ctl := CommitSwitch(next), current := None)
  }

  /** The dispatch barrier: no connection is between its target and its reservation. */
  function TickSwitch(w: World, next: nat): World {
    if next >= |w.routes| || w.routes[next].entry >= |w.entries| then w
    else
      var e := w.routes[next].entry;
      var n := w.entries[e];
      if w.current.Some? && n.active != w.current then w.(ctl := Idle, commitRefused := true)
      else
        PutEntry(w, e, n.(active := Some(next), retiring := n.active)).(
          commits := w.commits + [next], ctl := CommitActivate(next, n.active))
  }

  function TickActivate(w: World, next: nat, was: Option<nat>): World {
    if next >= |w.routes| || w.routes[next].entry >= |w.entries| then w
    else
      var e := w.routes[next].entry;
      PutEntry(w, e, w.entries[e].(activated := true)).(ctl := CommitSettle(next, was))
  }

  function TickSettle(w: World, next: nat, was: Option<nat>): World {
    if next >= |w.routes| then w
    else PutRoute(w, next, w.routes[next].(committed := true)).(ctl := CommitFinish(next, was))
  }

  function TickFinish(w: World, next: nat, was: Option<nat>): World {
    (match was case Some(o) => RetireRouteAt(w, o) case None => w).(
      ctl := Idle, candidate := None, current := Some(next))
  }

  function TickAbortClose(w: World, c: nat): World {
    if c >= |w.routes| then w
    else PutRoute(w, c, w.routes[c].(closed := true)).(ctl := AbortDrop(c))
  }

  function TickAbortDrop(w: World, c: nat): World {
    if c >= |w.routes| || w.routes[c].entry >= |w.entries| then w
    else
      var e := w.routes[c].entry;
      Unregister(w, e, w.entries[e]).(ctl := Idle, candidate := None)
  }

  function TickRetireRoute(w: World, r: nat): World {
    RetireRouteAt(w, r).(ctl := Idle, current := None)
  }

  function TickStop(w: World, k: nat): World {
    if k >= |w.entries| then w.(ctl := Idle, table := map[], current := None)
    else PutEntry(w, k, w.entries[k].(active := None, retiring := None, stopped := true)).(ctl := StopEntries(k + 1))
  }

  function Tick(w: World): World {
    match w.ctl
    case Idle => w
    case CommitLeave(next, previous) => TickLeave(w, next, previous)
    case CommitRetire(next, previous) => TickRetire(w, next, previous)
    case CommitSwitch(next) => TickSwitch(w, next)
    case CommitActivate(next, was) => TickActivate(w, next, was)
    case CommitSettle(next, was) => TickSettle(w, next, was)
    case CommitFinish(next, was) => TickFinish(w, next, was)
    case AbortClose(c) => TickAbortClose(w, c)
    case AbortDrop(c) => TickAbortDrop(w, c)
    case RetireRoute(r) => TickRetireRoute(w, r)
    case StopEntries(k) => TickStop(w, k)
  }

  // The machine -------------------------------------------------------------------------------

  datatype Action =
    | Operate(op: Operation)
    | Drive
    | AcceptorMove(entry: nat, ok: bool, queue: bool)
    | RouteMove(route: nat, move: Move)

  function Apply(w: World, a: Action): World {
    match a
    case Operate(op) => if w.ctl.Idle? then Begin(w, op) else w
    case Drive => Tick(w)
    case AcceptorMove(e, ok, queue) => if e < |w.entries| then AcceptStep(w, e, ok, queue) else w
    case RouteMove(i, m) => if i < |w.routes| then PutRoute(w, i, RouteStep(w.routes[i], m)) else w
  }

  function Run(capacity: nat, actions: seq<Action>): World {
    if actions == [] then Init(capacity)
    else Apply(Run(capacity, actions[..|actions| - 1]), actions[|actions| - 1])
  }
}
