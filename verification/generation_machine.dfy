/** Application generations over the shared pools, under the generation coordinator. The
    coordinator serializes its operations, so a run is a sequence of whole operations; what an
    operation cannot foresee (a builder, a finalizer, a drain) is in the fate it carries. */
module GenerationMachine {
  import opened Wrappers
  import opened GenerationPools

  /** A configuration by its digests, with the addresses of the application's and the management
      server. */
  datatype Snapshot = Snapshot(digest: string, sections: map<Owner, string>, address: string, management: string)

  const METRICS_DIGEST := "process"

  /** The metrics resource is shared by the whole process; any other by its section's digest. */
  function KeyFor(s: Snapshot, owner: Owner): Option<Key> {
    if owner == Metrics then Some(Key(Metrics, METRICS_DIGEST))
    else if owner in s.sections then Some(Key(owner, s.sections[owner]))
    else None
  }

  // Servers -----------------------------------------------------------------------------------

  /** Up while serving; Ending once it was asked to end; Down, or Cut by force, once it has;
      Broken if serving ended by itself. */
  datatype Phase = Up | Ending | Down | Cut | Broken

  /** One of the two servers of a generation. Each of its ends is tried once, and what that came
      to is remembered; so is whether serving broke off. */
  datatype Server = Server(phase: Phase, broken: bool, graceful: Option<bool>, forced: Option<bool>)

  const SERVING := Server(Up, false, None, None)

  /** Whether an end, or the answer of an earlier one, arrives in time, and whether the end of
      serving does. */
  datatype ServerFate = ServerFate(ends: bool, waited: bool)

  /** The graceful end: open requests are waited for. */
  function StopServer(s: Server, fate: ServerFate): (Server, bool) {
    match s.graceful
    case Some(ok) => (s, ok && fate.ends)
    case None =>
      var ok := s.phase == Down || (s.phase != Cut && fate.ends && !s.broken);
      var phase := if s.phase != Up && s.phase != Ending then s.phase else if ok then Down else Ending;
      (s.(phase := phase, graceful := Some(ok)), ok)
  }

  /** The forced end: open requests are cut off. */
  function ForceServer(s: Server, fate: ServerFate): (Server, bool) {
    match s.forced
    case Some(ok) => (s, ok && fate.ends)
    case None =>
      var ended := s.phase == Down || s.phase == Cut;
      var ok := ended || (fate.ends && !s.broken);
      (s.(phase := if ended then s.phase else if ok then Cut else Ending, forced := Some(ok)), ok)
  }

  /** Either end, and then the end of serving, which must not have broken off. */
  function EndServer(s: Server, force: bool, fate: ServerFate): (Server, bool) {
    var (s', ok) := if force then ForceServer(s, fate) else StopServer(s, fate);
    (s', ok && fate.waited && !s.broken)
  }

  // Hubs --------------------------------------------------------------------------------------

  /** Which generation the routes of each address lead to, and which one consumes messages and
      runs schedules. */
  datatype Hubs = Hubs(routes: map<string, nat>, managed: map<string, nat>, messaging: Option<nat>, schedule: Option<nat>)

  const NO_HUBS := Hubs(map[], map[], None, None)

  /** A listener hub refuses to replace, on its own address, a route that is not active. */
  predicate Refuses(routes: map<string, nat>, address: string, previous: Option<(string, nat)>) {
    previous.Some? && previous.value.0 == address && (address !in routes || routes[address] != previous.value.1)
  }

  /** The address of the new route leads to it, that of the old one nowhere else. */
  function Redirect(routes: map<string, nat>, address: string, g: nat, previous: Option<(string, nat)>): map<string, nat> {
    (if previous.Some? then routes - {previous.value.0} else routes)[address := g]
  }

  /** The hubs switch to generation `g` of the snapshot one after the other; what was switched stays
      so when a later one fails. `api` and `ops` are the addresses of the generation before. */
  function Switch(h: Hubs, s: Snapshot, g: nat, api: Option<(string, nat)>, ops: Option<(string, nat)>, fate: CommitFate): (Hubs, bool) {
    if !fate.opens || Refuses(h.routes, s.address, api) then (h, false)
    else
      var h1 := h.(routes := Redirect(h.routes, s.address, g, api));
      if Refuses(h.managed, s.management, ops) then (h1, false)
      else
        var h2 := h1.(managed := Redirect(h.managed, s.management, g, ops));
        if !fate.consumes then (h2.(messaging := if fate.restores then h.messaging else None), false)
        else
          var h3 := h2.(messaging := Some(g));
          if !fate.schedules then (h3.(schedule := if fate.keeps then h.schedule else None), false)
          else (h3.(schedule := Some(g)), true)
  }

  function Without(routes: map<string, nat>, g: nat): map<string, nat> {
    map a | a in routes && routes[a] != g :: routes[a]
  }

  function Unless(x: Option<nat>, g: nat): Option<nat> {
    if x == Some(g) then None else x
  }

  /** Generation `g` is taken out of every hub. */
  function Withdrawn(h: Hubs, g: nat): Hubs {
    Hubs(Without(h.routes, g), Without(h.managed, g), Unless(h.messaging, g), Unless(h.schedule, g))
  }

  // The world -----------------------------------------------------------------------------------

  datatype Generation = Generation(
    snapshot: Snapshot, handles: map<Owner, nat>, committed: bool, serving: bool,
    settled: bool, failed: bool, participantsDone: bool, participantsFailed: bool,
    api: Server, ops: Server)

  function Candidate(snapshot: Snapshot): Generation {
    Generation(snapshot, map[], false, false, false, false, false, false, SERVING, SERVING)
  }

  datatype Lifecycle = New | Running | Degraded | Draining | Stopped | Failed

  /** Generations are numbered from zero; None stands for the source's generation 0. */
  datatype World = World(
    pool: Pool, handles: seq<Handle>, gens: seq<Generation>, hubs: Hubs,
    current: Option<nat>, retiring: Option<nat>,
    state: Lifecycle, ready: bool, currentId: Option<nat>, retiringId: Option<nat>,
    configDigest: string, cleanup: bool, broken: bool)

  const INIT := World(EMPTY_POOL, [], [], NO_HUBS, None, None, New, false, None, None, "", false, false)

  // Fates -----------------------------------------------------------------------------------

  /** Which finalizers succeed, and whether the resources no pool shares close. */
  datatype CloseFate = CloseFate(closes: set<Owner>, others: bool)

  /** How many acquires are reached before another step fails (more than all of them if none
      does), which builders work, and how the cleanup of a failure goes. */
  datatype PrepareFate = PrepareFate(reached: nat, builds: set<Owner>, abort: AbortFate)

  datatype AbortFate = AbortFate(teardown: bool, participants: bool, close: CloseFate)

  /** Whether messages, schedules and routes go quiet, how the servers end, and whether the
      participants stop. */
  datatype StopFate = StopFate(quiet: bool, api: ServerFate, ops: ServerFate, participants: bool, close: CloseFate)

  /** Whether publishing opens, and the messaging and the schedule hub switch; if one does not,
      whether the generation before gets its messages back or keeps its schedules. */
  datatype CommitFate = CommitFate(opens: bool, consumes: bool, restores: bool, schedules: bool, keeps: bool)

  // Generations -----------------------------------------------------------------------------

  const OWNERS := 7

  /** The order in which a generation acquires its resources. */
  function AcquireOrder(k: nat): Owner {
    if k == 0 then Logger else if k == 1 then Database else if k == 2 then Cache else if k == 3 then I18n
    else if k == 4 then Storage else if k == 5 then Metrics else Execution
  }

  /** The order in which it releases them. */
  function ReleaseOrder(k: nat): Owner {
    if k == 0 then Metrics else if k == 1 then Storage else if k == 2 then I18n else if k == 3 then Cache
    else if k == 4 then Database else if k == 5 then Logger else Execution
  }

  function PutGen(w: World, g: nat, n: Generation): World
    requires g < |w.gens|
  {
    w.(gens := w.gens[g := n])
  }

  /** Acquires the resources from position `k` on; stops at the first that fails. */
  function AcquireFrom(w: World, g: nat, k: nat, fate: PrepareFate): (World, bool)
    requires g < |w.gens|
    decreases OWNERS - k
  {
    if k >= OWNERS then (w, fate.reached > OWNERS)
    else if fate.reached <= k then (w, false)
    else
      var owner := AcquireOrder(k);
      match KeyFor(w.gens[g].snapshot, owner)
      case None => (w, false)
      case Some(key) =>
        var (p, r) := Acquire(w.pool, key, owner in fate.builds);
        if r == Refused then (w, false)
        else AcquireFrom(AddHandle(w, g, owner, p, key, r.entry), g, k + 1, fate)
  }

  function AddHandle(w: World, g: nat, owner: Owner, p: Pool, key: Key, entry: nat): (w': World)
    requires g < |w.gens|
    ensures |w'.gens| == |w.gens|
  {
    PutGen(w, g, w.gens[g].(handles := w.gens[g].handles[owner := |w.handles|])).(
      pool := p, handles := w.handles + [Handle(g, key, entry, false, false)])
  }

  /** One release; a handle released before answers as it did then. */
  function ReleaseHandle(w: World, i: nat, closes: bool): (World, bool) {
    if i >= |w.handles| then (w, true)
    else if w.handles[i].released then (w, !w.handles[i].failed)
    else
      var (p, r) := Release(w.pool, w.handles[i], closes);
      (w.(pool := p, handles := w.handles[i := w.handles[i].(released := true, failed := r == CloseFailed)],
          broken := w.broken || r == InvariantFailed),
       r == Kept || r == Closed)
  }

  /** Releases what generation `g` holds from position `k` on, whatever fails on the way. */
  function ReleaseFrom(w: World, g: nat, k: nat, closes: set<Owner>): (World, bool)
    requires g < |w.gens|
    decreases OWNERS - k
  {
    if k >= OWNERS then (w, true)
    else
      var owner := ReleaseOrder(k);
      if owner !in w.gens[g].handles then ReleaseFrom(w, g, k + 1, closes)
      else
        var (w1, ok) := ReleaseHandle(w, w.gens[g].handles[owner], owner in closes);
        var (w2, rest) := ReleaseFrom(w1, g, k + 1, closes);
        (w2, ok && rest)
  }

  function ReleaseResources(w: World, g: nat, fate: CloseFate): (World, bool)
    requires g < |w.gens|
  {
    var (w', ok) := ReleaseFrom(w, g, 0, fate.closes);
    (w', ok && fate.others)
  }

  /** Participants are stopped once; a later call repeats the first answer. */
  function StopParticipants(n: Generation, stops: bool): (Generation, bool) {
    if n.participantsDone then (n, !n.participantsFailed)
    else (n.(participantsDone := true, participantsFailed := !stops), stops)
  }

  function Settle(w: World, g: nat, ok: bool): World {
    if g < |w.gens| then PutGen(w, g, w.gens[g].(settled := true, failed := !ok)) else w
  }

  /** Some address leads to generation `g`. */
  predicate Routed(h: Hubs, g: nat) {
    g in h.routes.Values || g in h.managed.Values
  }

  /** An aborted generation keeps the addresses that already lead to it, which is an error. */
  function Muted(h: Hubs, g: nat): Hubs {
    h.(messaging := Unless(h.messaging, g), schedule := Unless(h.schedule, g))
  }

  /** Aborting an uncommitted generation always settles it. */
  function AbortGeneration(w: World, g: nat, fate: AbortFate): (World, bool)
    requires g < |w.gens|
  {
    var n := w.gens[g];
    if n.committed then (w, false)
    else if n.settled then (w, !n.failed)
    else
      var (n', stopped) := StopParticipants(n, fate.participants);
      var (w', released) := ReleaseResources(PutGen(w.(hubs := Muted(w.hubs, g)), g, n'), g, fate.close);
      var ok := fate.teardown && !Routed(w.hubs, g) && stopped && released;
      (Settle(w', g, ok), ok)
  }

  /** Gracefully one server ends after the other, each only if all before went well; by force both
      are ended whatever goes wrong. */
  function EndServers(n: Generation, force: bool, fate: StopFate): (Generation, bool) {
    if !force && !fate.quiet then (n, false)
    else
      var (api, a) := EndServer(n.api, force, fate.api);
      if !force && !a then (n.(api := api), false)
      else
        var (ops, b) := EndServer(n.ops, force, fate.ops);
        (n.(api := api, ops := ops), fate.quiet && a && b)
  }

  /** What is left of a stop once generation `g` is quiet. */
  function EndQuietly(w: World, g: nat, n: Generation, fate: StopFate): (World, bool)
    requires g < |w.gens|
  {
    var (n', stopped) := StopParticipants(n, fate.participants);
    if !stopped then (PutGen(w, g, n'), false)
    else
      var (w', ok) := ReleaseResources(PutGen(w, g, n'), g, fate.close);
      (Settle(w', g, ok), ok)
  }

  /** Retire and Stop end the servers gracefully, ForceStop by force. Each settles the generation
      only once it is quiet and its participants have stopped. */
  function StopGeneration(w: World, g: nat, force: bool, fate: StopFate): (World, bool)
    requires g < |w.gens|
  {
    var n := w.gens[g];
    if !n.committed then (w, false)
    else if n.settled then (w, !n.failed)
    else
      var (n', quiet) := EndServers(n, force, fate);
      var w' := w.(hubs := Withdrawn(w.hubs, g));
      if quiet then EndQuietly(w', g, n', fate) else (PutGen(w', g, n'), false)
  }

  /** Prepares a new generation; a failed preparation is aborted. */
  function Prepare(w: World, snapshot: Snapshot, fate: PrepareFate): (World, Option<nat>) {
    var g := |w.gens|;
    var w1 := w.(gens := w.gens + [Candidate(snapshot)]);
    var (w2, ok) := AcquireFrom(w1, g, 0, fate);
    if ok || g >= |w2.gens| then (w2, Some(g)) else (AbortGeneration(w2, g, fate.abort).0, None)
  }

  /** A generation with the address of one of its servers. */
  function AddressOf(w: World, g: Option<nat>, management: bool): Option<(string, nat)> {
    if g.None? || g.value >= |w.gens| then None
    else Some((if management then w.gens[g.value].snapshot.management else w.gens[g.value].snapshot.address, g.value))
  }

  /** Once every hub has switched, the generation takes the place of the previous one. */
  function CommitGeneration(w: World, g: nat, previous: Option<nat>, fate: CommitFate): (World, bool) {
    if g >= |w.gens| then (w, false)
    else
      var (h, ok) := Switch(w.hubs, w.gens[g].snapshot, g, AddressOf(w, previous, false), AddressOf(w, previous, true), fate);
      var w0 := w.(hubs := h);
      if !ok then (w0, false)
      else
        var w1 := PutGen(w0, g, w.gens[g].(committed := true, serving := true));
        if previous.Some? && previous.value < |w.gens| && previous.value != g
        then (PutGen(w1, previous.value, w1.gens[previous.value].(serving := false)), true) else (w1, true)
  }

  // The coordinator -----------------------------------------------------------------------------

  datatype ReloadFate = ReloadFate(
    loads: Option<Snapshot>, diffs: bool, prepare: PrepareFate, commit: CommitFate, abort: AbortFate, retire: StopFate)

  datatype StopAllFate = StopAllFate(current: StopFate, retiring: StopFate, factory: bool)

  /** The operations of the coordinator, and one thing that happens between them: a server of a
      generation, the management server or the other, ceases to serve. */
  datatype Operation =
    | Start(fate: ReloadFate)
    | Reload(fate: ReloadFate)
    | Stop(all: StopAllFate)
    | ForceStop(all: StopAllFate)
    | Break(g: nat, management: bool)

  function Reject(w: World): World {
    w.(state := Running, ready := true)
  }

  function FailStart(w: World): World {
    w.(state := Failed, ready := false)
  }

  /** publishLocked, with the generation it publishes made current. */
  function Publish(w: World, g: nat, previous: Option<nat>): World {
    w.(current := Some(g), retiring := previous, currentId := Some(g),
       retiringId := if previous.Some? then previous else w.retiringId,
       state := Running, ready := true, cleanup := false,
       configDigest := if g < |w.gens| then w.gens[g].snapshot.digest else "")
  }

  /** Prepares and commits a generation; what fails is aborted. */
  function Install(w: World, snapshot: Snapshot, previous: Option<nat>, fate: ReloadFate): (World, Option<nat>) {
    match Prepare(w, snapshot, fate.prepare)
    case (w1, None) => (w1, None)
    case (w1, Some(g)) =>
      if g >= |w1.gens| then (w1, None)
      else
        var (w2, ok) := CommitGeneration(w1, g, previous, fate.commit);
        if ok then (w2, Some(g))
        else if g < |w2.gens| then (AbortGeneration(w2, g, fate.abort).0, None) else (w2, None)
  }

  function StartOp(w: World, fate: ReloadFate): World {
    if w.state != New then w
    else
      match fate.loads
      case None => FailStart(w)
      case Some(snapshot) =>
        match Install(w, snapshot, None, fate)
        case (w1, None) => FailStart(w1)
        case (w1, Some(g)) => Publish(w1, g, None)
  }

  function ReloadOp(w: World, fate: ReloadFate): World {
    if w.state != Running || w.cleanup || w.current.None? || w.current.value >= |w.gens| then w
    else
      match fate.loads
      case None => Reject(w)
      case Some(snapshot) =>
        if !fate.diffs then Reject(w)
        else if snapshot.digest == w.gens[w.current.value].snapshot.digest then Reject(w)
        else Replace(w, snapshot, w.current.value, fate)
  }

  /** Replaces the current generation by one for the new snapshot, or rejects the snapshot. */
  function Replace(w: World, snapshot: Snapshot, previous: nat, fate: ReloadFate): World {
    match Install(w, snapshot, Some(previous), fate)
    case (w1, None) => Reject(w1)
    case (w1, Some(g)) => RetirePrevious(Publish(w1, g, Some(previous)), previous, fate.retire)
  }

  /** The committed reload owes the previous generation its end; a failure degrades. */
  function RetirePrevious(w: World, previous: nat, fate: StopFate): World {
    if previous >= |w.gens| then w
    else
      var (w', ok) := StopGeneration(w, previous, false, fate);
      if ok then w'.(retiring := None, retiringId := None)
      else w'.(state := Degraded, ready := false, cleanup := true)
  }

  function StopOne(w: World, g: Option<nat>, force: bool, fate: StopFate): (World, bool) {
    if g.None? || g.value >= |w.gens| then (w, true) else StopGeneration(w, g.value, force, fate)
  }

  /** The factory, once asked, takes down every hub. */
  function Finish(w: World, asked: bool, ok: bool): World {
    var w1 := if asked then w.(hubs := NO_HUBS) else w;
    if ok then w1.(current := None, retiring := None, state := Stopped, cleanup := false)
    else w1.(state := Failed, cleanup := true)
  }

  /** A graceful stop asks the factory only after both generations ended. */
  function StopOp(w: World, fate: StopAllFate): World {
    if w.state == Stopped then w
    else
      var w0 := w.(state := Draining, ready := false);
      var (w1, a) := StopOne(w0, w.current, false, fate.current);
      var (w2, b) := StopOne(w1, w.retiring, false, fate.retiring);
      Finish(w2, a && b, a && b && fate.factory)
  }

  function ForceStopOp(w: World, fate: StopAllFate): World {
    var (w1, a) := StopOne(w, w.current, true, fate.current);
    var (w2, b) := StopOne(w1, w.retiring, true, fate.retiring);
    Finish(w2, true, a && b && fate.factory)
  }

  /** Serving ends by itself only while nobody asked it to end. */
  function Broke(s: Server): Server {
    if s.phase == Up then s.(phase := Broken, broken := true) else s
  }

  function BreakOp(w: World, g: nat, management: bool): World {
    if g >= |w.gens| || w.gens[g].settled then w
    else if management then PutGen(w, g, w.gens[g].(ops := Broke(w.gens[g].ops)))
    else PutGen(w, g, w.gens[g].(api := Broke(w.gens[g].api)))
  }

  function Apply(w: World, op: Operation): World {
    match op
    case Start(fate) => StartOp(w, fate)
    case Reload(fate) => ReloadOp(w, fate)
    case Stop(all) => StopOp(w, all)
    case ForceStop(all) => ForceStopOp(w, all)
    case Break(g, management) => BreakOp(w, g, management)
  }

  function Run(ops: seq<Operation>): World {
    if ops == [] then INIT else Apply(Run(ops[..|ops| - 1]), ops[|ops| - 1])
  }
}
