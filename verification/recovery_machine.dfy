/** The failover store as a transition system. Any number of writers route, write and enqueue
    while one loop verifies the primary, replays the buffer and swaps back; every action is
    one critical section or one call of an underlying store. A failed call has no effect. */
module RecoveryMachine {
  import opened Wrappers
  import opened MemoryStores

  datatype State = Healthy | Degraded | Recovering

  datatype Overflow = Discard | Block | Alert

  datatype Config = Config(capacity: int, overflow: Overflow, initialBackoff: int, maxBackoff: int, probeInterval: int)

  const DEFAULT_CAPACITY := 1000
  const DEFAULT_INITIAL_BACKOFF := 200
  const DEFAULT_MAX_BACKOFF := 30000
  const DEFAULT_PROBE_INTERVAL := 1000

  /** Missing values take their defaults; durations are in milliseconds. */
  function Normalize(cfg: Config): Config {
    Config(
      if cfg.capacity <= 0 then DEFAULT_CAPACITY else cfg.capacity,
      cfg.overflow,
      if cfg.initialBackoff <= 0 then DEFAULT_INITIAL_BACKOFF else cfg.initialBackoff,
      if cfg.maxBackoff <= 0 then DEFAULT_MAX_BACKOFF else cfg.maxBackoff,
      if cfg.probeInterval <= 0 then DEFAULT_PROBE_INTERVAL else cfg.probeInterval)
  }

  /** Where the recovery loop is: waiting for its timer, verifying, about to look at the
      buffer, calling the primary with the head, about to drop it, or about to fall back. */
  datatype LoopPc = Waiting | Verifying | Starting | Looking | Calling(item: Write) | Dropping(item: Write) | FallingBack

  /** `space` counts the wake-ups; a writer blocked on channel `c` is awake once `c < space`. */
  datatype Store = Store(
    cfg: Config, state: State, buffered: seq<Write>, dropped: nat, transitions: nat,
    backoff: int, space: nat, loop: LoopPc, primary: Memory, local: Memory)

  function NewStore(cfg: Config): Store {
    Store(Normalize(cfg), Healthy, [], 0, 0, 0, 0, Waiting, EMPTY, EMPTY)
  }

  const PROBE_PREFIX := "execution:recovery-probe:"
  const PROBE_TTL := 60000

  predicate IsProbe(key: Key) {
    PROBE_PREFIX <= key
  }

  /** The write of a verification round trip, under a reserved key. */
  function Probe(suffix: string, clock: int): Write {
    Complete(PROBE_PREFIX + suffix, PROBE_TTL, Record("", Some(clock)))
  }

  // Critical sections ---------------------------------------------------------------------

  function MoveTo(s: Store, state: State): Store {
    s.(state := state, transitions := s.transitions + 1)
  }

  /** The dependency failed: a healthy store degrades, any other stays as it is. */
  function Degrade(s: Store): Store {
    if s.state != Healthy then s else MoveTo(s, Degraded).(backoff := s.cfg.initialBackoff)
  }

  datatype Enqueued = Accepted | DroppedSilently | DroppedWithError | MustWait(channel: nat)

  function Enqueue(s: Store, w: Write): (Store, Enqueued) {
    if |s.buffered| < s.cfg.capacity then (s.(buffered := s.buffered + [w]), Accepted)
    else match s.cfg.overflow
      case Discard => (s.(dropped := s.dropped + 1), DroppedSilently)
      case Alert => (s.(dropped := s.dropped + 1), DroppedWithError)
      case Block => (s, MustWait(s.space))
  }

  /** One step of the recovery loop; `ok` is the outcome of the call it waits for. */
  function LoopStep(s: Store, ok: bool, clock: int): Store {
    match s.loop
    case Waiting => if s.state == Degraded then s.(loop := Verifying) else s
    case Verifying => if ok then s.(loop := Starting) else GrowBackoff(s).(loop := Waiting)
    case Starting =>
      if s.state != Degraded then GrowBackoff(s).(loop := Waiting)
      else MoveTo(s, Recovering).(loop := Looking)
    case Looking =>
      if |s.buffered| == 0 then MoveTo(s, Healthy).(backoff := s.cfg.initialBackoff, loop := Waiting)
      else s.(loop := Calling(s.buffered[0]))
    case Calling(item) =>
      if ok then s.(primary := Put(s.primary, item, clock), loop := Dropping(item)) else s.(loop := FallingBack)
    case Dropping(item) =>
      if |s.buffered| == 0 then s
      else s.(buffered := s.buffered[1..], space := s.space + 1, loop := Looking)
    case FallingBack =>
      GrowBackoff(if s.state == Recovering then MoveTo(s, Degraded).(backoff := s.cfg.initialBackoff) else s).(loop := Waiting)
  }

  // Backoff -------------------------------------------------------------------------------

  function Grown(backoff: int, cfg: Config): int {
    var b := if backoff <= 0 then cfg.initialBackoff else backoff;
    if b < cfg.maxBackoff then (if b * 2 < cfg.maxBackoff then b * 2 else cfg.maxBackoff) else b
  }

  function GrowBackoff(s: Store): Store {
    s.(backoff := Grown(s.backoff, s.cfg))
  }

  /** The wait before the next probe, to which jitter is added. */
  function NextWait(base: int, s: Store): int {
    var b := if base <= 0 then (if s.backoff <= 0 then s.cfg.initialBackoff else s.backoff) else base;
    if s.cfg.probeInterval > b then s.cfg.probeInterval else b
  }

  // Writers -------------------------------------------------------------------------------

  datatype WriterPc =
    | Routing(w: Write)
    | OnPrimary(w: Write)
    | PrimaryFailed(w: Write)
    | OnLocal(w: Write)
    | Enqueueing(w: Write)
    | Blocked(w: Write, channel: nat)

  /** What happened so far: the items the buffer accepted, those that left it, those the
      primary accepted in replays, the writes acknowledged and not dropped, the effective
      writes of the primary, and every state the store was in. */
  datatype History = History(
    accepted: seq<Write>, left: seq<Write>, replayed: seq<Write>,
    acked: seq<Write>, effective: seq<Write>, path: seq<State>)

  datatype World = World(s: Store, writers: map<nat, WriterPc>, h: History)

  function Init(cfg: Config): World {
    World(NewStore(cfg), map[], History([], [], [], [], [], [Healthy]))
  }

  datatype Action =
    | Arrive(id: nat, write: Write)
    | Writer(id: nat, ok: bool, dependency: bool, clock: int)
    | ReadFails
    | PrimaryClaim(key: Key, ttl: int, now: int)
    | LocalClaim(key: Key, ttl: int, now: int)
    | ProbeComplete(suffix: string, clock: int)
    | Loop(ok: bool, clock: int)

  /** Keeps the record of the states passed through. */
  function Follow(h: History, before: State, after: State): History {
    if before == after then h else h.(path := h.path + [after])
  }

  function Return(f: World, id: nat): World {
    f.(writers := f.writers - {id})
  }

  function WriterStep(f: World, id: nat, ok: bool, dependency: bool, clock: int): World
    requires id in f.writers
  {
    match f.writers[id]
    case Routing(w) => f.(writers := f.writers[id := if f.s.state == Healthy then OnPrimary(w) else OnLocal(w)])
    case OnPrimary(w) =>
      if ok then
        Return(f, id).(s := f.s.(primary := Put(f.s.primary, w, clock)),
                       h := f.h.(acked := f.h.acked + [w], effective := f.h.effective + [w]))
      else if dependency then f.(writers := f.writers[id := PrimaryFailed(w)])
      else Return(f, id)
    case PrimaryFailed(w) =>
      var s := Degrade(f.s);
      World(s, f.writers[id := OnLocal(w)], Follow(f.h, f.s.state, s.state))
    case OnLocal(w) =>
      if ok then f.(s := f.s.(local := Put(f.s.local, w, clock)), writers := f.writers[id := Enqueueing(w)])
      else Return(f, id)
    case Enqueueing(w) =>
      var (s, result) := Enqueue(f.s, w);
      (match result
       case Accepted =>
         Return(f, id).(s := s, h := f.h.(accepted := f.h.accepted + [w], acked := f.h.acked + [w]))
       case DroppedSilently => Return(f, id).(s := s)
       case DroppedWithError => Return(f, id).(s := s)
       case MustWait(c) => f.(s := s, writers := f.writers[id := Blocked(w, c)]))
    case Blocked(w, c) =>
      if !ok then Return(f, id)
      else if c < f.s.space then f.(writers := f.writers[id := Enqueueing(w)])
      else f
  }

  function LoopAction(f: World, ok: bool, clock: int): World {
    var s := LoopStep(f.s, ok, clock);
    var h := Follow(f.h, f.s.state, s.state);
    var h' := if f.s.loop.Calling? && ok
              then h.(replayed := h.replayed + [f.s.loop.item], effective := h.effective + [f.s.loop.item])
              else h;
    var h'' := if f.s.loop.Dropping? && |f.s.buffered| > 0 then h'.(left := h'.left + [f.s.buffered[0]]) else h';
    f.(s := s, h := h'')
  }

  function Apply(f: World, a: Action): World {
    match a
    case Arrive(id, w) => if id in f.writers then f else f.(writers := f.writers[id := Routing(w)])
    case Writer(id, ok, dependency, clock) => if id in f.writers then WriterStep(f, id, ok, dependency, clock) else f
    case ReadFails => f.(s := Degrade(f.s), h := Follow(f.h, f.s.state, Degrade(f.s).state))
    case PrimaryClaim(key, ttl, now) => f.(s := f.s.(primary := Claim(f.s.primary, key, ttl, now).0))
    case LocalClaim(key, ttl, now) => f.(s := f.s.(local := Claim(f.s.local, key, ttl, now).0))
    case ProbeComplete(suffix, clock) =>
      if f.s.loop.Verifying? then f.(s := f.s.(primary := Put(f.s.primary, Probe(suffix, clock), clock))) else f
    case Loop(ok, clock) => LoopAction(f, ok, clock)
  }

  function Run(cfg: Config, actions: seq<Action>): World {
    if actions == [] then Init(cfg)
    else Apply(Run(cfg, actions[..|actions| - 1]), actions[|actions| - 1])
  }

  // The buffer law, in every interleaving ---------------------------------------------------

  predicate Edge(a: State, b: State) {
    (a == Healthy && b == Degraded) || (a == Degraded && b == Recovering) || (a == Recovering && (b == Healthy || b == Degraded))
  }

  predicate PathOk(f: World) {
    var p := f.h.path;
    && |p| == f.s.transitions + 1 && p[0] == Healthy && p[|p| - 1] == f.s.state
    && forall i | 0 <= i < |p| - 1 :: Edge(p[i], p[i + 1])
  }

  predicate BufferOk(f: World) {
    && f.s.cfg.capacity > 0 && |f.s.buffered| <= f.s.cfg.capacity
    && f.h.accepted == f.h.left + f.s.buffered
    && match f.s.loop
       case Calling(item) => |f.s.buffered| > 0 && item == f.s.buffered[0] && f.h.replayed == f.h.left
       case Dropping(item) => |f.s.buffered| > 0 && item == f.s.buffered[0] && f.h.replayed == f.h.left + [item]
       case _ => f.h.replayed == f.h.left
  }

  predicate LoopOk(f: World) {
    match f.s.loop
    case Waiting => f.s.state != Recovering
    case Verifying => f.s.state == Degraded
    case Starting => f.s.state == Degraded
    case _ => f.s.state == Recovering
  }

  /** A writer waits only while its channel is open, and then the buffer is full. */
  predicate BlockedOk(f: World) {
    forall id | id in f.writers && f.writers[id].Blocked? ::
      && f.writers[id].channel <= f.s.space
      && (f.writers[id].channel == f.s.space ==> |f.s.buffered| == f.s.cfg.capacity)
  }

  predicate BackoffOk(f: World) {
    var cfg := f.s.cfg;
    && 0 < cfg.initialBackoff && 0 < cfg.maxBackoff
    && 0 <= f.s.backoff && (f.s.backoff <= cfg.initialBackoff || f.s.backoff <= cfg.maxBackoff)
    && (f.s.state != Healthy ==> cfg.initialBackoff <= f.s.backoff || cfg.maxBackoff <= f.s.backoff)
  }

  predicate Inv(f: World) {
    PathOk(f) && BufferOk(f) && LoopOk(f) && BlockedOk(f) && BackoffOk(f)
  }

  lemma WriterKeepsBuffer(f: World, id: nat, ok: bool, dependency: bool, clock: int)
    requires BufferOk(f) && LoopOk(f) && id in f.writers
    ensures BufferOk(WriterStep(f, id, ok, dependency, clock)) && LoopOk(WriterStep(f, id, ok, dependency, clock))
  {
    var f' := WriterStep(f, id, ok, dependency, clock);
    if f.writers[id].Enqueueing? && Enqueue(f.s, f.writers[id].w).1 == Accepted {
      assert f'.h.accepted == f.h.left + (f.s.buffered + [f.writers[id].w]);
    }
  }

  lemma WriterKeepsPath(f: World, id: nat, ok: bool, dependency: bool, clock: int)
    requires PathOk(f) && BackoffOk(f) && id in f.writers
    ensures PathOk(WriterStep(f, id, ok, dependency, clock)) && BackoffOk(WriterStep(f, id, ok, dependency, clock))
  {
  }

  lemma WriterKeepsBlocked(f: World, id: nat, ok: bool, dependency: bool, clock: int)
    requires BlockedOk(f) && BufferOk(f) && id in f.writers
    ensures BlockedOk(WriterStep(f, id, ok, dependency, clock))
  {
  }

  lemma LoopKeepsBuffer(f: World, ok: bool, clock: int)
    requires BufferOk(f) && LoopOk(f)
    ensures BufferOk(LoopAction(f, ok, clock)) && LoopOk(LoopAction(f, ok, clock))
  {
    if f.s.loop.Dropping? {
      assert f.s.buffered == [f.s.buffered[0]] + f.s.buffered[1..];
      assert f.h.left + f.s.buffered == (f.h.left + [f.s.buffered[0]]) + f.s.buffered[1..];
    }
  }

  lemma LoopKeepsPath(f: World, ok: bool, clock: int)
    requires PathOk(f) && LoopOk(f) && BackoffOk(f)
    ensures PathOk(LoopAction(f, ok, clock)) && BackoffOk(LoopAction(f, ok, clock))
  {
  }

  lemma LoopKeepsBlocked(f: World, ok: bool, clock: int)
    requires BlockedOk(f)
    ensures BlockedOk(LoopAction(f, ok, clock))
  {
  }

  lemma {:induction false} RunInv(cfg: Config, actions: seq<Action>)
    ensures Inv(Run(cfg, actions))
  {
    if actions != [] {
      var n := |actions| - 1;
      var f := Run(cfg, actions[..n]);
      RunInv(cfg, actions[..n]);
      match actions[n]
      case Writer(id, ok, dependency, clock) =>
        if id in f.writers {
          WriterKeepsBuffer(f, id, ok, dependency, clock);
          WriterKeepsPath(f, id, ok, dependency, clock);
          WriterKeepsBlocked(f, id, ok, dependency, clock);
        }
      case Loop(ok, clock) =>
        LoopKeepsBuffer(f, ok, clock);
        LoopKeepsPath(f, ok, clock);
        LoopKeepsBlocked(f, ok, clock);
      case _ =>
    }
  }
}
