/** What the failover store guarantees: the buffer law in every interleaving; that nothing is lost
    in any; exactly which interleavings keep the primary as if every acknowledged write had gone
    to it directly; and that single-step writes always do. */
module RecoveryFailover {
  import opened Wrappers
  import opened MemoryStores
  import opened RecoveryMachine

  // Every interleaving ----------------------------------------------------------------------

  /** The buffer never exceeds its capacity; what it accepted is what was replayed followed by
      what it still holds, and an item leaves only after the primary accepted it; the state
      follows its three edges and every move is counted. */
  lemma {:induction false} BufferLaw(cfg: Config, actions: seq<Action>)
    ensures var f := Run(cfg, actions);
            && |f.s.buffered| <= f.s.cfg.capacity == Normalize(cfg).capacity
            && f.h.accepted == f.h.left + f.s.buffered
            && f.h.left <= f.h.replayed <= f.h.accepted && |f.h.replayed| <= |f.h.left| + 1
            && |f.h.path| > 0 && f.h.path[0] == Healthy && f.h.path[|f.h.path| - 1] == f.s.state && f.s.transitions == |f.h.path| - 1
            && forall i | 0 <= i < |f.h.path| - 1 :: Edge(f.h.path[i], f.h.path[i + 1])
  {
    RunInv(cfg, actions);
    ConfigKept(cfg, actions);
    ReplayedPrefix(Run(cfg, actions));
  }

  lemma ReplayedPrefix(f: World)
    requires BufferOk(f)
    ensures f.h.left <= f.h.replayed <= f.h.accepted && |f.h.replayed| <= |f.h.left| + 1
  {
    if f.s.loop.Dropping? {
      assert f.h.accepted[..|f.h.left| + 1] == f.h.left + [f.s.buffered[0]];
    }
  }

  lemma {:induction false} ConfigKept(cfg: Config, actions: seq<Action>)
    ensures Run(cfg, actions).s.cfg == Normalize(cfg)
  {
    if actions != [] {
      ConfigKept(cfg, actions[..|actions| - 1]);
    }
  }

  /** A writer blocked on a full buffer is never left waiting once there is room. */
  lemma {:induction false} NoLostSpace(cfg: Config, actions: seq<Action>, id: nat, dependency: bool, clock: int)
    requires var f := Run(cfg, actions);
             id in f.writers && f.writers[id].Blocked? && |f.s.buffered| < f.s.cfg.capacity
    ensures var f := Run(cfg, actions);
            Apply(f, Writer(id, true, dependency, clock)).writers[id] == Enqueueing(f.writers[id].w)
  {
    RunInv(cfg, actions);
  }

  const SMALL := Config(1, Discard, 1, 1, 1)

  /** A writer is routed to the local store during an outage and then pauses before the
      buffer, while the loop verifies the primary and finds nothing to replay. */
  function Overtaken(w: Write): seq<Action> {
    [ReadFails, Arrive(0, w), Writer(0, true, true, 0), Writer(0, true, true, 0)]
  }

  const SWAP_BACK := [Loop(true, 0), Loop(true, 0), Loop(true, 0), Loop(true, 0)]

  lemma RunSnoc(cfg: Config, actions: seq<Action>, a: Action)
    ensures Run(cfg, actions + [a]) == Apply(Run(cfg, actions), a)
  {
    assert (actions + [a])[..|actions|] == actions;
  }

  lemma OvertakenRun(w: Write)
    ensures var f := Run(SMALL, Overtaken(w));
            && f.writers == map[0 := Enqueueing(w)] && f.s.state == Degraded && f.s.loop == Waiting
            && f.s.buffered == f.h.acked == f.h.effective == [] && f.s.cfg == SMALL
  {
    var a := Overtaken(w);
    RunSnoc(SMALL, [], a[0]);
    assert [] + [a[0]] == a[..1] && a[..1] + [a[1]] == a[..2] && a[..2] + [a[2]] == a[..3] && a[..3] + [a[3]] == a;
    RunSnoc(SMALL, a[..1], a[1]);
    RunSnoc(SMALL, a[..2], a[2]);
    RunSnoc(SMALL, a[..3], a[3]);
  }

  /** Between its routing decision and its place in the buffer a writer can be overtaken by
      the swap: its write is acknowledged but waits in the buffer of a healthy store. */
  lemma {:induction false} WriteCanBeStranded(w: Write)
    ensures var f := Run(SMALL, Overtaken(w) + SWAP_BACK + [Writer(0, true, true, 0)]);
            f.s.state == Healthy && f.s.buffered == [w] && f.h.acked == [w] && f.h.effective == []
  {
    OvertakenRun(w);
    var a, l := Overtaken(w), Loop(true, 0);
    RunSnoc(SMALL, a, l);
    RunSnoc(SMALL, a + [l], l);
    RunSnoc(SMALL, a + [l] + [l], l);
    RunSnoc(SMALL, a + [l] + [l] + [l], l);
    assert a + SWAP_BACK == a + [l] + [l] + [l] + [l];
    RunSnoc(SMALL, a + SWAP_BACK, Writer(0, true, true, 0));
  }

  /** A healthy store with an empty buffer keeps it empty for one more step unless that step is
      the enqueue of a writer that was routed before the swap. */
  lemma {:induction false} StrandedExactlyBy(cfg: Config, actions: seq<Action>, a: Action)
    requires var f := Run(cfg, actions); f.s.state == Healthy && f.s.buffered == []
    ensures var f := Run(cfg, actions);
            var f' := Apply(f, a);
            f'.s.state == Healthy && f'.s.buffered != [] <==>
              a.Writer? && a.id in f.writers && f.writers[a.id].Enqueueing?
  {
    RunInv(cfg, actions);
  }

  // Which runs keep the acknowledged order ------------------------------------------------------

  /** What the primary still lacks. */
  function Pending(s: Store): seq<Write> {
    if s.loop.Dropping? && |s.buffered| > 0 then s.buffered[1..] else s.buffered
  }

  /** Every acknowledged write has been applied to the primary or is pending, in the order of the
      acknowledgements, and a healthy store owes the primary nothing. */
  predicate Refines(f: World) {
    && f.h.acked == f.h.effective + Pending(f.s)
    && (f.s.state == Healthy ==> f.s.buffered == [])
  }

  /** A writer that was routed before the swap finds room in the buffer after it. */
  predicate EnqueuesLate(f: World, a: Action) {
    && a.Writer? && a.id in f.writers && f.writers[a.id].Enqueueing?
    && f.s.state == Healthy && |f.s.buffered| < f.s.cfg.capacity
  }

  /** A writer that was routed before the outage reaches the primary past a pending write. */
  predicate Overtakes(f: World, a: Action) {
    && a.Writer? && a.ok && a.id in f.writers && f.writers[a.id].OnPrimary?
    && exists i :: 0 <= i < |Pending(f.s)| && Pending(f.s)[i] != f.writers[a.id].w
  }

  predicate Interferes(f: World, a: Action) {
    EnqueuesLate(f, a) || Overtakes(f, a)
  }

  lemma {:induction false} RotatesOnlyAlike(s: seq<Write>, w: Write)
    ensures s + [w] == [w] + s <==> forall i | 0 <= i < |s| :: s[i] == w
  {
    if s + [w] == [w] + s && s != [] {
      assert (s + [w])[0] == s[0] && ([w] + s)[0] == w;
      assert s == [w] + s[1..];
      assert s[1..] + [w] == (s + [w])[1..] == ([w] + s)[1..] == s == [w] + s[1..];
      RotatesOnlyAlike(s[1..], w);
      assert forall i | 0 < i < |s| :: s[i] == s[1..][i - 1];
    }
    if forall i | 0 <= i < |s| :: s[i] == w {
      assert forall i | 0 <= i < |s| :: (s + [w])[i] == ([w] + s)[i];
      assert s + [w] == [w] + s;
    }
  }

  lemma DirectWrite(effective: seq<Write>, pending: seq<Write>, w: Write)
    ensures (effective + pending) + [w] == (effective + [w]) + pending <==> forall i | 0 <= i < |pending| :: pending[i] == w
  {
    var l, r := (effective + pending) + [w], (effective + [w]) + pending;
    assert l == effective + (pending + [w]) && r == effective + ([w] + pending);
    assert l[|effective|..] == pending + [w] && r[|effective|..] == [w] + pending;
    RotatesOnlyAlike(pending, w);
  }

  /** An action acknowledges into the primary, acknowledges into the buffer, replays, or does none
      of these. */
  lemma Moves(f: World, a: Action) returns (w: seq<Write>, direct: bool, replay: bool)
    requires BufferOk(f) && LoopOk(f)
    ensures direct <==> a.Writer? && a.ok && a.id in f.writers && f.writers[a.id].OnPrimary?
    ensures direct ==> w == [f.writers[a.id].w] && !replay
    ensures var f' := Apply(f, a);
            && f'.h.acked == f.h.acked + (if replay then [] else w)
            && f'.h.effective == f.h.effective + (if direct || replay then w else [])
            && (if replay then Pending(f.s) == w + Pending(f'.s) else Pending(f'.s) == Pending(f.s) + (if direct then [] else w))
  {
    w, direct, replay := [], false, false;
    if a.Writer? && a.id in f.writers && f.writers[a.id].OnPrimary? && a.ok {
      w, direct := [f.writers[a.id].w], true;
    } else if a.Writer? && a.id in f.writers && f.writers[a.id].Enqueueing? && |f.s.buffered| < f.s.cfg.capacity {
      w := [f.writers[a.id].w];
    } else if a.Loop? && f.s.loop.Calling? && a.ok {
      w, replay := [f.s.loop.item], true;
      assert f.s.buffered == [f.s.loop.item] + f.s.buffered[1..];
    }
  }

  /** The order survives a step if and only if the step overtakes nothing. */
  lemma OrderStep(f: World, a: Action)
    requires BufferOk(f) && LoopOk(f) && f.h.acked == f.h.effective + Pending(f.s)
    ensures var f' := Apply(f, a); f'.h.acked == f'.h.effective + Pending(f'.s) <==> !Overtakes(f, a)
  {
    var w, direct, replay := Moves(f, a);
    var f' := Apply(f, a);
    MoveOrder(f.h.effective, Pending(f.s), f'.h.effective, Pending(f'.s), w, direct, replay);
  }

  lemma MoveOrder(effective: seq<Write>, pending: seq<Write>, effective': seq<Write>, pending': seq<Write>, w: seq<Write>,
                  direct: bool, replay: bool)
    requires effective' == effective + (if direct || replay then w else []) && (direct ==> |w| == 1)
    requires if replay then pending == w + pending' else pending' == pending + (if direct then [] else w)
    ensures (effective + pending) + (if replay then [] else w) == effective' + pending' <==>
              replay || !direct || forall i | 0 <= i < |pending| :: pending[i] == w[0]
  {
    if replay {
      assert effective + (w + pending') == (effective + w) + pending';
    } else if direct {
      assert w == [w[0]] && pending' == pending;
      DirectWrite(effective, pending, w[0]);
    } else {
      assert (effective + pending) + w == effective + (pending + w);
    }
  }

  /** A healthy store stays without debt if and only if the step is no late enqueue. */
  lemma DebtStep(f: World, a: Action)
    requires BufferOk(f) && LoopOk(f) && (f.s.state == Healthy ==> f.s.buffered == [])
    ensures var f' := Apply(f, a); (f'.s.state == Healthy ==> f'.s.buffered == []) <==> !EnqueuesLate(f, a)
  {
  }

  /** One step keeps both if and only if it is neither of the two interferences. */
  lemma {:induction false} RefinesStep(f: World, a: Action)
    requires BufferOk(f) && LoopOk(f) && Refines(f)
    ensures Refines(Apply(f, a)) <==> !Interferes(f, a)
  {
    OrderStep(f, a);
    DebtStep(f, a);
  }

  ghost predicate RefinesThroughout(cfg: Config, actions: seq<Action>) {
    forall k | 0 <= k <= |actions| :: Refines(Run(cfg, actions[..k]))
  }

  ghost predicate NeverInterfered(cfg: Config, actions: seq<Action>) {
    forall k | 0 <= k < |actions| :: !Interferes(Run(cfg, actions[..k]), actions[k])
  }

  lemma ThroughoutSnoc(cfg: Config, actions: seq<Action>, n: nat)
    requires n + 1 == |actions|
    ensures RefinesThroughout(cfg, actions) <==> RefinesThroughout(cfg, actions[..n]) && Refines(Run(cfg, actions)) == true
  {
    assert actions[..n + 1] == actions;
    assert forall k | 0 <= k <= n :: actions[..n][..k] == actions[..k];
  }

  lemma NeverSnoc(cfg: Config, actions: seq<Action>, n: nat)
    requires n + 1 == |actions|
    ensures NeverInterfered(cfg, actions) <==> NeverInterfered(cfg, actions[..n]) && Interferes(Run(cfg, actions[..n]), actions[n]) == false
  {
    assert forall k | 0 <= k <= n :: actions[..n][..k] == actions[..k];
    assert forall k | 0 <= k < n :: actions[..n][k] == actions[k];
  }

  /** In every interleaving: the acknowledged writes are at all times the effective ones followed
      by the pending ones, with a healthy store owing none, if and only if no step of the run is
      an enqueue accepted by a healthy store or a direct write past a different pending one. */
  lemma {:induction false} RefinesExactly(cfg: Config, actions: seq<Action>)
    ensures RefinesThroughout(cfg, actions) <==> NeverInterfered(cfg, actions)
  {
    if actions == [] {
      assert Refines(Run(cfg, actions[..0]));
    } else {
      var n := |actions| - 1;
      RefinesExactly(cfg, actions[..n]);
      ThroughoutSnoc(cfg, actions, n);
      NeverSnoc(cfg, actions, n);
      RunInv(cfg, actions[..n]);
      if Refines(Run(cfg, actions[..n])) {
        RefinesStep(Run(cfg, actions[..n]), actions[n]);
      }
      if RefinesThroughout(cfg, actions[..n]) {
        assert actions[..n][..n] == actions[..n];
        assert Refines(Run(cfg, actions[..n][..n]));
      }
    }
  }

  /** Nothing acknowledged is lost or applied twice, whatever interferes with whatever. */
  lemma {:induction false} NothingLost(cfg: Config, actions: seq<Action>)
    ensures var f := Run(cfg, actions); multiset(f.h.acked) == multiset(f.h.effective) + multiset(Pending(f.s))
  {
    if actions != [] {
      var n := |actions| - 1;
      NothingLost(cfg, actions[..n]);
      RunInv(cfg, actions[..n]);
      NothingLostStep(Run(cfg, actions[..n]), actions[n]);
    }
  }

  lemma NothingLostStep(f: World, a: Action)
    requires BufferOk(f) && LoopOk(f) && multiset(f.h.acked) == multiset(f.h.effective) + multiset(Pending(f.s))
    ensures var f' := Apply(f, a); multiset(f'.h.acked) == multiset(f'.h.effective) + multiset(Pending(f'.s))
  {
    var w, direct, replay := Moves(f, a);
  }

  /** The other way to break the order, with no enqueue while healthy: a write that was routed to
      the primary before the outage is acknowledged after one that is still in the buffer. */
  function PastTheBuffer(a: Write, b: Write): seq<Action> {
    [Arrive(0, a), Writer(0, true, true, 0), ReadFails, Arrive(1, b)] + [BY_LOCAL, BY_LOCAL, BY_LOCAL] + [Writer(0, true, true, 0)]
  }

  const BY_LOCAL := Writer(1, true, true, 0)

  lemma OutageCatches(a: Write, b: Write)
    ensures var f := Run(SMALL, PastTheBuffer(a, b)[..4]);
            && f.writers == map[0 := OnPrimary(a), 1 := Routing(b)] && f.s.state == Degraded && f.s.cfg == SMALL && f.s.loop == Waiting
            && f.s.buffered == f.h.acked == f.h.effective == []
  {
    var p := PastTheBuffer(a, b);
    assert p[..4][..3] == p[..3] && p[..3][..2] == p[..2] && p[..2][..1] == p[..1] && p[..1][..0] == [];
    assert Run(SMALL, p[..1]) == Apply(Init(SMALL), p[0]);
    assert Run(SMALL, p[..2]) == Apply(Run(SMALL, p[..1]), p[1]);
    assert Run(SMALL, p[..3]) == Apply(Run(SMALL, p[..2]), p[2]);
  }

  lemma {:induction false} WriteCanOvertake(a: Write, b: Write)
    requires a != b
    ensures var f := Run(SMALL, PastTheBuffer(a, b));
            f.h.acked == [b, a] && f.h.effective == [a] && f.s.buffered == [b] && f.s.state == Degraded && !Refines(f)
  {
    OutageCatches(a, b);
    var p := PastTheBuffer(a, b)[..4];
    RunSnoc(SMALL, p, BY_LOCAL);
    RunSnoc(SMALL, p + [BY_LOCAL], BY_LOCAL);
    RunSnoc(SMALL, p + [BY_LOCAL] + [BY_LOCAL], BY_LOCAL);
    var q := p + [BY_LOCAL] + [BY_LOCAL] + [BY_LOCAL];
    var f := Run(SMALL, q);
    assert f.writers == map[0 := OnPrimary(a)] && f.s.buffered == f.h.acked == [b];
    RunSnoc(SMALL, q, Writer(0, true, true, 0));
    assert PastTheBuffer(a, b) == q + [Writer(0, true, true, 0)];
    assert Run(SMALL, PastTheBuffer(a, b)).h.acked[0] == b;
  }

  // Backoff -----------------------------------------------------------------------------------

  function Pow2(n: nat): (p: nat)
    ensures p >= 1
  {
    if n == 0 then 1 else 2 * Pow2(n - 1)
  }

  function GrownTimes(backoff: int, cfg: Config, n: nat): int {
    if n == 0 then backoff else Grown(GrownTimes(backoff, cfg, n - 1), cfg)
  }

  /** Repeated failures double the wait up to the maximum, exactly. */
  lemma {:induction false} BackoffDoubles(backoff: int, cfg: Config, n: nat)
    requires 0 < backoff <= cfg.maxBackoff
    ensures GrownTimes(backoff, cfg, n) == if backoff * Pow2(n) < cfg.maxBackoff then backoff * Pow2(n) else cfg.maxBackoff
  {
    if n > 0 {
      BackoffDoubles(backoff, cfg, n - 1);
      var p := Pow2(n - 1);
      assert backoff * (2 * p) == 2 * (backoff * p) && backoff * p >= backoff;
      GrowsOnce(backoff * p, cfg);
    }
  }

  lemma GrowsOnce(b: int, cfg: Config)
    requires 0 < b && 0 < cfg.maxBackoff
    ensures Grown(if b < cfg.maxBackoff then b else cfg.maxBackoff, cfg) == if 2 * b < cfg.maxBackoff then 2 * b else cfg.maxBackoff
  {
  }

  // What reached the primary --------------------------------------------------------------------

  function RecordsOf(log: seq<Write>, key: Key): seq<Record> {
    if log == [] then []
    else
      var w := log[|log| - 1];
      RecordsOf(log[..|log| - 1], key) + (if !w.Release? && w.key == key then [w.rec] else [])
  }

  predicate Dated(log: seq<Write>) {
    forall i | 0 <= i < |log| && !log[i].Release? :: log[i].rec.createdAt.Some?
  }

  /** The retention deadline set by the last completion of `key`. */
  function LastDeadline(log: seq<Write>, key: Key): Option<Option<int>>
    requires Dated(log)
  {
    if log == [] then None
    else
      var w := log[|log| - 1];
      if w.Complete? && w.key == key then Some(Until(w.retention, w.rec.createdAt.value))
      else LastDeadline(log[..|log| - 1], key)
  }

  predicate ClaimedBy(actions: seq<Action>, now: int) {
    forall i | 0 <= i < |actions| && actions[i].PrimaryClaim? :: actions[i].now <= now
  }

  /** The primary has exactly the records of its effective writes, per key and in order, and
      remembers every completion until its retention runs out. */
  ghost predicate PrimaryHas(f: World, now: int)
    requires Dated(f.h.effective)
  {
    forall key | !IsProbe(key) ::
      && RecordsAt(f.s.primary, key) == RecordsOf(f.h.effective, key)
      && var d := LastDeadline(f.h.effective, key);
         d.Some? && (d.value.None? || now < d.value.value) ==>
           key in f.s.primary.claims && f.s.primary.claims[key] == ClaimState(CompletedStatus, d.value)
  }

  lemma PutHas(m: Memory, log: seq<Write>, w: Write, clock: int, key: Key)
    requires Dated(log + [w])
    requires RecordsAt(m, key) == RecordsOf(log, key)
    ensures Dated(log) && RecordsAt(Put(m, w, clock), key) == RecordsOf(log + [w], key)
    ensures LastDeadline(log + [w], key) ==
              if w.Complete? && w.key == key then Some(Until(w.retention, w.rec.createdAt.value)) else LastDeadline(log, key)
  {
    assert (log + [w])[..|log|] == log;
    assert forall i | 0 <= i < |log| :: (log + [w])[i] == log[i];
    assert (log + [w])[|log|] == w;
  }

  /** What one action writes to the primary, if anything. */
  function Effect(f: World, a: Action): Option<Write> {
    match a
    case Writer(id, ok, _, _) => if id in f.writers && f.writers[id].OnPrimary? && ok then Some(f.writers[id].w) else None
    case Loop(ok, _) => if f.s.loop.Calling? && ok then Some(f.s.loop.item) else None
    case _ => None
  }

  lemma EffectIs(f: World, a: Action)
    ensures var f' := Apply(f, a);
            match Effect(f, a)
            case Some(w) => f'.h.effective == f.h.effective + [w] && exists clock :: f'.s.primary == Put(f.s.primary, w, clock)
            case None =>
              && f'.h.effective == f.h.effective
              && f'.s.primary == if a.PrimaryClaim? then Claim(f.s.primary, a.key, a.ttl, a.now).0
                                 else if a.ProbeComplete? && f.s.loop.Verifying? then Put(f.s.primary, Probe(a.suffix, a.clock), a.clock)
                                 else f.s.primary
  {
    if Effect(f, a).Some? {
      var clock := if a.Writer? then a.clock else a.clock;
      assert Apply(f, a).s.primary == Put(f.s.primary, Effect(f, a).value, clock);
    }
  }

  lemma PrimaryStep(f: World, a: Action, now: int)
    requires Dated(Apply(f, a).h.effective) && Dated(f.h.effective) && PrimaryHas(f, now)
    requires a.PrimaryClaim? ==> a.now <= now
    ensures PrimaryHas(Apply(f, a), now)
  {
    EffectIs(f, a);
    var f' := Apply(f, a);
    forall key | !IsProbe(key)
      ensures RecordsAt(f'.s.primary, key) == RecordsOf(f'.h.effective, key)
      ensures var d := LastDeadline(f'.h.effective, key);
              d.Some? && (d.value.None? || now < d.value.value) ==>
                key in f'.s.primary.claims && f'.s.primary.claims[key] == ClaimState(CompletedStatus, d.value)
    {
      if Effect(f, a).Some? {
        var w := Effect(f, a).value;
        var clock :| f'.s.primary == Put(f.s.primary, w, clock);
        PutHas(f.s.primary, f.h.effective, w, clock, key);
      }
    }
  }

  lemma {:induction false} EffectiveGrows(cfg: Config, actions: seq<Action>, n: nat)
    requires n <= |actions|
    ensures Run(cfg, actions[..n]).h.effective <= Run(cfg, actions).h.effective
  {
    if n == |actions| {
      assert actions[..n] == actions;
    } else {
      var last := |actions| - 1;
      EffectiveGrows(cfg, actions[..last], n);
      assert actions[..last][..n] == actions[..n];
      EffectIs(Run(cfg, actions[..last]), actions[last]);
    }
  }

  lemma {:induction false} PrimaryFollows(cfg: Config, actions: seq<Action>, now: int)
    requires Dated(Run(cfg, actions).h.effective) && ClaimedBy(actions, now)
    ensures PrimaryHas(Run(cfg, actions), now)
  {
    if actions == [] {
    } else {
      var n := |actions| - 1;
      EffectiveGrows(cfg, actions, n);
      assert Dated(Run(cfg, actions[..n]).h.effective);
      PrimaryFollows(cfg, actions[..n], now);
      PrimaryStep(Run(cfg, actions[..n]), actions[n], now);
    }
  }

  // Writes that are not interrupted -----------------------------------------------------------

  /** The outcomes one write meets: of the primary, whether a failure counts as one of the
      dependency, and of the local store. A write that finds the buffer full under the
      blocking policy gives up. */
  datatype Fate = Fate(primaryUp: bool, dependency: bool, localUp: bool, clock: int)

  datatype Step =
    | WriteStep(write: Write, fate: Fate)
    | OtherStep(action: Action)

  function Answer(pc: WriterPc, fate: Fate): bool {
    match pc
    case OnPrimary(_) => fate.primaryUp
    case OnLocal(_) => fate.localUp
    case Blocked(_, _) => false
    case _ => true
  }

  /** Lets writer 0 run until it returns. */
  function Settle(f: World, fate: Fate, fuel: nat): World
    decreases fuel
  {
    if fuel == 0 || 0 !in f.writers then f
    else Settle(Apply(f, Writer(0, Answer(f.writers[0], fate), fate.dependency, fate.clock)), fate, fuel - 1)
  }

  const WRITE_STEPS := 6

  function ApplyStep(f: World, s: Step): World {
    match s
    case WriteStep(w, fate) => Settle(Apply(f, Arrive(0, w)), fate, WRITE_STEPS)
    case OtherStep(a) => if a.Arrive? || a.Writer? then f else Apply(f, a)
  }

  function AtomicRun(cfg: Config, steps: seq<Step>): World {
    if steps == [] then Init(cfg)
    else ApplyStep(AtomicRun(cfg, steps[..|steps| - 1]), steps[|steps| - 1])
  }

  /** The same run, one critical section at a time. */
  lemma {:induction false} SettleIsRun(cfg: Config, actions: seq<Action>, fate: Fate, fuel: nat) returns (more: seq<Action>)
    ensures Settle(Run(cfg, actions), fate, fuel) == Run(cfg, actions + more)
    ensures forall i | 0 <= i < |more| :: !more[i].PrimaryClaim?
    decreases fuel
  {
    var f := Run(cfg, actions);
    if fuel == 0 || 0 !in f.writers {
      more := [];
      assert actions + more == actions;
    } else {
      var a := Writer(0, Answer(f.writers[0], fate), fate.dependency, fate.clock);
      assert (actions + [a])[..|actions|] == actions;
      var rest := SettleIsRun(cfg, actions + [a], fate, fuel - 1);
      more := [a] + rest;
      assert actions + more == actions + [a] + rest;
    }
  }

  predicate ClaimsBy(steps: seq<Step>, now: int) {
    forall i | 0 <= i < |steps| && steps[i].OtherStep? && steps[i].action.PrimaryClaim? :: steps[i].action.now <= now
  }

  lemma {:induction false} AtomicIsRun(cfg: Config, steps: seq<Step>, now: int) returns (actions: seq<Action>)
    requires ClaimsBy(steps, now)
    ensures AtomicRun(cfg, steps) == Run(cfg, actions) && ClaimedBy(actions, now) == true
  {
    if steps == [] {
      actions := [];
    } else {
      var n := |steps| - 1;
      var before := AtomicIsRun(cfg, steps[..n], now);
      var more := StepIsRun(cfg, before, steps[n], now);
      actions := before + more;
      ClaimedMore(before, more, now);
    }
  }

  lemma StepIsRun(cfg: Config, before: seq<Action>, step: Step, now: int) returns (more: seq<Action>)
    requires step.OtherStep? && step.action.PrimaryClaim? ==> step.action.now <= now
    ensures ApplyStep(Run(cfg, before), step) == Run(cfg, before + more) && ClaimedBy(more, now) == true
  {
    match step
    case WriteStep(w, fate) =>
      RunSnoc(cfg, before, Arrive(0, w));
      var rest := SettleIsRun(cfg, before + [Arrive(0, w)], fate, WRITE_STEPS);
      more := [Arrive(0, w)] + rest;
      assert before + [Arrive(0, w)] + rest == before + more;
    case OtherStep(a) =>
      more := if a.Arrive? || a.Writer? then [] else [a];
      RunSnoc(cfg, before, a);
      assert before + [] == before;
  }

  lemma ClaimedMore(before: seq<Action>, more: seq<Action>, now: int)
    requires ClaimedBy(before, now) && ClaimedBy(more, now)
    ensures ClaimedBy(before + more, now)
  {
  }

  /** Between writes nobody is under way, and the store refines the direct one. */
  predicate Settled(f: World) {
    f.writers == map[] && Refines(f)
  }

  // The write operation as one step ------------------------------------------------------------

  function EnqueueAtOnce(f: World, w: Write): World {
    var (s, result) := Enqueue(f.s, w);
    match result
    case Accepted => f.(s := s, h := f.h.(accepted := f.h.accepted + [w], acked := f.h.acked + [w]))
    case _ => f.(s := s)
  }

  function WriteLocally(f: World, w: Write, fate: Fate): World {
    if !fate.localUp then f
    else EnqueueAtOnce(f.(s := f.s.(local := Put(f.s.local, w, fate.clock))), w)
  }

  function WriteAtOnce(f: World, w: Write, fate: Fate): World {
    if f.s.state != Healthy then WriteLocally(f, w, fate)
    else if fate.primaryUp then
      f.(s := f.s.(primary := Put(f.s.primary, w, fate.clock)),
         h := f.h.(acked := f.h.acked + [w], effective := f.h.effective + [w]))
    else if !fate.dependency then f
    else WriteLocally(f.(s := Degrade(f.s), h := Follow(f.h, f.s.state, Degraded)), w, fate)
  }

  lemma EnqueueSettles(f: World, w: Write, fate: Fate, fuel: nat)
    requires f.writers == map[0 := Enqueueing(w)] && fuel >= 2
    ensures Settle(f, fate, fuel) == EnqueueAtOnce(f, w).(writers := map[])
  {
    var f' := Apply(f, Writer(0, true, fate.dependency, fate.clock));
    assert f.writers - {0} == map[];
    if Enqueue(f.s, w).1.MustWait? {
      assert f'.writers == map[0 := Blocked(w, f.s.space)];
      var f'' := Apply(f', Writer(0, false, fate.dependency, fate.clock));
      assert f'.writers - {0} == map[];
      assert Settle(f', fate, fuel - 1) == Settle(f'', fate, fuel - 2);
    }
  }

  lemma LocalSettles(f: World, w: Write, fate: Fate, fuel: nat)
    requires f.writers == map[0 := OnLocal(w)] && fuel >= 3
    ensures Settle(f, fate, fuel) == WriteLocally(f, w, fate).(writers := map[])
  {
    var f' := Apply(f, Writer(0, fate.localUp, fate.dependency, fate.clock));
    assert f.writers - {0} == map[];
    if fate.localUp {
      assert f'.writers == map[0 := Enqueueing(w)];
      EnqueueSettles(f', w, fate, fuel - 1);
    }
  }

  /** A writer nobody interrupts does what the write operation does in one step. */
  lemma {:induction false} WriteSettles(f: World, w: Write, fate: Fate)
    requires f.writers == map[]
    ensures ApplyStep(f, WriteStep(w, fate)) == WriteAtOnce(f, w, fate)
  {
    var f1 := Apply(f, Arrive(0, w));
    var f2 := Apply(f1, Writer(0, true, fate.dependency, fate.clock));
    assert f1.writers == map[0 := Routing(w)];
    assert Settle(f1, fate, 6) == Settle(f2, fate, 5);
    if f.s.state != Healthy {
      assert f2.writers == map[0 := OnLocal(w)];
      LocalSettles(f2, w, fate, 5);
    } else {
      assert f2.writers == map[0 := OnPrimary(w)] && f2.writers - {0} == map[];
      var f3 := Apply(f2, Writer(0, fate.primaryUp, fate.dependency, fate.clock));
      assert Settle(f2, fate, 5) == Settle(f3, fate, 4);
      if !fate.primaryUp && fate.dependency {
        assert f3.writers == map[0 := PrimaryFailed(w)];
        var f4 := Apply(f3, Writer(0, true, fate.dependency, fate.clock));
        assert f4.writers == map[0 := OnLocal(w)];
        assert Settle(f3, fate, 4) == Settle(f4, fate, 3);
        LocalSettles(f4, w, fate, 3);
      }
    }
  }

  lemma WriteKeepsSettled(f: World, w: Write, fate: Fate)
    requires Settled(f) && BufferOk(f) && LoopOk(f)
    ensures Settled(WriteAtOnce(f, w, fate)) == true
  {
    if f.s.state == Healthy && !fate.primaryUp && fate.dependency {
      LocallySettled(f.(s := Degrade(f.s), h := Follow(f.h, f.s.state, Degraded)), w, fate);
    } else if f.s.state != Healthy {
      LocallySettled(f, w, fate);
    }
  }

  lemma LocallySettled(f: World, w: Write, fate: Fate)
    requires Settled(f) && BufferOk(f) && f.s.state != Healthy
    ensures Settled(WriteLocally(f, w, fate)) == true
  {
    if |f.s.buffered| < f.s.cfg.capacity {
      assert (f.h.effective + Pending(f.s)) + [w] == f.h.effective + (Pending(f.s) + [w]);
    }
  }

  lemma OtherKeepsSettled(f: World, a: Action)
    requires Settled(f) && BufferOk(f) && LoopOk(f) && !a.Arrive? && !a.Writer?
    ensures Settled(Apply(f, a))
  {
    if a.Loop? && f.s.loop.Calling? && a.ok {
      assert f.s.buffered == [f.s.loop.item] + f.s.buffered[1..];
    }
  }

  lemma {:induction false} AtomicSettled(cfg: Config, steps: seq<Step>)
    ensures Settled(AtomicRun(cfg, steps))
  {
    if steps != [] {
      var n := |steps| - 1;
      AtomicSettled(cfg, steps[..n]);
      var f := AtomicRun(cfg, steps[..n]);
      var actions := AtomicIsRun(cfg, steps[..n], MaxClaim(steps[..n]));
      RunInv(cfg, actions);
      match steps[n]
      case WriteStep(w, fate) =>
        WriteSettles(f, w, fate);
        WriteKeepsSettled(f, w, fate);
      case OtherStep(a) =>
        if !a.Arrive? && !a.Writer? {
          OtherKeepsSettled(f, a);
        }
    }
  }

  /** A bound on the times of the claims of a run. */
  function MaxClaim(steps: seq<Step>): (t: int)
    ensures ClaimsBy(steps, t)
  {
    if steps == [] then 0
    else
      var t := MaxClaim(steps[..|steps| - 1]);
      var s := steps[|steps| - 1];
      if s.OtherStep? && s.action.PrimaryClaim? && s.action.now > t then s.action.now else t
  }

  /** Seen from outside, a healthy store is the primary that every acknowledged write went to: it
      owes nothing, holds for every key exactly the records of the acknowledged writes, and
      answers completed until the retention of the last completion runs out. */
  ghost predicate AsDirect(f: World, now: int)
    requires Dated(f.h.acked)
  {
    f.s.state == Healthy ==>
      && f.s.buffered == [] && f.h.effective == f.h.acked
      && forall key | !IsProbe(key) ::
           && RecordsAt(f.s.primary, key) == RecordsOf(f.h.acked, key)
           && var d := LastDeadline(f.h.acked, key);
              d.Some? && (d.value.None? || now < d.value.value) ==> IsCompleted(f.s.primary, key, now)
  }

  lemma RefinedIsDirect(cfg: Config, actions: seq<Action>, now: int)
    requires ClaimedBy(actions, now) && Dated(Run(cfg, actions).h.acked) && Refines(Run(cfg, actions))
    ensures AsDirect(Run(cfg, actions), now)
  {
    var f := Run(cfg, actions);
    assert forall i | 0 <= i < |f.h.effective| :: f.h.effective[i] == f.h.acked[i];
    PrimaryFollows(cfg, actions, now);
  }

  /** Failover refines a direct store, in every interleaving, of any number of writers, that has
      neither interference; a write that waited for room and found it later is one of them. */
  lemma {:induction false} InterleavedRefines(cfg: Config, actions: seq<Action>, now: int)
    requires NeverInterfered(cfg, actions) && ClaimedBy(actions, now) && Dated(Run(cfg, actions).h.acked)
    ensures var f := Run(cfg, actions); f.h.acked == f.h.effective + Pending(f.s) && AsDirect(f, now)
  {
    RefinesExactly(cfg, actions);
    assert actions[..|actions|] == actions && Refines(Run(cfg, actions[..|actions|]));
    RefinedIsDirect(cfg, actions, now);
  }

  /** With every write in one step there is no interference, so whatever fails and whenever the
      store swaps, it is as if every acknowledged write had gone to the primary directly. */
  lemma {:induction false} FailoverRefines(cfg: Config, steps: seq<Step>, now: int)
    requires ClaimsBy(steps, now) && Dated(AtomicRun(cfg, steps).h.acked)
    ensures var f := AtomicRun(cfg, steps); f.h.acked == f.h.effective + Pending(f.s) && AsDirect(f, now)
  {
    AtomicSettled(cfg, steps);
    var actions := AtomicIsRun(cfg, steps, now);
    RefinedIsDirect(cfg, actions, now);
  }
}
