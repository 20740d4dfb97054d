/** The in-memory execution store: claims with an expiry and an append-only record list per
    key. A zero time is None; a claim without an expiry never runs out. */
module MemoryStores {
  import opened Wrappers

  type Key = string

  datatype Status = RunningStatus | CompletedStatus

  datatype ClaimState = ClaimState(status: Status, until: Option<int>)

  datatype Record = Record(body: string, createdAt: Option<int>)

  /** The calls that change a store and that a degraded store has to remember. */
  datatype Write =
    | Complete(key: Key, retention: int, rec: Record)
    | Release(key: Key)
    | Note(key: Key, rec: Record)

  datatype Memory = Memory(claims: map<Key, ClaimState>, records: map<Key, seq<Record>>)

  const EMPTY := Memory(map[], map[])

  function RecordsAt(m: Memory, key: Key): seq<Record> {
    if key in m.records then m.records[key] else []
  }

  predicate Active(c: ClaimState, now: int) {
    c.until.None? || now < c.until.value
  }

  function Claim(m: Memory, key: Key, leaseTTL: int, now: int): (Memory, bool) {
    if key in m.claims && Active(m.claims[key], now) then (m, false)
    else
      var until := if leaseTTL > 0 then Some(now + leaseTTL) else None;
      (m.(claims := m.claims[key := ClaimState(RunningStatus, until)]), true)
  }

  predicate IsCompleted(m: Memory, key: Key, now: int) {
    key in m.claims && m.claims[key].status == CompletedStatus && Active(m.claims[key], now)
  }

  /** A record without a creation time is stamped when it is written. */
  function Stamped(rec: Record, clock: int): Record {
    if rec.createdAt.None? then rec.(createdAt := Some(clock)) else rec
  }

  function Until(retention: int, createdAt: int): Option<int> {
    if retention > 0 then Some(createdAt + retention) else None
  }

  function Put(m: Memory, w: Write, clock: int): Memory {
    match w
    case Complete(key, retention, rec) =>
      var r := Stamped(rec, clock);
      Memory(m.claims[key := ClaimState(CompletedStatus, Until(retention, r.createdAt.value))],
             m.records[key := RecordsAt(m, key) + [r]])
    case Release(key) =>
      if key in m.claims && m.claims[key].status == RunningStatus then m.(claims := m.claims - {key}) else m
    case Note(key, rec) =>
      m.(records := m.records[key := RecordsAt(m, key) + [Stamped(rec, clock)]])
  }

  /** A completion cannot be undone: whatever is written or claimed before it expires, the
      key keeps answering completed, unless it is completed anew. */
  lemma CompletionHolds(m: Memory, key: Key, now: int)
    requires IsCompleted(m, key, now)
    ensures forall other, ttl :: IsCompleted(Claim(m, other, ttl, now).0, key, now)
    ensures forall w: Write, clock :: !(w.Complete? && w.key == key) ==> IsCompleted(Put(m, w, clock), key, now)
    ensures forall ttl :: !Claim(m, key, ttl, now).1
  {
  }

  class MemoryStore {
    var claims: map<Key, ClaimState>
    var records: map<Key, seq<Record>>

    function Value(): Memory
      reads this
    {
      Memory(claims, records)
    }

    constructor ()
      ensures Value() == EMPTY
    {
      claims, records := map[], map[];
    }

    method TryClaim(key: Key, leaseTTL: int, now: int) returns (claimed: bool)
      modifies this`claims
      ensures (Value(), claimed) == Claim(old(Value()), key, leaseTTL, now)
    {
      if key in claims {
        var st := claims[key];
        var active := st.until.None? || now < st.until.value;
        if active && (st.status == RunningStatus || st.status == CompletedStatus) {
          return false;
        }
      }
      var until := None;
      if leaseTTL > 0 {
        until := Some(now + leaseTTL);
      }
      claims := claims[key := ClaimState(RunningStatus, until)];
      return true;
    }

    method Completed(key: Key, now: int) returns (done: bool)
      ensures done == IsCompleted(Value(), key, now)
    {
      if key !in claims || claims[key].status != CompletedStatus {
        return false;
      }
      if claims[key].until.None? {
        return true;
      }
      return now < claims[key].until.value;
    }

    method Append(key: Key, rec: Record)
      modifies this`records
      ensures records == old(records)[key := RecordsAt(old(Value()), key) + [rec]]
    {
      if key in records {
        records := records[key := records[key] + [rec]];
      } else {
        records := records[key := [rec]];
        assert [rec] == [] + [rec];
      }
    }

    method Write(w: Write, clock: int)
      modifies this
      ensures Value() == Put(old(Value()), w, clock)
    {
      match w
      case Complete(key, retention, rec) =>
        var r := Stamped(rec, clock);
        var until := None;
        if retention > 0 {
          until := Some(r.createdAt.value + retention);
        }
        claims := claims[key := ClaimState(CompletedStatus, until)];
        Append(key, r);
      case Release(key) =>
        if key in claims && claims[key].status == RunningStatus {
          claims := claims - {key};
        }
      case Note(key, rec) =>
        Append(key, Stamped(rec, clock));
    }
  }
}
