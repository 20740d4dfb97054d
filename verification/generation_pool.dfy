/** Shared resources: one entry per configuration digest, counted by handles. The seven pools
    of the source differ only in their owner, so they are one table keyed by owner and digest. */
module GenerationPools {
  import opened Wrappers

  datatype Owner = Logger | Database | Cache | I18n | Storage | Metrics | Execution

  datatype Key = Key(owner: Owner, digest: string)

  /** `closes` counts how often the finalizer ran. */
  datatype Entry = Entry(key: Key, refs: int, closes: nat)

  datatype Pool = Pool(byID: map<Key, nat>, entries: seq<Entry>)

  /** `holder` is the generation the handle was acquired for. */
  datatype Handle = Handle(holder: nat, key: Key, entry: nat, released: bool, failed: bool)

  const EMPTY_POOL := Pool(map[], [])

  datatype Acquired = Refused | Reused(entry: nat) | Built(entry: nat)

  /** Acquires are serialized, so nobody builds the same entry meanwhile. */
  function Acquire(p: Pool, key: Key, builds: bool): (Pool, Acquired) {
    if key.digest == "" then (p, Refused)
    else if key in p.byID then
      var e := p.byID[key];
      if e >= |p.entries| then (p, Refused)
      else (p.(entries := p.entries[e := p.entries[e].(refs := p.entries[e].refs + 1)]), Reused(e))
    else if !builds then (p, Refused)
    else (Pool(p.byID[key := |p.entries|], p.entries + [Entry(key, 1, 0)]), Built(|p.entries|))
  }

  datatype ReleaseResult = Kept | Closed | CloseFailed | InvariantFailed

  /** `closes` is the outcome of the finalizer, looked at only by the last release. */
  function Release(p: Pool, h: Handle, closes: bool): (Pool, ReleaseResult) {
    if h.key !in p.byID || p.byID[h.key] != h.entry || h.entry >= |p.entries| || p.entries[h.entry].refs <= 0
    then (p, InvariantFailed)
    else
      var n := p.entries[h.entry];
      if n.refs - 1 > 0 then (p.(entries := p.entries[h.entry := n.(refs := n.refs - 1)]), Kept)
      else
        (Pool(p.byID - {h.key}, p.entries[h.entry := n.(refs := n.refs - 1, closes := n.closes + 1)]),
         if closes then Closed else CloseFailed)
  }

  // The reference law -------------------------------------------------------------------------

  /** The unreleased handles on entry `e`. */
  function Held(hs: seq<Handle>, e: nat): nat {
    if hs == [] then 0
    else Held(hs[..|hs| - 1], e) + (if hs[|hs| - 1].entry == e && !hs[|hs| - 1].released then 1 else 0)
  }

  predicate PoolOk(p: Pool, hs: seq<Handle>) {
    && (forall e | 0 <= e < |p.entries| ::
          && p.entries[e].refs == Held(hs, e)
          && p.entries[e].closes == (if p.entries[e].refs == 0 then 1 else 0)
          && (p.entries[e].refs > 0 ==> p.entries[e].key in p.byID && p.byID[p.entries[e].key] == e))
    && (forall k | k in p.byID ::
          && p.byID[k] < |p.entries| && p.entries[p.byID[k]].key == k && p.entries[p.byID[k]].refs > 0
          && k.digest != "")
    && (forall i | 0 <= i < |hs| :: hs[i].entry < |p.entries| && p.entries[hs[i].entry].key == hs[i].key)
  }

  lemma {:induction false} HeldUpdate(hs: seq<Handle>, i: nat, h: Handle, e: nat)
    requires i < |hs|
    ensures Held(hs[i := h], e) ==
              Held(hs, e) - (if hs[i].entry == e && !hs[i].released then 1 else 0) + (if h.entry == e && !h.released then 1 else 0)
  {
    var n := |hs| - 1;
    if i == n {
      assert hs[i := h][..n] == hs[..n];
    } else {
      assert hs[i := h][..n] == hs[..n][i := h];
      HeldUpdate(hs[..n], i, h, e);
    }
  }

  lemma {:induction false} HeldPositive(hs: seq<Handle>, i: nat)
    requires i < |hs| && !hs[i].released
    ensures Held(hs, hs[i].entry) > 0
  {
    if i < |hs| - 1 {
      HeldPositive(hs[..|hs| - 1], i);
    }
  }

  lemma {:induction false} SomeoneHolds(hs: seq<Handle>, e: nat) returns (i: nat)
    requires Held(hs, e) > 0
    ensures i < |hs| && hs[i].entry == e && !hs[i].released
  {
    var n := |hs| - 1;
    if hs[n].entry == e && !hs[n].released {
      i := n;
    } else {
      i := SomeoneHolds(hs[..n], e);
    }
  }

  lemma {:induction false} HeldBeyond(hs: seq<Handle>, e: nat)
    requires forall i | 0 <= i < |hs| :: hs[i].entry < e
    ensures Held(hs, e) == 0
  {
    if hs != [] {
      HeldBeyond(hs[..|hs| - 1], e);
    }
  }

  lemma {:induction false} OneMore(p: Pool, hs: seq<Handle>, h: Handle)
    requires PoolOk(p, hs) && h.key in p.byID && h.entry == p.byID[h.key] && !h.released
    ensures var n := p.entries[h.entry]; PoolOk(p.(entries := p.entries[h.entry := n.(refs := n.refs + 1)]), hs + [h])
  {
    assert (hs + [h])[..|hs|] == hs;
  }

  lemma {:induction false} NewEntry(p: Pool, hs: seq<Handle>, h: Handle)
    requires PoolOk(p, hs) && h.key !in p.byID && h.key.digest != "" && h.entry == |p.entries| && !h.released
    ensures PoolOk(Pool(p.byID[h.key := |p.entries|], p.entries + [Entry(h.key, 1, 0)]), hs + [h])
  {
    assert (hs + [h])[..|hs|] == hs;
    HeldBeyond(hs, h.entry);
  }

  /** A new handle is one more reference. */
  lemma {:induction false} AcquireOk(p: Pool, hs: seq<Handle>, key: Key, builds: bool, holder: nat)
    requires PoolOk(p, hs)
    ensures var (p', r) := Acquire(p, key, builds);
            match r
            case Refused => p' == p && (key.digest == "" || (key !in p.byID && !builds))
            case Reused(e) => key in p.byID && PoolOk(p', hs + [Handle(holder, key, e, false, false)])
            case Built(e) => key !in p.byID && PoolOk(p', hs + [Handle(holder, key, e, false, false)])
  {
    match Acquire(p, key, builds).1
    case Refused =>
    case Reused(e) => OneMore(p, hs, Handle(holder, key, e, false, false));
    case Built(e) => NewEntry(p, hs, Handle(holder, key, e, false, false));
  }

  /** Releasing a held handle never finds the invariant broken. */
  lemma {:induction false} ReleaseOk(p: Pool, hs: seq<Handle>, i: nat, closes: bool, failed: bool)
    requires PoolOk(p, hs) == true && i < |hs| && !hs[i].released
    ensures Release(p, hs[i], closes).1 != InvariantFailed
    ensures PoolOk(Release(p, hs[i], closes).0, hs[i := hs[i].(released := true, failed := failed)]) == true
  {
    HeldPositive(hs, i);
    var h := hs[i].(released := true, failed := failed);
    forall e | 0 <= e < |p.entries| ensures Held(hs[i := h], e) == Held(hs, e) - (if hs[i].entry == e then 1 else 0) {
      HeldUpdate(hs, i, h, e);
    }
  }

  /** A release closes the resource exactly when no other handle is left on it. */
  lemma {:induction false} LastCloses(p: Pool, hs: seq<Handle>, i: nat, closes: bool)
    requires PoolOk(p, hs) && i < |hs| && !hs[i].released
    ensures Release(p, hs[i], closes).1 == Kept <==>
              exists j :: 0 <= j < |hs| && j != i && hs[j].entry == hs[i].entry && !hs[j].released
  {
    HeldPositive(hs, i);
    var e := hs[i].entry;
    var gone := hs[i := hs[i].(released := true)];
    HeldUpdate(hs, i, hs[i].(released := true), e);
    if Release(p, hs[i], closes).1 == Kept {
      var j := SomeoneHolds(gone, e);
      assert j != i && hs[j] == gone[j];
    } else {
      forall j | 0 <= j < |hs| && j != i && hs[j].entry == e && !hs[j].released ensures false {
        assert gone[j] == hs[j];
        HeldPositive(gone, j);
      }
    }
  }
}
