/** The loader: every source is checked and merged into what the earlier ones gave. */
module ConfigLoader {
  import opened Wrappers
  import opened ConfigMerge
  import opened ConfigNames

  // One tree -------------------------------------------------------------------------------------

  /** Every field at every depth has a name. */
  predicate Named(v: Value) {
    v.Object? ==> forall k | k in v.fields :: Trim(k) != "" && Named(v.fields[k])
  }

  predicate Canonical(v: Value) {
    FoldUnique(v) && Named(v)
  }

  /** Rejects blank names and siblings that differ only in case, at every depth, and copies
      everything else. */
  method CanonicalMap(values: map<string, Value>) returns (out: Option<map<string, Value>>)
    ensures out.Some? <==> Canonical(Object(values))
    ensures out.Some? ==> out.value == values
    decreases Object(values)
  {
    var ok := NamesApart(values.Keys);
    if !ok {
      return None;
    }
    var keys := values.Keys;
    var copied: map<string, Value> := map[];
    while keys != {}
      invariant keys <= values.Keys && copied.Keys == values.Keys - keys
      invariant forall k | k in copied :: copied[k] == values[k] && Canonical(values[k])
      decreases keys
    {
      var key :| key in keys;
      if values[key].Object? {
        var inner := CanonicalMap(values[key].fields);
        if inner.None? {
          return None;
        }
        copied := copied[key := Object(inner.value)];
      } else {
        copied := copied[key := values[key]];
      }
      keys := keys - {key};
    }
    assert copied == values;
    return Some(copied);
  }

  // All sources ---------------------------------------------------------------------------------

  /** What the sources come to, the later ones over the earlier ones. */
  ghost function MergeAll(ms: seq<map<string, Value>>): Value {
    if ms == [] then Object(map[]) else Merge(MergeAll(ms[..|ms| - 1]), Object(ms[|ms| - 1]))
  }

  /** The loop over the sources meets no error. */
  ghost predicate Mergeable(ms: seq<map<string, Value>>) {
    ms == [] ||
    var (before, last) := (ms[..|ms| - 1], Object(ms[|ms| - 1]));
    Mergeable(before) && Canonical(last) && Compatible(MergeAll(before), last)
  }

  ghost predicate AllCanonical(ms: seq<map<string, Value>>) {
    forall i | 0 <= i < |ms| :: Canonical(Object(ms[i]))
  }

  ghost predicate PairwiseCompatible(ms: seq<map<string, Value>>) {
    forall i, j | 0 <= i < j < |ms| :: Compatible(Object(ms[i]), Object(ms[j]))
  }

  lemma {:induction false} MergeNamed(a: Value, b: Value)
    requires Named(a) && Named(b)
    ensures Named(Merge(a, b))
    decreases a
  {
    if a.Object? && b.Object? {
      var m := Merge(a, b).fields;
      forall k | k in m ensures Trim(k) != "" && Named(m[k]) {
        if k in a.fields && Match(b.fields, k).Some? {
          MergeNamed(a.fields[k], b.fields[Match(b.fields, k).value]);
        }
      }
    }
  }

  /** The names of the merged tree are canonical again, so the snapshot's check of them cannot fail. */
  lemma {:induction false} MergedCanonical(ms: seq<map<string, Value>>)
    requires AllCanonical(ms)
    ensures Canonical(MergeAll(ms)) && MergeAll(ms).Object?
  {
    if ms != [] {
      var n := |ms| - 1;
      MergedCanonical(ms[..n]);
      MergeUnique(MergeAll(ms[..n]), Object(ms[n]));
      MergeNamed(MergeAll(ms[..n]), Object(ms[n]));
    }
  }

  /** Another tree fits the merge of all just when it fits each. */
  lemma {:induction false} FitsAll(ms: seq<map<string, Value>>, c: map<string, Value>)
    requires AllCanonical(ms) && PairwiseCompatible(ms) && Canonical(Object(c))
    ensures Mergeable(ms)
    ensures Compatible(MergeAll(ms), Object(c)) <==> forall i | 0 <= i < |ms| :: Compatible(Object(ms[i]), Object(c))
  {
    if ms != [] {
      var n := |ms| - 1;
      FitsAll(ms[..n], ms[n]);
      FitsAll(ms[..n], c);
      MergedCanonical(ms[..n]);
      assert forall i | 0 <= i < n :: ms[..n][i] == ms[i];
      MergeCompatibleLeft(MergeAll(ms[..n]), Object(ms[n]), Object(c));
    }
  }

  lemma AllCanonicalSnoc(ms: seq<map<string, Value>>, n: nat)
    requires n + 1 == |ms|
    ensures AllCanonical(ms) <==> AllCanonical(ms[..n]) && Canonical(Object(ms[n])) == true
  {
    assert forall i | 0 <= i < n :: ms[..n][i] == ms[i];
  }

  lemma PairwiseSnoc(ms: seq<map<string, Value>>, n: nat)
    requires n + 1 == |ms|
    ensures PairwiseCompatible(ms) <==>
              PairwiseCompatible(ms[..n]) && forall i | 0 <= i < |ms[..n]| :: Compatible(Object(ms[..n][i]), Object(ms[n]))
  {
    assert forall i | 0 <= i < n :: ms[..n][i] == ms[i];
  }

  /** Loading fails exactly when some source is not canonical or some two sources conflict, so
      whether it fails does not depend on the order of the sources. */
  lemma {:induction false} MergeableExactly(ms: seq<map<string, Value>>)
    ensures Mergeable(ms) <==> AllCanonical(ms) && PairwiseCompatible(ms)
  {
    if ms != [] {
      var n := |ms| - 1;
      MergeableExactly(ms[..n]);
      AllCanonicalSnoc(ms, n);
      PairwiseSnoc(ms, n);
      if Mergeable(ms[..n]) && Canonical(Object(ms[n])) {
        FitsAll(ms[..n], ms[n]);
      }
    }
  }

  /** What the last source that has anything at `path` has there. */
  ghost function Latest(ms: seq<map<string, Value>>, path: seq<string>): Option<Value> {
    if ms == [] then None
    else
      var v := Lookup(Object(ms[|ms| - 1]), path);
      if v.Some? then v else Latest(ms[..|ms| - 1], path)
  }

  /** A path is there just when some source has it, and a leaf there is the latest source's. */
  lemma {:induction false} LatestWins(ms: seq<map<string, Value>>, path: seq<string>)
    requires Mergeable(ms) && path != []
    ensures Lookup(MergeAll(ms), path).None? <==> NowhereIn(ms, path)
    ensures forall t :: Lookup(MergeAll(ms), path) == Some(Leaf(t)) <==> Latest(ms, path) == Some(Leaf(t))
  {
    MergeableExactly(ms);
    if ms != [] {
      var n := |ms| - 1;
      LatestWins(ms[..n], path);
      MergedCanonical(ms[..n]);
      NowhereSnoc(ms, n, path);
      LaterWins(MergeAll(ms[..n]), Object(ms[n]), path);
    }
  }

  ghost predicate NowhereIn(ms: seq<map<string, Value>>, path: seq<string>) {
    forall i | 0 <= i < |ms| :: Lookup(Object(ms[i]), path).None?
  }

  lemma NowhereSnoc(ms: seq<map<string, Value>>, n: nat, path: seq<string>)
    requires n + 1 == |ms|
    ensures NowhereIn(ms, path) <==> NowhereIn(ms[..n], path) && Lookup(Object(ms[n]), path).None?
  {
    assert forall i | 0 <= i < n :: ms[..n][i] == ms[i];
  }

  lemma LaterWins(a: Value, b: Value, path: seq<string>)
    requires FoldUnique(a) && FoldUnique(b) && Compatible(a, b)
    ensures var v := Lookup(Merge(a, b), path);
            && (v.None? <==> Lookup(a, path).None? && Lookup(b, path).None?)
            && forall t :: v == Some(Leaf(t)) <==> Lookup(b, path) == Some(Leaf(t)) || (Lookup(b, path).None? && Lookup(a, path) == Some(Leaf(t)))
  {
    MergeLookup(a, b, path);
    CompatibleAlong(a, b, path);
  }

  // The snapshot ----------------------------------------------------------------------------------

  /** The snapshot marshals the whole tree for its digest; `encodes` says which leaves can be. An
      infinite number, say, cannot. */
  predicate Encodable(v: Value, encodes: string -> bool) {
    match v
    case Leaf(t) => encodes(t)
    case Object(fields) => forall k | k in fields :: Encodable(fields[k], encodes)
  }

  method CheckLeaves(values: map<string, Value>, encodes: string -> bool) returns (ok: bool)
    ensures ok <==> Encodable(Object(values), encodes)
    decreases Object(values)
  {
    var keys := values.Keys;
    while keys != {}
      invariant keys <= values.Keys && forall k | k in values.Keys - keys :: Encodable(values[k], encodes)
      decreases keys
    {
      var key :| key in keys;
      match values[key] {
        case Leaf(t) => ok := encodes(t);
        case Object(fields) => ok := CheckLeaves(fields, encodes);
      }
      if !ok {
        return;
      }
      keys := keys - {key};
    }
    return true;
  }

  /** Along the folded paths every leaf encodes. */
  ghost predicate LeavesEncode(v: Value, encodes: string -> bool) {
    forall path, t :: Lookup(v, path) == Some(Leaf(t)) ==> encodes(t)
  }

  lemma {:induction false} EncodableLeaves(v: Value, encodes: string -> bool)
    requires FoldUnique(v)
    ensures Encodable(v, encodes) <==> LeavesEncode(v, encodes)
  {
    match v
    case Leaf(t) =>
      assert Lookup(v, []) == Some(Leaf(t));
      assert forall path | path != [] :: Lookup(v, path).None?;
    case Object(fields) =>
      forall k | k in fields ensures Encodable(fields[k], encodes) <==> LeavesEncode(fields[k], encodes) {
        EncodableLeaves(fields[k], encodes);
      }
      if Encodable(v, encodes) {
        forall path, t | Lookup(v, path) == Some(Leaf(t)) ensures encodes(t) {
          var k := Match(fields, path[0]).value;
          assert Lookup(fields[k], path[1..]) == Some(Leaf(t));
        }
      }
      if LeavesEncode(v, encodes) {
        forall k | k in fields ensures LeavesEncode(fields[k], encodes) {
          LeavesBelow(v, k, encodes);
        }
      }
  }

  lemma LeavesBelow(v: Value, k: string, encodes: string -> bool)
    requires v.Object? && FoldUnique(v) && k in v.fields && LeavesEncode(v, encodes)
    ensures LeavesEncode(v.fields[k], encodes)
  {
    forall path, t | Lookup(v.fields[k], path) == Some(Leaf(t)) ensures encodes(t) {
      var whole := [k] + path;
      assert whole[1..] == path && EqualFold(k, k);
      assert Match(v.fields, k) == Some(k);
      assert Lookup(v, whole) == Some(Leaf(t));
    }
  }

  lemma LeafIsLatest(ms: seq<map<string, Value>>, path: seq<string>, t: string)
    requires Mergeable(ms) == true && MergeAll(ms).Object?
    ensures Lookup(MergeAll(ms), path) == Some(Leaf(t)) <==> path != [] && Latest(ms, path) == Some(Leaf(t))
  {
    if path != [] {
      LatestWins(ms, path);
    }
  }

  /** The merged tree can be marshalled if and only if at every path the leaf of the latest source
      that has anything there can; what a later source replaced does not matter. */
  lemma {:induction false} EncodableExactly(ms: seq<map<string, Value>>, encodes: string -> bool)
    requires Mergeable(ms) == true
    ensures Encodable(MergeAll(ms), encodes) <==> LatestEncode(ms, encodes)
  {
    MergeableExactly(ms);
    MergedCanonical(ms);
    EncodableLeaves(MergeAll(ms), encodes);
    SameLeaves(ms, encodes);
  }

  ghost predicate LatestEncode(ms: seq<map<string, Value>>, encodes: string -> bool) {
    forall path, t :: path != [] && Latest(ms, path) == Some(Leaf(t)) ==> encodes(t)
  }

  lemma {:induction false} SameLeaves(ms: seq<map<string, Value>>, encodes: string -> bool)
    requires Mergeable(ms) == true && MergeAll(ms).Object?
    ensures LeavesEncode(MergeAll(ms), encodes) <==> LatestEncode(ms, encodes)
  {
    if LeavesEncode(MergeAll(ms), encodes) {
      forall path, t | path != [] && Latest(ms, path) == Some(Leaf(t)) ensures encodes(t) {
        LeafIsLatest(ms, path, t);
      }
    }
    if LatestEncode(ms, encodes) {
      forall path, t | Lookup(MergeAll(ms), path) == Some(Leaf(t)) ensures encodes(t) {
        LeafIsLatest(ms, path, t);
      }
    }
  }

  // The loader ----------------------------------------------------------------------------------

  /** A source by name, and what it loads. */
  datatype Source = Source(name: string, values: Option<map<string, Value>>)

  predicate NamesOk(sources: seq<Source>) {
    && (forall i | 0 <= i < |sources| :: Trim(sources[i].name) != "")
    && (forall i, j | 0 <= i < j < |sources| :: Trim(sources[i].name) != Trim(sources[j].name))
  }

  predicate AllLoad(sources: seq<Source>) {
    forall i | 0 <= i < |sources| :: sources[i].values.Some?
  }

  function ValuesOf(sources: seq<Source>): seq<map<string, Value>>
    requires AllLoad(sources)
  {
    seq(|sources|, i requires 0 <= i < |sources| => sources[i].values.value)
  }

  /** No error up to and including these sources. */
  ghost predicate Merges(sources: seq<Source>) {
    NamesOk(sources) && AllLoad(sources) && Mergeable(ValuesOf(sources))
  }

  lemma MergesMore(sources: seq<Source>, n: nat)
    requires n < |sources| && AllLoad(sources[..n + 1])
    ensures AllLoad(sources[..n]) && ValuesOf(sources[..n + 1]) == ValuesOf(sources[..n]) + [sources[n].values.value]
    ensures ValuesOf(sources[..n + 1])[..n] == ValuesOf(sources[..n])
  {
    assert sources[..n + 1][n] == sources[n];
    assert forall i | 0 <= i < n :: sources[..n + 1][i] == sources[..n][i];
  }

  lemma {:induction false} MergesPrefix(sources: seq<Source>, n: nat)
    requires Merges(sources) && n <= |sources|
    ensures Merges(sources[..n])
    decreases |sources|
  {
    if n == |sources| {
      assert sources[..n] == sources;
    } else {
      var m := |sources| - 1;
      assert sources[..m + 1] == sources;
      MergesMore(sources, m);
      MergesPrefix(sources[..m], n);
      assert sources[..m][..n] == sources[..n];
    }
  }

  /** Where the loop stands after the first `n` sources. */
  ghost predicate Reached(sources: seq<Source>, n: nat, seen: set<string>, values: map<string, Value>)
    requires n <= |sources|
  {
    && Merges(sources[..n]) && Object(values) == MergeAll(ValuesOf(sources[..n])) && FoldUnique(Object(values))
    && forall s :: s in seen <==> exists i :: 0 <= i < n && Trim(sources[i].name) == s
  }

  lemma AllReached(sources: seq<Source>, seen: set<string>, values: map<string, Value>)
    requires Reached(sources, |sources|, seen, values)
    ensures Merges(sources) && Object(values) == MergeAll(ValuesOf(sources)) && Canonical(Object(values))
  {
    assert sources[..|sources|] == sources;
    MergeableExactly(ValuesOf(sources));
    MergedCanonical(ValuesOf(sources));
  }

  /** No error at all: the sources merge, and the merged tree can be marshalled. */
  ghost predicate Loads(sources: seq<Source>, encodes: string -> bool) {
    Merges(sources) && Encodable(MergeAll(ValuesOf(sources)), encodes)
  }

  /** Loads every source in order and takes the snapshot; None stands for any of the errors on the
      way. */
  method Load(sources: seq<Source>, encodes: string -> bool) returns (merged: Option<map<string, Value>>)
    ensures merged.Some? <==> Loads(sources, encodes)
    ensures merged.Some? ==> Object(merged.value) == MergeAll(ValuesOf(sources)) && Canonical(Object(merged.value))
  {
    var values: map<string, Value> := map[];
    var seen: set<string> := {};
    for n := 0 to |sources|
      invariant Reached(sources, n, seen, values) == true
    {
      var next := LoadNext(sources, n, seen, values);
      if next.None? {
        if Merges(sources) {
          MergesPrefix(sources, n + 1);
        }
        return None;
      }
      seen, values := next.value.0, next.value.1;
    }
    AllReached(sources, seen, values);
    merged := CanonicalMap(values);
    var encodable := CheckLeaves(values, encodes);
    if !encodable {
      merged := None;
    }
  }

  const FINE := Source("f", Some(map["k" := Leaf("1.5")]))
  const INFINITE := Source("i", Some(map["k" := Leaf("+Inf")]))

  lemma OneKey(t: string, u: string)
    ensures var x, y := map["k" := Leaf(t)], map["k" := Leaf(u)];
            && Canonical(Object(x)) && Compatible(Object(x), Object(y)) && Merge(Object(x), Object(y)) == Object(y)
            && Merge(Object(map[]), Object(x)) == Object(x)
  {
    var x, y := map["k" := Leaf(t)], map["k" := Leaf(u)];
    assert "k"[0] == 'k' && Trim("k") == "k";
    assert Match(x, "k") == Some("k") && Match(y, "k") == Some("k");
    assert Match(map[], "k") == None;
  }

  lemma {:induction false} TwoMerge(a: Source, b: Source)
    requires (a == FINE && b == INFINITE) || (a == INFINITE && b == FINE)
    ensures Merges([a, b]) && MergeAll(ValuesOf([a, b])) == Object(b.values.value)
  {
    TwoNames(a, b);
    OneThenTwo(a.values.value["k"].text, b.values.value["k"].text);
    assert ValuesOf([a, b]) == [a.values.value, b.values.value];
  }

  lemma TwoNames(a: Source, b: Source)
    requires (a.name == "f" && b.name == "i") || (a.name == "i" && b.name == "f")
    ensures NamesOk([a, b]) == true
  {
    assert "f"[0] == 'f' && "i"[0] == 'i' && Trim("f") == "f" && Trim("i") == "i";
  }

  lemma {:induction false} OneThenTwo(t: string, u: string)
    ensures var ms := [map["k" := Leaf(t)], map["k" := Leaf(u)]]; Mergeable(ms) && MergeAll(ms) == Object(ms[1])
  {
    var ms := [map["k" := Leaf(t)], map["k" := Leaf(u)]];
    OneKey(t, u);
    OneKey(u, t);
    assert ms[..1] == [ms[0]] && ms[..1][..0] == [];
    MergeableExactly(ms);
  }

  /** The order of the sources decides whether they load, where a leaf that cannot be marshalled is
      replaced by one that can. */
  lemma {:induction false} OrderMatters(encodes: string -> bool)
    requires encodes("1.5") && !encodes("+Inf")
    ensures Loads([INFINITE, FINE], encodes) && !Loads([FINE, INFINITE], encodes)
  {
    TwoMerge(INFINITE, FINE);
    TwoMerge(FINE, INFINITE);
    assert "k" in INFINITE.values.value && !Encodable(INFINITE.values.value["k"], encodes);
  }

  /** One source of the loop: its name, its values, their check and their merge. */
  method LoadNext(sources: seq<Source>, n: nat, seen: set<string>, values: map<string, Value>)
    returns (next: Option<(set<string>, map<string, Value>)>)
    requires n < |sources| && Reached(sources, n, seen, values) == true
    ensures if next.Some? then Reached(sources, n + 1, next.value.0, next.value.1) == true else !Merges(sources[..n + 1])
  {
    var source := sources[n];
    NamesMore(sources, n, seen);
    if Trim(source.name) == "" || Trim(source.name) in seen || source.values.None? {
      assert sources[..n + 1][n] == source;
      return None;
    }
    MergesMore(sources, n);
    var normalized := CanonicalMap(source.values.value);
    if normalized.None? {
      return None;
    }
    MergeUnique(Object(values), Object(normalized.value));
    var out, conflict := MergeMap(values, normalized.value);
    if conflict.Some? {
      return None;
    }
    return Some((seen + {Trim(source.name)}, out));
  }

  lemma NamesMore(sources: seq<Source>, n: nat, seen: set<string>)
    requires n < |sources| && NamesOk(sources[..n])
    requires forall s :: s in seen <==> exists i :: 0 <= i < n && Trim(sources[i].name) == s
    ensures NamesOk(sources[..n + 1]) <==> Trim(sources[n].name) != "" && Trim(sources[n].name) !in seen
    ensures AllLoad(sources[..n + 1]) <==> AllLoad(sources[..n]) && sources[n].values.Some?
    ensures forall s :: s in seen + {Trim(sources[n].name)} <==> exists i :: 0 <= i < n + 1 && Trim(sources[i].name) == s
  {
    assert sources[..n + 1][n] == sources[n] && forall i | 0 <= i < n :: sources[..n + 1][i] == sources[..n][i] == sources[i];
  }
}
