/** Configuration trees whose siblings are told apart without regard to case, and the merge of
    a later source into an earlier one. */
module ConfigMerge {
  import opened Wrappers

  /** Arrays and scalars are alike here: they are not objects. */
  datatype Value = Leaf(text: string) | Object(fields: map<string, Value>)

  // Case folding ------------------------------------------------------------------------------

  function LowerChar(c: char): char {
    if 'A' <= c <= 'Z' then c - 'A' + 'a' else if c == '\U{212A}' then 'k' else c
  }

  /** Folding goes further than lower-casing: the long s equals s but is its own lower case. */
  function FoldChar(c: char): char {
    if c == '\U{017F}' then 's' else LowerChar(c)
  }

  function Lower(s: string): (l: string)
    ensures |l| == |s|
  {
    seq(|s|, i requires 0 <= i < |s| => LowerChar(s[i]))
  }

  function Fold(s: string): (f: string)
    ensures |f| == |s|
  {
    seq(|s|, i requires 0 <= i < |s| => FoldChar(s[i]))
  }

  predicate EqualFold(a: string, b: string) {
    Fold(a) == Fold(b)
  }

  lemma LowerFolds(s: string)
    ensures Fold(Lower(s)) == Fold(s)
  {
  }

  // Trees -------------------------------------------------------------------------------------

  predicate KeysUnique(m: map<string, Value>) {
    forall a, b | a in m && b in m && EqualFold(a, b) :: a == b
  }

  predicate FoldUnique(v: Value) {
    v.Object? ==> KeysUnique(v.fields) && forall k | k in v.fields :: FoldUnique(v.fields[k])
  }

  /** The key of `m` that stands for `k`. */
  ghost function Match(m: map<string, Value>, k: string): (r: Option<string>)
    ensures r.Some? ==> r.value in m && EqualFold(r.value, k)
    ensures r.None? ==> forall x | x in m :: !EqualFold(x, k)
  {
    if exists x :: x in m && EqualFold(x, k) then
      var x :| x in m && EqualFold(x, k);
      Some(x)
    else None
  }

  lemma MatchIs(m: map<string, Value>, k: string, x: string)
    requires KeysUnique(m) && x in m && EqualFold(x, k)
    ensures Match(m, k) == Some(x)
  {
  }

  ghost function Child(v: Value, k: string): Option<Value> {
    if v.Leaf? || Match(v.fields, k).None? then None else Some(v.fields[Match(v.fields, k).value])
  }

  /** What a folded path leads to. */
  ghost function Lookup(v: Value, path: seq<string>): Option<Value>
    decreases |path|
  {
    if path == [] then Some(v)
    else if Child(v, path[0]).None? then None
    else Lookup(Child(v, path[0]).value, path[1..])
  }

  // The merge as a union ------------------------------------------------------------------------

  /** No folded path is an object on one side and something else on the other. */
  predicate Compatible(a: Value, b: Value)
    decreases a
  {
    a.Object? == b.Object? &&
    (a.Object? ==> forall k, l | k in a.fields && l in b.fields && EqualFold(k, l) :: Compatible(a.fields[k], b.fields[l]))
  }

  /** The later value wins at the leaves, objects are united, and a key both sides have keeps
      the spelling of the earlier one. */
  ghost function Merge(a: Value, b: Value): Value
    decreases a
  {
    if a.Leaf? || b.Leaf? then b
    else Object(map k | k in a.fields.Keys + Added(a.fields, b.fields) ::
      if k in a.fields then
        match Match(b.fields, k)
        case None => a.fields[k]
        case Some(l) => Merge(a.fields[k], b.fields[l])
      else b.fields[k])
  }

  /** The keys of the later object the earlier one does not have under any spelling. */
  ghost function Added(a: map<string, Value>, b: map<string, Value>): set<string> {
    set l | l in b && Match(a, l).None?
  }

  // Children ----------------------------------------------------------------------------------

  ghost function Combine(x: Option<Value>, y: Option<Value>): Option<Value> {
    match (x, y)
    case (None, _) => y
    case (_, None) => x
    case (Some(v), Some(w)) => Some(Merge(v, w))
  }

  lemma ChildOf(v: Value, k: string, x: string)
    requires v.Object? && KeysUnique(v.fields) && x in v.fields && EqualFold(x, k)
    ensures Child(v, k) == Some(v.fields[x])
  {
    MatchIs(v.fields, k, x);
  }

  /** The key that stands for `k` in a merge is the earlier side's, or else the later side's. */
  lemma MergedKey(a: Value, b: Value, k: string)
    requires a.Object? && b.Object? && KeysUnique(a.fields) && KeysUnique(b.fields)
    ensures KeysUnique(Merge(a, b).fields)
    ensures Match(Merge(a, b).fields, k) == if Match(a.fields, k).Some? then Match(a.fields, k) else Match(b.fields, k)
  {
    var m := Merge(a, b).fields;
    if Match(a.fields, k).Some? {
      MatchIs(m, k, Match(a.fields, k).value);
    } else if Match(b.fields, k).Some? {
      var l := Match(b.fields, k).value;
      assert Match(a.fields, l).None?;
      MatchIs(m, k, l);
    }
  }

  lemma MergeChild(a: Value, b: Value, k: string)
    requires a.Object? && b.Object? && KeysUnique(a.fields) && KeysUnique(b.fields)
    ensures Child(Merge(a, b), k) == Combine(Child(a, k), Child(b, k))
  {
    MergedKey(a, b, k);
    var x, y := Match(a.fields, k), Match(b.fields, k);
    if x.Some? && y.Some? {
      MatchIs(b.fields, x.value, y.value);
    }
  }

  lemma {:induction false} ChildUnique(v: Value, k: string)
    requires FoldUnique(v) && Child(v, k).Some?
    ensures FoldUnique(Child(v, k).value) && v.Object? && Child(v, k).value < v
  {
  }

  ghost predicate ChildrenCompatible(a: Value, b: Value, k: string) {
    Child(a, k).Some? && Child(b, k).Some? ==> Compatible(Child(a, k).value, Child(b, k).value)
  }

  lemma {:induction false} CompatibleByChild(a: Value, b: Value)
    requires FoldUnique(a) && FoldUnique(b) && a.Object? && b.Object?
    ensures Compatible(a, b) <==> forall k :: ChildrenCompatible(a, b, k)
  {
    if forall k :: ChildrenCompatible(a, b, k) {
      forall k, l | k in a.fields && l in b.fields && EqualFold(k, l) ensures Compatible(a.fields[k], b.fields[l]) {
        ChildOf(a, k, k);
        ChildOf(b, k, l);
        assert ChildrenCompatible(a, b, k);
      }
    }
  }

  // What the merge means, path by path -----------------------------------------------------------

  /** Along every folded path, a compatible merge leads to what both sides lead to, merged. */
  lemma {:induction false} MergeLookup(a: Value, b: Value, path: seq<string>)
    requires FoldUnique(a) && FoldUnique(b) && Compatible(a, b)
    ensures Lookup(Merge(a, b), path) == Combine(Lookup(a, path), Lookup(b, path))
    decreases |path|
  {
    if path != [] && a.Object? {
      var k := path[0];
      MergeChild(a, b, k);
      CompatibleByChild(a, b);
      if Child(a, k).Some? && Child(b, k).Some? {
        assert ChildrenCompatible(a, b, k);
        MergeLookup(Child(a, k).value, Child(b, k).value, path[1..]);
      }
    }
  }

  lemma {:induction false} MergeUnique(a: Value, b: Value)
    requires FoldUnique(a) && FoldUnique(b)
    ensures FoldUnique(Merge(a, b))
    decreases a
  {
    if a.Object? && b.Object? {
      MergedKey(a, b, "");
      var m := Merge(a, b).fields;
      forall k | k in m ensures FoldUnique(m[k]) {
        if k in a.fields && Match(b.fields, k).Some? {
          MergeUnique(a.fields[k], b.fields[Match(b.fields, k).value]);
        }
      }
    }
  }

  predicate SameKind(x: Option<Value>, y: Option<Value>) {
    x.Some? && y.Some? ==> x.value.Object? == y.value.Object?
  }

  /** Compatibility, said without recursion. */
  lemma {:induction false} CompatiblePaths(a: Value, b: Value)
    requires FoldUnique(a) && FoldUnique(b)
    ensures Compatible(a, b) <==> forall path :: SameKind(Lookup(a, path), Lookup(b, path))
  {
    if Compatible(a, b) {
      forall path ensures SameKind(Lookup(a, path), Lookup(b, path)) {
        CompatibleAlong(a, b, path);
      }
    } else {
      var path := ConflictPath(a, b);
    }
  }

  lemma {:induction false} CompatibleAlong(a: Value, b: Value, path: seq<string>)
    requires Compatible(a, b)
    ensures SameKind(Lookup(a, path), Lookup(b, path))
    decreases |path|
  {
    if path != [] && Child(a, path[0]).Some? && Child(b, path[0]).Some? {
      CompatibleAlong(Child(a, path[0]).value, Child(b, path[0]).value, path[1..]);
    }
  }

  lemma {:induction false} ConflictMeans(a: Value, b: Value, path: seq<string>)
    requires !SameKind(Lookup(a, path), Lookup(b, path))
    ensures !Compatible(a, b)
  {
    if Compatible(a, b) {
      CompatibleAlong(a, b, path);
    }
  }

  lemma {:induction false} ConflictPath(a: Value, b: Value) returns (path: seq<string>)
    requires FoldUnique(a) && FoldUnique(b) && !Compatible(a, b)
    ensures !SameKind(Lookup(a, path), Lookup(b, path))
    decreases a
  {
    if a.Object? != b.Object? {
      path := [];
    } else {
      var k, l :| k in a.fields && l in b.fields && EqualFold(k, l) && !Compatible(a.fields[k], b.fields[l]);
      var rest := ConflictPath(a.fields[k], b.fields[l]);
      path := [k] + rest;
      ChildOf(a, k, k);
      ChildOf(b, k, l);
      assert path[1..] == rest;
    }
  }

  // Associativity -----------------------------------------------------------------------------------

  /** A merge is compatible with a third tree just when both of its sides are. */
  lemma {:induction false} MergeCompatibleLeft(a: Value, b: Value, c: Value)
    requires FoldUnique(a) && FoldUnique(b) && FoldUnique(c) && Compatible(a, b)
    ensures Compatible(Merge(a, b), c) <==> Compatible(a, c) && Compatible(b, c)
    decreases a
  {
    if a.Object? && c.Object? {
      MergeUnique(a, b);
      CompatibleByChild(Merge(a, b), c);
      CompatibleByChild(a, c);
      CompatibleByChild(b, c);
      forall k
        ensures ChildrenCompatible(Merge(a, b), c, k) <==> ChildrenCompatible(a, c, k) && ChildrenCompatible(b, c, k)
      {
        MergeChild(a, b, k);
        if Child(a, k).Some? && Child(b, k).Some? && Child(c, k).Some? {
          CompatibleByChild(a, b);
          assert ChildrenCompatible(a, b, k);
          MergeCompatibleLeft(Child(a, k).value, Child(b, k).value, Child(c, k).value);
        }
      }
    }
  }

  lemma {:induction false} MergeCompatibleRight(a: Value, b: Value, c: Value)
    requires FoldUnique(a) && FoldUnique(b) && FoldUnique(c) && Compatible(b, c)
    ensures Compatible(a, Merge(b, c)) <==> Compatible(a, b) && Compatible(a, c)
    decreases a
  {
    if a.Object? && b.Object? && c.Object? {
      MergeUnique(b, c);
      CompatibleByChild(a, Merge(b, c));
      CompatibleByChild(a, b);
      CompatibleByChild(a, c);
      forall k
        ensures ChildrenCompatible(a, Merge(b, c), k) <==> ChildrenCompatible(a, b, k) && ChildrenCompatible(a, c, k)
      {
        MergeChild(b, c, k);
        if Child(a, k).Some? && Child(b, k).Some? && Child(c, k).Some? {
          CompatibleByChild(b, c);
          assert ChildrenCompatible(b, c, k);
          MergeCompatibleRight(Child(a, k).value, Child(b, k).value, Child(c, k).value);
        }
      }
    }
  }

  /** Objects are equal when they have the same keys, spelled the same, and the same children. */
  lemma SameObject(x: Value, y: Value)
    requires x.Object? && y.Object? && KeysUnique(x.fields) && KeysUnique(y.fields)
    requires forall k :: Match(x.fields, k) == Match(y.fields, k) && Child(x, k) == Child(y, k)
    ensures x == y
  {
    forall k | k in x.fields ensures k in y.fields && x.fields[k] == y.fields[k] {
      ChildOf(x, k, k);
      MatchIs(x.fields, k, k);
    }
    forall k | k in y.fields ensures k in x.fields {
      MatchIs(y.fields, k, k);
    }
    assert x.fields == y.fields;
  }

  /** Merging is associative, down to the spelling of the keys that survive. */
  lemma {:induction false} MergeAssociative(a: Value, b: Value, c: Value)
    requires FoldUnique(a) && FoldUnique(b) && FoldUnique(c)
    requires Compatible(a, b) && Compatible(b, c) && Compatible(a, c)
    ensures Merge(Merge(a, b), c) == Merge(a, Merge(b, c))
    decreases a
  {
    if a.Object? {
      var x, y := Merge(Merge(a, b), c), Merge(a, Merge(b, c));
      MergeUnique(a, b);
      MergeUnique(b, c);
      MergeUnique(Merge(a, b), c);
      MergeUnique(a, Merge(b, c));
      forall k ensures Match(x.fields, k) == Match(y.fields, k) && Child(x, k) == Child(y, k) {
        MergedKey(Merge(a, b), c, k);
        MergedKey(a, b, k);
        MergedKey(a, Merge(b, c), k);
        MergedKey(b, c, k);
        AssociativeAt(a, b, c, k);
      }
      SameObject(x, y);
    }
  }

  lemma {:induction false} AssociativeAt(a: Value, b: Value, c: Value, k: string)
    requires FoldUnique(a) && FoldUnique(b) && FoldUnique(c) && a.Object? && b.Object? && c.Object?
    requires Compatible(a, b) && Compatible(b, c) && Compatible(a, c)
    ensures Child(Merge(Merge(a, b), c), k) == Child(Merge(a, Merge(b, c)), k)
    decreases a, 0
  {
    MergeUnique(a, b);
    MergeUnique(b, c);
    MergeChild(Merge(a, b), c, k);
    MergeChild(a, b, k);
    MergeChild(a, Merge(b, c), k);
    MergeChild(b, c, k);
    if Child(a, k).Some? && Child(b, k).Some? && Child(c, k).Some? {
      CompatibleByChild(a, b);
      CompatibleByChild(b, c);
      CompatibleByChild(a, c);
      assert ChildrenCompatible(a, b, k) && ChildrenCompatible(b, c, k) && ChildrenCompatible(a, c, k);
      ChildUnique(a, k);
      MergeAssociative(Child(a, k).value, Child(b, k).value, Child(c, k).value);
    }
  }

  /** Three sources can be loaded in order just when they are compatible two by two, and then
      it does not matter which merge is done first. */
  lemma {:induction false} MergeOrderIrrelevant(a: Value, b: Value, c: Value)
    requires FoldUnique(a) && FoldUnique(b) && FoldUnique(c)
    ensures (Compatible(a, b) && Compatible(Merge(a, b), c)) <==> (Compatible(b, c) && Compatible(a, Merge(b, c)))
    ensures Compatible(a, b) && Compatible(Merge(a, b), c) ==> Merge(Merge(a, b), c) == Merge(a, Merge(b, c))
  {
    if Compatible(a, b) {
      MergeCompatibleLeft(a, b, c);
    }
    if Compatible(b, c) {
      MergeCompatibleRight(a, b, c);
    }
    if Compatible(a, b) && Compatible(b, c) && Compatible(a, c) {
      MergeAssociative(a, b, c);
    }
  }

  // The loader's loop ---------------------------------------------------------------------------------

  /** Looks for the key that already stands for `candidate`. */
  method MatchingKey(values: map<string, Value>, candidate: string) returns (found: Option<string>)
    requires KeysUnique(values)
    ensures found == Match(values, candidate)
  {
    var keys := values.Keys;
    while keys != {}
      invariant keys <= values.Keys
      invariant forall x | x in values && x !in keys :: !EqualFold(x, candidate)
      decreases keys
    {
      var key :| key in keys;
      if EqualFold(key, candidate) {
        MatchIs(values, candidate, key);
        return Some(key);
      }
      keys := keys - {key};
    }
    return None;
  }

  lemma MatchGrows(done: map<string, Value>, k: string, v: Value, y: string)
    requires KeysUnique(done[k := v]) && k !in done
    ensures KeysUnique(done)
    ensures Match(done[k := v], y) == if EqualFold(k, y) then Some(k) else Match(done, y)
    ensures EqualFold(k, y) ==> Match(done, y).None?
  {
    assert forall a | a in done :: a in done[k := v];
    if EqualFold(k, y) {
      MatchIs(done[k := v], y, k);
    } else if Match(done, y).Some? {
      MatchIs(done[k := v], y, Match(done, y).value);
    }
  }

  /** One field of a merge. */
  lemma MergeField(a: map<string, Value>, b: map<string, Value>, y: string)
    ensures y in Merge(Object(a), Object(b)).fields <==> y in a || (y in b && Match(a, y).None?)
    ensures y in a && Match(b, y).None? ==> Merge(Object(a), Object(b)).fields[y] == a[y]
    ensures y in a && Match(b, y).Some? ==> Merge(Object(a), Object(b)).fields[y] == Merge(a[y], b[Match(b, y).value])
    ensures y in b && Match(a, y).None? ==> y !in a && Merge(Object(a), Object(b)).fields[y] == b[y]
  {
  }

  /** A key the earlier source has is merged in place. */
  lemma StepInto(dst: map<string, Value>, done: map<string, Value>, k: string, v: Value, x: string)
    requires KeysUnique(dst) && KeysUnique(done[k := v]) && k !in done && x in dst && EqualFold(x, k)
    ensures var m, m' := Merge(Object(dst), Object(done)).fields, Merge(Object(dst), Object(done[k := v])).fields;
            x in m && m[x] == dst[x] && m' == m[x := Merge(dst[x], v)]
  {
    var m, m' := Merge(Object(dst), Object(done)).fields, Merge(Object(dst), Object(done[k := v])).fields;
    StepIntoAt(dst, done, k, v, x, x);
    forall y ensures (y in m' <==> y in m[x := Merge(dst[x], v)]) && (y in m' ==> m'[y] == m[x := Merge(dst[x], v)][y]) {
      StepIntoAt(dst, done, k, v, x, y);
    }
    SameFields(m', m[x := Merge(dst[x], v)]);
  }

  lemma StepIntoAt(dst: map<string, Value>, done: map<string, Value>, k: string, v: Value, x: string, y: string)
    requires KeysUnique(dst) && KeysUnique(done[k := v]) && k !in done && x in dst && EqualFold(x, k)
    ensures var m, m' := Merge(Object(dst), Object(done)).fields, Merge(Object(dst), Object(done[k := v])).fields;
            && (y == x ==> y in m && m[y] == dst[x])
            && (y in m' <==> y in m) && (y in m ==> m'[y] == if y == x then Merge(dst[x], v) else m[y])
  {
    MatchGrows(done, k, v, y);
    MergeField(dst, done, y);
    MergeField(dst, done[k := v], y);
    MatchIs(dst, k, x);
    if y in dst && EqualFold(k, y) {
      assert EqualFold(x, y);
    }
  }

  /** A key the earlier source does not have is added as it is spelled. */
  lemma StepBeside(dst: map<string, Value>, done: map<string, Value>, k: string, v: Value)
    requires KeysUnique(dst) && KeysUnique(done[k := v]) && k !in done && Match(dst, k).None?
    ensures Merge(Object(dst), Object(done[k := v])).fields == Merge(Object(dst), Object(done)).fields[k := v]
  {
    var m, m' := Merge(Object(dst), Object(done)).fields, Merge(Object(dst), Object(done[k := v])).fields;
    forall y ensures (y in m' <==> y in m || y == k) && (y in m' ==> m'[y] == if y == k then v else m[y]) {
      MatchGrows(done, k, v, y);
      MergeField(dst, done, y);
      MergeField(dst, done[k := v], y);
    }
    SameFields(m', m[k := v]);
  }

  lemma SameFields(m: map<string, Value>, n: map<string, Value>)
    requires forall y :: (y in m <==> y in n) && (y in m ==> m[y] == n[y])
    ensures m == n
  {
  }

  lemma StepCompatible(dst: map<string, Value>, done: map<string, Value>, k: string, v: Value)
    requires KeysUnique(dst) && KeysUnique(done[k := v]) && k !in done && Compatible(Object(dst), Object(done))
    ensures Compatible(Object(dst), Object(done[k := v])) <==>
              (Match(dst, k).Some? ==> Compatible(dst[Match(dst, k).value], v))
  {
    var x := Match(dst, k);
    if x.Some? && Compatible(Object(dst), Object(done[k := v])) {
      assert k in done[k := v] && EqualFold(x.value, k);
    }
  }

  /** A conflict found on the way is one of the whole. */
  lemma ConflictStands(dst: map<string, Value>, src: map<string, Value>, k: string, x: string, rest: seq<string>)
    requires KeysUnique(dst) && KeysUnique(src) && k in src && x in dst && EqualFold(x, k)
    requires !SameKind(Lookup(dst[x], rest), Lookup(src[k], rest))
    ensures !SameKind(Lookup(Object(dst), [x] + rest), Lookup(Object(src), [x] + rest))
  {
    ChildOf(Object(dst), x, x);
    ChildOf(Object(src), x, k);
    assert ([x] + rest)[1..] == rest;
  }

  /** Merges a later source into an earlier one, key by key in any order. It fails exactly when
      some path is an object on one side only, and then names such a path. */
  method MergeMap(dst: map<string, Value>, src: map<string, Value>)
    returns (out: map<string, Value>, conflict: Option<seq<string>>)
    requires FoldUnique(Object(dst)) && FoldUnique(Object(src))
    ensures conflict.None? <==> Compatible(Object(dst), Object(src))
    ensures conflict.None? ==> Object(out) == Merge(Object(dst), Object(src))
    ensures conflict.Some? ==> !SameKind(Lookup(Object(dst), conflict.value), Lookup(Object(src), conflict.value))
    decreases Object(src), 0
  {
    out, conflict := dst, None;
    var keys := src.Keys;
    ghost var done: map<string, Value> := map[];
    MergeNothing(dst);
    while keys != {}
      invariant conflict.None? && keys <= src.Keys && Part(done, src) && done.Keys == src.Keys - keys
      invariant Object(out) == Merge(Object(dst), Object(done)) && Compatible(Object(dst), Object(done))
      decreases keys
    {
      var candidate :| candidate in keys;
      PartUnique(done, src, candidate);
      out, conflict := MergeOne(dst, done, out, candidate, src[candidate]);
      StepCompatible(dst, done, candidate, src[candidate]);
      if conflict.Some? {
        ConflictStands(dst, src, candidate, conflict.value[0], conflict.value[1..]);
        assert [conflict.value[0]] + conflict.value[1..] == conflict.value;
        ConflictMeans(Object(dst), Object(src), conflict.value);
        return;
      }
      done := done[candidate := src[candidate]];
      keys := keys - {candidate};
    }
    WholePart(done, src);
  }

  /** The keys of `src` merged so far. */
  ghost predicate Part(done: map<string, Value>, src: map<string, Value>) {
    forall k | k in done :: k in src && done[k] == src[k]
  }

  lemma PartUnique(done: map<string, Value>, src: map<string, Value>, k: string)
    requires Part(done, src) && k in src && KeysUnique(src)
    ensures Part(done[k := src[k]], src) && KeysUnique(done[k := src[k]])
  {
  }

  lemma WholePart(done: map<string, Value>, src: map<string, Value>)
    requires Part(done, src) && done.Keys == src.Keys
    ensures done == src
  {
  }

  lemma MergeNothing(dst: map<string, Value>)
    ensures Merge(Object(dst), Object(map[])) == Object(dst) && Compatible(Object(dst), Object(map[]))
  {
    assert Merge(Object(dst), Object(map[])).fields == dst;
  }

  /** Merges one key into what has been merged so far. */
  method MergeOne(ghost dst: map<string, Value>, ghost done: map<string, Value>, before: map<string, Value>, k: string, value: Value)
    returns (out: map<string, Value>, conflict: Option<seq<string>>)
    requires FoldUnique(Object(dst)) && FoldUnique(value) && KeysUnique(done[k := value]) && k !in done
    requires Object(before) == Merge(Object(dst), Object(done))
    ensures conflict.None? <==> (Match(dst, k).Some? ==> Compatible(dst[Match(dst, k).value], value))
    ensures conflict.None? ==> Object(out) == Merge(Object(dst), Object(done[k := value]))
    ensures conflict.Some? ==>
              && conflict.value != [] && conflict.value[0] in dst && EqualFold(conflict.value[0], k)
              && !SameKind(Lookup(dst[conflict.value[0]], conflict.value[1..]), Lookup(value, conflict.value[1..]))
    decreases value, 1
  {
    MatchGrows(done, k, value, k);
    MergedKey(Object(dst), Object(done), k);
    out, conflict := before, None;
    var key := MatchingKey(before, k);
    if key.None? {
      StepBeside(dst, done, k, value);
      out := out[k := value];
      return;
    }
    StepInto(dst, done, k, value, key.value);
    MatchIs(dst, k, key.value);
    var existing := before[key.value];
    if existing.Object? != value.Object? {
      conflict := Some([key.value]);
    } else if value.Object? {
      var nested, inner := MergeMap(existing.fields, value.fields);
      if inner.Some? {
        conflict := Some([key.value] + inner.value);
        assert conflict.value[1..] == inner.value;
      } else {
        out := out[key.value := Object(nested)];
      }
    } else {
      out := out[key.value := value];
    }
  }
}
