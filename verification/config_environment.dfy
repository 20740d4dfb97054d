/** Configuration from environment variables: entries become path records, the records are
    checked against each other, and only then is the tree built. Neither the tree nor the
    error depends on the order of the entries. */
module ConfigEnvironment {
  import opened Wrappers
  import opened ConfigMerge

  // Strings ------------------------------------------------------------------------------------

  /** Lexicographic order, as the sort of the source compares. */
  predicate StringLess(a: string, b: string) {
    b != [] && (a == [] || a[0] < b[0] || (a[0] == b[0] && StringLess(a[1..], b[1..])))
  }

  lemma {:induction false} StringTotal(a: string, b: string)
    ensures a == b || StringLess(a, b) || StringLess(b, a)
    ensures !(StringLess(a, b) && StringLess(b, a)) && !StringLess(a, a)
  {
    if a != [] && b != [] && a[0] == b[0] {
      StringTotal(a[1..], b[1..]);
      if a[1..] == b[1..] {
        assert a == [a[0]] + a[1..] && b == [b[0]] + b[1..];
      }
    }
    if a != [] {
      StringTotal(a[1..], a[1..]);
    }
  }

  lemma {:induction false} StringTransitive(a: string, b: string, c: string)
    requires StringLess(a, b) && StringLess(b, c)
    ensures StringLess(a, c)
  {
    if a != [] && a[0] == b[0] && b[0] == c[0] {
      StringTransitive(a[1..], b[1..], c[1..]);
    }
  }

  function Join(parts: seq<string>, separator: string): string {
    if parts == [] then "" else if |parts| == 1 then parts[0] else parts[0] + separator + Join(parts[1..], separator)
  }

  /** Splits at every "__", left to right. */
  function Split(s: string): (parts: seq<string>)
    ensures parts != []
    decreases |s|
  {
    SplitFrom(s, 0)
  }

  function SplitFrom(s: string, k: nat): (parts: seq<string>)
    requires k <= |s|
    ensures parts != []
    decreases |s|, |s| - k
  {
    if k + 1 >= |s| then [s]
    else if s[k] == '_' && s[k + 1] == '_' then [s[..k]] + SplitFrom(s[k + 2..], 0)
    else SplitFrom(s, k + 1)
  }

  // Records --------------------------------------------------------------------------------------

  datatype Record = Record(raw: seq<string>, parts: seq<string>, value: string)

  function RawPath(r: Record): string {
    Join(r.raw, ".")
  }

  function Path(r: Record): string {
    Join(r.parts, ".")
  }

  predicate HasEmpty(r: Record) {
    exists i :: 0 <= i < |r.raw| && r.raw[i] == ""
  }

  function LowerAll(parts: seq<string>): (l: seq<string>)
    ensures |l| == |parts| && forall i | 0 <= i < |parts| :: l[i] == Lower(parts[i])
  {
    seq(|parts|, i requires 0 <= i < |parts| => Lower(parts[i]))
  }

  function NewRecord(name: string, value: string): (r: Record)
    ensures r.parts != [] && |r.parts| == |r.raw|
  {
    var raw := Split(name);
    Record(raw, LowerAll(raw), value)
  }

  predicate WellFormed(r: Record) {
    r.parts != [] && |r.parts| == |r.raw| && forall i | 0 <= i < |r.raw| :: r.parts[i] == Lower(r.raw[i])
  }

  /** Parsing of one entry: other prefixes and bare prefixes are skipped. */
  function Parse(prefix: string, entry: string): Option<Record> {
    match Cut(entry, 0)
    case None => None
    case Some(at) =>
      if at <= |entry| && prefix <= entry[..at] && |prefix| < at
      then Some(NewRecord(entry[|prefix|..at], entry[at + 1..])) else None
  }

  /** The position of the first '='. */
  function Cut(s: string, k: nat): (r: Option<nat>)
    ensures r.Some? ==> k <= r.value < |s|
    decreases |s| - k
  {
    if k >= |s| then None else if s[k] == '=' then Some(k) else Cut(s, k + 1)
  }

  function ParseAll(prefix: string, entries: seq<string>): seq<Record> {
    if entries == [] then []
    else
      var last := Parse(prefix, entries[|entries| - 1]);
      ParseAll(prefix, entries[..|entries| - 1]) + (if last.Some? then [last.value] else [])
  }

  // Errors -----------------------------------------------------------------------------------------

  datatype Kind = CaseCollision | DuplicatePath | EmptySegment | ShapeConflict

  datatype PathError = PathError(kind: Kind, path: string)

  function Rank(k: Kind): nat {
    match k case CaseCollision => 0 case DuplicatePath => 1 case EmptySegment => 2 case ShapeConflict => 3
  }

  predicate Before(a: PathError, b: PathError) {
    StringLess(a.path, b.path) || (a.path == b.path && Rank(a.kind) < Rank(b.kind))
  }

  function CommonPrefix(a: seq<string>, b: seq<string>): (n: nat)
    ensures n <= |a| && n <= |b| && (forall i | 0 <= i < n :: EqualFold(a[i], b[i]))
    ensures n < |a| && n < |b| ==> !EqualFold(a[n], b[n])
  {
    if a == [] || b == [] || !EqualFold(a[0], b[0]) then 0 else 1 + CommonPrefix(a[1..], b[1..])
  }

  function Smaller(a: string, b: string): string {
    if StringLess(b, a) then b else a
  }

  /** What two records do to each other. */
  function Clash(a: Record, b: Record): Option<PathError> {
    var n := CommonPrefix(a.parts, b.parts);
    if HasEmpty(a) || HasEmpty(b) || n == 0 then None
    else if n == |a.parts| && n == |b.parts| then
      Some(PathError(if RawPath(a) == RawPath(b) then DuplicatePath else CaseCollision, Smaller(Path(a), Path(b))))
    else if n == |b.parts| then Some(PathError(ShapeConflict, Path(b)))
    else if n == |a.parts| then Some(PathError(ShapeConflict, Path(a)))
    else None
  }

  lemma {:induction false} ClashSymmetric(a: Record, b: Record)
    ensures Clash(a, b) == Clash(b, a)
  {
    CommonSymmetric(a.parts, b.parts);
    StringTotal(Path(a), Path(b));
  }

  lemma {:induction false} CommonSymmetric(a: seq<string>, b: seq<string>)
    ensures CommonPrefix(a, b) == CommonPrefix(b, a)
  {
    if a != [] && b != [] && EqualFold(a[0], b[0]) {
      CommonSymmetric(a[1..], b[1..]);
    }
  }

  /** The errors among a collection of records, whatever their order. */
  ghost predicate Candidate(rs: multiset<Record>, e: PathError) {
    || (exists r :: r in rs && HasEmpty(r) && e == PathError(EmptySegment, Path(r)))
    || (exists a, b :: a in rs && b in rs - multiset{a} && Clash(a, b) == Some(e))
  }

  ghost predicate Accepts(rs: multiset<Record>) {
    forall e :: !Candidate(rs, e)
  }

  /** The first error by path, then by kind. */
  ghost predicate First(rs: multiset<Record>, e: PathError) {
    Candidate(rs, e) && forall c | Candidate(rs, c) :: c == e || Before(e, c)
  }

  lemma {:induction false} FirstUnique(rs: multiset<Record>, e: PathError, f: PathError)
    requires First(rs, e) && First(rs, f)
    ensures e == f
  {
    StringTotal(e.path, f.path);
  }

  // Trees ------------------------------------------------------------------------------------------

  /** What an exactly spelled path leads to. */
  function Get(v: Value, path: seq<string>): Option<Value>
    decreases |path|
  {
    if path == [] then Some(v)
    else if v.Leaf? || path[0] !in v.fields then None
    else Get(v.fields[path[0]], path[1..])
  }

  predicate LeafAt(v: Value, path: seq<string>, text: string) {
    Get(v, path) == Some(Leaf(text))
  }

  /** No object below the root is empty. */
  predicate Pruned(v: Value) {
    v.Object? ==> forall k | k in v.fields :: Pruned(v.fields[k]) && v.fields[k] != Object(map[])
  }

  /** Inserts one value; None stands for the three errors of the source. */
  function Insert(m: map<string, Value>, parts: seq<string>, value: string): Option<map<string, Value>>
    decreases |parts|
  {
    if parts == [] || parts[0] == "" then None
    else if |parts| == 1 then
      if parts[0] in m then None else Some(m[parts[0] := Leaf(value)])
    else if parts[0] in m && m[parts[0]].Leaf? then None
    else
      var next := if parts[0] in m then m[parts[0]].fields else map[];
      match Insert(next, parts[1..], value)
      case None => None
      case Some(inner) => Some(m[parts[0] := Object(inner)])
  }

  /** One path is the beginning of the other. */
  predicate Related(p: seq<string>, q: seq<string>) {
    p <= q || q <= p
  }

  /** Inserting a path without empty segments, unrelated to every leaf there is, succeeds and
      adds that leaf and nothing else. */
  lemma {:induction false} InsertAdds(m: map<string, Value>, parts: seq<string>, value: string)
    requires parts != [] && (forall i | 0 <= i < |parts| :: parts[i] != "") && Pruned(Object(m))
    requires forall q, t | LeafAt(Object(m), q, t) :: !Related(parts, q)
    ensures var r := Insert(m, parts, value);
            && r.Some? && Pruned(Object(r.value)) && r.value != map[]
            && forall q, t :: LeafAt(Object(r.value), q, t) <==> LeafAt(Object(m), q, t) || (q == parts && t == value)
    decreases |parts|
  {
    var k := parts[0];
    if k in m && m[k].Leaf? {
      assert LeafAt(Object(m), [k], m[k].text) by {
        assert Get(m[k], [k][1..]) == Some(m[k]);
      }
      assert Related(parts, [k]);
    } else if |parts| == 1 {
      if k in m {
        var q := SomeLeaf(m[k]);
        assert ([k] + q.0)[1..] == q.0;
        assert LeafAt(Object(m), [k] + q.0, q.1);
        assert Related(parts, [k] + q.0);
      } else {
        assert parts == [k];
        LeafInserted(m, k, value);
      }
    } else {
      var next := if k in m then m[k].fields else map[];
      forall q, t | LeafAt(Object(next), q, t) ensures !Related(parts[1..], q) {
        NextLeaf(m, k, next, q, t);
        UnrelatedTail(parts, k, q);
      }
      InsertAdds(next, parts[1..], value);
      ObjectInserted(m, parts, value, next);
    }
  }

  lemma {:induction false} SomeLeaf(v: Value) returns (q: (seq<string>, string))
    requires Pruned(v) && v != Object(map[])
    ensures LeafAt(v, q.0, q.1)
  {
    if v.Leaf? {
      q := ([], v.text);
    } else {
      var k :| k in v.fields;
      var rest := SomeLeaf(v.fields[k]);
      q := ([k] + rest.0, rest.1);
      assert q.0[1..] == rest.0;
    }
  }

  lemma NextLeaf(m: map<string, Value>, k: string, next: map<string, Value>, q: seq<string>, t: string)
    requires (k in m && m[k] == Object(next)) || (k !in m && next == map[])
    requires LeafAt(Object(next), q, t)
    ensures LeafAt(Object(m), [k] + q, t)
  {
    assert ([k] + q)[1..] == q;
  }

  lemma UnrelatedTail(parts: seq<string>, k: string, q: seq<string>)
    requires parts != [] && parts[0] == k && !Related(parts, [k] + q)
    ensures !Related(parts[1..], q)
  {
    assert parts == [k] + parts[1..];
  }

  lemma LeafInserted(m: map<string, Value>, k: string, value: string)
    requires k !in m && k != "" && Pruned(Object(m))
    ensures var r := Insert(m, [k], value);
            && r.Some? && Pruned(Object(r.value)) && r.value != map[]
            && forall q, t :: LeafAt(Object(r.value), q, t) <==> LeafAt(Object(m), q, t) || (q == [k] && t == value)
  {
    var n := m[k := Leaf(value)];
    assert Insert(m, [k], value) == Some(n) && k in n;
    forall q, t ensures LeafAt(Object(n), q, t) <==> LeafAt(Object(m), q, t) || (q == [k] && t == value) {
      if q != [] && q[0] == k {
        assert q == [k] + q[1..];
        assert Get(Object(n), q) == Get(Leaf(value), q[1..]);
      }
    }
  }

  lemma ObjectInserted(m: map<string, Value>, parts: seq<string>, value: string, next: map<string, Value>)
    requires |parts| > 1 && parts[0] != "" && Pruned(Object(m))
    requires (parts[0] in m && m[parts[0]] == Object(next)) || (parts[0] !in m && next == map[])
    requires var r := Insert(next, parts[1..], value);
             && r.Some? && Pruned(Object(r.value)) && r.value != map[]
             && forall q, t :: LeafAt(Object(r.value), q, t) <==> LeafAt(Object(next), q, t) || (q == parts[1..] && t == value)
    ensures var r := Insert(m, parts, value);
            && r.Some? && Pruned(Object(r.value)) && r.value != map[]
            && forall q, t :: LeafAt(Object(r.value), q, t) <==> LeafAt(Object(m), q, t) || (q == parts && t == value)
  {
    var k := parts[0];
    var inner := Insert(next, parts[1..], value).value;
    var n := m[k := Object(inner)];
    assert Insert(m, parts, value) == Some(n) && k in n;
    forall q, t ensures LeafAt(Object(n), q, t) <==> LeafAt(Object(m), q, t) || (q == parts && t == value) {
      if q != [] && q[0] == k {
        assert q == [k] + q[1..] && parts == [k] + parts[1..];
        assert Get(Object(n), q) == Get(Object(inner), q[1..]);
        assert LeafAt(Object(inner), q[1..], t) <==> LeafAt(Object(next), q[1..], t) || (q[1..] == parts[1..] && t == value);
        if k in m {
          assert Get(Object(m), q) == Get(Object(next), q[1..]);
        } else {
          assert Get(Object(map[]), q[1..]) == if q[1..] == [] then Some(Object(map[])) else None;
        }
      }
    }
  }

  // The tree of a collection of records ---------------------------------------------------------------

  /** The leaves are exactly the records, and nothing else is there. */
  ghost predicate TreeOf(m: map<string, Value>, rs: multiset<Record>) {
    && Pruned(Object(m))
    && forall q, t :: LeafAt(Object(m), q, t) <==> exists r :: r in rs && r.parts == q && r.value == t
  }

  /** A pruned tree is determined by its leaves. */
  lemma {:induction false} SameLeavesSameTree(v: Value, w: Value)
    requires Pruned(v) && Pruned(w) && (v == Object(map[]) <==> w == Object(map[]))
    requires forall q, t :: LeafAt(v, q, t) <==> LeafAt(w, q, t)
    ensures v == w
    decreases v
  {
    if v.Leaf? {
      assert LeafAt(v, [], v.text);
    } else if w.Leaf? {
      assert LeafAt(w, [], w.text);
    } else {
      forall k ensures (k in v.fields <==> k in w.fields) && (k in v.fields ==> v.fields[k] == w.fields[k]) {
        if k in v.fields {
          SameKey(v, w, k);
        }
        if k in w.fields {
          SameKey(w, v, k);
        }
        if k in v.fields && k in w.fields {
          forall q, t ensures LeafAt(v.fields[k], q, t) <==> LeafAt(w.fields[k], q, t) {
            assert ([k] + q)[1..] == q;
            assert LeafAt(v, [k] + q, t) <==> LeafAt(w, [k] + q, t);
          }
          SameLeavesSameTree(v.fields[k], w.fields[k]);
        }
      }
      assert v.fields == w.fields;
    }
  }

  lemma SameKey(v: Value, w: Value, k: string)
    requires Pruned(v) && v.Object? && w.Object? && k in v.fields
    requires forall q, t :: LeafAt(v, q, t) ==> LeafAt(w, q, t)
    ensures k in w.fields
  {
    var q := SomeLeaf(v.fields[k]);
    assert ([k] + q.0)[1..] == q.0;
    assert LeafAt(v, [k] + q.0, q.1);
  }

  lemma EmptyMeansNoLeaf(v: Value)
    requires Pruned(v)
    ensures v == Object(map[]) <==> forall q, t :: !LeafAt(v, q, t)
  {
    if v != Object(map[]) {
      var q := SomeLeaf(v);
    }
  }

  lemma {:induction false} TreeUnique(m: map<string, Value>, n: map<string, Value>, rs: multiset<Record>)
    requires TreeOf(m, rs) && TreeOf(n, rs)
    ensures m == n
  {
    forall q, t ensures LeafAt(Object(m), q, t) <==> LeafAt(Object(n), q, t) {
      assert LeafAt(Object(m), q, t) <==> exists r :: r in rs && r.parts == q && r.value == t;
    }
    EmptyMeansNoLeaf(Object(m));
    EmptyMeansNoLeaf(Object(n));
    SameLeavesSameTree(Object(m), Object(n));
  }

  // Acceptance makes insertion safe ---------------------------------------------------------------------

  lemma {:induction false} PrefixFolds(a: seq<string>, b: seq<string>)
    requires a <= b
    ensures CommonPrefix(a, b) == |a|
  {
    if a != [] {
      PrefixFolds(a[1..], b[1..]);
    }
  }

  /** Records one of which begins the other clash. */
  lemma RelatedClash(a: Record, b: Record)
    requires Related(a.parts, b.parts) && a.parts != [] && b.parts != [] && !HasEmpty(a) && !HasEmpty(b)
    ensures Clash(a, b).Some?
  {
    if a.parts <= b.parts {
      PrefixFolds(a.parts, b.parts);
    } else {
      PrefixFolds(b.parts, a.parts);
      CommonSymmetric(a.parts, b.parts);
    }
  }

  lemma NoEmptyParts(r: Record)
    requires WellFormed(r) && !HasEmpty(r)
    ensures forall i | 0 <= i < |r.parts| :: r.parts[i] != ""
  {
    forall i | 0 <= i < |r.parts| ensures r.parts[i] != "" {
      assert r.raw[i] != "" && |Lower(r.raw[i])| == |r.raw[i]|;
    }
  }

  /** If the validator accepts, every insertion succeeds: the next record always fits the tree
      of the records inserted so far. */
  lemma {:induction false} InsertFits(m: map<string, Value>, done: multiset<Record>, r: Record, all: multiset<Record>)
    requires TreeOf(m, done) && done + multiset{r} <= all && Accepts(all)
    requires forall x | x in all :: WellFormed(x)
    ensures Insert(m, r.parts, r.value).Some? && TreeOf(Insert(m, r.parts, r.value).value, done + multiset{r})
  {
    assert r in all;
    NotEmpty(all, r);
    NoEmptyParts(r);
    forall q, t | LeafAt(Object(m), q, t) ensures !Related(r.parts, q) {
      var x :| x in done && x.parts == q && x.value == t;
      assert x in all && x in all - multiset{r};
      NotEmpty(all, x);
      if Related(r.parts, x.parts) {
        RelatedClash(r, x);
        assert Candidate(all, Clash(r, x).value);
      }
    }
    InsertAdds(m, r.parts, r.value);
    var n := Insert(m, r.parts, r.value).value;
    forall q, t ensures LeafAt(Object(n), q, t) <==> exists x :: x in done + multiset{r} && x.parts == q && x.value == t {
      if LeafAt(Object(n), q, t) {
        if LeafAt(Object(m), q, t) {
          var x :| x in done && x.parts == q && x.value == t;
          assert x in done + multiset{r};
        } else {
          assert r in done + multiset{r};
        }
      }
    }
  }

  lemma NotEmpty(all: multiset<Record>, r: Record)
    requires Accepts(all) && r in all
    ensures !HasEmpty(r)
  {
    if HasEmpty(r) {
      assert Candidate(all, PathError(EmptySegment, Path(r)));
    }
  }

  // Loading -------------------------------------------------------------------------------------------

  datatype Loaded = Tree(fields: map<string, Value>) | Rejected(error: PathError)

  /** What loading must answer for a collection of records. */
  ghost predicate LoadOf(rs: multiset<Record>, l: Loaded) {
    match l
    case Tree(fields) => Accepts(rs) && TreeOf(fields, rs)
    case Rejected(e) => First(rs, e)
  }

  lemma {:induction false} LoadUnique(rs: multiset<Record>, l: Loaded, k: Loaded)
    requires LoadOf(rs, l) && LoadOf(rs, k)
    ensures l == k
  {
    match (l, k) {
      case (Tree(m), Tree(n)) => TreeUnique(m, n, rs);
      case (Rejected(e), Rejected(f)) => FirstUnique(rs, e, f);
      case (Tree(_), Rejected(_)) =>
      case (Rejected(_), Tree(_)) =>
    }
  }

  /** Parsing treats every entry by itself. */
  lemma {:induction false} ParseConcat(prefix: string, a: seq<string>, b: seq<string>)
    ensures ParseAll(prefix, a + b) == ParseAll(prefix, a) + ParseAll(prefix, b)
  {
    if b == [] {
      assert a + b == a;
    } else {
      assert (a + b)[..|a + b| - 1] == a + b[..|b| - 1];
      ParseConcat(prefix, a, b[..|b| - 1]);
    }
  }

  lemma WithoutOne<T>(s: seq<T>, i: nat)
    requires i < |s|
    ensures multiset(s) - multiset{s[i]} == multiset(s[..i] + s[i + 1..])
  {
    assert s == s[..i] + ([s[i]] + s[i + 1..]);
    assert multiset(s) == multiset(s[..i] + s[i + 1..]) + multiset{s[i]};
  }

  /** Where the last element of `a` went in a permutation of it. */
  lemma Moved<T>(a: seq<T>, b: seq<T>) returns (i: nat)
    requires multiset(a) == multiset(b) && a != []
    ensures i < |b| && b[i] == a[|a| - 1] && multiset(b[..i] + b[i + 1..]) == multiset(a[..|a| - 1])
  {
    var n := |a| - 1;
    assert a[n] in multiset(b);
    i :| 0 <= i < |b| && b[i] == a[n];
    WithoutOne(a, n);
    WithoutOne(b, i);
    assert a[..n] + a[n + 1..] == a[..n];
  }

  lemma ParseWithout(prefix: string, b: seq<string>, i: nat)
    requires i < |b|
    ensures multiset(ParseAll(prefix, b)) == multiset(ParseAll(prefix, b[..i] + b[i + 1..])) + multiset(ParseAll(prefix, [b[i]]))
  {
    assert b == b[..i] + [b[i]] + b[i + 1..];
    ParseConcat(prefix, b[..i], b[i + 1..]);
    ParseConcat(prefix, b[..i] + [b[i]], b[i + 1..]);
    ParseConcat(prefix, b[..i], [b[i]]);
  }

  lemma {:induction false} ParsePermuted(prefix: string, a: seq<string>, b: seq<string>)
    requires multiset(a) == multiset(b)
    ensures multiset(ParseAll(prefix, a)) == multiset(ParseAll(prefix, b))
  {
    if a == [] {
      assert |b| == |multiset(b)| == 0;
    } else {
      var n := |a| - 1;
      var i := Moved(a, b);
      ParsePermuted(prefix, a[..n], b[..i] + b[i + 1..]);
      ParseWithout(prefix, b, i);
      ParseWithout(prefix, a, n);
      assert a[..n] + a[n + 1..] == a[..n];
    }
  }

  /** The outcome of loading is the same for every order of the entries. */
  lemma {:induction false} LoadPermuted(prefix: string, a: seq<string>, b: seq<string>, l: Loaded, k: Loaded)
    requires multiset(a) == multiset(b)
    requires LoadOf(multiset(ParseAll(prefix, a)), l) && LoadOf(multiset(ParseAll(prefix, b)), k)
    ensures l == k
  {
    ParsePermuted(prefix, a, b);
    LoadUnique(multiset(ParseAll(prefix, a)), l, k);
  }

  // The loader's loops ------------------------------------------------------------------------------------

  predicate RecordLess(a: Record, b: Record) {
    StringLess(Path(a), Path(b)) || (Path(a) == Path(b) && StringLess(RawPath(a), RawPath(b)))
  }

  /** No later record comes before an earlier one. */
  predicate Sorted(rs: seq<Record>) {
    forall i, j | 0 <= i < j < |rs| :: !RecordLess(rs[j], rs[i])
  }

  lemma NotLessTransitive(a: Record, b: Record, c: Record)
    requires !RecordLess(b, a) && !RecordLess(c, b)
    ensures !RecordLess(c, a)
  {
    StringTotal(Path(a), Path(b));
    StringTotal(Path(b), Path(c));
    StringTotal(RawPath(a), RawPath(b));
    StringTotal(RawPath(b), RawPath(c));
    if StringLess(Path(a), Path(b)) && StringLess(Path(b), Path(c)) {
      StringTransitive(Path(a), Path(b), Path(c));
    }
    if StringLess(RawPath(a), RawPath(b)) && StringLess(RawPath(b), RawPath(c)) {
      StringTransitive(RawPath(a), RawPath(b), RawPath(c));
    }
    StringTotal(Path(a), Path(c));
    StringTotal(RawPath(a), RawPath(c));
  }

  method ParseEntries(prefix: string, entries: seq<string>) returns (records: seq<Record>)
    ensures records == ParseAll(prefix, entries) && forall r | r in records :: WellFormed(r)
  {
    records := [];
    for i := 0 to |entries|
      invariant records == ParseAll(prefix, entries[..i]) && forall r | r in records :: WellFormed(r)
    {
      assert entries[..i + 1][..i] == entries[..i];
      var parsed := Parse(prefix, entries[i]);
      if parsed.Some? {
        records := records + [parsed.value];
      }
    }
    assert entries[..|entries|] == entries;
  }

  /** Puts one record into its place. */
  method PlaceRecord(sorted: seq<Record>, r: Record) returns (out: seq<Record>)
    requires Sorted(sorted)
    ensures Sorted(out) && multiset(out) == multiset(sorted) + multiset{r}
  {
    var k := |sorted|;
    while k > 0 && RecordLess(r, sorted[k - 1])
      invariant 0 <= k <= |sorted|
      invariant forall j | k <= j < |sorted| :: RecordLess(r, sorted[j])
    {
      k := k - 1;
    }
    out := sorted[..k] + [r] + sorted[k..];
    assert sorted == sorted[..k] + sorted[k..];
    PlaceKeepsSorted(sorted, k, r);
  }

  lemma PlaceKeepsSorted(sorted: seq<Record>, k: nat, r: Record)
    requires Sorted(sorted) && k <= |sorted| && (k > 0 ==> !RecordLess(r, sorted[k - 1]))
    requires forall j | k <= j < |sorted| :: RecordLess(r, sorted[j])
    ensures Sorted(sorted[..k] + [r] + sorted[k..])
  {
    var out := sorted[..k] + [r] + sorted[k..];
    forall i, j | 0 <= i < j < |out| ensures !RecordLess(out[j], out[i]) {
      if j == k && i < k - 1 {
        NotLessTransitive(sorted[i], sorted[k - 1], r);
      } else if i == k {
        StringTotal(Path(r), Path(out[j]));
        StringTotal(RawPath(r), RawPath(out[j]));
      }
    }
  }

  method SortRecords(records: seq<Record>) returns (sorted: seq<Record>)
    ensures Sorted(sorted) && multiset(sorted) == multiset(records)
  {
    sorted := [];
    for i := 0 to |records|
      invariant Sorted(sorted) && multiset(sorted) == multiset(records[..i])
    {
      assert records[..i + 1] == records[..i] + [records[i]];
      sorted := PlaceRecord(sorted, records[i]);
    }
    assert records[..|records|] == records;
  }

  /** Keeps the earlier of two errors. */
  method Consider(first: Option<PathError>, e: PathError) returns (r: Option<PathError>)
    ensures r.Some? && (r == first || r.value == e)
    ensures r.value == e || Before(r.value, e)
    ensures first.Some? ==> r == first || Before(r.value, first.value)
  {
    StringTotalFor(first, e);
    if first.None? || Before(e, first.value) {
      return Some(e);
    }
    return first;
  }

  lemma StringTotalFor(first: Option<PathError>, e: PathError)
    ensures first.Some? ==> first.value == e || Before(first.value, e) || Before(e, first.value)
  {
    if first.Some? {
      StringTotal(first.value.path, e.path);
    }
  }

  /** The errors seen after `empties` records have been looked at for empty segments, and the
      pairs up to record `left` and its partners before `right`. */
  ghost predicate Seen(rs: seq<Record>, empties: nat, left: nat, right: nat, e: PathError) {
    || (exists i :: 0 <= i < |rs| && i < empties && HasEmpty(rs[i]) && e == PathError(EmptySegment, Path(rs[i])))
    || (exists i, j :: 0 <= i < j < |rs| && (i < left || (i == left && j < right)) && Clash(rs[i], rs[j]) == Some(e))
  }

  /** The best error so far is one of the errors seen, and none seen comes before it. */
  ghost predicate Best(rs: seq<Record>, empties: nat, left: nat, right: nat, first: Option<PathError>) {
    && (first.Some? ==> Seen(rs, empties, left, right, first.value))
    && (forall e | Seen(rs, empties, left, right, e) :: first.Some? && (e == first.value || Before(first.value, e)))
  }

  lemma BeforeTransitive(a: PathError, b: PathError, c: PathError)
    requires Before(a, b) && Before(b, c)
    ensures Before(a, c)
  {
    if StringLess(a.path, b.path) && StringLess(b.path, c.path) {
      StringTransitive(a.path, b.path, c.path);
    }
  }

  /** Seeing one more error, or none, and considering it. */
  lemma BestGoesOn(rs: seq<Record>, e1: nat, l1: nat, r1: nat, e2: nat, l2: nat, r2: nat,
                   first: Option<PathError>, new_: Option<PathError>, next: Option<PathError>)
    requires Best(rs, e1, l1, r1, first)
    requires forall e :: Seen(rs, e2, l2, r2, e) <==> Seen(rs, e1, l1, r1, e) || new_ == Some(e)
    requires if new_.None? then next == first
             else next.Some? && (next == first || next == new_) && (next == new_ || Before(next.value, new_.value))
                  && (first.Some? ==> next == first || Before(next.value, first.value))
    ensures Best(rs, e2, l2, r2, next)
  {
    forall e | Seen(rs, e2, l2, r2, e) ensures next.Some? && (e == next.value || Before(next.value, e)) {
      if new_ != Some(e) && next != first && first.Some? && e != first.value {
        BeforeTransitive(next.value, first.value, e);
      }
    }
  }

  /** Finds the first error among sorted records. */
  method ValidateRecords(records: seq<Record>) returns (first: Option<PathError>)
    requires Sorted(records)
    ensures first.None? <==> Accepts(multiset(records))
    ensures first.Some? ==> First(multiset(records), first.value)
  {
    first := None;
    var k := 0;
    while k < |records|
      invariant k <= |records| && Best(records, k, 0, 0, first)
    {
      var before := first;
      ghost var found: Option<PathError> := None;
      if HasEmpty(records[k]) {
        found := Some(PathError(EmptySegment, Path(records[k])));
        first := Consider(first, PathError(EmptySegment, Path(records[k])));
      }
      SeenEmpty(records, k, found);
      BestGoesOn(records, k, 0, 0, k + 1, 0, 0, before, found, first);
      k := k + 1;
    }
    var left := 0;
    while left < |records|
      invariant left <= |records| && Best(records, |records|, left, 0, first)
    {
      first := ValidatePartners(records, left, first);
      SeenRow(records, left);
      BestGoesOn(records, |records|, left, |records|, |records|, left + 1, 0, first, None, first);
      left := left + 1;
    }
    SeenAll(records);
  }

  /** Compares one record with all behind it. */
  method ValidatePartners(records: seq<Record>, left: nat, first0: Option<PathError>) returns (first: Option<PathError>)
    requires Sorted(records) == true && left < |records| && Best(records, |records|, left, 0, first0) == true
    ensures Best(records, |records|, left, |records|, first) == true
  {
    first := first0;
    var right := left + 1;
    StartRow(records, left, first);
    while right < |records|
      invariant left < right <= |records| && Best(records, |records|, left, right, first) == true
    {
      first := ValidatePair(records, left, right, first);
      right := right + 1;
    }
  }

  method ValidatePair(records: seq<Record>, left: nat, right: nat, first0: Option<PathError>) returns (first: Option<PathError>)
    requires Sorted(records) == true && left < right < |records| && Best(records, |records|, left, right, first0) == true
    ensures Best(records, |records|, left, right + 1, first) == true
  {
    first := first0;
    var clash := ClashOf(records[left], records[right]);
    if clash.Some? {
      first := Consider(first, clash.value);
    }
    SeenPair(records, left, right);
    BestGoesOn(records, |records|, left, right, |records|, left, right + 1, first0, clash, first);
  }

  /** The source's comparison of two records in sorted order. */
  method ClashOf(left: Record, right: Record) returns (e: Option<PathError>)
    requires !RecordLess(right, left)
    ensures e == Clash(left, right)
  {
    if HasEmpty(left) || HasEmpty(right) {
      return None;
    }
    var common := CommonPrefix(left.parts, right.parts);
    if common == 0 {
      return None;
    }
    var leftComplete, rightComplete := common == |left.parts|, common == |right.parts|;
    if leftComplete && rightComplete {
      var kind := DuplicatePath;
      if RawPath(left) != RawPath(right) {
        kind := CaseCollision;
      }
      return Some(PathError(kind, Path(left)));
    }
    if leftComplete || rightComplete {
      var path := Path(left);
      if rightComplete {
        path := Path(right);
      }
      return Some(PathError(ShapeConflict, path));
    }
    return None;
  }

  lemma SeenEmpty(rs: seq<Record>, k: nat, found: Option<PathError>)
    requires k < |rs| && found == if HasEmpty(rs[k]) then Some(PathError(EmptySegment, Path(rs[k]))) else None
    ensures forall e :: Seen(rs, k + 1, 0, 0, e) <==> Seen(rs, k, 0, 0, e) || found == Some(e)
  {
  }

  lemma SeenStart(rs: seq<Record>, left: nat)
    requires left < |rs|
    ensures forall e :: Seen(rs, |rs|, left, left + 1, e) <==> Seen(rs, |rs|, left, 0, e)
  {
  }

  lemma StartRow(rs: seq<Record>, left: nat, first: Option<PathError>)
    requires left < |rs| && Best(rs, |rs|, left, 0, first)
    ensures Best(rs, |rs|, left, left + 1, first) == true
  {
    SeenStart(rs, left);
    BestGoesOn(rs, |rs|, left, 0, |rs|, left, left + 1, first, None, first);
  }

  lemma SeenPair(rs: seq<Record>, left: nat, right: nat)
    requires left < right < |rs|
    ensures forall e :: Seen(rs, |rs|, left, right + 1, e) <==> Seen(rs, |rs|, left, right, e) || Clash(rs[left], rs[right]) == Some(e)
  {
  }

  lemma SeenRow(rs: seq<Record>, left: nat)
    requires left < |rs|
    ensures forall e :: Seen(rs, |rs|, left + 1, 0, e) <==> Seen(rs, |rs|, left, |rs|, e)
  {
  }

  /** What the loops see is what there is, in whatever order. */
  lemma SeenAll(rs: seq<Record>)
    ensures forall e :: Seen(rs, |rs|, |rs|, 0, e) <==> Candidate(multiset(rs), e)
  {
    forall e ensures Seen(rs, |rs|, |rs|, 0, e) <==> Candidate(multiset(rs), e) {
      if Candidate(multiset(rs), e) {
        CandidateSeen(rs, e);
      }
      if Seen(rs, |rs|, |rs|, 0, e) {
        SeenCandidate(rs, e);
      }
    }
  }

  lemma Without<T>(s: seq<T>, i: nat)
    requires i < |s|
    ensures multiset(s) - multiset{s[i]} == multiset(s[..i] + s[i + 1..])
  {
    assert s == s[..i] + [s[i]] + s[i + 1..];
  }

  /** Two members of a collection sit at two places of the sequence. */
  lemma TwoPlaces<T>(s: seq<T>, a: T, b: T) returns (i: nat, j: nat)
    requires a in multiset(s) && b in multiset(s) - multiset{a}
    ensures i < |s| && j < |s| && i != j && s[i] == a && s[j] == b
  {
    i :| 0 <= i < |s| && s[i] == a;
    Without(s, i);
    var rest := s[..i] + s[i + 1..];
    assert b in rest;
    var k :| 0 <= k < |rest| && rest[k] == b;
    j := if k < i then k else k + 1;
  }

  lemma TwoMembers<T>(s: seq<T>, i: nat, j: nat)
    requires i < j < |s|
    ensures s[i] in multiset(s) && s[j] in multiset(s) - multiset{s[i]}
  {
    Without(s, i);
    var rest := s[..i] + s[i + 1..];
    assert rest[j - 1] == s[j];
    assert s[j] in rest;
  }

  lemma CandidateSeen(rs: seq<Record>, e: PathError)
    requires Candidate(multiset(rs), e)
    ensures Seen(rs, |rs|, |rs|, 0, e)
  {
    if r :| r in multiset(rs) && HasEmpty(r) && e == PathError(EmptySegment, Path(r)) {
      var i :| 0 <= i < |rs| && rs[i] == r;
    } else {
      var a, b :| a in multiset(rs) && b in multiset(rs) - multiset{a} && Clash(a, b) == Some(e);
      var i, j := TwoPlaces(rs, a, b);
      ClashSymmetric(a, b);
      PairSeen(rs, if i < j then i else j, if i < j then j else i, e);
    }
  }

  lemma PairSeen(rs: seq<Record>, i: nat, j: nat, e: PathError)
    requires i < j < |rs| && Clash(rs[i], rs[j]) == Some(e)
    ensures Seen(rs, |rs|, |rs|, 0, e)
  {
  }

  lemma SeenCandidate(rs: seq<Record>, e: PathError)
    requires Seen(rs, |rs|, |rs|, 0, e)
    ensures Candidate(multiset(rs), e)
  {
    if i :| 0 <= i < |rs| && HasEmpty(rs[i]) && e == PathError(EmptySegment, Path(rs[i])) {
      assert rs[i] in multiset(rs);
    } else {
      var i, j :| 0 <= i < j < |rs| && Clash(rs[i], rs[j]) == Some(e);
      TwoMembers(rs, i, j);
    }
  }

  /** Inserts accepted records one by one. */
  method BuildTree(records: seq<Record>) returns (out: map<string, Value>)
    requires Accepts(multiset(records)) && forall r | r in multiset(records) :: WellFormed(r)
    ensures TreeOf(out, multiset(records))
  {
    out := map[];
    assert TreeOf(out, multiset(records[..0])) by {
      EmptyMeansNoLeaf(Object(out));
    }
    for i := 0 to |records|
      invariant TreeOf(out, multiset(records[..i]))
    {
      assert records[..i + 1] == records[..i] + [records[i]];
      assert records == records[..i + 1] + records[i + 1..];
      InsertFits(out, multiset(records[..i]), records[i], multiset(records));
      out := Insert(out, records[i].parts, records[i].value).value;
    }
    assert records[..|records|] == records;
  }

  /** Loads the environment: parse, sort, validate, and only then build the tree. */
  method LoadEnvironment(prefix: string, entries: seq<string>) returns (l: Loaded)
    ensures LoadOf(multiset(ParseAll(prefix, entries)), l)
  {
    var records := ParseEntries(prefix, entries);
    assert forall r | r in multiset(records) :: WellFormed(r);
    var sorted := SortRecords(records);
    var first := ValidateRecords(sorted);
    if first.Some? {
      return Rejected(first.value);
    }
    var out := BuildTree(sorted);
    return Tree(out);
  }
}
