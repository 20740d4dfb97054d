/** The candidate that the defaults of all bindings make up, and what can be wrong with it. */
module ConfigCandidate {
  import opened Wrappers
  import opened ConfigDocument
  import opened ConfigDefaults
  import opened ConfigNames
  import opened ConfigNumbers
  import ConfigMerge

  /** At every depth, also inside lists, no name is blank and no siblings differ only in case. */
  predicate CanonicalData(d: Data) {
    match d
    case DObject(fields) => Apart(fields.Keys) && forall k | k in fields :: CanonicalData(fields[k])
    case DList(es) => forall i | 0 <= i < |es| :: CanonicalData(es[i])
    case _ => true
  }

  /** Every number in the tree can be marshalled for the digest of the snapshot. */
  predicate Encodable(d: Data) {
    match d
    case DNumber(n) => Marshals(n)
    case DObject(fields) => forall k | k in fields :: Encodable(fields[k])
    case DList(es) => forall i | 0 <= i < |es| :: Encodable(es[i])
    case _ => true
  }

  predicate FieldsEncodable(fields: seq<Field>) {
    forall i | 0 <= i < |fields| :: Encodable(DataOf(fields[i].value))
  }

  predicate NodeEncodable(n: Node) {
    FieldsEncodable(n.leaf) && forall i | 0 <= i < |n.children| :: NodeEncodable(n.children[i].node)
  }

  lemma {:induction false} FieldsDataEncodable(fields: seq<Field>)
    requires forall i, j | 0 <= i < j < |fields| :: fields[i].name != fields[j].name
    ensures Encodable(DObject(FieldsData(fields))) <==> FieldsEncodable(fields)
  {
    if fields != [] {
      FieldsDataEncodable(fields[1..]);
      NotAmong(fields[1..], fields[0].name);
      var first, rest, all := DataOf(fields[0].value), FieldsData(fields[1..]), FieldsData(fields);
      assert all == map[fields[0].name := first] + rest;
      assert forall k | k in rest :: k in all && all[k] == rest[k];
      assert fields[0].name in all && all[fields[0].name] == first;
      assert forall i | 0 < i < |fields| :: fields[i] == fields[1..][i - 1];
    }
  }

  lemma {:induction false} NotAmong(fields: seq<Field>, name: string)
    requires forall i | 0 <= i < |fields| :: fields[i].name != name
    ensures name !in FieldsData(fields)
  {
    if fields != [] {
      NotAmong(fields[1..], name);
    }
  }

  lemma {:induction false} InsertEncodable(n: Node, path: seq<string>, defaults: seq<Field>)
    requires NodeEncodable(n) && FieldsEncodable(defaults)
    ensures NodeEncodable(Insert(n, path, defaults))
    decreases |path|
  {
    if path != [] {
      var k := IndexOf(n.children, path[0]);
      InsertEncodable(if k < |n.children| then n.children[k].node else EMPTY, path[1..], defaults);
    }
  }

  lemma {:induction false} BuildEncodable(sections: seq<Section>)
    requires forall i | 0 <= i < |sections| :: FieldsEncodable(sections[i].defaults)
    ensures NodeEncodable(Build(sections))
  {
    if sections != [] {
      var n := |sections| - 1;
      assert forall i | 0 <= i < n :: sections[..n][i] == sections[i];
      BuildEncodable(sections[..n]);
      InsertEncodable(Build(sections[..n]), sections[n].path, sections[n].defaults);
    }
  }

  lemma {:induction false} ObjectEncodable(n: Node)
    requires NodeEncodable(n) && Proper(n)
    ensures FieldsEncodable(ObjectOf(n))
    decreases n, 1
  {
    ChildrenEncodable(n.children);
  }

  lemma {:induction false} ChildrenEncodable(children: seq<Child>)
    requires forall i | 0 <= i < |children| :: NodeEncodable(children[i].node) && Proper(children[i].node)
    ensures FieldsEncodable(ChildFields(children))
    decreases children, 0
  {
    if children != [] {
      var n := children[0].node;
      ObjectEncodable(n);
      ObjectValid(n);
      FieldsDataEncodable(ObjectOf(n));
      ChildrenEncodable(children[1..]);
      assert forall i | 0 < i < |children| :: ChildFields(children)[i] == ChildFields(children[1..])[i - 1];
    }
  }

  lemma {:induction false} EncodableAlong(d: Data, path: seq<string>)
    requires Encodable(d) && Look(d, path).Some?
    ensures Encodable(Look(d, path).value)
    decreases |path|
  {
    if path != [] {
      EncodableAlong(d.fields[path[0]], path[1..]);
    }
  }

  /** The candidate can be marshalled if and only if every number in every binding's defaults can. */
  lemma {:induction false} EncodableExactly(sections: seq<Section>)
    requires SectionsOk(sections)
    ensures Encodable(NodeData(Build(sections))) <==> forall i | 0 <= i < |sections| :: FieldsEncodable(sections[i].defaults)
  {
    var n := Build(sections);
    BuildFits(sections);
    ObjectValid(n);
    FieldsDataEncodable(ObjectOf(n));
    if forall i | 0 <= i < |sections| :: FieldsEncodable(sections[i].defaults) {
      BuildEncodable(sections);
      ObjectEncodable(n);
    }
    if Encodable(NodeData(n)) {
      forall i | 0 <= i < |sections| ensures FieldsEncodable(sections[i].defaults) {
        LookSection(n, sections, i);
        EncodableAlong(NodeData(n), sections[i].path);
        FieldsDataEncodable(sections[i].defaults);
      }
    }
  }

  /** What a binding contributes: its contract's defaults, none if the contract fails or aborts,
      and its validator's verdict on the whole candidate. */
  datatype Binding = Binding(path: seq<string>, answer: Option<seq<Field>>, accepts: bool)

  /** The paths passed the checks of the manager. */
  predicate PathsOk(bindings: seq<Binding>) {
    && (forall i | 0 <= i < |bindings| :: PathOk(bindings[i].path))
    && (forall i, j | 0 <= i < j < |bindings| :: !Overlap(bindings[i].path, bindings[j].path))
  }

  function SectionsOf(bindings: seq<Binding>): (sections: seq<Section>) {
    seq(|bindings|, i requires 0 <= i < |bindings| =>
      Section(bindings[i].path, if bindings[i].answer.Some? then bindings[i].answer.value else []))
  }

  /** Every contract answers with valid defaults. */
  predicate Answered(bindings: seq<Binding>) {
    forall i | 0 <= i < |bindings| :: bindings[i].answer.Some? && ValidFields(bindings[i].answer.value)
  }

  predicate Accepted(bindings: seq<Binding>) {
    forall i | 0 <= i < |bindings| :: bindings[i].accepts
  }

  /** The generation meets no error. */
  predicate Generates(bindings: seq<Binding>) {
    && Answered(bindings) && CanonicalData(NodeData(Build(SectionsOf(bindings))))
    && Encodable(NodeData(Build(SectionsOf(bindings)))) && Accepted(bindings)
  }

  const COLLIDING := [Binding(["a"], Some([]), true), Binding(["A"], Some([]), true)]

  lemma CollidingPathsOk()
    ensures PathsOk(COLLIDING) && Answered(COLLIDING) && SectionsOk(SectionsOf(COLLIDING))
  {
    var p, q := ["a"], ["A"];
    assert "a"[0] != "A"[0] && !Space("a"[0]) && !Space("A"[0]);
    assert p[0] != q[0] && !Overlap(p, q) && PathOk(p) && PathOk(q);
    assert COLLIDING[0].path == p && COLLIDING[1].path == q;
  }

  lemma NotCanonical(d: Data, a: string, b: string)
    requires d.DObject? && a in d.fields && b in d.fields && a != b && ConfigMerge.EqualFold(a, b)
    ensures !CanonicalData(d)
  {
  }

  /** A binding at a path of one segment shows under that name. */
  lemma ShowsUnderItsName(sections: seq<Section>, i: nat, name: string)
    requires SectionsOk(sections) && i < |sections| && sections[i].path == [name]
    ensures name in NodeData(Build(sections)).fields
  {
    BuildFits(sections);
    LookSection(Build(sections), sections, i);
  }

  /** Valid defaults at paths that do not overlap are not enough: two paths may differ only in case. */
  lemma {:induction false} CaseCollisionRefused()
    ensures PathsOk(COLLIDING) && Answered(COLLIDING) && Accepted(COLLIDING) && !Generates(COLLIDING)
  {
    CollidingPathsOk();
    var sections := SectionsOf(COLLIDING);
    assert sections[0].path == ["a"] && sections[1].path == ["A"];
    ShowsUnderItsName(sections, 0, "a");
    ShowsUnderItsName(sections, 1, "A");
    assert "a"[0] != "A"[0] && ConfigMerge.Fold("a") == ConfigMerge.Fold("A");
    NotCanonical(NodeData(Build(sections)), "a", "A");
  }

  const INFINITE := [Binding(["a"], Some([Field("x", Number("1e999"))]), true)]

  lemma InfiniteOk()
    ensures PathsOk(INFINITE) && Answered(INFINITE) && SectionsOk(SectionsOf(INFINITE)) && Accepted(INFINITE)
  {
    var p, s := ["a"], "1e999";
    assert "a"[0] == 'a' && !Space("a"[0]) && PathOk(p);
    assert INFINITE[0].path == p;
    assert s[..1] == "1" && s[1..] == "e999" && "e999"[1..] == "999" && Digits("1") && Digits("999");
    assert ExponentOk(s[1..]) && IntegerOk(s);
  }

  /** The tree of that binding. */
  lemma InfiniteTree()
    ensures NodeData(Build(SectionsOf(INFINITE))) == DObject(map["a" := DObject(map["x" := DNumber("1e999")])])
  {
    var defaults := [Field("x", Number("1e999"))];
    var leaf := Node([], defaults);
    assert SectionsOf(INFINITE) == [Section(["a"], defaults)];
    assert [Section(["a"], defaults)][..0] == [];
    assert ["a"][1..] == [];
    assert Build([Section(["a"], defaults)]) == Node([Child("a", leaf)], []);
    var children := [Child("a", leaf)];
    assert ObjectOf(leaf) == defaults && children[1..] == [];
    assert ChildFields(children) == [Field("a", Object(defaults))];
    assert ObjectOf(Node(children, [])) == ChildFields(children);
    OneField(defaults[0]);
    OneField(Field("a", Object(defaults)));
  }

  lemma OneField(f: Field)
    ensures FieldsData([f]) == map[f.name := DataOf(f.value)]
  {
    assert [f][1..] == [];
  }

  lemma InfiniteCanonical()
    ensures CanonicalData(NodeData(Build(SectionsOf(INFINITE))))
  {
    InfiniteTree();
    var inner := map["x" := DNumber("1e999")];
    var outer := map["a" := DObject(inner)];
    assert inner.Keys == {"x"} && outer.Keys == {"a"} && "a"[0] == 'a' && "x"[0] == 'x';
    assert CanonicalData(DObject(inner));
  }

  /** Canonical names are not enough either: a number that the validation accepts may overflow. */
  lemma {:induction false} InfiniteNumberRefused()
    ensures PathsOk(INFINITE) && Answered(INFINITE) && Accepted(INFINITE) && !Generates(INFINITE)
    ensures CanonicalData(NodeData(Build(SectionsOf(INFINITE))))
  {
    InfiniteOk();
    InfiniteCanonical();
    EncodableExactly(SectionsOf(INFINITE));
    InfiniteDefaults(SectionsOf(INFINITE)[0].defaults);
  }

  lemma InfiniteDefaults(defaults: seq<Field>)
    requires defaults == [Field("x", Number("1e999"))]
    ensures !FieldsEncodable(defaults)
  {
    HugeOverflows();
    assert DataOf(defaults[0].value) == DNumber("1e999");
  }
}
