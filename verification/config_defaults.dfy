/** The default document: every capability's defaults go to its configuration path in one tree,
    and the printed tree, read back, gives every capability exactly its own defaults. */
module ConfigDefaults {
  import opened Wrappers
  import opened ConfigDocument
  import opened ConfigRoundTrip
  import opened ConfigNames
  import ConfigMerge

  // Bindings ------------------------------------------------------------------------------------

  /** A capability's path, split into segments, and its default object. */
  datatype Section = Section(path: seq<string>, defaults: seq<Field>)

  predicate Overlap(a: seq<string>, b: seq<string>) {
    a <= b || b <= a
  }

  /** No segment is blank. */
  predicate PathOk(path: seq<string>) {
    path != [] && forall i | 0 <= i < |path| :: Trim(path[i]) != ""
  }

  /** Paths are proper and no one lies on another. */
  predicate SectionsOk(sections: seq<Section>) {
    && (forall i | 0 <= i < |sections| :: PathOk(sections[i].path) && ValidFields(sections[i].defaults))
    && (forall i, j | 0 <= i < j < |sections| :: !Overlap(sections[i].path, sections[j].path))
  }

  /** The source compares segment by segment up to the shorter path. */
  method PathsOverlap(left: seq<string>, right: seq<string>) returns (r: bool)
    ensures r <==> Overlap(left, right)
  {
    var limit := if |left| < |right| then |left| else |right|;
    for i := 0 to limit
      invariant left[..i] == right[..i]
    {
      if left[i] != right[i] {
        assert !(left <= right) && !(right <= left);
        return false;
      }
    }
    return true;
  }

  /** Checks a new path against all before it, binding by binding. */
  method ValidatePaths(paths: seq<seq<string>>) returns (ok: bool)
    ensures ok <==> (forall i | 0 <= i < |paths| :: PathOk(paths[i])) && forall i, j | 0 <= i < j < |paths| :: !Overlap(paths[i], paths[j])
  {
    for j := 0 to |paths|
      invariant forall i | 0 <= i < j :: PathOk(paths[i])
      invariant forall i, k | 0 <= i < k < j :: !Overlap(paths[i], paths[k])
    {
      if paths[j] == [] {
        return false;
      }
      for i := 0 to |paths[j]|
        invariant forall k | 0 <= k < i :: Trim(paths[j][k]) != ""
      {
        if Trim(paths[j][i]) == "" {
          return false;
        }
      }
      for i := 0 to j
        invariant forall k | 0 <= k < i :: !Overlap(paths[k], paths[j])
      {
        var overlap := PathsOverlap(paths[i], paths[j]);
        if overlap {
          return false;
        }
      }
    }
    return true;
  }

  // The tree ------------------------------------------------------------------------------------

  datatype Node = Node(children: seq<Child>, leaf: seq<Field>)
  datatype Child = Child(name: string, node: Node)

  const EMPTY := Node([], [])

  function IndexOf(children: seq<Child>, name: string): (k: nat)
    ensures k <= |children| && (k < |children| ==> children[k].name == name)
    ensures forall i | 0 <= i < k :: children[i].name != name
  {
    if children == [] || children[0].name == name then 0 else 1 + IndexOf(children[1..], name)
  }

  function Insert(n: Node, path: seq<string>, defaults: seq<Field>): Node
    decreases |path|
  {
    if path == [] then n.(leaf := defaults)
    else
      var k := IndexOf(n.children, path[0]);
      if k < |n.children|
      then n.(children := n.children[k := Child(path[0], Insert(n.children[k].node, path[1..], defaults))])
      else n.(children := n.children + [Child(path[0], Insert(EMPTY, path[1..], defaults))])
  }

  /** An object without fields leaves no leaf behind, and then the node is its children. */
  function ObjectOf(n: Node): seq<Field>
    decreases n, 1
  {
    if n.leaf != [] then n.leaf else ChildFields(n.children)
  }

  function ChildFields(children: seq<Child>): (fields: seq<Field>)
    ensures |fields| == |children| && forall i | 0 <= i < |fields| :: fields[i].name == children[i].name
    decreases children, 0
  {
    if children == [] then []
    else [Field(children[0].name, Object(ObjectOf(children[0].node)))] + ChildFields(children[1..])
  }

  function Build(sections: seq<Section>): Node {
    if sections == [] then EMPTY
    else Insert(Build(sections[..|sections| - 1]), sections[|sections| - 1].path, sections[|sections| - 1].defaults)
  }

  // Looking into data ---------------------------------------------------------------------------

  function Look(d: Data, path: seq<string>): Option<Data>
    decreases |path|
  {
    if path == [] then Some(d)
    else if !d.DObject? || path[0] !in d.fields then None
    else Look(d.fields[path[0]], path[1..])
  }

  function NodeData(n: Node): Data {
    DObject(FieldsData(ObjectOf(n)))
  }

  /** The node a path leads to. */
  function NodeAt(n: Node, path: seq<string>): Option<Node>
    decreases |path|
  {
    if path == [] then Some(n)
    else
      var k := IndexOf(n.children, path[0]);
      if k < |n.children| then NodeAt(n.children[k].node, path[1..]) else None
  }

  lemma {:induction false} IndexIs(children: seq<Child>, name: string, k: nat)
    requires k < |children| && children[k].name == name && forall i | 0 <= i < k :: children[i].name != name
    ensures IndexOf(children, name) == k
  {
  }

  lemma {:induction false} IndexNone(children: seq<Child>, name: string)
    requires forall i | 0 <= i < |children| :: children[i].name != name
    ensures IndexOf(children, name) == |children|
  {
  }

  /** The child an insertion goes into, before and after. */
  lemma {:induction false} InsertChild(n: Node, path: seq<string>, defaults: seq<Field>)
    requires path != []
    ensures var n' := Insert(n, path, defaults);
            var k, k' := IndexOf(n.children, path[0]), IndexOf(n'.children, path[0]);
            && n'.leaf == n.leaf && k' == k < |n'.children|
            && n'.children[k].node == Insert(if k < |n.children| then n.children[k].node else EMPTY, path[1..], defaults)
            && forall name :: name != path[0] ==>
                 var j, j' := IndexOf(n.children, name), IndexOf(n'.children, name);
                 (j < |n.children| <==> j' < |n'.children|) && (j < |n.children| ==> j' == j && n'.children[j] == n.children[j])
  {
    var n' := Insert(n, path, defaults);
    var k := IndexOf(n.children, path[0]);
    IndexIs(n'.children, path[0], k);
    forall name | name != path[0]
      ensures var j, j' := IndexOf(n.children, name), IndexOf(n'.children, name);
              (j < |n.children| <==> j' < |n'.children|) && (j < |n.children| ==> j' == j && n'.children[j] == n.children[j])
    {
      var j := IndexOf(n.children, name);
      if j < |n.children| {
        IndexIs(n'.children, name, j);
      } else {
        IndexNone(n'.children, name);
      }
    }
  }

  /** Inserting at a free path adds the nodes on the way and one leaf, and moves nothing else. */
  lemma {:induction false} InsertAt(n: Node, p: seq<string>, defaults: seq<Field>, q: seq<string>)
    requires NodeAt(n, p).None? || n == EMPTY
    ensures var n' := Insert(n, p, defaults);
            if !Overlap(p, q) then NodeAt(n', q) == NodeAt(n, q)
            else if q == p then NodeAt(n', q) == Some(Node([], defaults))
            else if p <= q then NodeAt(n', q).None?
            else NodeAt(n', q).Some? && NodeAt(n', q).value.leaf == (if NodeAt(n, q).Some? then NodeAt(n, q).value.leaf else [])
    decreases |p|
  {
    if p == [] {
      if q != [] {
        IndexNone([], q[0]);
      }
    } else if q != [] {
      InsertChild(n, p, defaults);
      if q[0] == p[0] {
        var k := IndexOf(n.children, p[0]);
        assert p == [p[0]] + p[1..] && q == [q[0]] + q[1..];
        assert p <= q <==> p[1..] <= q[1..];
        assert q <= p <==> q[1..] <= p[1..];
        InsertAt(if k < |n.children| then n.children[k].node else EMPTY, p[1..], defaults, q[1..]);
        if k == |n.children| && q[1..] != [] {
          IndexNone([], q[1..][0]);
        }
      }
    }
  }

  // The tree of the bindings ---------------------------------------------------------------------

  /** Every binding's defaults are at its path, and every node is on the way to some binding. */
  ghost predicate Fits(n: Node, sections: seq<Section>) {
    && (forall i | 0 <= i < |sections| :: NodeAt(n, sections[i].path) == Some(Node([], sections[i].defaults)))
    && (forall q | NodeAt(n, q).Some? && q != [] :: exists i :: 0 <= i < |sections| && q <= sections[i].path)
    && (forall q | NodeAt(n, q).Some? && NodeAt(n, q).value.leaf != [] :: exists i :: 0 <= i < |sections| && q == sections[i].path)
  }

  predicate Proper(n: Node) {
    && ValidFields(n.leaf)
    && (forall i | 0 <= i < |n.children| :: n.children[i].name != "" && Proper(n.children[i].node))
    && (forall i, j | 0 <= i < j < |n.children| :: n.children[i].name != n.children[j].name)
  }

  lemma {:induction false} InsertProper(n: Node, path: seq<string>, defaults: seq<Field>)
    requires Proper(n) && ValidFields(defaults) && forall i | 0 <= i < |path| :: path[i] != ""
    ensures Proper(Insert(n, path, defaults))
    decreases |path|
  {
    if path != [] {
      var k := IndexOf(n.children, path[0]);
      InsertProper(if k < |n.children| then n.children[k].node else EMPTY, path[1..], defaults);
    }
  }

  lemma EmptyFits()
    ensures Fits(EMPTY, []) && Proper(EMPTY)
  {
    forall q | q != [] ensures NodeAt(EMPTY, q).None? {
      IndexNone([], q[0]);
    }
  }

  lemma FrontOk(sections: seq<Section>, n: nat)
    requires SectionsOk(sections) && n + 1 == |sections|
    ensures SectionsOk(sections[..n]) && sections[..n] + [sections[n]] == sections
    ensures forall i | 0 <= i < n :: !Overlap(sections[..n][i].path, sections[n].path)
  {
  }

  lemma {:induction false} BuildFits(sections: seq<Section>)
    requires SectionsOk(sections)
    ensures Fits(Build(sections), sections) && Proper(Build(sections)) && Build(sections).leaf == []
  {
    if sections == [] {
      EmptyFits();
    } else {
      var n := |sections| - 1;
      var front, last := sections[..n], sections[n];
      FrontOk(sections, n);
      BuildFits(front);
      FreePath(Build(front), front, last);
      InsertProper(Build(front), last.path, last.defaults);
      InsertFits(Build(front), front, last);
    }
  }

  lemma FreePath(n: Node, front: seq<Section>, last: Section)
    requires Fits(n, front) && PathOk(last.path) && forall i | 0 <= i < |front| :: !Overlap(front[i].path, last.path)
    ensures NodeAt(n, last.path).None?
  {
  }

  lemma {:induction false} InsertFits(n: Node, front: seq<Section>, last: Section)
    requires Fits(n, front) && NodeAt(n, last.path).None? && PathOk(last.path) && n.leaf == []
    requires forall i | 0 <= i < |front| :: !Overlap(front[i].path, last.path)
    ensures Fits(Insert(n, last.path, last.defaults), front + [last]) && Insert(n, last.path, last.defaults).leaf == []
  {
    var n' := Insert(n, last.path, last.defaults);
    var all := front + [last];
    assert all[|front|] == last;
    assert forall i | 0 <= i < |front| :: all[i] == front[i];
    InsertChild(n, last.path, last.defaults);
    forall i | 0 <= i < |all| ensures NodeAt(n', all[i].path) == Some(Node([], all[i].defaults)) {
      InsertAt(n, last.path, last.defaults, all[i].path);
    }
    forall q | NodeAt(n', q).Some? && q != [] ensures exists i :: 0 <= i < |all| && q <= all[i].path {
      InsertAt(n, last.path, last.defaults, q);
      if !Overlap(last.path, q) {
        var i :| 0 <= i < |front| && q <= front[i].path;
        assert q <= all[i].path;
      } else {
        assert q <= all[|front|].path;
      }
    }
    forall q | NodeAt(n', q).Some? && NodeAt(n', q).value.leaf != [] ensures exists i :: 0 <= i < |all| && q == all[i].path {
      InsertAt(n, last.path, last.defaults, q);
      if q != last.path {
        var i :| 0 <= i < |front| && q == front[i].path;
        assert q == all[i].path;
      } else {
        assert q == all[|front|].path;
      }
    }
  }

  // From nodes to data ---------------------------------------------------------------------------

  lemma {:induction false} ChildData(children: seq<Child>, name: string)
    requires forall i, j | 0 <= i < j < |children| :: children[i].name != children[j].name
    ensures var k, m := IndexOf(children, name), FieldsData(ChildFields(children));
            (name in m <==> k < |children|) && (name in m ==> m[name] == NodeData(children[k].node))
  {
    if children != [] {
      var c := children[0];
      assert ChildFields(children) == [Field(c.name, Object(ObjectOf(c.node)))] + ChildFields(children[1..]);
      assert ChildFields(children)[1..] == ChildFields(children[1..]);
      ChildData(children[1..], name);
      if name == c.name {
        assert forall i | 0 <= i < |children[1..]| :: children[1..][i].name != name;
        IndexNone(children[1..], name);
      }
    }
  }

  lemma {:induction false} ObjectValid(n: Node)
    requires Proper(n)
    ensures ValidFields(ObjectOf(n))
    decreases n, 1
  {
    ChildrenValid(n.children);
  }

  lemma {:induction false} ChildrenValid(children: seq<Child>)
    requires forall i | 0 <= i < |children| :: children[i].name != "" && Proper(children[i].node)
    requires forall i, j | 0 <= i < j < |children| :: children[i].name != children[j].name
    ensures ValidFields(ChildFields(children))
    decreases children, 0
  {
    if children != [] {
      ObjectValid(children[0].node);
      ChildrenValid(children[1..]);
    }
  }

  /** Looking into the document goes along the nodes, as long as no defaults are in the way. */
  lemma {:induction false} LookNode(n: Node, q: seq<string>)
    requires Proper(n) && NodeAt(n, q).Some?
    requires forall r | r < q && NodeAt(n, r).Some? :: NodeAt(n, r).value.leaf == []
    ensures Look(NodeData(n), q) == Some(NodeData(NodeAt(n, q).value))
    decreases |q|
  {
    if q != [] {
      var k := IndexOf(n.children, q[0]);
      assert [] < q && NodeAt(n, []) == Some(n);
      ChildData(n.children, q[0]);
      forall r | r < q[1..] && NodeAt(n.children[k].node, r).Some? ensures NodeAt(n.children[k].node, r).value.leaf == [] {
        Deeper(n, q, r, k);
      }
      LookNode(n.children[k].node, q[1..]);
    }
  }

  lemma Deeper(n: Node, q: seq<string>, r: seq<string>, k: nat)
    requires q != [] && k == IndexOf(n.children, q[0]) && k < |n.children| && r <= q[1..]
    ensures [q[0]] + r <= q && (r < q[1..] ==> [q[0]] + r < q)
    ensures NodeAt(n, [q[0]] + r) == NodeAt(n.children[k].node, r)
  {
    assert ([q[0]] + r)[1..] == r;
    assert q == [q[0]] + q[1..];
  }

  /** Some binding's defaults are kept at path `r`. */
  predicate DefaultsAt(n: Node, r: seq<string>) {
    NodeAt(n, r).Some? && NodeAt(n, r).value.leaf != []
  }

  /** Whatever the document has is on the way to, or inside, some binding's defaults. */
  lemma {:induction false} LookOnly(n: Node, q: seq<string>)
    requires Proper(n) && Look(NodeData(n), q).Some?
    ensures NodeAt(n, q).Some? || exists r :: r <= q && DefaultsAt(n, r)
    decreases |q|
  {
    if q != [] {
      if n.leaf != [] {
        var r := q[..0];
        assert r <= q && DefaultsAt(n, r);
      } else {
        var k := IndexOf(n.children, q[0]);
        ChildData(n.children, q[0]);
        LookOnly(n.children[k].node, q[1..]);
        if NodeAt(n, q).None? {
          var r :| r <= q[1..] && DefaultsAt(n.children[k].node, r);
          Deeper(n, q, r, k);
          assert DefaultsAt(n, [q[0]] + r);
        }
      }
    }
  }

  // The round trip -------------------------------------------------------------------------------

  function Document(sections: seq<Section>): string {
    PrintObject(ObjectOf(Build(sections)), 0) + "\n"
  }

  predicate QuotableSections(sections: seq<Section>) {
    forall i | 0 <= i < |sections| ::
      QuotableFields(sections[i].defaults) && forall k | 0 <= k < |sections[i].path| :: QuotableText(sections[i].path[k])
  }

  predicate QuotableNode(n: Node) {
    QuotableFields(n.leaf) && forall i | 0 <= i < |n.children| :: QuotableText(n.children[i].name) && QuotableNode(n.children[i].node)
  }

  lemma {:induction false} InsertQuotable(n: Node, path: seq<string>, defaults: seq<Field>)
    requires QuotableNode(n) && QuotableFields(defaults) && forall i | 0 <= i < |path| :: QuotableText(path[i])
    ensures QuotableNode(Insert(n, path, defaults))
    decreases |path|
  {
    if path != [] {
      var k := IndexOf(n.children, path[0]);
      InsertQuotable(if k < |n.children| then n.children[k].node else EMPTY, path[1..], defaults);
    }
  }

  lemma {:induction false} BuildQuotable(sections: seq<Section>)
    requires QuotableSections(sections)
    ensures QuotableNode(Build(sections))
  {
    if sections != [] {
      var n := |sections| - 1;
      assert forall i | 0 <= i < n :: sections[..n][i] == sections[i];
      BuildQuotable(sections[..n]);
      InsertQuotable(Build(sections[..n]), sections[n].path, sections[n].defaults);
    }
  }

  lemma {:induction false} ObjectQuotable(n: Node)
    requires QuotableNode(n)
    ensures QuotableFields(ObjectOf(n))
    decreases n, 1
  {
    ChildrenQuotable(n.children);
  }

  lemma {:induction false} ChildrenQuotable(children: seq<Child>)
    requires forall i | 0 <= i < |children| :: QuotableText(children[i].name) && QuotableNode(children[i].node)
    ensures QuotableFields(ChildFields(children))
    decreases children, 0
  {
    if children != [] {
      ObjectQuotable(children[0].node);
      ChildrenQuotable(children[1..]);
      FirstQuotable(ChildFields(children));
      assert ChildFields(children)[1..] == ChildFields(children[1..]);
    }
  }

  lemma {:induction false} ChildField(children: seq<Child>, k: nat)
    requires k < |children|
    ensures ChildFields(children)[k] == Field(children[k].name, Object(ObjectOf(children[k].node)))
  {
    if k > 0 {
      ChildField(children[1..], k - 1);
    }
  }

  /** What is readable as a whole is readable along every path. */
  lemma {:induction false} QuotableAlong(n: Node, q: seq<string>)
    requires QuotableFields(ObjectOf(n)) && NodeAt(n, q).Some?
    requires forall r | r < q && NodeAt(n, r).Some? :: NodeAt(n, r).value.leaf == []
    ensures QuotableFields(ObjectOf(NodeAt(n, q).value)) && forall i | 0 <= i < |q| :: QuotableText(q[i])
    decreases |q|
  {
    if q != [] {
      var k := IndexOf(n.children, q[0]);
      assert [] < q && NodeAt(n, []) == Some(n);
      ChildField(n.children, k);
      var f := ObjectOf(n)[k];
      assert QuotableText(f.name) && QuotableValue(f.value);
      forall r | r < q[1..] && NodeAt(n.children[k].node, r).Some? ensures NodeAt(n.children[k].node, r).value.leaf == [] {
        Deeper(n, q, r, k);
      }
      QuotableAlong(n.children[k].node, q[1..]);
      assert forall i | 0 < i < |q| :: q[i] == q[1..][i - 1];
    }
  }

  /** The whole document is readable exactly if every path and all defaults are. */
  lemma {:induction false} QuotableExactly(sections: seq<Section>)
    requires SectionsOk(sections)
    ensures QuotableFields(ObjectOf(Build(sections))) <==> QuotableSections(sections)
  {
    var n := Build(sections);
    BuildFits(sections);
    if QuotableSections(sections) {
      BuildQuotable(sections);
      ObjectQuotable(n);
    }
    if QuotableFields(ObjectOf(n)) {
      forall i | 0 <= i < |sections|
        ensures QuotableFields(sections[i].defaults) && forall k | 0 <= k < |sections[i].path| :: QuotableText(sections[i].path[k])
      {
        NothingAbove(n, sections, i);
        QuotableAlong(n, sections[i].path);
      }
    }
  }

  /** The printed default document can be read back exactly if every text in it can. Then it has at
      every binding's path exactly that binding's defaults, and nothing that is not on the way to
      or inside some binding's. */
  lemma {:induction false} DefaultsRoundTrip(sections: seq<Section>)
    requires SectionsOk(sections)
    ensures ReadDocument(Document(sections)).Some? <==> QuotableSections(sections)
    ensures var r := ReadDocument(Document(sections));
            r.Some? ==>
              && DObject(r.value) == NodeData(Build(sections))
              && (forall i | 0 <= i < |sections| :: Look(DObject(r.value), sections[i].path) == Some(DObject(FieldsData(sections[i].defaults))))
              && (forall q | Look(DObject(r.value), q).Some? && q != [] :: exists i :: 0 <= i < |sections| && Overlap(q, sections[i].path))
  {
    var n := Build(sections);
    BuildFits(sections);
    ObjectValid(n);
    QuotableExactly(sections);
    DocumentRoundTrip(ObjectOf(n));
    forall i | 0 <= i < |sections| ensures Look(NodeData(n), sections[i].path) == Some(DObject(FieldsData(sections[i].defaults))) {
      LookSection(n, sections, i);
    }
    forall q | Look(NodeData(n), q).Some? && q != [] ensures exists i :: 0 <= i < |sections| && Overlap(q, sections[i].path) {
      LookOnly(n, q);
      if NodeAt(n, q).None? {
        var r :| r <= q && DefaultsAt(n, r);
        var i :| 0 <= i < |sections| && r == sections[i].path;
        assert Overlap(q, sections[i].path);
      }
    }
  }

  /** No defaults are kept above a binding's path. */
  lemma NothingAbove(n: Node, sections: seq<Section>, i: nat)
    requires SectionsOk(sections) && Fits(n, sections) && i < |sections|
    ensures forall r | r < sections[i].path && NodeAt(n, r).Some? :: NodeAt(n, r).value.leaf == []
  {
    forall r | r < sections[i].path && NodeAt(n, r).Some? ensures NodeAt(n, r).value.leaf == [] {
      NotABinding(sections, i, r);
    }
  }

  lemma NotABinding(sections: seq<Section>, i: nat, r: seq<string>)
    requires SectionsOk(sections) && i < |sections| && r < sections[i].path
    ensures !exists j :: 0 <= j < |sections| && r == sections[j].path
  {
    forall j | 0 <= j < |sections| && j != i ensures r != sections[j].path {
      assert !Overlap(sections[if i < j then i else j].path, sections[if i < j then j else i].path);
    }
  }

  lemma LookSection(n: Node, sections: seq<Section>, i: nat)
    requires SectionsOk(sections) && Fits(n, sections) && Proper(n) && i < |sections|
    ensures Look(NodeData(n), sections[i].path) == Some(DObject(FieldsData(sections[i].defaults)))
  {
    NothingAbove(n, sections, i);
    LookNode(n, sections[i].path);
  }
}
