/** The imperative side of the default document: the writer that appends to one buffer, the
    validation loops, and the generation of the whole document. */
module ConfigWriter {
  import opened Wrappers
  import opened ConfigDocument
  import opened ConfigRoundTrip
  import opened ConfigDefaults
  import opened ConfigCandidate
  import opened ConfigNames
  import opened ConfigNumbers

  class JsonWriter {
    var output: string

    constructor ()
      ensures output == ""
    {
      output := "";
    }

    method WriteIndent(depth: nat)
      modifies this
      ensures output == old(output) + Indent(depth)
    {
      for i := 0 to depth
        invariant output + Indent(depth - i) == old(output) + Indent(depth)
      {
        assert output + ("  " + Indent(depth - i - 1)) == output + "  " + Indent(depth - i - 1);
        output := output + "  ";
      }
    }

    method WriteObject(fields: seq<Field>, depth: nat)
      modifies this
      ensures output == old(output) + PrintObject(fields, depth)
      decreases fields, 1
    {
      output := output + "{";
      if |fields| > 0 {
        output := output + "\n";
        WriteFields(fields, depth);
        WriteIndent(depth);
      }
      output := output + "}";
      FieldsText(old(output), fields, depth);
    }

    method WriteFields(fields: seq<Field>, depth: nat)
      modifies this
      ensures output == old(output) + PrintFields(fields, depth)
      decreases fields, 0
    {
      var index := 0;
      while index < |fields|
        invariant index <= |fields|
        invariant output + PrintFields(fields[index..], depth) == old(output) + PrintFields(fields, depth)
      {
        ghost var before := output;
        var field := fields[index];
        assert field in fields;
        WriteIndent(depth + 1);
        output := output + (Quote(field.name) + ": ");
        WriteValue(field.value, depth + 1);
        EndLine(before, Quote(field.name) + ": ", Print(field.value, depth + 1), index < |fields| - 1, depth);
        NextLine(before, output, fields, index, depth);
        index := index + 1;
      }
    }

    method WriteElements(es: seq<Value>, depth: nat)
      modifies this
      ensures output == old(output) + PrintElements(es, depth)
      decreases es, 0
    {
      var index := 0;
      while index < |es|
        invariant index <= |es|
        invariant output + PrintElements(es[index..], depth) == old(output) + PrintElements(es, depth)
      {
        ghost var before := output;
        WriteIndent(depth + 1);
        assert output == output + "";
        WriteValue(es[index], depth + 1);
        EndLine(before, "", Print(es[index], depth + 1), index < |es| - 1, depth);
        NextElement(before, output, es, index, depth);
        index := index + 1;
      }
    }

    /** The comma between two lines, and the newline. */
    method EndLine(ghost before: string, ghost name: string, ghost value: string, more: bool, ghost depth: nat)
      requires output == before + Indent(depth + 1) + name + value
      modifies this
      ensures output == before + Line(name, value, more, depth)
    {
      if more {
        output := output + ",";
      }
      output := output + "\n";
      LineIs(before, Indent(depth + 1), name, value, if more then "," else "");
      assert !more ==> before + Indent(depth + 1) + name + value + "" == before + Indent(depth + 1) + name + value;
    }

    method WriteValue(v: Value, depth: nat)
      modifies this
      ensures output == old(output) + Print(v, depth)
      decreases v, 2
    {
      match v
      case Text(t) => output := output + Quote(t);
      case Flag(b) => output := output + if b then "true" else "false";
      case Number(n) => output := output + n;
      case Nothing => output := output + "null";
      case Object(fields) => WriteObject(fields, depth);
      case List(es) => WriteList(es, depth);
    }

    method WriteList(es: seq<Value>, depth: nat)
      modifies this
      ensures output == old(output) + Print(List(es), depth)
      decreases es, 1
    {
      output := output + "[";
      if |es| > 0 {
        output := output + "\n";
        WriteElements(es, depth);
        WriteIndent(depth);
      }
      output := output + "]";
      ListText(old(output), es, depth);
    }
  }

  lemma FieldsText(before: string, fields: seq<Field>, depth: nat)
    ensures before + PrintObject(fields, depth) ==
              if fields == [] then before + "{" + "}" else before + "{" + "\n" + PrintFields(fields, depth) + Indent(depth) + "}"
  {
    Enclosed(before, "{", PrintFields(fields, depth), Indent(depth), "}");
  }

  lemma ListText(before: string, es: seq<Value>, depth: nat)
    ensures before + Print(List(es), depth) ==
              if es == [] then before + "[" + "]" else before + "[" + "\n" + PrintElements(es, depth) + Indent(depth) + "]"
  {
    Enclosed(before, "[", PrintElements(es, depth), Indent(depth), "]");
  }

  lemma LineIs(before: string, indent: string, name: string, value: string, comma: string)
    ensures before + indent + name + value + comma + "\n" == before + (indent + name + value + comma + "\n")
  {
    var x := indent + name + value;
    assert before + indent + name + value == before + x;
    assert before + x + comma + "\n" == before + (x + comma + "\n");
  }

  lemma Enclosed(before: string, open: string, inner: string, indent: string, close: string)
    ensures before + open + "\n" + inner + indent + close == before + ((open + "\n") + inner + indent + close)
    ensures before + open + close == before + (open + close)
  {
    assert before + open + "\n" == before + (open + "\n");
    assert before + (open + "\n") + inner + indent + close == before + ((open + "\n") + inner + indent + close);
  }

  lemma Shift(before: string, line: string, rest: string)
    ensures (before + line) + rest == before + (line + rest)
  {
  }

  lemma NextLine(before: string, output: string, fields: seq<Field>, index: nat, depth: nat)
    requires index < |fields|
    requires output == before + Line(Quote(fields[index].name) + ": ", Print(fields[index].value, depth + 1), index < |fields| - 1, depth)
    ensures output + PrintFields(fields[index + 1..], depth) == before + PrintFields(fields[index..], depth)
  {
    var rest := fields[index..];
    assert rest[0] == fields[index] && rest[1..] == fields[index + 1..];
    Shift(before, Line(Quote(rest[0].name) + ": ", Print(rest[0].value, depth + 1), |rest| > 1, depth), PrintFields(rest[1..], depth));
  }

  lemma NextElement(before: string, output: string, es: seq<Value>, index: nat, depth: nat)
    requires index < |es|
    requires output == before + Line("", Print(es[index], depth + 1), index < |es| - 1, depth)
    ensures output + PrintElements(es[index + 1..], depth) == before + PrintElements(es[index..], depth)
  {
    var rest := es[index..];
    assert rest[0] == es[index] && rest[1..] == es[index + 1..];
    Shift(before, Line("", Print(rest[0], depth + 1), |rest| > 1, depth), PrintElements(rest[1..], depth));
  }

  // Validation and generation -----------------------------------------------------------------------

  /** Rejects empty and repeated field names and malformed numbers, at every depth. */
  method ValidateFields(fields: seq<Field>) returns (ok: bool)
    ensures ok <==> ValidFields(fields)
    decreases fields, 0
  {
    var seen: set<string> := {};
    for i := 0 to |fields|
      invariant forall n :: n in seen <==> exists k :: 0 <= k < i && fields[k].name == n
      invariant ValidFields(fields[..i])
    {
      var field := fields[i];
      assert field in fields;
      if field.name == "" || field.name in seen {
        return false;
      }
      seen := seen + {field.name};
      var valid := ValidateValue(field.value);
      if !valid {
        return false;
      }
    }
    assert fields[..|fields|] == fields;
    return true;
  }

  method ValidateValue(v: Value) returns (ok: bool)
    ensures ok <==> ValidValue(v)
    decreases v, 1
  {
    match v
    case Number(n) => return NumberOk(n);
    case Object(fields) => ok := ValidateFields(fields);
    case List(es) =>
      for i := 0 to |es|
        invariant forall k | 0 <= k < i :: ValidValue(es[k])
      {
        ok := ValidateValue(es[i]);
        if !ok {
          return;
        }
      }
      return true;
    case _ => return true;
  }

  /** Asks every contract in order and inserts what it answers, unless one fails or answers
      defaults that are not valid. */
  method BuildRoot(bindings: seq<Binding>) returns (root: Option<Node>)
    ensures root.Some? <==> Answered(bindings)
    ensures root.Some? ==> root.value == Build(SectionsOf(bindings))
  {
    var node := EMPTY;
    for i := 0 to |bindings|
      invariant BuiltSoFar(bindings, i, node) == true
    {
      var answer := bindings[i].answer;
      if answer.None? {
        return None;
      }
      var valid := ValidateFields(answer.value);
      if !valid {
        return None;
      }
      BuildMore(bindings, i, node);
      node := Insert(node, bindings[i].path, answer.value);
    }
    assert bindings[..|bindings|] == bindings;
    return Some(node);
  }

  predicate BuiltSoFar(bindings: seq<Binding>, i: nat, node: Node)
    requires i <= |bindings|
  {
    node == Build(SectionsOf(bindings[..i])) && Answered(bindings[..i])
  }

  lemma BuildMore(bindings: seq<Binding>, i: nat, node: Node)
    requires i < |bindings| && BuiltSoFar(bindings, i, node)
    requires bindings[i].answer.Some? && ValidFields(bindings[i].answer.value)
    ensures BuiltSoFar(bindings, i + 1, Insert(node, bindings[i].path, bindings[i].answer.value)) == true
  {
    assert SectionsOf(bindings[..i + 1])[..i] == SectionsOf(bindings[..i]);
  }

  /** The check of the candidate's names, at every depth. */
  method CheckNames(d: Data) returns (ok: bool)
    ensures ok <==> CanonicalData(d)
    decreases d
  {
    match d
    case DObject(fields) =>
      ok := NamesApart(fields.Keys);
      var left := fields.Keys;
      while ok && left != {}
        invariant left <= fields.Keys && (ok ==> Apart(fields.Keys) && forall k | k in fields.Keys - left :: CanonicalData(fields[k]))
        invariant !ok ==> !CanonicalData(d)
        decreases left
      {
        var k :| k in left;
        ok := CheckNames(fields[k]);
        left := left - {k};
      }
    case DList(es) =>
      for i := 0 to |es|
        invariant forall k | 0 <= k < i :: CanonicalData(es[k])
      {
        ok := CheckNames(es[i]);
        if !ok {
          return;
        }
      }
      return true;
    case _ => return true;
  }

  /** The marshalling of the candidate, which refuses infinite numbers. */
  method CheckNumbers(d: Data) returns (ok: bool)
    ensures ok <==> Encodable(d)
    decreases d, 1
  {
    match d
    case DNumber(n) => ok := CanMarshal(n);
    case DObject(fields) => ok := CheckFields(fields);
    case DList(es) => ok := CheckElements(es);
    case _ => ok := true;
  }

  method CheckElements(es: seq<Data>) returns (ok: bool)
    ensures ok <==> forall i | 0 <= i < |es| :: Encodable(es[i])
    decreases DList(es), 0
  {
    for i := 0 to |es|
      invariant forall k | 0 <= k < i :: Encodable(es[k])
    {
      ok := CheckNumbers(es[i]);
      if !ok {
        return;
      }
    }
    return true;
  }

  method CheckFields(fields: map<string, Data>) returns (ok: bool)
    ensures ok <==> forall k | k in fields :: Encodable(fields[k])
    decreases DObject(fields), 0
  {
    var left := fields.Keys;
    while left != {}
      invariant left <= fields.Keys && forall k | k in fields.Keys - left :: Encodable(fields[k])
      decreases left
    {
      var k :| k in left;
      ok := CheckNumbers(fields[k]);
      if !ok {
        return;
      }
      left := left - {k};
    }
    return true;
  }

  /** Asks every validator for its verdict on the candidate. */
  method AskValidators(bindings: seq<Binding>) returns (ok: bool)
    ensures ok <==> Accepted(bindings)
  {
    for i := 0 to |bindings|
      invariant Accepted(bindings[..i])
    {
      if !bindings[i].accepts {
        return false;
      }
    }
    assert bindings[..|bindings|] == bindings;
    return true;
  }

  /** Builds, checks and prints the default document of bindings whose paths were validated. The
      document reads back, if at all, as a canonical tree with every binding's own defaults. */
  method Generate(bindings: seq<Binding>) returns (document: Option<string>)
    requires PathsOk(bindings)
    ensures document.Some? <==> Generates(bindings)
    ensures document.Some? ==>
              && document.value == Document(SectionsOf(bindings))
              && (ReadDocument(document.value).Some? <==> QuotableSections(SectionsOf(bindings)))
    ensures document.Some? && ReadDocument(document.value).Some? ==>
              var d := DObject(ReadDocument(document.value).value); CanonicalData(d) && EachHasItsOwn(bindings, d)
  {
    var root := Candidate(bindings);
    if root.None? {
      return None;
    }
    var text := WriteDocument(root.value);
    document := Some(text);
    GeneratedReadsBack(bindings);
  }

  /** The candidate of all bindings, checked in every respect. */
  method Candidate(bindings: seq<Binding>) returns (root: Option<Node>)
    ensures root.Some? <==> Generates(bindings)
    ensures root.Some? ==> root.value == Build(SectionsOf(bindings))
  {
    root := BuildRoot(bindings);
    if root.None? {
      return None;
    }
    var canonical := CheckNames(NodeData(root.value));
    if !canonical {
      return None;
    }
    var encodable := CheckNumbers(NodeData(root.value));
    if !encodable {
      return None;
    }
    var accepted := AskValidators(bindings);
    if !accepted {
      return None;
    }
  }

  method WriteDocument(root: Node) returns (text: string)
    ensures text == PrintObject(ObjectOf(root), 0) + "\n"
  {
    var writer := new JsonWriter();
    writer.WriteObject(ObjectOf(root), 0);
    assert "" + PrintObject(ObjectOf(root), 0) == PrintObject(ObjectOf(root), 0);
    return writer.output + "\n";
  }

  lemma {:induction false} GeneratedReadsBack(bindings: seq<Binding>)
    requires PathsOk(bindings) && Generates(bindings)
    ensures var r := ReadDocument(Document(SectionsOf(bindings)));
            && (r.Some? <==> QuotableSections(SectionsOf(bindings)))
            && (r.Some? ==> CanonicalData(DObject(r.value)) && EachHasItsOwn(bindings, DObject(r.value)))
  {
    DefaultsRoundTrip(SectionsOf(bindings));
    forall i | 0 <= i < |bindings| && ReadDocument(Document(SectionsOf(bindings))).Some?
      ensures Look(DObject(ReadDocument(Document(SectionsOf(bindings))).value), bindings[i].path)
              == Some(DObject(FieldsData(bindings[i].answer.value)))
    {
      assert SectionsOf(bindings)[i].path == bindings[i].path;
    }
  }

  /** Every binding's defaults are at its path. */
  predicate EachHasItsOwn(bindings: seq<Binding>, d: Data)
    requires Answered(bindings)
  {
    forall i | 0 <= i < |bindings| :: Look(d, bindings[i].path) == Some(DObject(FieldsData(bindings[i].answer.value)))
  }
}
