/** What the writer prints, the reader reads back. */
module ConfigRoundTrip {
  import opened Wrappers
  import opened ConfigDocument
  import opened ConfigPrintable

  // Concatenation ---------------------------------------------------------------------------------

  lemma Regroup(s: string, n: string, i: string, q: string, v: string, c: string, p: string, d: string, e: string, r: string)
    ensures (s + n) + (i + q + v + c + n + p) + d + e + r == s + (n + i) + q + v + ((c + n) + p + d + e + r)
  {
    var x := (c + n) + p;
    var y := i + q + v;
    assert i + q + v + c + n + p == y + x;
    assert (s + n) + (y + x) + d + e + r == ((s + n) + y) + (x + d + e + r);
    assert s + (n + i) + q + v == (s + n) + y;
  }

  lemma Split(sep: string, blanks: string, name: string, o: string, text: string, after: string)
    ensures sep + blanks + (name + o) + text + after == sep + (blanks + (name + (o + text + after)))
  {
    assert sep + blanks + (name + o) + text + after == (sep + blanks + name) + (o + text + after);
  }

  // Tokens --------------------------------------------------------------------------------------

  lemma {:induction false} SkipBlanks(blanks: string, s: string)
    requires forall i | 0 <= i < |blanks| :: Blank(blanks[i])
    ensures Skip(blanks + s) == Skip(s)
  {
    if blanks != "" {
      assert (blanks + s)[1..] == blanks[1..] + s;
      SkipBlanks(blanks[1..], s);
    } else {
      assert blanks + s == s;
    }
  }

  lemma {:induction false} LastDigit(n: nat, digits: nat)
    requires digits > 0
    ensures Hex(n, digits) == Hex(n / 16, digits - 1) + [HexDigit(n % 16)]
  {
  }

  /** The digits of a code of the basic plane, from the last. */
  lemma Sixteenths(n: nat) returns (a: nat, b: nat, c: nat)
    requires n < 0x10000
    ensures a == n / 16 && b == a / 16 && c == b / 16 && c < 16
    ensures ((c * 16 + b % 16) * 16 + a % 16) * 16 + n % 16 == n
  {
    a := n / 16;
    b := a / 16;
    c := b / 16;
    assert n == 16 * a + n % 16 && a == 16 * b + a % 16 && b == 16 * c + b % 16;
  }

  lemma FourDigits(n: nat, a: nat, b: nat, c: nat)
    requires a == n / 16 && b == a / 16 && c == b / 16 && c < 16
    ensures Hex(n, 4) == [HexDigit(c), HexDigit(b % 16), HexDigit(a % 16), HexDigit(n % 16)]
  {
    LastDigit(n, 4);
    LastDigit(a, 3);
    LastDigit(b, 2);
    LastDigit(c, 1);
    assert c % 16 == c && Hex(c / 16, 0) == "";
  }

  lemma UnescapeCode(c: char, s: string)
    requires c <= '\U{FFFF}'
    ensures Unescape("u" + Hex(c as nat, 4) + s) == Some((c, s))
  {
    var n := c as nat;
    var x, y, z := Sixteenths(n);
    FourDigits(n, x, y, z);
    var u := "u" + Hex(n, 4) + s;
    assert u[0] == 'u' && u[1] == HexDigit(z) && u[2] == HexDigit(y % 16) && u[3] == HexDigit(x % 16) && u[4] == HexDigit(n % 16);
    assert u[5..] == s;
  }

  lemma UnescapeReadable(c: char, s: string)
    requires |EscapeChar(c)| > 1 && Quotable(c)
    ensures EscapeChar(c)[0] == '\\' && EscapeChar(c)[1..] + s != ""
    ensures Unescape(EscapeChar(c)[1..] + s) == Some((c, s))
  {
    var e := EscapeChar(c)[1..];
    if e[0] == 'u' {
      assert e == "u" + Hex(c as nat, 4);
      UnescapeCode(c, s);
    } else {
      assert |e| == 1 && (e + s)[0] == e[0] && (e + s)[1..] == s;
    }
  }

  lemma UnescapeUnreadable(c: char, s: string)
    requires !Quotable(c)
    ensures |EscapeChar(c)| > 1 && EscapeChar(c)[0] == '\\' && EscapeChar(c)[1..] + s != ""
    ensures Unescape(EscapeChar(c)[1..] + s) == None
  {
    var e := EscapeChar(c)[1..];
    assert (e + s)[0] == e[0] && e[0] in {'a', 'v', 'x', 'U'};
  }

  /** An escape, from its backslash on. */
  lemma {:induction false} ReadEscaped(e: string, s: string)
    requires |e| > 1 && e[0] == '\\'
    ensures ReadText(e + s) ==
              match Unescape(e[1..] + s)
              case None => None
              case Some((c, rest)) =>
                match ReadText(rest)
                case None => None
                case Some((t, rest1)) => Some(([c] + t, rest1))
  {
    assert (e + s)[1..] == e[1..] + s;
  }

  lemma {:induction false} ReadEscape(c: char, s: string)
    ensures ReadText(EscapeChar(c) + s) ==
              if !Quotable(c) then None
              else match ReadText(s)
                   case None => None
                   case Some((t, rest)) => Some(([c] + t, rest))
  {
    var e := EscapeChar(c);
    if !Quotable(c) {
      UnescapeUnreadable(c, s);
      ReadEscaped(e, s);
    } else if |e| > 1 {
      UnescapeReadable(c, s);
      ReadEscaped(e, s);
    } else {
      assert (e + s)[1..] == s;
    }
  }

  lemma EscapeFirst(t: string, rest: string)
    requires t != ""
    ensures Escape(t) + rest == EscapeChar(t[0]) + (Escape(t[1..]) + rest)
  {
    Reassociate(EscapeChar(t[0]), Escape(t[1..]), rest);
  }

  lemma Reassociate(a: string, b: string, c: string)
    ensures (a + b) + c == a + (b + c)
  {
  }

  lemma FirstCharQuotable(t: string)
    requires t != ""
    ensures QuotableText(t) <==> Quotable(t[0]) == true && QuotableText(t[1..]) == true
  {
    assert forall i | 0 < i < |t| :: t[i] == t[1..][i - 1];
  }

  /** A quoted text reads back as itself, unless one of its characters cannot be read. */
  lemma {:induction false} ReadQuoted(t: string, rest: string)
    ensures ReadText(Escape(t) + ("\"" + rest)) == if QuotableText(t) then Some((t, rest)) else None
  {
    if t == "" {
      assert Escape(t) + ("\"" + rest) == "\"" + rest;
      assert ("\"" + rest)[1..] == rest;
    } else {
      ReadQuoted(t[1..], rest);
      ReadEscape(t[0], Escape(t[1..]) + ("\"" + rest));
      EscapeFirst(t, "\"" + rest);
      assert [t[0]] + t[1..] == t;
      FirstCharQuotable(t);
    }
  }

  /** A number ends where its characters do. */
  predicate Ends(rest: string) {
    rest == "" || !NumberChar(rest[0])
  }

  lemma {:induction false} NumberRun(n: string, rest: string)
    requires (forall i | 0 <= i < |n| :: NumberChar(n[i])) && Ends(rest)
    ensures NumberLength(n + rest) == |n|
  {
    if n != "" {
      assert (n + rest)[1..] == n[1..] + rest;
      NumberRun(n[1..], rest);
    } else {
      assert n + rest == rest;
    }
  }

  lemma NumberChars(n: string)
    requires NumberOk(n)
    ensures forall i | 0 <= i < |n| :: NumberChar(n[i])
    ensures n != "" && (n[0] == '-' || Digit(n[0]))
  {
    if IntegerOk(n) {
      IntegerChars(n);
    } else {
      IntegerChars(n[1..]);
      assert forall i | 0 < i < |n| :: n[i] == n[1..][i - 1];
    }
  }

  lemma IntegerChars(n: string)
    requires IntegerOk(n)
    ensures forall i | 0 <= i < |n| :: NumberChar(n[i])
  {
    if n[0] == '0' && FractionOk(n[1..]) {
      FractionChars(n[1..]);
      assert forall i | 0 < i < |n| :: n[i] == n[1..][i - 1];
    } else {
      var k :| 1 <= k <= |n| && Digits(n[..k]) && FractionOk(n[k..]);
      FractionChars(n[k..]);
      assert forall i | 0 <= i < k :: n[i] == n[..k][i];
      assert forall i | k <= i < |n| :: n[i] == n[k..][i - k];
    }
  }

  lemma FractionChars(s: string)
    requires FractionOk(s)
    ensures forall i | 0 <= i < |s| :: NumberChar(s[i])
  {
    if ExponentOk(s) {
      ExponentChars(s);
    } else {
      var k :| 1 < k <= |s| && Digits(s[1..k]) && ExponentOk(s[k..]);
      ExponentChars(s[k..]);
      assert forall i | 1 <= i < k :: s[i] == s[1..k][i - 1];
      assert forall i | k <= i < |s| :: s[i] == s[k..][i - k];
    }
  }

  lemma ExponentChars(s: string)
    requires ExponentOk(s)
    ensures forall i | 0 <= i < |s| :: NumberChar(s[i])
  {
    if s != "" {
      if Digits(s[1..]) {
        assert forall i | 1 <= i < |s| :: s[i] == s[1..][i - 1];
      } else {
        assert forall i | 2 <= i < |s| :: s[i] == s[2..][i - 2];
      }
    }
  }

  lemma {:induction false} ReadNumber(n: string, rest: string)
    requires NumberOk(n) && Ends(rest)
    ensures ReadValue(n + rest) == Some((DNumber(n), rest))
  {
    NumberChars(n);
    NumberRun(n, rest);
    var s := n + rest;
    assert s[0] == n[0] && !Blank(s[0]);
    assert s[..|n|] == n && s[|n|..] == rest;
  }

  // Values ----------------------------------------------------------------------------------------

  /** The reader starts a value after any blanks. */
  lemma {:induction false} ReadBlanks(blanks: string, s: string)
    requires forall i | 0 <= i < |blanks| :: Blank(blanks[i])
    ensures ReadValue(blanks + s) == ReadValue(s)
  {
    SkipBlanks(blanks, s);
  }

  lemma {:induction false} ReadOpened(body: string)
    ensures ReadValue("\"" + body) ==
              match ReadText(body)
              case None => None
              case Some((x, rest)) => Some((DText(x), rest))
  {
    var s := "\"" + body;
    assert s[0] == '"' && s[1..] == body && Skip(s) == s;
  }

  lemma {:induction false} ReadTextValue(t: string, rest: string)
    ensures ReadValue(Quote(t) + rest) == if QuotableText(t) then Some((DText(t), rest)) else None
  {
    Grouped("\"", Escape(t), "\"", rest);
    ReadOpened(Escape(t) + ("\"" + rest));
    ReadQuoted(t, rest);
  }

  lemma Grouped(a: string, b: string, c: string, d: string)
    ensures a + b + c + d == a + (b + (c + d))
  {
  }

  lemma {:induction false} ReadFlag(b: bool, rest: string)
    ensures ReadValue((if b then "true" else "false") + rest) == Some((DFlag(b), rest))
  {
    var word := if b then "true" else "false";
    var s := word + rest;
    assert s[0] == word[0] && Skip(s) == s;
    assert s[..|word|] == word && s[|word|..] == rest;
    assert !b ==> s[0] == 'f';
  }

  lemma {:induction false} ReadNothing(rest: string)
    ensures ReadValue("null" + rest) == Some((DNothing, rest))
  {
    var s := "null" + rest;
    assert s[0] == 'n' && Skip(s) == s;
    assert s[..4] == "null" && s[4..] == rest;
  }

  // Objects ---------------------------------------------------------------------------------------

  /** What follows the fields read so far. */
  function RestOfFields(fields: seq<Field>, depth: nat, first: bool): string {
    (if !first && fields != [] then ",\n" else "\n") + PrintFields(fields, depth) + Indent(depth) + "}"
  }

  lemma {:induction false} ReadField(sep: string, blanks: string, name: string, text: string, data: Option<Data>, after: string,
                                     seen: map<string, Data>, first: bool)
    requires sep == (if first then "" else ",") && forall i | 0 <= i < |blanks| :: Blank(blanks[i])
    requires name !in seen && ReadValue(text + after) == At(data, after)
    ensures ReadFields(sep + blanks + (Quote(name) + ": ") + text + after, seen, first)
            == if QuotableText(name) && data.Some? then ReadFields(after, seen[name := data.value], false) else None
  {
    var body := Escape(name) + ("\"" + (": " + text + after));
    var tail := "\"" + body;
    Split(sep, blanks, Quote(name), ": ", text, after);
    Grouped("\"", Escape(name), "\"", ": " + text + after);
    SkipBlanks(blanks, tail);
    assert tail[0] == '"' && Skip(tail) == tail;
    AfterSeparator(sep, blanks, tail, seen, first);
    ReadName(body, seen);
    ReadQuoted(name, ": " + text + after);
    FieldBody(text, data, after);
  }

  /** A field, from behind the opening quote of its name. */
  lemma {:induction false} ReadName(body: string, seen: map<string, Data>)
    ensures ReadFields("\"" + body, seen, true) ==
              match ReadText(body)
              case None => None
              case Some((name, afterName)) =>
                var colon := Skip(afterName);
                if colon == "" || colon[0] != ':' || name in seen then None
                else
                  match ReadValue(colon[1..])
                  case None => None
                  case Some((value, rest)) => ReadFields(rest, seen[name := value], false)
  {
    var s := "\"" + body;
    assert s[0] == '"' && s[1..] == body && Skip(s) == s;
  }

  /** What was read, if anything, with what is left. */
  function At<T>(data: Option<T>, after: string): Option<(T, string)> {
    if data.Some? then Some((data.value, after)) else None
  }

  /** Past the separator a field is read as if it were the first. */
  lemma {:induction false} AfterSeparator(sep: string, blanks: string, tail: string, seen: map<string, Data>, first: bool)
    requires sep == (if first then "" else ",") && Skip(blanks + tail) == Skip(tail) == tail
    requires tail != "" && tail[0] == '"'
    ensures ReadFields(sep + (blanks + tail), seen, first) == ReadFields(tail, seen, true)
  {
    var s := sep + (blanks + tail);
    if first {
      assert s == blanks + tail;
    } else {
      assert s[0] == ',' && s[1..] == blanks + tail && Skip(s) == s;
    }
  }

  lemma {:induction false} FieldBody(text: string, data: Option<Data>, after: string)
    requires ReadValue(text + after) == At(data, after)
    ensures var colon := ": " + text + after;
            Skip(colon) == colon && colon[0] == ':' && ReadValue(colon[1..]) == At(data, after)
  {
    var colon := ": " + text + after;
    assert colon[0] == ':' && colon[1..] == " " + (text + after);
    ReadBlanks(" ", text + after);
  }

  lemma {:induction false} ReadEnd(blanks: string, rest: string, seen: map<string, Data>, first: bool)
    requires forall i | 0 <= i < |blanks| :: Blank(blanks[i])
    ensures ReadFields(blanks + "}" + rest, seen, first) == Some((DObject(seen), rest))
  {
    assert blanks + "}" + rest == blanks + ("}" + rest);
    SkipBlanks(blanks, "}" + rest);
    assert ("}" + rest)[1..] == rest && Skip("}" + rest) == "}" + rest;
  }

  lemma {:induction false} ReadFieldsBack(fields: seq<Field>, depth: nat, seen: map<string, Data>, first: bool, rest: string)
    requires ValidFields(fields) && (first ==> fields != [])
    requires forall i | 0 <= i < |fields| :: fields[i].name !in seen
    ensures ReadFields(RestOfFields(fields, depth, first) + rest, seen, first)
            == if QuotableFields(fields) then Some((DObject(seen + FieldsData(fields)), rest)) else None
    decreases fields, 0
  {
    if fields == [] {
      NoFieldsBack(depth, seen, first, rest);
    } else {
      var f := fields[0];
      assert f in fields;
      RestEnds(fields[1..], depth, rest);
      ReadBack(f.value, depth + 1, RestOfFields(fields[1..], depth, false) + rest);
      ReadFirstField(fields, depth, seen, first, rest);
      FirstQuotable(fields);
      if QuotableText(f.name) && QuotableValue(f.value) {
        MoreFields(fields, depth, seen, rest);
      }
    }
  }

  lemma NoFieldsBack(depth: nat, seen: map<string, Data>, first: bool, rest: string)
    ensures ReadFields(RestOfFields([], depth, first) + rest, seen, first) == Some((DObject(seen + FieldsData([])), rest))
  {
    assert RestOfFields([], depth, first) + rest == ("\n" + Indent(depth)) + "}" + rest;
    ReadEnd("\n" + Indent(depth), rest, seen, first);
    assert seen + FieldsData([]) == seen;
  }

  lemma RestEnds(fields: seq<Field>, depth: nat, rest: string)
    ensures Ends(RestOfFields(fields, depth, false) + rest)
  {
    assert (RestOfFields(fields, depth, false) + rest)[0] == RestOfFields(fields, depth, false)[0];
  }

  lemma FirstQuotable(fields: seq<Field>)
    requires fields != []
    ensures QuotableFields(fields) <==>
              QuotableText(fields[0].name) && QuotableValue(fields[0].value) && QuotableFields(fields[1..]) == true
  {
    assert forall i | 0 < i < |fields| :: fields[i] == fields[1..][i - 1];
  }

  lemma {:induction false} ReadFirstField(fields: seq<Field>, depth: nat, seen: map<string, Data>, first: bool, rest: string)
    requires fields != [] && fields[0].name !in seen
    requires var after := RestOfFields(fields[1..], depth, false) + rest;
             ReadValue(Print(fields[0].value, depth + 1) + after) == At(Read(fields[0].value), after)
    ensures ReadFields(RestOfFields(fields, depth, first) + rest, seen, first)
            == if QuotableText(fields[0].name) && QuotableValue(fields[0].value)
               then ReadFields(RestOfFields(fields[1..], depth, false) + rest, seen[fields[0].name := DataOf(fields[0].value)], false)
               else None
  {
    FieldsSplit(fields, depth, first, rest);
    ReadField(if first then "" else ",", "\n" + Indent(depth + 1), fields[0].name, Print(fields[0].value, depth + 1),
              Read(fields[0].value), RestOfFields(fields[1..], depth, false) + rest, seen, first);
  }

  lemma {:induction false} MoreFields(fields: seq<Field>, depth: nat, seen: map<string, Data>, rest: string)
    requires ValidFields(fields) && fields != []
    requires forall i | 0 <= i < |fields| :: fields[i].name !in seen
    ensures ReadFields(RestOfFields(fields[1..], depth, false) + rest, seen[fields[0].name := DataOf(fields[0].value)], false)
         == if QuotableFields(fields[1..]) then Some((DObject(seen + FieldsData(fields)), rest)) else None
    decreases fields[1..], 1
  {
    var f := fields[0];
    var more := fields[1..];
    assert forall i | 0 <= i < |more| :: more[i] == fields[i + 1];
    ReadFieldsBack(more, depth, seen[f.name := DataOf(f.value)], false, rest);
    FieldsAdd(fields, seen);
  }

  lemma {:induction false} FieldsAdd(fields: seq<Field>, seen: map<string, Data>)
    requires fields != []
    ensures seen[fields[0].name := DataOf(fields[0].value)] + FieldsData(fields[1..]) == seen + FieldsData(fields)
  {
  }

  lemma FieldsSplit(fields: seq<Field>, depth: nat, first: bool, rest: string)
    requires fields != []
    ensures RestOfFields(fields, depth, first) + rest ==
              (if first then "" else ",") + ("\n" + Indent(depth + 1)) + (Quote(fields[0].name) + ": ") +
              Print(fields[0].value, depth + 1) + (RestOfFields(fields[1..], depth, false) + rest)
  {
    var comma := if |fields| > 1 then "," else "";
    Regroup(if first then "" else ",", "\n", Indent(depth + 1), Quote(fields[0].name) + ": ", Print(fields[0].value, depth + 1),
            comma, PrintFields(fields[1..], depth), Indent(depth), "}", rest);
    assert (if first then "" else ",") + "\n" == (if first then "\n" else ",\n");
    assert comma + "\n" == (if |fields| > 1 then ",\n" else "\n");
  }

  // Lists -----------------------------------------------------------------------------------------

  function RestOfElements(es: seq<Value>, depth: nat, first: bool): string {
    (if !first && es != [] then ",\n" else "\n") + PrintElements(es, depth) + Indent(depth) + "]"
  }

  lemma {:induction false} ReadElement(sep: string, blanks: string, text: string, data: Option<Data>, after: string,
                                       seen: seq<Data>, first: bool)
    requires sep == (if first then "" else ",") && forall i | 0 <= i < |blanks| :: Blank(blanks[i])
    requires text != "" && !Blank(text[0]) && text[0] != ']'
    requires ReadValue(text + after) == At(data, after)
    ensures ReadElements(sep + blanks + "" + text + after, seen, first)
            == if data.Some? then ReadElements(after, seen + [data.value], false) else None
  {
    var s := sep + blanks + "" + text + after;
    assert s == sep + (blanks + (text + after));
    SkipBlanks(blanks, text + after);
    ReadBlanks(blanks, text + after);
    assert Skip(text + after) == text + after;
    if first {
      assert s == blanks + (text + after);
    } else {
      assert s[0] == ',' && s[1..] == blanks + (text + after) && Skip(s) == s;
    }
  }

  lemma {:induction false} ReadListEnd(blanks: string, rest: string, seen: seq<Data>, first: bool)
    requires forall i | 0 <= i < |blanks| :: Blank(blanks[i])
    ensures ReadElements(blanks + "]" + rest, seen, first) == Some((DList(seen), rest))
  {
    assert blanks + "]" + rest == blanks + ("]" + rest);
    SkipBlanks(blanks, "]" + rest);
    assert ("]" + rest)[1..] == rest && Skip("]" + rest) == "]" + rest;
  }

  lemma PrintStarts(v: Value, depth: nat)
    requires ValidValue(v)
    ensures Print(v, depth) != "" && !Blank(Print(v, depth)[0]) && Print(v, depth)[0] != ']'
  {
    if v.Number? {
      NumberChars(v.digits);
    }
  }

  lemma {:induction false} ReadElementsBack(es: seq<Value>, depth: nat, seen: seq<Data>, first: bool, rest: string)
    requires (forall i | 0 <= i < |es| :: ValidValue(es[i])) && (first ==> es != [])
    ensures ReadElements(RestOfElements(es, depth, first) + rest, seen, first)
            == if QuotableElements(es) then Some((DList(seen + ElementsData(es)), rest)) else None
    decreases es, 0
  {
    if es == [] {
      NoElementsBack(depth, seen, first, rest);
    } else {
      ReadBack(es[0], depth + 1, RestOfElements(es[1..], depth, false) + rest);
      ReadFirstElement(es, depth, seen, first, rest);
      FirstElementQuotable(es);
      if QuotableValue(es[0]) {
        ReadElementsBack(es[1..], depth, seen + [DataOf(es[0])], false, rest);
        MoreElements(seen, es);
      }
    }
  }

  lemma NoElementsBack(depth: nat, seen: seq<Data>, first: bool, rest: string)
    ensures ReadElements(RestOfElements([], depth, first) + rest, seen, first) == Some((DList(seen + ElementsData([])), rest))
  {
    ElementsEnd(depth, first, rest);
    ReadListEnd("\n" + Indent(depth), rest, seen, first);
    assert seen + ElementsData([]) == seen;
  }

  lemma FirstElementQuotable(es: seq<Value>)
    requires es != []
    ensures QuotableElements(es) <==> QuotableValue(es[0]) && QuotableElements(es[1..]) == true
  {
    assert forall i | 0 < i < |es| :: es[i] == es[1..][i - 1];
  }

  lemma ElementsEnd(depth: nat, first: bool, rest: string)
    ensures RestOfElements([], depth, first) + rest == ("\n" + Indent(depth)) + "]" + rest
  {
  }

  lemma {:induction false} ReadFirstElement(es: seq<Value>, depth: nat, seen: seq<Data>, first: bool, rest: string)
    requires es != [] && ValidValue(es[0])
    requires var after := RestOfElements(es[1..], depth, false) + rest;
             ReadValue(Print(es[0], depth + 1) + after) == At(Read(es[0]), after)
    ensures ReadElements(RestOfElements(es, depth, first) + rest, seen, first)
            == if QuotableValue(es[0])
               then ReadElements(RestOfElements(es[1..], depth, false) + rest, seen + [DataOf(es[0])], false)
               else None
  {
    PrintStarts(es[0], depth + 1);
    ElementsSplit(es, depth, first, rest);
    ReadElement(if first then "" else ",", "\n" + Indent(depth + 1), Print(es[0], depth + 1), Read(es[0]),
                RestOfElements(es[1..], depth, false) + rest, seen, first);
  }

  lemma MoreElements(seen: seq<Data>, es: seq<Value>)
    requires es != []
    ensures seen + [DataOf(es[0])] + ElementsData(es[1..]) == seen + ElementsData(es)
  {
  }

  lemma ElementsSplit(es: seq<Value>, depth: nat, first: bool, rest: string)
    requires es != []
    ensures RestOfElements(es, depth, first) + rest ==
              (if first then "" else ",") + ("\n" + Indent(depth + 1)) + "" + Print(es[0], depth + 1) + (RestOfElements(es[1..], depth, false) + rest)
  {
    var comma := if |es| > 1 then "," else "";
    Regroup(if first then "" else ",", "\n", Indent(depth + 1), "", Print(es[0], depth + 1),
            comma, PrintElements(es[1..], depth), Indent(depth), "]", rest);
    assert (if first then "" else ",") + "\n" == (if first then "\n" else ",\n");
    assert comma + "\n" == (if |es| > 1 then ",\n" else "\n");
  }

  // The round trip --------------------------------------------------------------------------------

  /** What reading a printed value should give: its data, unless a text in it cannot be read. */
  function Read(v: Value): Option<Data> {
    if QuotableValue(v) then Some(DataOf(v)) else None
  }

  /** Whatever valid value is printed at whatever depth, and whatever follows it, the reader
      returns its data and stops right behind it, or fails if a text in it cannot be read. */
  lemma {:induction false} ReadBack(v: Value, depth: nat, rest: string)
    requires ValidValue(v) && Ends(rest)
    ensures ReadValue(Print(v, depth) + rest) == At(Read(v), rest)
    decreases v, 1
  {
    match v
    case Text(t) => ReadTextValue(t, rest);
    case Flag(b) => ReadFlag(b, rest);
    case Number(n) => ReadNumber(n, rest);
    case Nothing => ReadNothing(rest);
    case Object(fields) => ReadObjectBack(fields, depth, rest);
    case List(es) => ReadListBack(es, depth, rest);
  }

  lemma {:induction false} ReadObjectBack(fields: seq<Field>, depth: nat, rest: string)
    requires ValidFields(fields)
    ensures ReadValue(PrintObject(fields, depth) + rest)
            == if QuotableFields(fields) then Some((DObject(FieldsData(fields)), rest)) else None
    decreases fields, 1
  {
    var body := if fields == [] then "" + "}" + rest else RestOfFields(fields, depth, true) + rest;
    ObjectText(fields, depth, rest);
    ReadBraced(body);
    if fields == [] {
      ReadEnd("", rest, map[], true);
    } else {
      ReadFieldsBack(fields, depth, map[], true, rest);
      assert map[] + FieldsData(fields) == FieldsData(fields);
    }
  }

  lemma ObjectText(fields: seq<Field>, depth: nat, rest: string)
    ensures PrintObject(fields, depth) + rest ==
              "{" + (if fields == [] then "" + "}" + rest else RestOfFields(fields, depth, true) + rest)
  {
    if fields == [] {
      assert "{}" + rest == "{" + ("" + "}" + rest);
    } else {
      assert "{" + "\n" == "{\n";
      Behind("{", PrintFields(fields, depth), Indent(depth), "}", rest);
    }
  }

  lemma Behind(open: string, inner: string, indent: string, close: string, rest: string)
    ensures (open + "\n") + inner + indent + close + rest == open + (("\n" + inner + indent + close) + rest)
  {
    assert (open + "\n") + inner + indent + close == open + ("\n" + inner + indent + close);
  }

  lemma ReadBraced(body: string)
    ensures ReadValue("{" + body) == ReadFields(body, map[], true)
  {
    var s := "{" + body;
    assert s[0] == '{' && s[1..] == body && Skip(s) == s;
  }

  lemma ReadBracketed(body: string)
    ensures ReadValue("[" + body) == ReadElements(body, [], true)
  {
    var s := "[" + body;
    assert s[0] == '[' && s[1..] == body && Skip(s) == s;
  }

  lemma ElementsText(es: seq<Value>, depth: nat, rest: string)
    ensures "[\n" + PrintElements(es, depth) + Indent(depth) + "]" + rest == "[" + (RestOfElements(es, depth, true) + rest)
  {
    assert "[" + "\n" == "[\n";
    Behind("[", PrintElements(es, depth), Indent(depth), "]", rest);
  }

  lemma EmptyListText(rest: string)
    ensures "[]" + rest == "[" + ("" + "]" + rest)
  {
  }

  lemma {:induction false} ReadListBack(es: seq<Value>, depth: nat, rest: string)
    requires forall i | 0 <= i < |es| :: ValidValue(es[i])
    ensures ReadValue(Print(List(es), depth) + rest)
            == if QuotableElements(es) then Some((DList(ElementsData(es)), rest)) else None
    decreases es, 1
  {
    if es == [] {
      EmptyListText(rest);
      ReadBracketed("" + "]" + rest);
      ReadListEnd("", rest, [], true);
    } else {
      ElementsText(es, depth, rest);
      ReadBracketed(RestOfElements(es, depth, true) + rest);
      ReadElementsBack(es, depth, [], true, rest);
      assert [] + ElementsData(es) == ElementsData(es);
    }
  }

  /** The document of a valid object, final newline included, reads back as its data if every text
      in it can be read, and not at all otherwise. */
  lemma {:induction false} DocumentRoundTrip(fields: seq<Field>)
    requires ValidFields(fields)
    ensures ReadDocument(PrintObject(fields, 0) + "\n") == if QuotableFields(fields) then Some(FieldsData(fields)) else None
  {
    ReadObjectBack(fields, 0, "\n");
    SkipBlanks("\n", "");
    assert "\n" + "" == "\n";
  }

  /** One such text: the source writes it with an escape that JSON does not have. */
  lemma {:induction false} UnreadableText()
    ensures !QuotableText("\U{7}") && ReadDocument(PrintObject([Field("a", Text("\U{7}"))], 0) + "\n") == None
  {
    var t := "\U{7}";
    assert t[0] == '\U{7}' && !Quotable(t[0]);
    var fields := [Field("a", Text(t))];
    assert !QuotableValue(fields[0].value);
    DocumentRoundTrip(fields);
  }

  /** The source escapes what does not show: in the basic plane readably, beyond it not. */
  lemma HiddenCharacter(c: char)
    requires c > '\U{A0}' && !Printable(c)
    ensures EscapeChar(c) == if c <= '\U{FFFF}' then "\\u" + Hex(c as nat, 4) else "\\U" + Hex(c as nat, 8)
    ensures Quotable(c) <==> c <= '\U{FFFF}'
  {
  }

  /** The soft hyphen reads back, the language tag does not. */
  lemma {:induction false} HiddenCharacters()
    ensures Quotable('\U{AD}') && !Quotable('\U{E0001}')
  {
    Hidden('\U{AD}');
    Hidden('\U{E0001}');
    HiddenCharacter('\U{AD}');
    HiddenCharacter('\U{E0001}');
  }
}
