/** Default configuration documents as text: the writer's indented JSON and the loader's
    recursive reader, read per sections 2, 6 and 7 of RFC 8259. */
module ConfigDocument {
  import opened Wrappers
  import opened ConfigPrintable

  // Values ------------------------------------------------------------------------------------

  datatype Value =
    | Text(text: string)
    | Flag(on: bool)
    | Number(digits: string)
    | Nothing
    | Object(fields: seq<Field>)
    | List(elements: seq<Value>)

  datatype Field = Field(name: string, value: Value)

  /** What the loader's reader returns; numbers keep their spelling. */
  datatype Data =
    | DText(text: string)
    | DFlag(on: bool)
    | DNumber(digits: string)
    | DNothing
    | DObject(fields: map<string, Data>)
    | DList(elements: seq<Data>)

  function DataOf(v: Value): Data {
    match v
    case Text(t) => DText(t)
    case Flag(b) => DFlag(b)
    case Number(n) => DNumber(n)
    case Nothing => DNothing
    case Object(fields) => DObject(FieldsData(fields))
    case List(es) => DList(ElementsData(es))
  }

  /** A later field of the same name would win; validation rules that out. */
  function FieldsData(fields: seq<Field>): map<string, Data> {
    if fields == [] then map[]
    else map[fields[0].name := DataOf(fields[0].value)] + FieldsData(fields[1..])
  }

  function ElementsData(es: seq<Value>): (d: seq<Data>)
    ensures |d| == |es|
  {
    if es == [] then [] else [DataOf(es[0])] + ElementsData(es[1..])
  }

  // Validation ----------------------------------------------------------------------------------

  predicate Digit(c: char) {
    '0' <= c <= '9'
  }

  predicate Digits(s: string) {
    s != "" && forall i | 0 <= i < |s| :: Digit(s[i])
  }

  /** An optional sign and digits after the exponent mark. */
  predicate ExponentOk(s: string) {
    s == "" || ((s[0] == 'e' || s[0] == 'E') &&
      (Digits(s[1..]) || (|s| > 1 && (s[1] == '+' || s[1] == '-') && Digits(s[2..]))))
  }

  predicate FractionOk(s: string) {
    ExponentOk(s) || (|s| > 1 && s[0] == '.' && exists k :: 1 < k <= |s| && Digits(s[1..k]) && ExponentOk(s[k..]))
  }

  predicate IntegerOk(s: string) {
    s != "" && (
      (s[0] == '0' && FractionOk(s[1..])) ||
      ('1' <= s[0] <= '9' && exists k :: 1 <= k <= |s| && Digits(s[..k]) && FractionOk(s[k..])))
  }

  /** Section 6 of RFC 8259. */
  predicate NumberOk(s: string) {
    IntegerOk(s) || (s != "" && s[0] == '-' && IntegerOk(s[1..]))
  }

  predicate ValidValue(v: Value) {
    match v
    case Number(n) => NumberOk(n)
    case Object(fields) => ValidFields(fields)
    case List(es) => forall i | 0 <= i < |es| :: ValidValue(es[i])
    case _ => true
  }

  predicate ValidFields(fields: seq<Field>) {
    && (forall i | 0 <= i < |fields| :: fields[i].name != "" && ValidValue(fields[i].value))
    && (forall i, j | 0 <= i < j < |fields| :: fields[i].name != fields[j].name)
  }

  /** The characters strconv.Quote writes in a way JSON reads back: printable ones, those with a
      short escape that both know, and the others of the basic plane beyond ASCII, which both
      write with four hexadecimal digits. */
  predicate Quotable(c: char) {
    Printable(c) || c in {'\U{8}', '\U{C}', '\n', '\r', '\t'} || '\U{80}' <= c <= '\U{FFFF}'
  }

  predicate QuotableText(s: string) {
    forall i | 0 <= i < |s| :: Quotable(s[i])
  }

  predicate QuotableValue(v: Value) {
    match v
    case Text(t) => QuotableText(t)
    case Object(fields) => QuotableFields(fields)
    case List(es) => QuotableElements(es)
    case _ => true
  }

  predicate QuotableFields(fields: seq<Field>) {
    forall i | 0 <= i < |fields| :: QuotableText(fields[i].name) && QuotableValue(fields[i].value)
  }

  predicate QuotableElements(es: seq<Value>) {
    forall i | 0 <= i < |es| :: QuotableValue(es[i])
  }

  // The writer's text -----------------------------------------------------------------------------

  function HexDigit(n: nat): (c: char)
    requires n < 16
    ensures HexValue(c) == Some(n)
  {
    if n < 10 then '0' + n as char else 'a' + (n - 10) as char
  }

  /** The last `digits` hexadecimal digits of `n`. */
  function Hex(n: nat, digits: nat): (s: string)
    ensures |s| == digits
  {
    if digits == 0 then "" else Hex(n / 16, digits - 1) + [HexDigit(n % 16)]
  }

  /** strconv.Quote, for one character. */
  function EscapeChar(c: char): (s: string)
    ensures s != ""
  {
    if c == '"' then "\\\"" else if c == '\\' then "\\\\"
    else if Printable(c) then [c]
    else if c == '\U{7}' then "\\a" else if c == '\U{8}' then "\\b" else if c == '\U{C}' then "\\f"
    else if c == '\n' then "\\n" else if c == '\r' then "\\r" else if c == '\t' then "\\t" else if c == '\U{B}' then "\\v"
    else if c < ' ' || c == '\U{7F}' then "\\x" + Hex(c as nat, 2)
    else if c <= '\U{FFFF}' then "\\u" + Hex(c as nat, 4)
    else "\\U" + Hex(c as nat, 8)
  }

  function Escape(s: string): string {
    if s == "" then "" else EscapeChar(s[0]) + Escape(s[1..])
  }

  function Quote(s: string): string {
    "\"" + Escape(s) + "\""
  }

  function Indent(depth: nat): (s: string)
    ensures forall i | 0 <= i < |s| :: s[i] == ' '
  {
    if depth == 0 then "" else "  " + Indent(depth - 1)
  }

  function Print(v: Value, depth: nat): string
    decreases v, 1
  {
    match v
    case Text(t) => Quote(t)
    case Flag(b) => if b then "true" else "false"
    case Number(n) => n
    case Nothing => "null"
    case Object(fields) => PrintObject(fields, depth)
    case List(es) =>
      if es == [] then "[]" else "[\n" + PrintElements(es, depth) + Indent(depth) + "]"
  }

  function PrintObject(fields: seq<Field>, depth: nat): string
    decreases fields, 1
  {
    if fields == [] then "{}" else "{\n" + PrintFields(fields, depth) + Indent(depth) + "}"
  }

  function PrintFields(fields: seq<Field>, depth: nat): string
    decreases fields, 0
  {
    if fields == [] then ""
    else
      Line(Quote(fields[0].name) + ": ", Print(fields[0].value, depth + 1), |fields| > 1, depth) + PrintFields(fields[1..], depth)
  }

  /** One line of an object or a list. */
  function Line(name: string, value: string, more: bool, depth: nat): string {
    Indent(depth + 1) + name + value + (if more then "," else "") + "\n"
  }

  function PrintElements(es: seq<Value>, depth: nat): string
    decreases es, 0
  {
    if es == [] then ""
    else Line("", Print(es[0], depth + 1), |es| > 1, depth) + PrintElements(es[1..], depth)
  }

  // The reader -------------------------------------------------------------------------------------

  predicate Blank(c: char) {
    c == ' ' || c == '\t' || c == '\n' || c == '\r'
  }

  function Skip(s: string): (r: string)
    ensures |r| <= |s|
    ensures r != "" ==> !Blank(r[0])
  {
    if s != "" && Blank(s[0]) then Skip(s[1..]) else s
  }

  function HexValue(c: char): Option<nat> {
    if '0' <= c <= '9' then Some((c - '0') as nat)
    else if 'a' <= c <= 'f' then Some((c - 'a') as nat + 10)
    else if 'A' <= c <= 'F' then Some((c - 'A') as nat + 10)
    else None
  }

  /** The escapes of section 7; surrogate pairs are not combined here. */
  function Unescape(s: string): Option<(char, string)>
    requires s != ""
  {
    match s[0]
    case '"' => Some(('"', s[1..]))
    case '\\' => Some(('\\', s[1..]))
    case '/' => Some(('/', s[1..]))
    case 'b' => Some(('\U{8}', s[1..]))
    case 'f' => Some(('\U{C}', s[1..]))
    case 'n' => Some(('\n', s[1..]))
    case 'r' => Some(('\r', s[1..]))
    case 't' => Some(('\t', s[1..]))
    case 'u' =>
      if |s| < 5 then None
      else
        (match (HexValue(s[1]), HexValue(s[2]), HexValue(s[3]), HexValue(s[4]))
         case (Some(a), Some(b), Some(c), Some(d)) =>
           var code := ((a * 16 + b) * 16 + c) * 16 + d;
           if code < 0xD800 || 0xE000 <= code < 0x10000 then Some((code as char, s[5..])) else Some(('\U{FFFD}', s[5..]))
         case _ => None)
    case _ => None
  }

  /** Reads a string after its opening quote. */
  function ReadText(s: string): (r: Option<(string, string)>)
    ensures r.Some? ==> |r.value.1| < |s|
    decreases |s|
  {
    if s == "" || s[0] < ' ' then None
    else if s[0] == '"' then Some(("", s[1..]))
    else if s[0] == '\\' then
      if |s| == 1 then None
      else
        match Unescape(s[1..])
        case None => None
        case Some((c, rest)) =>
          if |rest| >= |s| then None
          else
            match ReadText(rest)
            case None => None
            case Some((t, rest')) => Some(([c] + t, rest'))
    else
      match ReadText(s[1..])
      case None => None
      case Some((t, rest)) => Some(([s[0]] + t, rest))
  }

  predicate NumberChar(c: char) {
    Digit(c) || c == '-' || c == '+' || c == '.' || c == 'e' || c == 'E'
  }

  function NumberLength(s: string): (n: nat)
    ensures n <= |s| && (forall i | 0 <= i < n :: NumberChar(s[i])) && (n < |s| ==> !NumberChar(s[n]))
  {
    if s == "" || !NumberChar(s[0]) then 0 else 1 + NumberLength(s[1..])
  }

  function ReadValue(s: string): (r: Option<(Data, string)>)
    ensures r.Some? ==> |r.value.1| < |s|
    decreases |s|, 0
  {
    var t := Skip(s);
    if t == "" then None
    else if t[0] == '{' then ReadFields(t[1..], map[], true)
    else if t[0] == '[' then ReadElements(t[1..], [], true)
    else if t[0] == '"' then
      match ReadText(t[1..])
      case None => None
      case Some((x, rest)) => Some((DText(x), rest))
    else if "true" <= t then Some((DFlag(true), t[4..]))
    else if "false" <= t then Some((DFlag(false), t[5..]))
    else if "null" <= t then Some((DNothing, t[4..]))
    else
      var n := NumberLength(t);
      if NumberOk(t[..n]) then Some((DNumber(t[..n]), t[n..])) else None
  }

  /** Reads the fields of an object up to its closing brace; a comma stands between any two. */
  function ReadFields(s: string, seen: map<string, Data>, first: bool): (r: Option<(Data, string)>)
    ensures r.Some? ==> |r.value.1| < |s|
    decreases |s|, 1
  {
    var t := Skip(s);
    if t == "" then None
    else if t[0] == '}' then Some((DObject(seen), t[1..]))
    else if !first && t[0] != ',' then None
    else
      var k := Skip(if first then t else t[1..]);
      if k == "" || k[0] != '"' then None
      else
        match ReadText(k[1..])
        case None => None
        case Some((name, afterName)) =>
          var colon := Skip(afterName);
          if colon == "" || colon[0] != ':' || name in seen then None
          else
            match ReadValue(colon[1..])
            case None => None
            case Some((value, rest)) => ReadFields(rest, seen[name := value], false)
  }

  function ReadElements(s: string, seen: seq<Data>, first: bool): (r: Option<(Data, string)>)
    ensures r.Some? ==> |r.value.1| < |s|
    decreases |s|, 1
  {
    var t := Skip(s);
    if t == "" then None
    else if t[0] == ']' then Some((DList(seen), t[1..]))
    else if !first && t[0] != ',' then None
    else
      match ReadValue(if first then t else t[1..])
      case None => None
      case Some((value, rest)) => if |rest| >= |s| then None else ReadElements(rest, seen + [value], false)
  }

  /** A whole document: one object. What may follow it is blank, or begins with a stray closing
      bracket, which the source's end check does not tell from the end. */
  function ReadDocument(s: string): Option<map<string, Data>> {
    match ReadValue(s)
    case None => None
    case Some((value, rest)) =>
      var end := Skip(rest);
      if end != "" && end[0] != '}' && end[0] != ']' then None
      else if value.DObject? then Some(value.fields) else None
  }

  /** A stricter reader: one object and nothing but blanks behind it. */
  function ReadStrictly(s: string): Option<map<string, Data>> {
    match ReadValue(s)
    case None => None
    case Some((value, rest)) => if value.DObject? && AllBlank(rest) then Some(value.fields) else None
  }

  predicate AllBlank(s: string) {
    forall i | 0 <= i < |s| :: Blank(s[i])
  }

  /** An object, and after it and any blanks a closing bracket that nothing opened. */
  predicate StrayBracket(s: string) {
    match ReadValue(s)
    case None => false
    case Some((value, rest)) => value.DObject? && BracketBehind(rest)
  }

  predicate BracketBehind(s: string) {
    exists k :: 0 <= k < |s| && AllBlank(s[..k]) && (s[k] == ']' || s[k] == '}')
  }

  lemma {:induction false} SkipSplits(s: string) returns (k: nat)
    ensures k <= |s| && AllBlank(s[..k]) && Skip(s) == s[k..]
  {
    if s != "" && Blank(s[0]) {
      var j := SkipSplits(s[1..]);
      k := j + 1;
      assert s[k..] == s[1..][j..];
      assert forall i | 0 < i < k :: s[..k][i] == s[1..][..j][i - 1];
    } else {
      k := 0;
    }
  }

  lemma SkipsAll(s: string, k: nat)
    requires k <= |s| && Skip(s) == s[k..] && AllBlank(s[..k])
    ensures AllBlank(s) <==> Skip(s) == ""
  {
    if Skip(s) == "" {
      assert s[..k] == s;
    } else {
      assert s[k] == Skip(s)[0];
    }
  }

  lemma SkipsToBracket(s: string, k: nat)
    requires k <= |s| && Skip(s) == s[k..] && AllBlank(s[..k])
    ensures BracketBehind(s) <==> Skip(s) != "" && (Skip(s)[0] == ']' || Skip(s)[0] == '}')
  {
    if BracketBehind(s) {
      var j :| 0 <= j < |s| && AllBlank(s[..j]) && (s[j] == ']' || s[j] == '}');
      assert forall i | 0 <= i < k :: Blank(s[..k][i]) && s[..k][i] == s[i];
      assert forall i | 0 <= i < j :: Blank(s[..j][i]) && s[..j][i] == s[i];
      assert k < |s| && s[k] == Skip(s)[0] && j == k;
    }
    if Skip(s) != "" {
      assert s[k] == Skip(s)[0];
    }
  }

  /** The reader accepts exactly what the strict one accepts and what has a stray closing bracket
      behind the object, and it differs from the strict one exactly on the latter. */
  lemma {:induction false} ReadsExactly(s: string)
    ensures ReadDocument(s).Some? <==> ReadStrictly(s).Some? || StrayBracket(s)
    ensures ReadDocument(s) != ReadStrictly(s) <==> StrayBracket(s)
  {
    if ReadValue(s).Some? {
      var rest := ReadValue(s).value.1;
      var k := SkipSplits(rest);
      SkipsAll(rest, k);
      SkipsToBracket(rest, k);
    }
  }

  /** Such a document exists. */
  lemma {:induction false} StrayBracketAccepted()
    ensures ReadDocument("{}]") == Some(map[]) && ReadStrictly("{}]") == None && StrayBracket("{}]")
  {
    var s := "{}]";
    assert Skip(s) == s && s[1..] == "}]" && Skip("}]") == "}]" && "}]"[1..] == "]" && Skip("]") == "]";
    assert ReadFields("}]", map[], true) == Some((DObject(map[]), "]"));
    assert !Blank("]"[0]);
    ReadsExactly(s);
  }
}
