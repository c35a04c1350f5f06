/** Canonical JSON text (RFC 8785) as packages/mandateEngine/crypto/jcsCanonicalizer.py builds it. */
module CanonicalJson {
  import opened Decimals

  /** A payload. An object keeps its fields in insertion order, as a Python dict does. */
  datatype Json =
    | Null
    | Bool(b: bool)
    | Int(n: int)
    | Float(repr: string)
    | Str(s: string)
    | Arr(items: seq<Json>)
    | Obj(fields: seq<Field>)

  datatype Field = Field(key: string, value: Json)

  datatype Canonical = Text(text: string) | ArithmeticDrift

  // ---------------------------------------------------------------- well-formedness

  predicate DistinctKeys(fields: seq<Field>) {
    forall i, j :: 0 <= i < j < |fields| ==> fields[i].key != fields[j].key
  }

  /** No float anywhere, the condition `_verifyNoFloats` checks. */
  predicate FloatFree(j: Json)
    decreases j, 1
  {
    match j
    case Float(_) => false
    case Arr(items) => FloatFreeAll(items)
    case Obj(fields) => FloatFreeFields(fields)
    case _ => true
  }

  predicate FloatFreeAll(items: seq<Json>)
    decreases items, 0
  {
    |items| == 0 || (FloatFree(items[0]) && FloatFreeAll(items[1..]))
  }

  predicate FloatFreeFields(fields: seq<Field>)
    decreases fields, 0
  {
    |fields| == 0 || (FloatFree(fields[0].value) && FloatFreeFields(fields[1..]))
  }

  /** A Python dict never holds one key twice. */
  predicate WellFormed(j: Json)
    decreases j, 1
  {
    match j
    case Arr(items) => WellFormedAll(items)
    case Obj(fields) => DistinctKeys(fields) && WellFormedFields(fields)
    case _ => true
  }

  predicate WellFormedAll(items: seq<Json>)
    decreases items, 0
  {
    |items| == 0 || (WellFormed(items[0]) && WellFormedAll(items[1..]))
  }

  predicate WellFormedFields(fields: seq<Field>)
    decreases fields, 0
  {
    |fields| == 0 || (WellFormed(fields[0].value) && WellFormedFields(fields[1..]))
  }

  // ---------------------------------------------------------------- meaning

  /** A JSON value with key order forgotten. */
  datatype Value =
    | VNull
    | VBool(b: bool)
    | VInt(n: int)
    | VFloat(repr: string)
    | VStr(s: string)
    | VArr(items: seq<Value>)
    | VObj(fields: map<string, Value>)

  ghost function Meaning(j: Json): Value
    decreases j, 1
  {
    match j
    case Null => VNull
    case Bool(b) => VBool(b)
    case Int(n) => VInt(n)
    case Float(r) => VFloat(r)
    case Str(s) => VStr(s)
    case Arr(items) => VArr(MeaningAll(items))
    case Obj(fields) => VObj(MeaningFields(fields))
  }

  ghost function MeaningAll(items: seq<Json>): (vs: seq<Value>)
    ensures |vs| == |items|
    decreases items, 0
  {
    if |items| == 0 then [] else [Meaning(items[0])] + MeaningAll(items[1..])
  }

  ghost function MeaningFields(fields: seq<Field>): (m: map<string, Value>)
    ensures forall k :: k in m <==> HasKey(fields, k)
    decreases fields, 0
  {
    if |fields| == 0 then map[] else MeaningFields(fields[1..])[fields[0].key := Meaning(fields[0].value)]
  }

  predicate HasKey(fields: seq<Field>, key: string) {
    exists i :: 0 <= i < |fields| && fields[i].key == key
  }

  // ---------------------------------------------------------------- UTF-16 sort key

  function CodeUnits(c: char): (u: seq<nat>)
    ensures 1 <= |u| <= 2 && forall i :: 0 <= i < |u| ==> u[i] < 0x10000
  {
    var p := c as int;
    if p < 0x10000 then [p]
    else [0xD800 + (p - 0x10000) / 0x400, 0xDC00 + (p - 0x10000) % 0x400]
  }

  function Utf16(text: string): (u: seq<nat>)
    ensures forall i :: 0 <= i < |u| ==> u[i] < 0x10000
  {
    if |text| == 0 then [] else CodeUnits(text[0]) + Utf16(text[1..])
  }

  /** Big-endian bytes of a sequence of code units. */
  function BigEndian(units: seq<nat>): seq<nat> {
    if |units| == 0 then [] else [units[0] / 256, units[0] % 256] + BigEndian(units[1..])
  }

  /** `text.encode("utf-16-be")`. */
  function Utf16SortKey(text: string): seq<nat> {
    BigEndian(Utf16(text))
  }

  predicate LexLess(a: seq<nat>, b: seq<nat>) {
    |b| > 0 && (|a| == 0 || a[0] < b[0] || (a[0] == b[0] && LexLess(a[1..], b[1..])))
  }

  lemma {:induction false} LexTransitive(a: seq<nat>, b: seq<nat>, c: seq<nat>)
    requires LexLess(a, b) && LexLess(b, c)
    ensures LexLess(a, c)
  {
    if |a| > 0 && a[0] == b[0] && b[0] == c[0] {
      LexTransitive(a[1..], b[1..], c[1..]);
    }
  }

  lemma {:induction false} LexIrreflexive(a: seq<nat>)
    ensures !LexLess(a, a)
  {
    if |a| > 0 {
      LexIrreflexive(a[1..]);
    }
  }

  lemma {:induction false} LexTotal(a: seq<nat>, b: seq<nat>)
    requires a != b
    ensures LexLess(a, b) || LexLess(b, a)
  {
    if |a| > 0 && |b| > 0 && a[0] == b[0] {
      assert a == [a[0]] + a[1..] && b == [b[0]] + b[1..];
      LexTotal(a[1..], b[1..]);
    }
  }

  /** Comparing the encoded bytes is comparing UTF-16 code units, as section 3.2.3 of RFC 8785 asks. */
  lemma {:induction false} BytesOrderIsUnitOrder(a: seq<nat>, b: seq<nat>)
    requires forall i :: 0 <= i < |a| ==> a[i] < 0x10000
    requires forall i :: 0 <= i < |b| ==> b[i] < 0x10000
    ensures LexLess(BigEndian(a), BigEndian(b)) <==> LexLess(a, b)
  {
    if |a| > 0 && |b| > 0 {
      BytesOrderIsUnitOrder(a[1..], b[1..]);
      var x, y := BigEndian(a), BigEndian(b);
      assert x[1..] == [a[0] % 256] + BigEndian(a[1..]) && x[1..][1..] == BigEndian(a[1..]);
      assert y[1..] == [b[0] % 256] + BigEndian(b[1..]) && y[1..][1..] == BigEndian(b[1..]);
      assert LexLess(x, y) <==>
        a[0] / 256 < b[0] / 256 || (a[0] / 256 == b[0] / 256 && LexLess(x[1..], y[1..]));
    }
  }

  lemma SortOrderIsCodeUnitOrder(s: string, t: string)
    ensures LexLess(Utf16SortKey(s), Utf16SortKey(t)) <==> LexLess(Utf16(s), Utf16(t))
  {
    BytesOrderIsUnitOrder(Utf16(s), Utf16(t));
  }

  lemma CodeUnitsPrefixFree(c: char, x: seq<nat>, d: char, y: seq<nat>)
    requires CodeUnits(c) + x == CodeUnits(d) + y
    ensures c == d && x == y
  {
    var u, v := CodeUnits(c) + x, CodeUnits(d) + y;
    assert u[0] == CodeUnits(c)[0] && v[0] == CodeUnits(d)[0];
    var p, q := c as int, d as int;
    if p >= 0x10000 && q >= 0x10000 {
      assert u[1] == CodeUnits(c)[1] && v[1] == CodeUnits(d)[1];
      assert p == q;
    } else {
      assert p == q;
    }
    assert u[|CodeUnits(c)|..] == x && v[|CodeUnits(d)|..] == y;
  }

  lemma {:induction false} Utf16Injective(s: string, t: string)
    requires Utf16(s) == Utf16(t)
    ensures s == t
  {
    if |s| > 0 && |t| > 0 {
      CodeUnitsPrefixFree(s[0], Utf16(s[1..]), t[0], Utf16(t[1..]));
      Utf16Injective(s[1..], t[1..]);
      assert s == [s[0]] + s[1..] && t == [t[0]] + t[1..];
    }
  }

  ghost predicate KeyBefore(s: string, t: string) {
    LexLess(Utf16SortKey(s), Utf16SortKey(t))
  }

  /** Distinct keys are strictly ordered one way or the other. */
  lemma KeyOrderTotal(s: string, t: string)
    requires s != t
    ensures KeyBefore(s, t) || KeyBefore(t, s)
  {
    if Utf16(s) == Utf16(t) {
      Utf16Injective(s, t);
    }
    LexTotal(Utf16(s), Utf16(t));
    SortOrderIsCodeUnitOrder(s, t);
    SortOrderIsCodeUnitOrder(t, s);
  }

  /** An astral key sorts before a private-use one although its code point is larger. */
  lemma CodePointOrderDiffers()
    ensures '\U{E000}' < '\U{10000}'
    ensures KeyBefore(['\U{10000}'], ['\U{E000}'])
  {
    var s, t := ['\U{10000}'], ['\U{E000}'];
    assert Utf16(s) == [0xD800, 0xDC00] + Utf16(s[1..]);
    assert Utf16(t) == [0xE000] + Utf16(t[1..]);
    SortOrderIsCodeUnitOrder(s, t);
  }

  // ---------------------------------------------------------------- normalising

  function InsertField(f: Field, sorted: seq<Field>): seq<Field> {
    if |sorted| == 0 || LexLess(Utf16SortKey(f.key), Utf16SortKey(sorted[0].key)) then [f] + sorted
    else [sorted[0]] + InsertField(f, sorted[1..])
  }

  function SortFields(fields: seq<Field>): seq<Field> {
    if |fields| == 0 then [] else InsertField(fields[0], SortFields(fields[1..]))
  }

  /** Every object's fields sorted by UTF-16 key, at every depth. */
  function Normalize(j: Json): Json
    decreases j, 1
  {
    match j
    case Arr(items) => Arr(NormalizeAll(items))
    case Obj(fields) => Obj(SortFields(NormalizeFields(fields)))
    case _ => j
  }

  function NormalizeAll(items: seq<Json>): seq<Json>
    decreases items, 0
  {
    if |items| == 0 then [] else [Normalize(items[0])] + NormalizeAll(items[1..])
  }

  function NormalizeFields(fields: seq<Field>): (r: seq<Field>)
    ensures |r| == |fields| && forall i :: 0 <= i < |r| ==> r[i].key == fields[i].key
    decreases fields, 0
  {
    if |fields| == 0 then [] else [Field(fields[0].key, Normalize(fields[0].value))] + NormalizeFields(fields[1..])
  }

  // ---------------------------------------------------------------- printing

  function HexChar(d: nat): (c: char)
    requires d < 16
    ensures HexValue(c) == d
  {
    if d < 10 then ('0' as int + d) as char else ('a' as int + d - 10) as char
  }

  function HexValue(c: char): int {
    if '0' <= c <= '9' then c as int - '0' as int
    else if 'a' <= c <= 'f' then c as int - 'a' as int + 10
    else -1
  }

  lemma HexDigitsInOrder(d: nat)
    requires d < 16
    ensures HexChar(d) == "0123456789abcdef"[d]
  {
  }

  /** The escapes `json.dumps(ensure_ascii=False)` writes: section 3.2.2.2 of RFC 8785. */
  function EscapeChar(c: char): (s: string)
    ensures 0 < |s|
  {
    if c == '"' then "\\\""
    else if c == '\\' then "\\\\"
    else if c == '\n' then "\\n"
    else if c == '\r' then "\\r"
    else if c == '\t' then "\\t"
    else if c as int == 8 then "\\b"
    else if c as int == 12 then "\\f"
    else if c as int < 32 then "\\u00" + [HexChar(c as int / 16), HexChar(c as int % 16)]
    else [c]
  }

  function Escape(s: string): string {
    if |s| == 0 then "" else EscapeChar(s[0]) + Escape(s[1..])
  }

  function PrintString(s: string): string {
    "\"" + Escape(s) + "\""
  }

  function Print(j: Json): string
    decreases j, 1
  {
    match j
    case Null => "null"
    case Bool(b) => if b then "true" else "false"
    case Int(n) => IntText(n)
    case Float(r) => r
    case Str(s) => PrintString(s)
    case Arr(items) => "[" + PrintArray(items)
    case Obj(fields) => "{" + PrintObject(fields)
  }

  function PrintArray(items: seq<Json>): string
    decreases items, 0
  {
    if |items| == 0 then "]" else Print(items[0]) + PrintItems(items[1..])
  }

  function PrintItems(items: seq<Json>): string
    decreases items, 0
  {
    if |items| == 0 then "]" else "," + (Print(items[0]) + PrintItems(items[1..]))
  }

  function PrintField(f: Field): string
    decreases f, 2
  {
    PrintString(f.key) + (":" + Print(f.value))
  }

  function PrintObject(fields: seq<Field>): string
    decreases fields, 0
  {
    if |fields| == 0 then "}" else PrintField(fields[0]) + PrintFields(fields[1..])
  }

  function PrintFields(fields: seq<Field>): string
    decreases fields, 0
  {
    if |fields| == 0 then "}" else "," + (PrintField(fields[0]) + PrintFields(fields[1..]))
  }

  /** `canonicalizeJson`, before the text is encoded as UTF-8. */
  function CanonicalizeJson(payload: Json): Canonical {
    if !FloatFree(payload) then ArithmeticDrift else Text(Print(Normalize(payload)))
  }

  // ---------------------------------------------------------------- reading canonical text back

  datatype Read<T> = Got(value: T, rest: string) | Bad

  /** The code points that are written as a backslash and one letter. */
  predicate HasShortEscape(code: int) {
    code in {8, 9, 10, 12, 13}
  }

  /** One character of a string body, escaped exactly when section 3.2.2.2 of RFC 8785 asks for it. */
  function ReadChar(s: string): (r: Read<char>)
    ensures r.Got? ==> |r.rest| < |s|
  {
    if |s| == 0 || s[0] == '"' || s[0] as int < 32 then Bad
    else if s[0] != '\\' then Got(s[0], s[1..])
    else if |s| < 2 then Bad
    else if s[1] == 'u' then
      if |s| < 6 || s[2] != '0' || s[3] != '0' || HexValue(s[4]) < 0 || HexValue(s[5]) < 0 then Bad
      else
        var code := 16 * HexValue(s[4]) + HexValue(s[5]);
        if code >= 32 || HasShortEscape(code) then Bad else Got(code as char, s[6..])
    else if s[1] == '"' || s[1] == '\\' then Got(s[1], s[2..])
    else if s[1] == 'n' then Got('\n', s[2..])
    else if s[1] == 'r' then Got('\r', s[2..])
    else if s[1] == 't' then Got('\t', s[2..])
    else if s[1] == 'b' then Got(8 as char, s[2..])
    else if s[1] == 'f' then Got(12 as char, s[2..])
    else Bad
  }

  /** A string body up to and including its closing quote. */
  function ReadChars(s: string): (r: Read<string>)
    ensures r.Got? ==> |r.rest| < |s|
  {
    if |s| > 0 && s[0] == '"' then Got("", s[1..])
    else
      match ReadChar(s)
      case Bad => Bad
      case Got(c, more) =>
        match ReadChars(more)
        case Got(t, rest) => Got([c] + t, rest)
        case Bad => Bad
  }

  /** Neither a leading zero nor a negative zero is a number. */
  function ReadNumber(s: string): (r: Read<Json>)
    ensures r.Got? ==> |r.rest| < |s|
  {
    var negative := |s| > 0 && s[0] == '-';
    var body := if negative then s[1..] else s;
    var k := DigitRun(body);
    if k == 0 || (body[0] == '0' && (k > 1 || negative)) then Bad
    else
      var n: int := NatValue(body[..k]);
      Got(Int(if negative then -n else n), body[k..])
  }

  function ReadWord(s: string): (r: Read<Json>)
    ensures r.Got? ==> |r.rest| < |s|
  {
    if "null" <= s then Got(Null, s[4..])
    else if "true" <= s then Got(Bool(true), s[4..])
    else if "false" <= s then Got(Bool(false), s[5..])
    else Bad
  }

  function ReadValue(s: string): (r: Read<Json>)
    ensures r.Got? ==> |r.rest| < |s|
    decreases |s|, 1
  {
    if |s| == 0 then Bad
    else if s[0] == '"' then
      match ReadChars(s[1..])
      case Got(t, rest) => Got(Str(t), rest)
      case Bad => Bad
    else if s[0] == '[' then
      match ReadArray(s[1..])
      case Got(items, rest) => Got(Arr(items), rest)
      case Bad => Bad
    else if s[0] == '{' then
      match ReadObject(s[1..])
      case Got(fields, rest) => Got(Obj(fields), rest)
      case Bad => Bad
    else if s[0] == '-' || IsDigit(s[0]) then ReadNumber(s)
    else ReadWord(s)
  }

  /** After the opening bracket. */
  function ReadArray(s: string): (r: Read<seq<Json>>)
    ensures r.Got? ==> |r.rest| < |s|
    decreases |s|, 2
  {
    if |s| > 0 && s[0] == ']' then Got([], s[1..])
    else
      match ReadValue(s)
      case Bad => Bad
      case Got(first, more) =>
        match ReadItems(more)
        case Got(items, rest) => Got([first] + items, rest)
        case Bad => Bad
  }

  /** After the opening brace. */
  function ReadObject(s: string): (r: Read<seq<Field>>)
    ensures r.Got? ==> |r.rest| < |s|
    decreases |s|, 2
  {
    if |s| > 0 && s[0] == '}' then Got([], s[1..])
    else
      match ReadField(s)
      case Bad => Bad
      case Got(first, more) =>
        match ReadFields(more)
        case Got(fields, rest) => Got([first] + fields, rest)
        case Bad => Bad
  }

  function ReadItems(s: string): (r: Read<seq<Json>>)
    ensures r.Got? ==> |r.rest| < |s|
    decreases |s|, 0
  {
    if |s| == 0 then Bad
    else if s[0] == ']' then Got([], s[1..])
    else if s[0] != ',' then Bad
    else
      match ReadValue(s[1..])
      case Bad => Bad
      case Got(first, more) =>
        match ReadItems(more)
        case Got(items, rest) => Got([first] + items, rest)
        case Bad => Bad
  }

  function ReadField(s: string): (r: Read<Field>)
    ensures r.Got? ==> |r.rest| < |s|
    decreases |s|, 0
  {
    if |s| == 0 || s[0] != '"' then Bad
    else
      match ReadChars(s[1..])
      case Bad => Bad
      case Got(key, more) =>
        if |more| == 0 || more[0] != ':' then Bad
        else
          match ReadValue(more[1..])
          case Got(v, rest) => Got(Field(key, v), rest)
          case Bad => Bad
  }

  function ReadFields(s: string): (r: Read<seq<Field>>)
    ensures r.Got? ==> |r.rest| < |s|
    decreases |s|, 0
  {
    if |s| == 0 then Bad
    else if s[0] == '}' then Got([], s[1..])
    else if s[0] != ',' then Bad
    else
      match ReadField(s[1..])
      case Bad => Bad
      case Got(first, more) =>
        match ReadFields(more)
        case Got(fields, rest) => Got([first] + fields, rest)
        case Bad => Bad
  }
}
