/** The converse of the round trip: the reader accepts nothing but printed text, so the two fix each other. */
module CanonicalReader {
  import opened Decimals
  import opened CanonicalJson
  import opened CanonicalRoundTrip

  lemma ReadsOnlyEscaped(s: string)
    requires ReadChar(s).Got?
    ensures s == EscapeChar(ReadChar(s).value) + ReadChar(s).rest
  {
    var c, rest := ReadChar(s).value, ReadChar(s).rest;
    if s[0] == '\\' && s[1] == 'u' {
      HexOf(s[4]);
      HexOf(s[5]);
      assert s == s[..6] + rest && s[..6] == "\\u00" + [s[4], s[5]];
    } else if s[0] == '\\' {
      assert s == s[..2] + rest && s[..2] == ['\\', s[1]];
    } else {
      assert s == s[..1] + rest;
    }
  }

  lemma HexOf(c: char)
    ensures HexValue(c) >= 0 ==> HexValue(c) < 16 && HexChar(HexValue(c)) == c
  {
  }

  lemma {:induction false} ReadsOnlyStrings(s: string)
    requires ReadChars(s).Got?
    ensures s == Escape(ReadChars(s).value) + ("\"" + ReadChars(s).rest)
    decreases |s|
  {
    if s[0] == '"' {
      assert s == "\"" + s[1..] && ReadChars(s).value == "" && Escape("") == "";
      assert Escape("") + ("\"" + s[1..]) == "\"" + s[1..];
    } else {
      var c, more := ReadChar(s).value, ReadChar(s).rest;
      var t, rest := ReadChars(more).value, ReadChars(more).rest;
      ReadsOnlyEscaped(s);
      ReadsOnlyStrings(more);
      assert ReadChars(s).value == [c] + t && ([c] + t)[0] == c && ([c] + t)[1..] == t;
      Assoc(EscapeChar(c), Escape(t), "\"" + rest);
    }
  }

  lemma ReadsOnlyNumbers(s: string)
    requires ReadNumber(s).Got?
    ensures ReadNumber(s).value.Int? && s == IntText(ReadNumber(s).value.n) + ReadNumber(s).rest
  {
    var negative := s[0] == '-';
    var body := if negative then s[1..] else s;
    var k := DigitRun(body);
    var digits := body[..k];
    assert Plain(digits);
    PlainText(digits);
    assert body == digits + body[k..];
    if negative {
      PlainPositive(digits);
      assert s == "-" + body;
      Assoc("-", digits, body[k..]);
    }
  }

  lemma ReadsOnlyWords(s: string)
    requires ReadWord(s).Got?
    ensures s == Print(ReadWord(s).value) + ReadWord(s).rest
  {
  }

  lemma QuotedBody(s: string)
    requires |s| > 0 && s[0] == '"' && ReadChars(s[1..]).Got?
    ensures s == PrintString(ReadChars(s[1..]).value) + ReadChars(s[1..]).rest
  {
    var t, rest := ReadChars(s[1..]).value, ReadChars(s[1..]).rest;
    ReadsOnlyStrings(s[1..]);
    assert s == "\"" + s[1..];
    Assoc("\"", Escape(t), "\"" + rest);
    Assoc("\"" + Escape(t), "\"", rest);
    assert "\"" + (Escape(t) + ("\"" + rest)) == ("\"" + Escape(t)) + ("\"" + rest);
  }

  /** Whatever the reader accepts is what the printer prints. */
  lemma {:induction false} ReadsOnlyPrinted(s: string)
    requires ReadValue(s).Got?
    ensures s == Print(ReadValue(s).value) + ReadValue(s).rest
    ensures FloatFree(ReadValue(s).value)
    decreases |s|, 1
  {
    if s[0] == '"' {
      QuotedBody(s);
    } else if s[0] == '[' {
      ReadsOnlyArrays(s[1..]);
      var items, rest := ReadArray(s[1..]).value, ReadArray(s[1..]).rest;
      Assoc("[", PrintArray(items), rest);
      assert s == "[" + s[1..];
    } else if s[0] == '{' {
      ReadsOnlyObjects(s[1..]);
      var fields, rest := ReadObject(s[1..]).value, ReadObject(s[1..]).rest;
      Assoc("{", PrintObject(fields), rest);
      assert s == "{" + s[1..];
    } else if s[0] == '-' || IsDigit(s[0]) {
      ReadsOnlyNumbers(s);
    } else {
      ReadsOnlyWords(s);
    }
  }

  lemma {:induction false} ReadsOnlyArrays(s: string)
    requires ReadArray(s).Got?
    ensures s == PrintArray(ReadArray(s).value) + ReadArray(s).rest
    ensures FloatFreeAll(ReadArray(s).value)
    decreases |s|, 2
  {
    if |s| > 0 && s[0] == ']' {
      assert s == "]" + s[1..];
    } else {
      var first, more := ReadValue(s).value, ReadValue(s).rest;
      var items, rest := ReadItems(more).value, ReadItems(more).rest;
      ReadsOnlyPrinted(s);
      ReadsOnlyItems(more);
      assert ([first] + items)[0] == first && ([first] + items)[1..] == items;
      Assoc(Print(first), PrintItems(items), rest);
    }
  }

  lemma {:induction false} ReadsOnlyItems(s: string)
    requires ReadItems(s).Got?
    ensures s == PrintItems(ReadItems(s).value) + ReadItems(s).rest
    ensures FloatFreeAll(ReadItems(s).value)
    decreases |s|, 0
  {
    if s[0] == ']' {
      assert s == "]" + s[1..];
    } else {
      var first, more := ReadValue(s[1..]).value, ReadValue(s[1..]).rest;
      var items, rest := ReadItems(more).value, ReadItems(more).rest;
      ReadsOnlyPrinted(s[1..]);
      ReadsOnlyItems(more);
      assert ([first] + items)[0] == first && ([first] + items)[1..] == items;
      assert s == "," + s[1..];
      Assoc(Print(first), PrintItems(items), rest);
      Assoc(",", Print(first) + PrintItems(items), rest);
    }
  }

  lemma {:induction false} ReadsOnlyFieldText(s: string)
    requires ReadField(s).Got?
    ensures s == PrintField(ReadField(s).value) + ReadField(s).rest
    ensures FloatFree(ReadField(s).value.value)
    decreases |s|, 0
  {
    var key, more := ReadChars(s[1..]).value, ReadChars(s[1..]).rest;
    var v, rest := ReadValue(more[1..]).value, ReadValue(more[1..]).rest;
    QuotedBody(s);
    ReadsOnlyPrinted(more[1..]);
    assert more == ":" + more[1..];
    Assoc(":", Print(v), rest);
    Assoc(PrintString(key), ":" + Print(v), rest);
  }

  lemma {:induction false} ReadsOnlyObjects(s: string)
    requires ReadObject(s).Got?
    ensures s == PrintObject(ReadObject(s).value) + ReadObject(s).rest
    ensures FloatFreeFields(ReadObject(s).value)
    decreases |s|, 2
  {
    if |s| > 0 && s[0] == '}' {
      assert s == "}" + s[1..];
    } else {
      var first, more := ReadField(s).value, ReadField(s).rest;
      var fields, rest := ReadFields(more).value, ReadFields(more).rest;
      ReadsOnlyFieldText(s);
      ReadsOnlyFields(more);
      assert ([first] + fields)[0] == first && ([first] + fields)[1..] == fields;
      Assoc(PrintField(first), PrintFields(fields), rest);
    }
  }

  lemma {:induction false} ReadsOnlyFields(s: string)
    requires ReadFields(s).Got?
    ensures s == PrintFields(ReadFields(s).value) + ReadFields(s).rest
    ensures FloatFreeFields(ReadFields(s).value)
    decreases |s|, 0
  {
    if s[0] == '}' {
      assert s == "}" + s[1..];
    } else {
      var first, more := ReadField(s[1..]).value, ReadField(s[1..]).rest;
      var fields, rest := ReadFields(more).value, ReadFields(more).rest;
      ReadsOnlyFieldText(s[1..]);
      ReadsOnlyFields(more);
      assert ([first] + fields)[0] == first && ([first] + fields)[1..] == fields;
      assert s == "," + s[1..];
      Assoc(PrintField(first), PrintFields(fields), rest);
      Assoc(",", PrintField(first) + PrintFields(fields), rest);
    }
  }

  // ---------------------------------------------------------------- the text itself

  /** What `json.dumps` writes for each character; everything else, rupee signs included, stays as it is. */
  lemma EscapeTable(c: char)
    ensures EscapeChar('"') == "\\\"" && EscapeChar('\\') == "\\\\"
    ensures EscapeChar('\n') == "\\n" && EscapeChar('\r') == "\\r" && EscapeChar('\t') == "\\t"
    ensures EscapeChar(8 as char) == "\\b" && EscapeChar(12 as char) == "\\f"
    ensures c as int < 32 && c as int !in {8, 9, 10, 12, 13} ==>
      EscapeChar(c) == "\\u00" + ["0123456789abcdef"[c as int / 16], "0123456789abcdef"[c as int % 16]]
    ensures c as int >= 32 && c != '"' && c != '\\' ==> EscapeChar(c) == [c]
  {
    if c as int < 32 {
      HexDigitsInOrder(c as int / 16);
      HexDigitsInOrder(c as int % 16);
    }
  }

  /** Numbers end in the digit of their remainder and go on with the text of their tenth. */
  lemma NumberText(n: nat)
    ensures n < 10 ==> IntText(n) == ["0123456789"[n]]
    ensures n >= 10 ==> IntText(n) == IntText(n / 10) + ["0123456789"[n % 10]]
    ensures n > 0 ==> IntText(0 - n) == "-" + IntText(n)
  {
    DigitsInOrder(n % 10);
  }

  /** Texts with commas between them. */
  function Join(texts: seq<string>): string {
    if |texts| == 0 then "" else if |texts| == 1 then texts[0] else texts[0] + "," + Join(texts[1..])
  }

  function ItemTexts(items: seq<Json>): (r: seq<string>)
    ensures |r| == |items|
  {
    seq(|items|, i requires 0 <= i < |items| => Print(items[i]))
  }

  function FieldTexts(fields: seq<Field>): (r: seq<string>)
    ensures |r| == |fields|
  {
    seq(|fields|, i requires 0 <= i < |fields| => "\"" + Escape(fields[i].key) + "\":" + Print(fields[i].value))
  }

  lemma {:induction false} ItemsJoined(items: seq<Json>)
    ensures PrintItems(items) == (if |items| == 0 then "" else "," + Join(ItemTexts(items))) + "]"
  {
    if |items| > 0 {
      ItemsJoined(items[1..]);
      JoinItems(items);
    }
  }

  lemma JoinItems(items: seq<Json>)
    requires |items| > 0
    ensures Join(ItemTexts(items)) ==
            Print(items[0]) + (if |items| == 1 then "" else "," + Join(ItemTexts(items[1..])))
  {
    assert ItemTexts(items)[1..] == ItemTexts(items[1..]);
  }

  lemma {:induction false} FieldsJoined(fields: seq<Field>)
    ensures PrintFields(fields) == (if |fields| == 0 then "" else "," + Join(FieldTexts(fields))) + "}"
  {
    if |fields| > 0 {
      FieldsJoined(fields[1..]);
      JoinFields(fields);
    }
  }

  lemma FieldText(f: Field)
    ensures PrintField(f) == "\"" + Escape(f.key) + "\":" + Print(f.value)
  {
  }

  lemma JoinFields(fields: seq<Field>)
    requires |fields| > 0
    ensures Join(FieldTexts(fields)) ==
            PrintField(fields[0]) + (if |fields| == 1 then "" else "," + Join(FieldTexts(fields[1..])))
  {
    FieldText(fields[0]);
    assert FieldTexts(fields)[1..] == FieldTexts(fields[1..]);
  }

  /** The compact form: words, brackets, and items or fields with commas between them and no spaces. */
  lemma CompactText(j: Json)
    ensures match j
            case Null => Print(j) == "null"
            case Bool(b) => Print(j) == if b then "true" else "false"
            case Int(n) => Print(j) == IntText(n)
            case Float(repr) => Print(j) == repr
            case Str(s) => Print(j) == "\"" + Escape(s) + "\""
            case Arr(items) => Print(j) == "[" + Join(ItemTexts(items)) + "]"
            case Obj(fields) => Print(j) == "{" + Join(FieldTexts(fields)) + "}"
  {
    match j
    case Arr(items) =>
      if |items| > 0 {
        ItemsJoined(items[1..]);
        JoinItems(items);
      }
    case Obj(fields) =>
      if |fields| > 0 {
        FieldsJoined(fields[1..]);
        JoinFields(fields);
      }
    case _ =>
  }

  /** One-letter keys come in the order of their letters. */
  lemma LettersInOrder(c: char, d: char)
    requires c as int < 128 && d as int < 128
    ensures KeyBefore([c], [d]) <==> c < d
  {
    assert [c][1..] == [] && [d][1..] == [];
    assert Utf16([c]) == [c as int] && Utf16([d]) == [d as int];
    SortOrderIsCodeUnitOrder([c], [d]);
  }

  /** {"z":10,"a":0} becomes {"a":0,"z":10}. */
  lemma SortedExample()
    ensures CanonicalizeJson(Obj([Field("z", Int(10)), Field("a", Int(0))])) == Text("{\"a\":0,\"z\":10}")
  {
    var z, a := Field("z", Int(10)), Field("a", Int(0));
    LettersInOrder('a', 'z');
    LettersInOrder('z', 'a');
    assert [z, a][1..] == [a] && [a][1..] == [];
    assert "a" == ['a'] && "z" == ['z'] && !LexLess(Utf16SortKey(z.key), Utf16SortKey(a.key));
    assert SortFields([a]) == [a] && InsertField(z, [a]) == [a] + InsertField(z, []);
    assert SortFields([z, a]) == InsertField(z, SortFields([a])) == [a, z];
    assert NormalizeFields([a]) == [a] && NormalizeFields([z, a]) == [z, a];
    SortedText(a, z);
  }

  lemma SortedText(a: Field, z: Field)
    requires a == Field("a", Int(0)) && z == Field("z", Int(10))
    ensures Print(Obj([a, z])) == "{\"a\":0,\"z\":10}"
  {
    CompactText(Obj([a, z]));
    NumberText(0);
    NumberText(10);
    EscapeTable('a');
    EscapeTable('z');
    assert "a"[1..] == "" && "z"[1..] == "";
    assert Escape("a") == "a" && Escape("z") == "z";
    var texts := FieldTexts([a, z]);
    assert texts[0] == "\"a\":0" && texts[1] == "\"z\":10" && texts[1..] == [texts[1]];
  }

  /** A pair of UTF-16 surrogates stands for the code point that it encodes. */
  lemma SurrogatesDecode(c: char)
    ensures var p, u := c as int, CodeUnits(c);
            if p < 0x10000 then u == [p]
            else |u| == 2 && 0xD800 <= u[0] < 0xDC00 <= u[1] < 0xE000 &&
                 p == 0x10000 + (u[0] - 0xD800) * 0x400 + (u[1] - 0xDC00)
  {
  }
}
