/** The reader of CanonicalJson undoes its printer, so the printed text fixes the value. */
module CanonicalRoundTrip {
  import opened Decimals
  import opened CanonicalJson

  predicate Delimited(rest: string) {
    |rest| == 0 || !IsDigit(rest[0])
  }

  lemma Assoc(a: string, b: string, c: string)
    ensures (a + b) + c == a + (b + c)
  {
  }

  /** One escaped character reads back as itself. */
  lemma ReadEscapedChar(c: char, more: string)
    ensures ReadChar(EscapeChar(c) + more) == Got(c, more)
  {
    var e := EscapeChar(c);
    var s := e + more;
    assert s[0] == e[0] && s[|e|..] == more;
    if |e| == 2 {
      assert s[1] == e[1];
    } else if |e| > 2 {
      assert e == "\\u00" + [HexChar(c as int / 16), HexChar(c as int % 16)];
      assert s[1] == e[1] && s[2] == e[2] && s[3] == e[3] && s[4] == e[4] && s[5] == e[5];
      assert 16 * HexValue(s[4]) + HexValue(s[5]) == c as int;
    }
  }

  lemma {:induction false} ReadEscaped(t: string, rest: string)
    ensures ReadChars(Escape(t) + ("\"" + rest)) == Got(t, rest)
  {
    if |t| == 0 {
      var s := Escape(t) + ("\"" + rest);
      assert s == "\"" + rest && s[1..] == rest;
    } else {
      var e, body, more := EscapeChar(t[0]), Escape(t[1..]), Escape(t[1..]) + ("\"" + rest);
      ReadEscaped(t[1..], rest);
      ReadEscapedChar(t[0], more);
      Assoc(e, body, "\"" + rest);
      assert (e + more)[0] == e[0] != '"';
      assert t == [t[0]] + t[1..];
    }
  }

  lemma ReadNatText(m: nat, rest: string)
    requires Delimited(rest)
    ensures var body := NatText(m) + rest; var k := DigitRun(body);
            k > 0 && NatValue(body[..k]) == m && body[k..] == rest
  {
    var d := NatText(m);
    DigitRunOf(d, rest);
    assert (d + rest)[..|d|] == d && (d + rest)[|d|..] == rest;
    NatRoundTrip(m);
  }

  lemma Behead(c: char, a: string, rest: string)
    ensures (([c] + a) + rest)[0] == c
    ensures (([c] + a) + rest)[1..] == a + rest
  {
  }

  lemma ReadNegative(d: string, m: int, rest: string)
    requires var k := DigitRun(d); k > 0 && NatValue(d[..k]) == m && d[k..] == rest && d[0] != '0'
    ensures ReadNumber("-" + d) == Got(Int(-m), rest)
  {
    assert ("-" + d)[1..] == d;
  }

  lemma ReadNumberText(n: int, rest: string)
    requires Delimited(rest)
    ensures ReadNumber(IntText(n) + rest) == Got(Int(n), rest)
  {
    var m := if n < 0 then -n else n;
    var d := NatText(m) + rest;
    ReadNatText(m, rest);
    if n < 0 {
      ReadNegative(d, m, rest);
      Assoc("-", NatText(m), rest);
    } else {
      assert IsDigit(d[0]);
    }
  }

  // How ReadValue chooses its case from the first character.

  lemma ValueString(s: string, t: string, rest: string)
    requires |s| > 0 && s[0] == '"' && ReadChars(s[1..]) == Got(t, rest)
    ensures ReadValue(s) == Got(Str(t), rest)
  {
  }

  lemma ValueArray(s: string, items: seq<Json>, rest: string)
    requires |s| > 0 && s[0] == '[' && ReadArray(s[1..]) == Got(items, rest)
    ensures ReadValue(s) == Got(Arr(items), rest)
  {
  }

  lemma ValueObject(s: string, fields: seq<Field>, rest: string)
    requires |s| > 0 && s[0] == '{' && ReadObject(s[1..]) == Got(fields, rest)
    ensures ReadValue(s) == Got(Obj(fields), rest)
  {
  }

  lemma ValueNumber(s: string)
    requires |s| > 0 && (s[0] == '-' || IsDigit(s[0]))
    ensures ReadValue(s) == ReadNumber(s)
  {
  }

  lemma ArrayStep(s: string, v: Json, more: string, items: seq<Json>, rest: string)
    requires |s| > 0 && s[0] != ']'
    requires ReadValue(s) == Got(v, more) && ReadItems(more) == Got(items, rest)
    ensures ReadArray(s) == Got([v] + items, rest)
  {
  }

  lemma ItemsStep(s: string, v: Json, more: string, items: seq<Json>, rest: string)
    requires |s| > 0 && s[0] == ','
    requires ReadValue(s[1..]) == Got(v, more) && ReadItems(more) == Got(items, rest)
    ensures ReadItems(s) == Got([v] + items, rest)
  {
  }

  lemma ObjectStep(s: string, f: Field, more: string, fields: seq<Field>, rest: string)
    requires |s| > 0 && s[0] != '}'
    requires ReadField(s) == Got(f, more) && ReadFields(more) == Got(fields, rest)
    ensures ReadObject(s) == Got([f] + fields, rest)
  {
  }

  lemma FieldsStep(s: string, f: Field, more: string, fields: seq<Field>, rest: string)
    requires |s| > 0 && s[0] == ','
    requires ReadField(s[1..]) == Got(f, more) && ReadFields(more) == Got(fields, rest)
    ensures ReadFields(s) == Got([f] + fields, rest)
  {
  }

  lemma FieldStep(s: string, key: string, v: Json, more: string, rest: string)
    requires |s| > 0 && s[0] == '"' && ReadChars(s[1..]) == Got(key, more)
    requires |more| > 0 && more[0] == ':' && ReadValue(more[1..]) == Got(v, rest)
    ensures ReadField(s) == Got(Field(key, v), rest)
  {
  }

  lemma PrintStart(j: Json)
    requires FloatFree(j)
    ensures |Print(j)| > 0 && Print(j)[0] != ']'
  {
  }

  lemma ReadPrintedWord(j: Json, rest: string)
    requires j.Null? || j.Bool?
    ensures ReadValue(Print(j) + rest) == Got(j, rest)
  {
    var word := Print(j);
    var s := word + rest;
    assert s[0] == word[0] && word <= s && s[|word|..] == rest;
  }

  lemma ReadPrintedInt(n: int, rest: string)
    requires Delimited(rest)
    ensures ReadValue(IntText(n) + rest) == Got(Int(n), rest)
  {
    var t := IntText(n);
    ReadNumberText(n, rest);
    assert t[0] == '-' || IsDigit(t[0]);
    assert (t + rest)[0] == t[0];
    ValueNumber(t + rest);
  }

  lemma QuotedText(t: string, rest: string)
    ensures (PrintString(t) + rest)[0] == '"'
    ensures (PrintString(t) + rest)[1..] == Escape(t) + ("\"" + rest)
  {
  }

  lemma ReadPrintedString(t: string, rest: string)
    ensures ReadValue(PrintString(t) + rest) == Got(Str(t), rest)
  {
    QuotedText(t, rest);
    ReadEscaped(t, rest);
    ValueString(PrintString(t) + rest, t, rest);
  }

  lemma {:induction false} ReadPrinted(j: Json, rest: string)
    requires FloatFree(j) && Delimited(rest)
    ensures ReadValue(Print(j) + rest) == Got(j, rest)
    decreases j, 1
  {
    match j
    case Null => ReadPrintedWord(j, rest);
    case Bool(b) => ReadPrintedWord(j, rest);
    case Int(n) => ReadPrintedInt(n, rest);
    case Str(t) => ReadPrintedString(t, rest);
    case Arr(items) =>
      ReadPrintedArray(items, rest);
      Behead('[', PrintArray(items), rest);
      ValueArray(Print(j) + rest, items, rest);
    case Obj(fields) =>
      ReadPrintedObject(fields, rest);
      Behead('{', PrintObject(fields), rest);
      ValueObject(Print(j) + rest, fields, rest);
  }

  lemma {:induction false} ReadPrintedArray(items: seq<Json>, rest: string)
    requires FloatFreeAll(items) && Delimited(rest)
    ensures ReadArray(PrintArray(items) + rest) == Got(items, rest)
    decreases items, 0
  {
    if |items| == 0 {
      assert ("]" + rest)[0] == ']' && ("]" + rest)[1..] == rest;
    } else {
      var head, tail := Print(items[0]), PrintItems(items[1..]) + rest;
      Assoc(head, PrintItems(items[1..]), rest);
      PrintStart(items[0]);
      assert (head + tail)[0] == head[0];
      ReadPrinted(items[0], tail);
      ReadPrintedItems(items[1..], rest);
      ArrayStep(head + tail, items[0], tail, items[1..], rest);
      assert items == [items[0]] + items[1..];
    }
  }

  lemma {:induction false} ReadPrintedItems(items: seq<Json>, rest: string)
    requires FloatFreeAll(items) && Delimited(rest)
    ensures ReadItems(PrintItems(items) + rest) == Got(items, rest)
    decreases items, 0
  {
    if |items| == 0 {
      assert ("]" + rest)[1..] == rest;
    } else {
      var head, tail := Print(items[0]), PrintItems(items[1..]) + rest;
      Behead(',', head + PrintItems(items[1..]), rest);
      Assoc(head, PrintItems(items[1..]), rest);
      ReadPrinted(items[0], tail);
      ReadPrintedItems(items[1..], rest);
      ItemsStep(PrintItems(items) + rest, items[0], tail, items[1..], rest);
      assert items == [items[0]] + items[1..];
    }
  }

  lemma {:induction false} ReadPrintedField(f: Field, rest: string)
    requires FloatFree(f.value) && Delimited(rest)
    ensures ReadField(PrintField(f) + rest) == Got(f, rest)
    decreases f, 2
  {
    var text := Print(f.value) + rest;
    var more := ":" + text;
    ReadPrinted(f.value, rest);
    Assoc(PrintString(f.key), ":" + Print(f.value), rest);
    Assoc(":", Print(f.value), rest);
    QuotedText(f.key, more);
    ReadEscaped(f.key, more);
    assert more[1..] == text;
    FieldStep(PrintString(f.key) + more, f.key, f.value, more, rest);
  }

  lemma ReadEmptyObject(rest: string)
    ensures PrintObject([]) + rest == "}" + rest
    ensures ReadObject("}" + rest) == Got([], rest)
  {
    assert ("}" + rest)[0] == '}' && ("}" + rest)[1..] == rest;
  }

  lemma FieldStart(f: Field, tail: string)
    ensures |PrintField(f)| > 0 && (PrintField(f) + tail)[0] == '"'
  {
  }

  lemma ObjectText(fields: seq<Field>, rest: string)
    requires |fields| > 0
    ensures PrintObject(fields) + rest == PrintField(fields[0]) + (PrintFields(fields[1..]) + rest)
    ensures [fields[0]] + fields[1..] == fields
  {
    Assoc(PrintField(fields[0]), PrintFields(fields[1..]), rest);
  }

  lemma {:induction false} ReadPrintedObject(fields: seq<Field>, rest: string)
    requires FloatFreeFields(fields) && Delimited(rest)
    ensures ReadObject(PrintObject(fields) + rest) == Got(fields, rest)
    decreases fields, 0
  {
    if |fields| == 0 {
      ReadEmptyObject(rest);
    } else {
      var tail := PrintFields(fields[1..]) + rest;
      ObjectText(fields, rest);
      FieldStart(fields[0], tail);
      ReadPrintedField(fields[0], tail);
      ReadPrintedFields(fields[1..], rest);
      ObjectStep(PrintObject(fields) + rest, fields[0], tail, fields[1..], rest);
    }
  }

  lemma ReadNoFields(rest: string)
    ensures PrintFields([]) + rest == "}" + rest
    ensures ReadFields("}" + rest) == Got([], rest)
  {
    assert ("}" + rest)[1..] == rest;
  }

  /** The text of the remaining fields, taken apart. */
  lemma FieldsText(fields: seq<Field>, rest: string)
    requires |fields| > 0
    ensures var s := PrintFields(fields) + rest;
            |s| > 0 && s[0] == ',' && s[1..] == PrintField(fields[0]) + (PrintFields(fields[1..]) + rest)
    ensures [fields[0]] + fields[1..] == fields
  {
    var head := PrintField(fields[0]);
    Behead(',', head + PrintFields(fields[1..]), rest);
    Assoc(head, PrintFields(fields[1..]), rest);
  }

  lemma {:induction false} ReadPrintedFields(fields: seq<Field>, rest: string)
    requires FloatFreeFields(fields) && Delimited(rest)
    ensures ReadFields(PrintFields(fields) + rest) == Got(fields, rest)
    decreases fields, 0
  {
    if |fields| == 0 {
      ReadNoFields(rest);
    } else {
      var tail := PrintFields(fields[1..]) + rest;
      FieldsText(fields, rest);
      ReadPrintedField(fields[0], tail);
      ReadPrintedFields(fields[1..], rest);
      FieldsStep(PrintFields(fields) + rest, fields[0], tail, fields[1..], rest);
    }
  }

  lemma PrintInjective(a: Json, b: Json)
    requires FloatFree(a) && FloatFree(b)
    requires Print(a) == Print(b)
    ensures a == b
  {
    ReadPrinted(a, "");
    ReadPrinted(b, "");
    assert Print(a) + "" == Print(a) && Print(b) + "" == Print(b);
  }
}
