/** The mod-36 check character of a GSTIN (gstinValidator.py). */
module Gstin {

  const TABLE := "0123456789ABCDEFGHIJKLMNOPQRSTUVWXYZ"
  const RADIX := 36
  const PREFIX_LENGTH := 14

  datatype Checksum = Check(code: char) | ValueError

  predicate InTable(c: char) {
    '0' <= c <= '9' || 'A' <= c <= 'Z'
  }

  function Value(c: char): (v: nat)
    requires InTable(c)
    ensures v < RADIX && Letter(v) == c
  {
    if c <= '9' then c as int - '0' as int else c as int - 'A' as int + 10
  }

  function Letter(v: nat): (c: char)
    requires v < RADIX
    ensures InTable(c)
  {
    if v < 10 then ('0' as int + v) as char else ('A' as int + v - 10) as char
  }

  predicate ValidPrefix(s: string) {
    |s| == PREFIX_LENGTH && forall i :: 0 <= i < |s| ==> InTable(s[i])
  }

  /** A character's contribution: doubled at odd positions, and then its base-36 digits added. */
  function Digit(v: nat, index: nat): (d: nat)
    requires v < RADIX
    ensures d < RADIX
  {
    var product := v * (if index % 2 == 0 then 1 else 2);
    product / RADIX + product % RADIX
  }

  function SumTo(s: string, k: nat): nat
    requires ValidPrefix(s) && k <= |s|
  {
    if k == 0 then 0 else SumTo(s, k - 1) + Digit(Value(s[k - 1]), k - 1)
  }

  function Total(s: string): nat
    requires ValidPrefix(s)
  {
    SumTo(s, |s|)
  }

  function CheckCode(s: string): (c: nat)
    requires ValidPrefix(s)
    ensures c < RADIX && (Total(s) + c) % RADIX == 0
  {
    (RADIX - Total(s) % RADIX) % RADIX
  }

  function IndexIn(table: string, c: char): (i: nat)
    requires c in table
    ensures i < |table| && table[i] == c
  {
    if table[0] == c then 0 else 1 + IndexIn(table[1..], c)
  }

  /** The digits and then the letters, each once. */
  predicate IsTable(table: string) {
    |table| == RADIX && forall i :: 0 <= i < RADIX ==> table[i] == Letter(i)
  }

  lemma TableFits()
    ensures IsTable(TABLE)
  {
  }

  lemma TableIndex(table: string, c: char)
    requires IsTable(table)
    ensures c in table <==> InTable(c)
    ensures InTable(c) ==> IndexIn(table, c) == Value(c)
  {
    if InTable(c) {
      assert table[Value(c)] == c;
    }
  }

  lemma DigitOf(v: nat, index: nat, factor: nat)
    requires v < RADIX && factor == if index % 2 == 0 then 1 else 2
    ensures v * factor / RADIX + v * factor % RADIX == Digit(v, index)
  {
  }

  /** `cleaned` is the argument after `strip().upper()`. */
  method ComputeGstinChecksum(cleaned: string) returns (r: Checksum)
    ensures r == if ValidPrefix(cleaned) then Check(Letter(CheckCode(cleaned))) else ValueError
  {
    if |cleaned| != PREFIX_LENGTH {
      return ValueError;
    }
    var total: nat := 0;
    for idx := 0 to |cleaned|
      invariant forall i :: 0 <= i < idx ==> InTable(cleaned[i])
      invariant ValidPrefix(cleaned) ==> total == SumTo(cleaned, idx)
    {
      var found, val := Lookup(cleaned[idx]);
      if !found {
        return ValueError;
      }
      var factor := if idx % 2 == 0 then 1 else 2;
      DigitOf(val, idx, factor);
      var product := val * factor;
      total := total + (product / RADIX + product % RADIX);
    }
    var checkCode := (RADIX - total % RADIX) % RADIX;
    TableFits();
    return Check(TABLE[checkCode]);
  }

  /** `gstCharsTable.index(char)`, when the character is there. */
  method Lookup(c: char) returns (found: bool, val: nat)
    ensures found <==> InTable(c)
    ensures found ==> val == Value(c)
  {
    TableFits();
    TableIndex(TABLE, c);
    found := c in TABLE;
    val := if found then IndexIn(TABLE, c) else 0;
  }

  // ---------------------------------------------------------------- what the check character detects

  /** A doubled character contributes 2v, less 35 once it has two base-36 digits. */
  lemma DigitAt(v: nat, index: nat)
    requires v < RADIX
    ensures Digit(v, index) == if index % 2 == 0 then v else if v < 18 then 2 * v else 2 * v - 35
  {
  }

  lemma DigitInjective(v: nat, w: nat, index: nat)
    requires v < RADIX && w < RADIX
    ensures Digit(v, index) == Digit(w, index) <==> v == w
  {
    DigitAt(v, index);
    DigitAt(w, index);
  }

  lemma {:induction false} SumUpdate(s: string, i: nat, c: char, k: nat)
    requires ValidPrefix(s) && i < |s| && InTable(c) && k <= |s|
    ensures ValidPrefix(s[i := c])
    ensures SumTo(s[i := c], k) == SumTo(s, k) + (if i < k then Digit(Value(c), i) - Digit(Value(s[i]), i) else 0)
  {
    if k > 0 {
      SumUpdate(s, i, c, k - 1);
    }
  }

  /** Equal check codes mean equal totals modulo the radix. */
  lemma CodeFollowsResidue(a: nat, b: nat)
    ensures (RADIX - a % RADIX) % RADIX == (RADIX - b % RADIX) % RADIX <==> (b - a) % RADIX == 0
  {
  }

  lemma SmallMultiple(d: int)
    requires -RADIX < d < RADIX
    ensures d % RADIX == 0 <==> d == 0
  {
  }

  lemma CodesEqual(s: string, t: string)
    requires ValidPrefix(s) && ValidPrefix(t)
    ensures CheckCode(s) == CheckCode(t) <==> (Total(t) - Total(s)) % RADIX == 0
  {
    CodeFollowsResidue(Total(s), Total(t));
  }

  lemma ValuesTell(a: char, b: char)
    requires InTable(a) && InTable(b)
    ensures Value(a) == Value(b) <==> a == b
    ensures Value(a) == 0 <==> a == '0'
    ensures Value(a) == 35 <==> a == 'Z'
  {
  }

  /** Changing any one character changes the check character. */
  lemma SingleErrorDetected(s: string, i: nat, c: char)
    requires ValidPrefix(s) && i < |s| && InTable(c)
    ensures ValidPrefix(s[i := c])
    ensures CheckCode(s[i := c]) == CheckCode(s) <==> c == s[i]
  {
    var v, w := Value(s[i]), Value(c);
    DigitInjective(v, w, i);
    SumUpdate(s, i, c, |s|);
    CodesEqual(s[i := c], s);
    SmallMultiple(Digit(v, i) - Digit(w, i));
    ValuesTell(s[i], c);
  }

  function Swapped(s: string, i: nat): string
    requires i + 1 < |s|
  {
    s[i := s[i + 1]][i + 1 := s[i]]
  }

  /** How two neighbours contribute the other way round, less how they did. */
  function SwapDifference(v: nat, w: nat, i: nat): int
    requires v < RADIX && w < RADIX
  {
    Digit(w, i) + Digit(v, i + 1) - Digit(v, i) - Digit(w, i + 1)
  }

  lemma SwapUnseen(v: nat, w: nat, i: nat)
    requires v < RADIX && w < RADIX
    ensures SwapDifference(v, w, i) % RADIX == 0 <==> v == w || (v == 0 && w == 35) || (v == 35 && w == 0)
  {
    DigitAt(v, i);
    DigitAt(w, i);
    DigitAt(v, i + 1);
    DigitAt(w, i + 1);
    SmallMultiple(SwapDifference(v, w, i));
  }

  lemma SwapTotal(s: string, i: nat)
    requires ValidPrefix(s) && i + 1 < |s|
    ensures ValidPrefix(Swapped(s, i))
    ensures Total(Swapped(s, i)) - Total(s) == SwapDifference(Value(s[i]), Value(s[i + 1]), i)
  {
    SumUpdate(s, i, s[i + 1], |s|);
    SumUpdate(s[i := s[i + 1]], i + 1, s[i], |s|);
  }

  /** Swapping two neighbours changes the check character unless they are equal or are 0 and Z. */
  lemma TranspositionDetected(s: string, i: nat)
    requires ValidPrefix(s) && i + 1 < |s|
    ensures ValidPrefix(Swapped(s, i))
    ensures CheckCode(Swapped(s, i)) == CheckCode(s) <==>
            s[i] == s[i + 1] || (s[i] == '0' && s[i + 1] == 'Z') || (s[i] == 'Z' && s[i + 1] == '0')
  {
    SwapTotal(s, i);
    SwapUnseen(Value(s[i]), Value(s[i + 1]), i);
    CodesEqual(s, Swapped(s, i));
    ValuesTell(s[i], s[i + 1]);
    ValuesTell(s[i + 1], s[i]);
  }

  // ---------------------------------------------------------------- validation

  const GSTIN_LENGTH := 15

  predicate IsDigit(c: char) {
    '0' <= c <= '9'
  }

  predicate IsLetter(c: char) {
    'A' <= c <= 'Z'
  }

  predicate StateCode(tens: char, units: char) {
    || (tens == '0' && '1' <= units <= '9')
    || ('1' <= tens <= '2' && IsDigit(units))
    || (tens == '3' && '0' <= units <= '8')
  }

  /** gstinRegexPattern. */
  predicate WellShaped(s: string) {
    && |s| == GSTIN_LENGTH && StateCode(s[0], s[1])
    && (forall i :: 2 <= i < 7 ==> IsLetter(s[i])) && (forall i :: 7 <= i < 11 ==> IsDigit(s[i]))
    && IsLetter(s[11]) && (IsLetter(s[12]) || '1' <= s[12] <= '9') && s[13] == 'Z' && InTable(s[14])
  }

  lemma ShapedPrefix(s: string)
    requires WellShaped(s)
    ensures ValidPrefix(s[..PREFIX_LENGTH])
  {
  }

  predicate IsGstin(s: string) {
    WellShaped(s) && ValidPrefix(s[..PREFIX_LENGTH]) && s[PREFIX_LENGTH] == Letter(CheckCode(s[..PREFIX_LENGTH]))
  }

  method ValidateGstin(s: string) returns (valid: bool)
    ensures valid <==> IsGstin(s)
  {
    if |s| != GSTIN_LENGTH || !WellShaped(s) {
      return false;
    }
    ShapedPrefix(s);
    var expected := ComputeGstinChecksum(s[..PREFIX_LENGTH]);
    return expected == Check(s[PREFIX_LENGTH]);
  }

  /** Two valid numbers never differ in a single character. */
  lemma NoSingleError(s: string, i: nat, c: char)
    requires IsGstin(s) && i < |s| && IsGstin(s[i := c])
    ensures c == s[i]
  {
    var prefix := s[..PREFIX_LENGTH];
    if i < PREFIX_LENGTH {
      assert s[i := c][..PREFIX_LENGTH] == prefix[i := c];
      assert prefix[i := c][i] == c;
      SingleErrorDetected(prefix, i, c);
      LetterInjective(CheckCode(prefix), CheckCode(prefix[i := c]));
    } else {
      assert s[i := c][..PREFIX_LENGTH] == prefix;
    }
  }

  lemma LetterInjective(v: nat, w: nat)
    requires v < RADIX && w < RADIX
    ensures Letter(v) == Letter(w) <==> v == w
  {
  }

  /** The pattern keeps 0 and Z from trading places. */
  lemma ShapeForbidsZeroZ(s: string, i: nat)
    requires WellShaped(s) && i + 1 < PREFIX_LENGTH && WellShaped(Swapped(s, i))
    ensures !(s[i] == '0' && s[i + 1] == 'Z') && !(s[i] == 'Z' && s[i + 1] == '0')
  {
    assert Swapped(s, i)[i] == s[i + 1] && Swapped(s, i)[i + 1] == s[i];
    assert s[13] == 'Z' && Swapped(s, i)[13] == 'Z';
  }

  /** Nor does swapping two different neighbours ever lead from one valid number to another. */
  lemma NoTransposition(s: string, i: nat)
    requires IsGstin(s) && i + 1 < |s| && IsGstin(Swapped(s, i))
    ensures s[i] == s[i + 1]
  {
    var prefix := s[..PREFIX_LENGTH];
    if i + 1 < PREFIX_LENGTH {
      assert Swapped(s, i)[..PREFIX_LENGTH] == Swapped(prefix, i);
      TranspositionDetected(prefix, i);
      LetterInjective(CheckCode(prefix), CheckCode(Swapped(prefix, i)));
      ShapeForbidsZeroZ(s, i);
    } else {
      assert Swapped(s, i)[13] == s[14];
    }
  }

  // ---------------------------------------------------------------- the pattern and a known number

  /** The pattern position by position: state, five letters, four digits, letter, entity, Z, check character. */
  lemma ShapeByPosition(s: string)
    requires |s| == 15
    ensures WellShaped(s) ==
      ( && '0' <= s[0] <= '3' && '0' <= s[1] <= '9'
        && !(s[0] == '0' && s[1] == '0') && !(s[0] == '3' && s[1] == '9')
        && 'A' <= s[2] <= 'Z' && 'A' <= s[3] <= 'Z' && 'A' <= s[4] <= 'Z' && 'A' <= s[5] <= 'Z' && 'A' <= s[6] <= 'Z'
        && '0' <= s[7] <= '9' && '0' <= s[8] <= '9' && '0' <= s[9] <= '9' && '0' <= s[10] <= '9'
        && 'A' <= s[11] <= 'Z' && ('1' <= s[12] <= '9' || 'A' <= s[12] <= 'Z') && s[13] == 'Z'
        && ('0' <= s[14] <= '9' || 'A' <= s[14] <= 'Z'))
  {
  }

  /** What one more character adds. */
  lemma OneMore(s: string, k: nat, v: nat)
    requires ValidPrefix(s) && k < |s| && Value(s[k]) == v
    ensures SumTo(s, k + 1) == SumTo(s, k) + (if k % 2 == 0 then v else 2 * v / 36 + 2 * v % 36)
  {
    DigitAt(v, k);
  }

  lemma FirstQuarter(s: string)
    requires ValidPrefix(s) && s[0] == '2' && s[1] == '7' && s[2] == 'A' && s[3] == 'A'
    ensures SumTo(s, 4) == 46
  {
    OneMore(s, 0, 2);
    OneMore(s, 1, 7);
    OneMore(s, 2, 10);
    OneMore(s, 3, 10);
  }

  lemma SecondQuarter(s: string)
    requires ValidPrefix(s) && s[4] == 'P' && s[5] == 'F' && s[6] == 'U' && s[7] == '0' && SumTo(s, 4) == 46
    ensures SumTo(s, 8) == 131
  {
    OneMore(s, 4, 25);
    OneMore(s, 5, 15);
    OneMore(s, 6, 30);
    OneMore(s, 7, 0);
  }

  lemma ThirdQuarter(s: string)
    requires ValidPrefix(s) && s[8] == '9' && s[9] == '3' && s[10] == '9' && s[11] == 'F' && SumTo(s, 8) == 131
    ensures SumTo(s, 12) == 185
  {
    OneMore(s, 8, 9);
    OneMore(s, 9, 3);
    OneMore(s, 10, 9);
    OneMore(s, 11, 15);
  }

  lemma KnownTotal(s: string)
    requires s == "27AAPFU0939F1Z"
    ensures ValidPrefix(s) && Total(s) == 221
  {
    FirstQuarter(s);
    SecondQuarter(s);
    ThirdQuarter(s);
    OneMore(s, 12, 1);
    OneMore(s, 13, 35);
  }

  /** A registered number is accepted, and refused with any other check character. */
  lemma KnownNumber(s: string, prefix: string, c: char)
    requires prefix == "27AAPFU0939F1Z" && s == prefix + [c]
    ensures IsGstin(s) <==> c == 'V'
  {
    KnownTotal(prefix);
    assert CheckCode(prefix) == 31;
    KnownShape(s, prefix, c);
  }

  lemma KnownShape(s: string, prefix: string, c: char)
    requires prefix == "27AAPFU0939F1Z" && s == prefix + [c]
    ensures |s| == 15 && s[..PREFIX_LENGTH] == prefix && s[PREFIX_LENGTH] == c
    ensures WellShaped(s) <==> InTable(c)
  {
    assert forall i :: 0 <= i < 14 ==> s[i] == prefix[i];
    ShapeByPosition(s);
  }
}
