/** The string functions settings pass through. */
module Text {
  import opened Wrappers

  /** unicode.IsSpace. */
  predicate IsSpace(c: char) {
    || c == '\t' || c == '\n' || c == '\U{000B}' || c == '\U{000C}' || c == '\r' || c == ' '
    || c == '\U{0085}' || c == '\U{00A0}' || c == '\U{1680}' || ('\U{2000}' <= c <= '\U{200A}')
    || c == '\U{2028}' || c == '\U{2029}' || c == '\U{202F}' || c == '\U{205F}' || c == '\U{3000}'
  }

  function TrimLeft(s: string): string {
    if |s| > 0 && IsSpace(s[0]) then TrimLeft(s[1..]) else s
  }

  function TrimRight(s: string): string {
    if |s| > 0 && IsSpace(s[|s| - 1]) then TrimRight(s[..|s| - 1]) else s
  }

  /** strings.TrimSpace. */
  function Trim(s: string): string {
    TrimRight(TrimLeft(s))
  }

  /** No space at either end. */
  predicate Trimmed(s: string) {
    |s| > 0 ==> !IsSpace(s[0]) && !IsSpace(s[|s| - 1])
  }

  predicate AllSpace(s: string) {
    forall c :: c in s ==> IsSpace(c)
  }

  lemma {:induction false} TrimLeftSplits(s: string) returns (spaces: string)
    ensures s == spaces + TrimLeft(s) && AllSpace(spaces)
    ensures TrimLeft(s) == "" || !IsSpace(TrimLeft(s)[0])
  {
    if |s| > 0 && IsSpace(s[0]) {
      spaces := TrimLeftSplits(s[1..]);
      spaces := [s[0]] + spaces;
    } else {
      spaces := "";
    }
  }

  lemma {:induction false} TrimRightSplits(s: string) returns (spaces: string)
    ensures s == TrimRight(s) + spaces && AllSpace(spaces)
    ensures TrimRight(s) == "" || !IsSpace(TrimRight(s)[|TrimRight(s)| - 1])
  {
    if |s| > 0 && IsSpace(s[|s| - 1]) {
      spaces := TrimRightSplits(s[..|s| - 1]);
      spaces := spaces + [s[|s| - 1]];
      assert s == s[..|s| - 1] + [s[|s| - 1]];
    } else {
      spaces := "";
    }
  }

  /** Trimming takes space off the ends and nothing else. */
  lemma TrimSplits(s: string) returns (before: string, after: string)
    ensures s == before + Trim(s) + after && AllSpace(before) && AllSpace(after)
    ensures Trimmed(Trim(s))
  {
    before := TrimLeftSplits(s);
    after := TrimRightSplits(TrimLeft(s));
    hide TrimLeft, TrimRight;
    assert TrimLeft(s) == Trim(s) + after;
    if Trim(s) != "" {
      assert Trim(s)[0] == TrimLeft(s)[0];
    }
  }

  /** A string with no space at its ends passes unchanged; so trimming a second
      time, at another boundary, changes nothing. */
  lemma TrimIsIdentityOnTrimmed(s: string)
    ensures Trim(s) == s <==> Trimmed(s)
    ensures Trim(Trim(s)) == Trim(s)
  {
    var before, after := TrimSplits(s);
    if Trimmed(s) {
      assert TrimLeft(s) == s && TrimRight(s) == s;
    }
    assert TrimLeft(Trim(s)) == Trim(s) && TrimRight(Trim(s)) == Trim(s);
  }

  lemma BlankTrimsToNothing(s: string)
    ensures Trim(s) == "" <==> AllSpace(s)
  {
    var before, after := TrimSplits(s);
    if Trim(s) != "" {
      assert s[|before|] == Trim(s)[0];
    }
  }

  /** What strconv.ParseInt(s, 10, 64) accepts: an optional sign and at least
      one decimal digit. */
  predicate IsDigit(c: char) { '0' <= c <= '9' }

  predicate AllDigits(s: string) {
    |s| > 0 && forall i :: 0 <= i < |s| ==> IsDigit(s[i])
  }

  function Unsigned(s: string): string {
    if |s| > 0 && (s[0] == '+' || s[0] == '-') then s[1..] else s
  }

  function DigitsValue(s: string): nat
    requires forall i :: 0 <= i < |s| ==> IsDigit(s[i])
  {
    if |s| == 0 then 0
    else
      assert IsDigit(s[|s| - 1]);
      10 * DigitsValue(s[..|s| - 1]) + (s[|s| - 1] - '0') as nat
  }

  const MIN_INT64: int := -0x8000_0000_0000_0000
  const MAX_INT64: int := 0x7fff_ffff_ffff_ffff

  function ParseInt(s: string): Option<int> {
    if !AllDigits(Unsigned(s)) then None
    else
      var magnitude: int := DigitsValue(Unsigned(s));
      var value := if s[0] == '-' then -magnitude else magnitude;
      if MIN_INT64 <= value <= MAX_INT64 then Some(value) else None
  }

  function Digit(d: nat): char
    requires d < 10
  {
    '0' + d as char
  }

  /** A number as it is usually written. */
  function Decimal(n: nat): string {
    if n < 10 then [Digit(n)] else Decimal(n / 10) + [Digit(n % 10)]
  }

  lemma {:induction false} DecimalReadsBack(n: nat)
    ensures AllDigits(Decimal(n)) && DigitsValue(Decimal(n)) == n
  {
    if n < 10 {
      assert DigitsValue([]) == 0;
      assert Decimal(n)[..0] == [];
    } else {
      var rest := Decimal(n / 10);
      DecimalReadsBack(n / 10);
      assert Decimal(n)[..|rest|] == rest;
    }
  }

  /** A number reads back from its decimal text, with or without a sign, exactly
      when 64 bits hold it. */
  lemma DecimalParses(n: nat)
    ensures ParseInt(Decimal(n)) == if n <= MAX_INT64 then Some(n) else None
    ensures ParseInt("+" + Decimal(n)) == if n <= MAX_INT64 then Some(n) else None
    ensures ParseInt("-" + Decimal(n)) == if n <= MAX_INT64 + 1 then Some(0 - n) else None
  {
    DecimalReadsBack(n);
    assert IsDigit(Decimal(n)[0]);
    assert ("+" + Decimal(n))[1..] == Decimal(n) && ("-" + Decimal(n))[1..] == Decimal(n);
  }

  lemma {:induction false} ZeroInFront(s: string)
    requires AllDigits(s)
    ensures AllDigits("0" + s) && DigitsValue("0" + s) == DigitsValue(s)
  {
    var rest := s[..|s| - 1];
    assert ("0" + s)[..|s|] == "0" + rest;
    if |s| == 1 {
      assert rest == "" && "0" + rest == "0" && "0"[..0] == "";
      assert DigitsValue("0") == 10 * DigitsValue("0"[..0]) + 0;
    } else {
      ZeroInFront(rest);
    }
  }

  /** Leading zeros do not count; anything but a sign and digits is no number. */
  lemma NumeralsOnly(s: string)
    ensures AllDigits(s) ==> ParseInt("0" + s) == ParseInt(s)
    ensures ParseInt(s).Some? ==>
              |s| > 0 && (IsDigit(s[0]) || (|s| > 1 && s[0] in {'+', '-'})) &&
              forall i :: 0 < i < |s| ==> '0' <= s[i] <= '9'
  {
    if AllDigits(s) {
      ZeroInFront(s);
      assert IsDigit(s[0]);
    }
    if ParseInt(s).Some? {
      forall i | 0 < i < |s| ensures IsDigit(s[i]) {
        assert IsDigit(if |Unsigned(s)| == |s| then Unsigned(s)[i] else Unsigned(s)[i - 1]);
      }
      assert |Unsigned(s)| == |s| ==> IsDigit(Unsigned(s)[0]);
    }
  }

  predicate AllZeros(s: string) {
    |s| > 0 && forall i :: 0 <= i < |s| ==> s[i] == '0'
  }

  lemma {:induction false} ZeroDigits(s: string)
    requires forall i :: 0 <= i < |s| ==> IsDigit(s[i])
    ensures DigitsValue(s) == 0 <==> forall i :: 0 <= i < |s| ==> s[i] == '0'
  {
    if |s| == 0 {
    } else {
      ZeroDigits(s[..|s| - 1]);
      assert forall i :: 0 <= i < |s| - 1 ==> s[..|s| - 1][i] == s[i];
    }
  }

  /** Text denotes zero only when it is written with zeros. */
  lemma ParsesToZero(s: string)
    ensures ParseInt(s) == Some(0) <==> AllZeros(Unsigned(s))
  {
    if AllDigits(Unsigned(s)) {
      ZeroDigits(Unsigned(s));
    }
  }

  /** strconv.ParseBool. */
  function ParseBool(s: string): Option<bool> {
    if s in {"1", "t", "T", "true", "TRUE", "True"} then Some(true)
    else if s in {"0", "f", "F", "false", "FALSE", "False"} then Some(false)
    else None
  }

  function Upper(s: string): string {
    seq(|s|, i requires 0 <= i < |s| => if 'a' <= s[i] <= 'z' then (s[i] as int - 32) as char else s[i])
  }

  /** A word in lower case, upper case or title case, or its first letter. */
  predicate Spells(s: string, word: string)
    requires |word| > 0
  {
    s == word || s == Upper(word) || s == Upper(word[..1]) + word[1..] || s == word[..1] || s == Upper(word[..1])
  }

  /** A truth value is a digit or a word in one of these spellings, and nothing
      else. */
  lemma BooleansAreSpelled(s: string)
    ensures ParseBool(s) == Some(true) <==> s == "1" || Spells(s, "true")
    ensures ParseBool(s) == Some(false) <==> s == "0" || Spells(s, "false")
  {
    assert Upper("true") == "TRUE" && Upper("t") == "T" && "true"[..1] == "t" && "True" == "T" + "true"[1..];
    assert Upper("false") == "FALSE" && Upper("f") == "F" && "false"[..1] == "f" && "False" == "F" + "false"[1..];
  }
}
