/** Python's int() on a base-10 string as the polygon lexer uses it, and str() of an integer as
    the parser's error message uses it. */
module Decimal {
  import opened Wrappers

  predicate IsDigit(c: char) {
    '0' <= c <= '9'
  }

  function DigitValue(c: char): (d: nat)
    requires IsDigit(c)
    ensures d < 10
  {
    (c as int) - ('0' as int)
  }

  function DigitChar(d: nat): (c: char)
    requires d < 10
    ensures IsDigit(c) && DigitValue(c) == d
  {
    (('0' as int) + d) as char
  }

  /** Only digits and underscores. */
  predicate DigitsOrUnderscores(s: string) {
    forall i :: 0 <= i < |s| ==> IsDigit(s[i]) || s[i] == '_'
  }

  /** What int() accepts after the sign: digits, with single underscores only between digits. */
  predicate ValidDigits(s: string) {
    && |s| > 0 && IsDigit(s[0]) && IsDigit(s[|s| - 1])
    && DigitsOrUnderscores(s)
    && (forall i :: 0 <= i < |s| - 1 ==> s[i] != '_' || s[i + 1] != '_')
  }

  /** The value of the digits, underscores skipped. */
  function DigitsValue(s: string): nat
    requires DigitsOrUnderscores(s)
    decreases |s|
  {
    if |s| == 0 then 0
    else
      var init := s[..|s| - 1];
      assert DigitsOrUnderscores(init) by {
        forall i | 0 <= i < |init| ensures IsDigit(init[i]) || init[i] == '_' {
          assert init[i] == s[i];
        }
      }
      if s[|s| - 1] == '_' then DigitsValue(init)
      else DigitsValue(init) * 10 + DigitValue(s[|s| - 1])
  }

  function Sign(c: char, n: nat): int {
    if c == '-' then -(n as int) else n
  }

  /** int(s): an optional sign, then valid digits; anything else is a ValueError, here None. */
  function ParseInt(s: string): (r: Option<int>)
    ensures r.Some? <==> ValidDigits(s) || (|s| > 0 && (s[0] == '+' || s[0] == '-') && ValidDigits(s[1..]))
    ensures r.Some? && ValidDigits(s) ==> r.value == DigitsValue(s)
    ensures r.Some? && !ValidDigits(s) ==> r.value == Sign(s[0], DigitsValue(s[1..]))
  {
    if |s| > 0 && (s[0] == '+' || s[0] == '-') then
      if ValidDigits(s[1..]) then Some(Sign(s[0], DigitsValue(s[1..]))) else None
    else if ValidDigits(s) then Some(DigitsValue(s))
    else None
  }

  /** str(n) for a natural number: its decimal digits, most significant first, no leading zero. */
  function NatToString(n: nat): (r: string)
    ensures |r| > 0 && (forall i :: 0 <= i < |r| ==> IsDigit(r[i]))
    ensures |r| > 1 ==> r[0] != '0'
    decreases n
  {
    if n < 10 then [DigitChar(n)]
    else NatToString(n / 10) + [DigitChar(n % 10)]
  }

  /** str(i): a minus sign before the digits of a negative number. */
  function IntToString(i: int): (r: string)
    ensures |r| > 0
    ensures i < 0 <==> r[0] == '-'
  {
    if i < 0 then "-" + NatToString(-i) else NatToString(i)
  }

  /* ---------------- Laws ---------------- */

  /** Reading back the digits str() writes gives the number. */
  lemma {:induction false} NatToStringValue(n: nat)
    ensures ValidDigits(NatToString(n))
    ensures DigitsValue(NatToString(n)) == n
    decreases n
  {
    var r := NatToString(n);
    if n >= 10 {
      NatToStringValue(n / 10);
      assert r[..|r| - 1] == NatToString(n / 10);
    }
  }

  /** int(str(i)) == i. */
  lemma ParseIntToString(i: int)
    ensures ParseInt(IntToString(i)) == Some(i)
  {
    if i < 0 {
      NatToStringValue(-i);
      assert IntToString(i)[1..] == NatToString(-i);
    } else {
      NatToStringValue(i);
    }
  }

  /** The forms int() accepts and refuses: signs, underscores between digits, and nothing else. */
  lemma ParseIntExamples()
    ensures ParseInt("42") == Some(42)
    ensures ParseInt("-7") == Some(-7)
    ensures ParseInt("+7") == Some(7)
    ensures ParseInt("1_000") == Some(1000)
    ensures ParseInt("") == None
    ensures ParseInt("1__0") == None
    ensures ParseInt("_1") == None
    ensures ParseInt("1_") == None
    ensures ParseInt("x") == None
  {
    assert "42"[..1] == "4" && "4"[..0] == "";
    assert DigitsValue("4") == 4;
    assert DigitsValue("42") == 42;
    assert "1_000"[..4] == "1_00" && "1_00"[..3] == "1_0" && "1_0"[..2] == "1_" && "1_"[..1] == "1";
    assert "-7"[1..] == "7" && "+7"[1..] == "7";
    assert "1__0"[1] == '_' && "1__0"[2] == '_';
  }
}
