/** Text handling that identifiers, heights and store paths are built from:
    decimal printing and parsing of unsigned numbers, and splitting at a separator. */
module Text {
  import opened Wrappers

  const U64_MAX: nat := 0xFFFF_FFFF_FFFF_FFFF

  // ----- decimal numbers -----

  predicate IsDigit(c: char) {
    '0' <= c <= '9'
  }

  function DigitChar(d: nat): char
    requires d < 10
  {
    "0123456789"[d]
  }

  function DigitValue(c: char): nat
    requires IsDigit(c)
  {
    c as int - '0' as int
  }

  predicate AllDigits(s: string) {
    forall i | 0 <= i < |s| :: IsDigit(s[i])
  }

  /** Prints a number the way `Display` prints an unsigned integer. */
  function Decimal(n: nat): string {
    if n < 10 then [DigitChar(n)] else Decimal(n / 10) + [DigitChar(n % 10)]
  }

  /** The number a string of digits denotes; leading zeros are allowed. */
  function DigitsValue(s: string): nat
    requires AllDigits(s)
  {
    if s == [] then 0 else 10 * DigitsValue(s[..|s| - 1]) + DigitValue(s[|s| - 1])
  }

  /** `str::parse::<u64>`: one optional plus sign, at least one digit, nothing else, no overflow. */
  function ParseU64(s: string): Option<nat> {
    var digits := if s != [] && s[0] == '+' then s[1..] else s;
    if digits == [] || !AllDigits(digits) || DigitsValue(digits) > U64_MAX then None
    else Some(DigitsValue(digits))
  }

  /** The digit strings that `Decimal` produces. */
  predicate Canonical(s: string) {
    AllDigits(s) && s != [] && (s[0] == '0' ==> |s| == 1)
  }

  lemma {:induction false} DecimalCanonical(n: nat)
    ensures Canonical(Decimal(n))
    ensures DigitsValue(Decimal(n)) == n
    ensures Decimal(n)[0] == '0' <==> n == 0
  {
    if n < 10 {
    } else {
      DecimalCanonical(n / 10);
      var s := Decimal(n);
      assert s[..|s| - 1] == Decimal(n / 10);
    }
  }

  lemma {:induction false} CanonicalIsDecimal(s: string)
    requires Canonical(s)
    ensures Decimal(DigitsValue(s)) == s
  {
    if |s| == 1 {
      assert DigitsValue(s) == DigitValue(s[0]) by { assert DigitsValue(s[..0]) == 0; }
    } else {
      var t := s[..|s| - 1];
      CanonicalIsDecimal(t);
      DecimalCanonical(DigitsValue(t));
      assert DigitsValue(t) > 0;
      assert s == t + [s[|s| - 1]];
    }
  }

  lemma DigitsFree(sep: char, s: string)
    requires AllDigits(s) && !IsDigit(sep)
    ensures sep !in s
  {
    forall i | 0 <= i < |s|
      ensures s[i] != sep
    {
      assert IsDigit(s[i]);
    }
  }

  lemma DecimalInjective(m: nat, n: nat)
    requires Decimal(m) == Decimal(n)
    ensures m == n
  {
    DecimalCanonical(m);
    DecimalCanonical(n);
  }

  /** Parsing undoes printing for exactly the numbers that fit 64 bits. */
  lemma ParseDecimal(n: nat)
    ensures ParseU64(Decimal(n)) == if n < 0x1_0000_0000_0000_0000 then Some(n) else None
  {
    DecimalCanonical(n);
  }

  /** Numbers may have leading zeros and one plus sign; nothing else may stand around the digits. */
  lemma ParseExamples()
    ensures ParseU64("007") == Some(7) && ParseU64("+7") == Some(7)
    ensures ParseU64("").None? && ParseU64("+").None? && ParseU64("-7").None? && ParseU64(" 7").None?
  {
    assert "+7"[1..] == "7" && "+"[1..] == "";
    assert "007"[..2] == "00" && "00"[..1] == "0" && "0"[..0] == "" && "7"[..0] == "";
    assert DigitsValue("0") == 0 && DigitsValue("00") == 0 && DigitsValue("7") == 7;
    assert !IsDigit("-7"[0]) && !IsDigit(" 7"[0]);
  }

  /** Printing undoes parsing for exactly the canonical inputs. */
  lemma DecimalParse(s: string)
    requires ParseU64(s).Some?
    ensures Decimal(ParseU64(s).value) == s <==> Canonical(s)
  {
    DecimalCanonical(ParseU64(s).value);
    if Canonical(s) {
      CanonicalIsDecimal(s);
    }
  }

  // ----- splitting and joining -----

  predicate Free(sep: char, s: string) {
    sep !in s
  }

  /** `str::split`: the pieces between separators, at least one. */
  function Split(sep: char, s: string): (pieces: seq<string>)
    ensures |pieces| > 0
  {
    if s == [] then [""]
    else
      var rest := Split(sep, s[1..]);
      if s[0] == sep then [""] + rest else [[s[0]] + rest[0]] + rest[1..]
  }

  function Join(sep: char, pieces: seq<string>): string
    requires |pieces| > 0
  {
    if |pieces| == 1 then pieces[0] else pieces[0] + [sep] + Join(sep, pieces[1..])
  }

  lemma {:induction false} SplitPrefix(sep: char, a: string, b: string)
    requires Free(sep, a)
    ensures Split(sep, a + b) == [a + Split(sep, b)[0]] + Split(sep, b)[1..]
  {
    if a == [] {
      assert a + b == b && a + Split(sep, b)[0] == Split(sep, b)[0];
    } else {
      assert (a + b)[1..] == a[1..] + b && (a + b)[0] == a[0];
      SplitPrefix(sep, a[1..], b);
      var x := Split(sep, b)[0];
      assert a + x == [a[0]] + (a[1..] + x);
    }
  }

  /** Splitting recovers the pieces that were joined, so joining is injective on free pieces. */
  lemma {:induction false} SplitJoin(sep: char, pieces: seq<string>)
    requires |pieces| > 0 && forall i | 0 <= i < |pieces| :: Free(sep, pieces[i])
    ensures Split(sep, Join(sep, pieces)) == pieces
  {
    if |pieces| == 1 {
      SplitPrefix(sep, pieces[0], "");
      assert pieces[0] + "" == pieces[0];
    } else {
      var tail := [sep] + Join(sep, pieces[1..]);
      SplitJoin(sep, pieces[1..]);
      SplitPrefix(sep, pieces[0], tail);
      assert tail[1..] == Join(sep, pieces[1..]);
      assert pieces[0] + tail == Join(sep, pieces);
      assert pieces[0] + "" == pieces[0];
    }
  }

  lemma {:induction false} JoinSplit(sep: char, s: string)
    ensures Join(sep, Split(sep, s)) == s
    ensures forall i | 0 <= i < |Split(sep, s)| :: Free(sep, Split(sep, s)[i])
  {
    if s == [] {
    } else {
      var rest := Split(sep, s[1..]);
      JoinSplit(sep, s[1..]);
      var pieces := Split(sep, s);
      if s[0] == sep {
        assert pieces == [""] + rest && pieces[1..] == rest;
        assert Join(sep, pieces) == "" + [sep] + Join(sep, rest);
      } else {
        assert pieces[0] == [s[0]] + rest[0] && pieces[1..] == rest[1..];
        assert Join(sep, pieces) == [s[0]] + Join(sep, rest);
      }
      assert s == [s[0]] + s[1..];
    }
  }

  /** The last piece is what follows the last separator. */
  lemma {:induction false} SplitLast(sep: char, a: string, b: string)
    requires Free(sep, b)
    ensures var pieces := Split(sep, a + [sep] + b); |pieces| > 1 && pieces[|pieces| - 1] == b
  {
    var s := a + [sep] + b;
    if a == [] {
      assert s[1..] == b;
      SplitPrefix(sep, b, "");
      assert b + "" == b;
    } else {
      assert s[1..] == a[1..] + [sep] + b;
      SplitLast(sep, a[1..], b);
    }
  }
}
