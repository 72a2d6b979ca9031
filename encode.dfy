/**
 * The text encoder applied to dispatch and post bodies: ASCII characters
 * pass through, every other character becomes a decimal numeric character
 * reference "&#N;" with N its code point (HTML Living Standard, section
 * 13.1.4 "Character references").
 */
module Encode {

  predicate IsAscii(c: char)
  {
    c as int < 128
  }

  predicate IsDigit(c: char)
  {
    '0' <= c <= '9'
  }

  predicate AllDigits(s: string)
  {
    forall i :: 0 <= i < |s| ==> IsDigit(s[i])
  }

  predicate AllAscii(s: string)
  {
    forall i :: 0 <= i < |s| ==> IsAscii(s[i])
  }

  function Digit(d: nat): (c: char)
    requires d < 10
    ensures IsDigit(c) && c as int - '0' as int == d
  {
    ('0' as int + d) as char
  }

  /** The decimal numeral of `n`, most significant digit first, without leading zeros. */
  function Decimal(n: nat): (s: string)
    ensures |s| >= 1 && AllDigits(s)
    ensures n >= 10 ==> s[0] != '0'
  {
    if n < 10 then [Digit(n)] else Decimal(n / 10) + [Digit(n % 10)]
  }

  /** The value of a non-empty decimal numeral. */
  function ParseDecimal(s: string): nat
    requires |s| >= 1 && AllDigits(s)
  {
    var d := s[|s| - 1] as int - '0' as int;
    if |s| == 1 then d else 10 * ParseDecimal(s[..|s| - 1]) + d
  }

  /** Reading back the numeral gives the number. */
  lemma {:induction false} DecimalRoundTrip(n: nat)
    ensures ParseDecimal(Decimal(n)) == n
  {
    if n >= 10 {
      var s := Decimal(n);
      assert s[..|s| - 1] == Decimal(n / 10);
      DecimalRoundTrip(n / 10);
    }
  }

  /** One character: itself when ASCII, else "&#" + its code point in decimal + ";". */
  function EncodeChar(c: char): (r: string)
    ensures |r| >= 1 && AllAscii(r)
    ensures IsAscii(c) ==> r == [c]
    ensures !IsAscii(c) ==>
      && |r| >= 4 && r[0] == '&' && r[1] == '#' && r[|r| - 1] == ';'
      && AllDigits(r[2..|r| - 1]) && ParseDecimal(r[2..|r| - 1]) == c as int
  {
    if IsAscii(c) then [c]
    else
      var digits := Decimal(c as int);
      DecimalRoundTrip(c as int);
      var r := "&#" + digits + ";";
      assert r[2..|r| - 1] == digits;
      r
  }

  /** Two characters with the same encoding are the same character. */
  lemma EncodeCharInjective(c: char, d: char)
    requires EncodeChar(c) == EncodeChar(d)
    ensures c == d
  {
    if !IsAscii(c) && !IsAscii(d) {
      assert c as int == d as int;
    }
  }

  /** `encode`: each character encoded in turn, the pieces concatenated in order. */
  function Encode(s: string): (r: string)
    ensures AllAscii(r)
    ensures |r| >= |s|
  {
    if s == [] then [] else EncodeChar(s[0]) + Encode(s[1..])
  }

  /** Encoding works character by character, so it distributes over concatenation. */
  lemma {:induction false} EncodeAppend(a: string, b: string)
    ensures Encode(a + b) == Encode(a) + Encode(b)
  {
    if a != [] {
      assert (a + b)[1..] == a[1..] + b;
      EncodeAppend(a[1..], b);
    } else {
      assert a + b == b;
    }
  }

  /** ASCII text is returned unchanged. */
  lemma {:induction false} EncodeAsciiUnchanged(s: string)
    requires AllAscii(s)
    ensures Encode(s) == s
  {
    if s != [] {
      EncodeAsciiUnchanged(s[1..]);
    }
  }

  /** Text containing a non-ASCII character always changes, and grows. */
  lemma {:induction false} EncodeNonAsciiGrows(s: string, i: nat)
    requires i < |s| && !IsAscii(s[i])
    ensures |Encode(s)| >= |s| + 3
  {
    if i > 0 {
      EncodeNonAsciiGrows(s[1..], i - 1);
    }
  }

  /** The numeral of the code point of U+00E9. */
  lemma Decimal233()
    ensures Decimal(233) == "233"
  {
    assert Decimal(2) == "2";
    assert Decimal(23) == Decimal(2) + [Digit(3)] == "23";
    assert Decimal(233) == Decimal(23) + [Digit(3)];
  }

  /**
   * '&' is ASCII and passes through, so the encoding is not one-to-one: the
   * literal text "&#233;" and the letter U+00E9 encode alike.
   */
  lemma EncodeNotInjective()
    ensures Encode("&#233;") == Encode("\U{E9}") && "&#233;" != "\U{E9}"
  {
    var literal := "&#233;";
    assert AllAscii(literal);
    EncodeAsciiUnchanged(literal);
    Decimal233();
    assert EncodeChar('\U{E9}') == "&#" + "233" + ";" == literal;
    assert Encode("\U{E9}") == EncodeChar('\U{E9}') + Encode([]);
  }
}
