/** UTF-16 text as the protocol library sees it: sequences of 16-bit units,
    with the integer formatting that `String16::fromInteger` performs. */
module String16 {

  /** One unit. Surrogates are ordinary units here: nothing in the library pairs them. */
  type UChar = c: int | 0 <= c < 0x1_0000

  type Text = seq<UChar>

  type int32 = n: int | -0x8000_0000 <= n < 0x8000_0000

  datatype Option<+T> = None | Some(value: T)

  const BACKSPACE: UChar := 8
  const TAB: UChar := 9
  const NEWLINE: UChar := 10
  const VTAB: UChar := 11
  const FORMFEED: UChar := 12
  const RETURN: UChar := 13
  const SPACE: UChar := 32
  const QUOTE: UChar := 34
  const STAR: UChar := 42
  const PLUS: UChar := 43
  const COMMA: UChar := 44
  const MINUS: UChar := 45
  const DOT: UChar := 46
  const SLASH: UChar := 47
  const ZERO: UChar := 48
  const COLON: UChar := 58
  const LBRACKET: UChar := 91
  const BACKSLASH: UChar := 92
  const RBRACKET: UChar := 93
  const LBRACE: UChar := 123
  const RBRACE: UChar := 125

  /** The text of a C string literal. */
  function Ascii(s: string): (t: Text)
    ensures |t| == |s|
  {
    seq(|s|, i requires 0 <= i < |s| => if s[i] as int < 128 then s[i] as int else 0)
  }

  predicate IsAscii(s: string) {
    forall i :: 0 <= i < |s| ==> s[i] as int < 128
  }

  lemma {:induction false} AsciiInjective(a: string, b: string)
    requires IsAscii(a) && IsAscii(b)
    ensures Ascii(a) == Ascii(b) <==> a == b
  {
    if Ascii(a) == Ascii(b) {
      assert |a| == |b|;
      forall i | 0 <= i < |a| ensures a[i] == b[i] {
        assert Ascii(a)[i] == Ascii(b)[i];
      }
    }
  }

  predicate IsDigit(c: UChar) {
    48 <= c <= 57
  }

  predicate AllDigits(t: Text) {
    forall i :: 0 <= i < |t| ==> IsDigit(t[i])
  }

  /** The decimal digits of a natural number, most significant first. */
  function Digits(n: nat): (t: Text)
    ensures |t| > 0 && AllDigits(t)
    ensures t[0] == ZERO ==> n == 0 && |t| == 1
  {
    if n < 10 then [48 + n] else Digits(n / 10) + [48 + n % 10]
  }

  /** `String16::fromInteger`. */
  function Decimal(n: int): (t: Text)
    ensures |t| > 0
  {
    if n < 0 then [MINUS] + Digits(-n) else Digits(n)
  }

  function DigitsValue(t: Text): nat
    requires AllDigits(t)
  {
    if t == [] then 0 else DigitsValue(t[..|t| - 1]) * 10 + (t[|t| - 1] - 48)
  }

  /** An optional minus sign and at least one digit. */
  predicate IsDecimal(t: Text) {
    var digits := if |t| > 0 && t[0] == MINUS then t[1..] else t;
    |digits| > 0 && AllDigits(digits)
  }

  function DecimalValue(t: Text): int
    requires IsDecimal(t)
  {
    if t[0] == MINUS then 0 - DigitsValue(t[1..]) else DigitsValue(t)
  }

  lemma {:induction false} DigitsRoundTrip(n: nat)
    ensures DigitsValue(Digits(n)) == n
  {
    if n < 10 {
      assert [48 + n][..0] == [];
    } else {
      DigitsRoundTrip(n / 10);
      var t := Digits(n);
      assert t[..|t| - 1] == Digits(n / 10);
    }
  }

  /** Reading what `fromInteger` printed gives the number back, so printing is injective. */
  lemma {:induction false} DecimalRoundTrip(n: int)
    ensures IsDecimal(Decimal(n)) && DecimalValue(Decimal(n)) == n
  {
    if n < 0 {
      assert Decimal(n)[1..] == Digits(-n);
      DigitsRoundTrip(-n);
    } else {
      DigitsRoundTrip(n);
      assert IsDigit(Digits(n)[0]);
    }
  }

  lemma {:induction false} DecimalUnits(n: int)
    ensures forall i :: 0 <= i < |Decimal(n)| ==> IsDigit(Decimal(n)[i]) || Decimal(n)[i] == MINUS
  {
  }
}
