/** The tokenizer of the JSON parser. Functions on the remaining text say what each scanner
    recognizes; the methods are the pointer loops, with an index for each pointer. */
module Lexer {
  import opened String16
  import opened Writer

  datatype Token =
    | ObjectBegin | ObjectEnd | ArrayBegin | ArrayEnd | StringLiteral | Number
    | BoolTrue | BoolFalse | NullToken | ListSeparator | ObjectPairSeparator

  /** A valid token and the text it was read from. */
  datatype Lexeme = Lexeme(token: Token, span: Text)

  // ---------------------------------------------------------------- whitespace and comments

  predicate IsSpaceOrNewLine(c: UChar) {
    c == SPACE || TAB <= c <= RETURN
  }

  function AfterLine(t: Text): (r: Text)
    ensures |r| <= |t|
  {
    if t == [] then [] else if t[0] == NEWLINE || t[0] == RETURN then t[1..] else AfterLine(t[1..])
  }

  function AfterBlock(t: Text, previous: UChar): (r: Option<Text>)
    ensures r.Some? ==> |r.value| < |t|
  {
    if t == [] then None
    else if previous == STAR && t[0] == SLASH then Some(t[1..])
    else AfterBlock(t[1..], t[0])
  }

  /** What follows the comment that `t` starts with, if it does start with a whole comment. */
  function AfterComment(t: Text): (r: Option<Text>)
    ensures r.Some? ==> |r.value| < |t|
  {
    if |t| < 2 || t[0] != SLASH then None
    else if t[1] == SLASH then Some(AfterLine(t[2..]))
    else if t[1] == STAR then AfterBlock(t[2..], 0)
    else None
  }

  function SkipSpace(t: Text): (r: Text)
    ensures |r| <= |t|
    decreases |t|
  {
    if t == [] then []
    else if IsSpaceOrNewLine(t[0]) then SkipSpace(t[1..])
    else if t[0] == SLASH && AfterComment(t).Some? then SkipSpace(AfterComment(t).value)
    else t
  }

  // ---------------------------------------------------------------- numbers

  /** How many digits `t` starts with. */
  function DigitRun(t: Text): (n: nat)
    ensures n <= |t|
  {
    if t == [] || !IsDigit(t[0]) then 0 else 1 + DigitRun(t[1..])
  }

  function ReadInt(t: Text, canHaveLeadingZeros: bool): (r: Option<nat>)
    ensures r.Some? ==> 0 < r.value <= |t|
  {
    var n := DigitRun(t);
    if n == 0 || (!canHaveLeadingZeros && n > 1 && t[0] == ZERO) then None else Some(n)
  }

  predicate IsExponentMark(c: UChar) {
    c == 101 || c == 69
  }

  predicate IsSign(c: UChar) {
    c == MINUS || c == PLUS
  }

  function ScanExponent(t: Text, i: nat): (r: Option<nat>)
    requires i <= |t|
    ensures r.Some? ==> i <= r.value <= |t|
  {
    if i == |t| || !IsExponentMark(t[i]) then Some(i)
    else if i + 1 == |t| then None
    else
      var k := if IsSign(t[i + 1]) then i + 2 else i + 1;
      var n := ReadInt(t[k..], true);
      if n.None? then None else Some(k + n.value)
  }

  function ScanFraction(t: Text, i: nat): (r: Option<nat>)
    requires i <= |t|
    ensures r.Some? ==> i <= r.value <= |t|
  {
    if i == |t| || t[i] != DOT then ScanExponent(t, i)
    else
      var n := ReadInt(t[i + 1..], true);
      if n.None? then None else ScanExponent(t, i + 1 + n.value)
  }

  /** The length of the number token that `t` starts with. */
  function ScanNumber(t: Text): (r: Option<nat>)
    ensures r.Some? ==> 0 < r.value <= |t|
  {
    var s := if t != [] && t[0] == MINUS then 1 else 0;
    var n := ReadInt(t[s..], false);
    if n.None? then None else ScanFraction(t, s + n.value)
  }

  // ---------------------------------------------------------------- strings

  predicate IsHexDigit(c: UChar) {
    48 <= c <= 57 || 97 <= c <= 102 || 65 <= c <= 70
  }

  predicate HexRun(t: Text, digits: nat) {
    |t| >= digits && forall i :: 0 <= i < digits ==> IsHexDigit(t[i])
  }

  const LETTER_X: UChar := 120
  const LETTER_U: UChar := 117

  /** What a backslash followed by `c` stands for, apart from the hex escapes. */
  function SimpleEscape(c: UChar): Option<UChar> {
    if c == QUOTE || c == SLASH || c == BACKSLASH then Some(c)
    else if c == 98 then Some(BACKSPACE)
    else if c == 102 then Some(FORMFEED)
    else if c == 110 then Some(NEWLINE)
    else if c == 114 then Some(RETURN)
    else if c == 116 then Some(TAB)
    else if c == 118 then Some(VTAB)
    else None
  }

  /** The length of the escape that `t` starts with. */
  function EscapeLength(t: Text): (r: Option<nat>)
    ensures r.Some? ==> 2 <= r.value <= |t| && r.value <= 6
  {
    if |t| < 2 || t[0] != BACKSLASH then None
    else if t[1] == LETTER_X then if HexRun(t[2..], 2) then Some(4) else None
    else if t[1] == LETTER_U then if HexRun(t[2..], 4) then Some(6) else None
    else if SimpleEscape(t[1]).Some? then Some(2)
    else None
  }

  /** The length of the string token whose opening quote stands just before `t`, counted
      from there and including the closing quote. */
  function ScanString(t: Text): (r: Option<nat>)
    ensures r.Some? ==> 0 < r.value <= |t| && t[r.value - 1] == QUOTE
    decreases |t|
  {
    if t == [] then None
    else if t[0] == QUOTE then Some(1)
    else
      var n := UnitLength(t);
      if n.None? then None
      else
        var rest := ScanString(t[n.value..]);
        if rest.None? then None else Some(n.value + rest.value)
  }

  /** The length of the plain unit or escape that a nonempty `t` starts with. */
  function UnitLength(t: Text): (r: Option<nat>)
    requires t != []
    ensures r.Some? ==> 1 <= r.value <= |t|
  {
    if t[0] == BACKSLASH then EscapeLength(t) else Some(1)
  }

  /** What may stand between the quotes of a string token. */
  predicate IsStringBody(b: Text)
    decreases |b|
  {
    b == [] || (b[0] != QUOTE && UnitLength(b).Some? && IsStringBody(b[UnitLength(b).value..]))
  }

  function HexToInt(c: UChar): (d: int)
    requires IsHexDigit(c)
    ensures 0 <= d < 16
  {
    if c <= 57 then c - 48 else if c <= 70 then c - 65 + 10 else c - 97 + 10
  }

  function HexValue(t: Text): UChar
    requires HexRun(t, 4)
  {
    HexToInt(t[0]) * 0x1000 + HexToInt(t[1]) * 0x100 + HexToInt(t[2]) * 0x10 + HexToInt(t[3])
  }

  /** The unit that a nonempty string body starts with, or nothing for a `\x` escape. */
  function DecodeUnit(b: Text): Option<UChar>
    requires b != [] && UnitLength(b).Some?
  {
    if b[0] != BACKSLASH then Some(b[0])
    else if b[1] == LETTER_X then None
    else if b[1] == LETTER_U then Some(HexValue(b[2..]))
    else SimpleEscape(b[1])
  }

  function Decode(b: Text): Option<Text>
    requires IsStringBody(b)
    decreases |b|
  {
    if b == [] then Some([])
    else
      var rest := Decode(b[UnitLength(b).value..]);
      if DecodeUnit(b).None? || rest.None? then None else Some([DecodeUnit(b).value] + rest.value)
  }

  lemma {:induction false} DecodeStep(b: Text, n: nat, c: UChar)
    requires b != [] && IsStringBody(b) && UnitLength(b) == Some(n) && DecodeUnit(b) == Some(c)
    ensures IsStringBody(b[n..])
    ensures Decode(b) == match Decode(b[n..]) { case None => None case Some(rest) => Some([c] + rest) }
  {
  }

  // ---------------------------------------------------------------- tokens

  /** `parseConstToken`: the last unit of the word is not compared. */
  predicate ScanConst(t: Text, word: Text)
    requires word != []
  {
    |t| >= |word| && t[..|word| - 1] == word[..|word| - 1]
  }

  /** The constant that a token starting with `c` must be. */
  function Keyword(c: UChar): (r: Option<(Token, Text)>)
    ensures r.Some? ==> r.value.1 != []
  {
    if c == 110 then Some((NullToken, NULL_WORD))
    else if c == 116 then Some((BoolTrue, TRUE_WORD))
    else if c == 102 then Some((BoolFalse, FALSE_WORD))
    else None
  }

  function Punctuation(c: UChar): Option<Token> {
    if c == LBRACKET then Some(ArrayBegin)
    else if c == RBRACKET then Some(ArrayEnd)
    else if c == COMMA then Some(ListSeparator)
    else if c == LBRACE then Some(ObjectBegin)
    else if c == RBRACE then Some(ObjectEnd)
    else if c == COLON then Some(ObjectPairSeparator)
    else None
  }

  /** The token at the very start of `t`, if there is a valid one. */
  function ScanToken(t: Text): (r: Option<Lexeme>)
    ensures r.Some? ==> 0 < |r.value.span| <= |t| && r.value.span == t[..|r.value.span|]
  {
    if t == [] then None
    else if Keyword(t[0]).Some? then
      var (token, word) := Keyword(t[0]).value;
      if ScanConst(t, word) then Some(Lexeme(token, t[..|word|])) else None
    else if Punctuation(t[0]).Some? then Some(Lexeme(Punctuation(t[0]).value, t[..1]))
    else if IsDigit(t[0]) || t[0] == MINUS then
      var n := ScanNumber(t);
      if n.None? then None else Some(Lexeme(Number, t[..n.value]))
    else if t[0] == QUOTE then
      var n := ScanString(t[1..]);
      if n.None? then None else Some(Lexeme(StringLiteral, t[..1 + n.value]))
    else None
  }

  /** All tokens of a text up to the first invalid one. `clean` says that there is no
      invalid one: only whitespace and comments follow. */
  datatype Lexed = Lexed(lexemes: seq<Lexeme>, clean: bool)

  function Lex(t: Text): Lexed
    decreases |t|
  {
    var u := SkipSpace(t);
    var l := ScanToken(u);
    if l.None? then Lexed([], u == [])
    else
      var rest := Lex(u[|l.value.span|..]);
      Lexed([l.value] + rest.lexemes, rest.clean)
  }

  // ---------------------------------------------------------------- the scanning loops

  method SkipCommentAt(s: Text, start: nat) returns (ok: bool, commentEnd: nat)
    requires start <= |s|
    ensures ok == AfterComment(s[start..]).Some?
    ensures ok ==> start < commentEnd <= |s| && s[commentEnd..] == AfterComment(s[start..]).value
  {
    commentEnd := start;
    if start == |s| {
      return false, start;
    }
    if s[start] != SLASH || start + 1 >= |s| {
      return false, start;
    }
    var p := start + 1;
    if s[p] == SLASH {
      p := p + 1;
      while p < |s|
        invariant start + 2 <= p <= |s|
        invariant AfterLine(s[start + 2..]) == AfterLine(s[p..])
      {
        if s[p] == NEWLINE || s[p] == RETURN {
          return true, p + 1;
        }
        assert s[p..][1..] == s[p + 1..];
        p := p + 1;
      }
      return true, |s|;
    }
    if s[p] == STAR {
      var previous: UChar := 0;
      p := p + 1;
      while p < |s|
        invariant start + 2 <= p <= |s|
        invariant AfterBlock(s[start + 2..], 0) == AfterBlock(s[p..], previous)
      {
        if previous == STAR && s[p] == SLASH {
          return true, p + 1;
        }
        assert s[p..][1..] == s[p + 1..];
        previous := s[p];
        p := p + 1;
      }
      return false, start;
    }
    return false, start;
  }

  method SkipWhitespaceAndComments(s: Text, start: nat) returns (whitespaceEnd: nat)
    requires start <= |s|
    ensures start <= whitespaceEnd <= |s| && s[whitespaceEnd..] == SkipSpace(s[start..])
  {
    var p := start;
    while p < |s|
      invariant start <= p <= |s|
      invariant SkipSpace(s[p..]) == SkipSpace(s[start..])
    {
      if IsSpaceOrNewLine(s[p]) {
        assert s[p..][1..] == s[p + 1..];
        p := p + 1;
      } else if s[p] == SLASH {
        var ok, commentEnd := SkipCommentAt(s, p);
        if !ok {
          break;
        }
        p := commentEnd;
      } else {
        break;
      }
    }
    return p;
  }

  method ReadIntAt(s: Text, start: nat, canHaveLeadingZeros: bool) returns (ok: bool, tokenEnd: nat)
    requires start <= |s|
    ensures ok == ReadInt(s[start..], canHaveLeadingZeros).Some?
    ensures ok ==> tokenEnd == start + ReadInt(s[start..], canHaveLeadingZeros).value
  {
    if start == |s| {
      return false, start;
    }
    var haveLeadingZero := s[start] == ZERO;
    var p, length := start, 0;
    while p < |s| && IsDigit(s[p])
      invariant start <= p <= |s| && length == p - start
      invariant DigitRun(s[start..]) == length + DigitRun(s[p..])
    {
      assert s[p..][1..] == s[p + 1..];
      p, length := p + 1, length + 1;
    }
    if length == 0 {
      return false, start;
    }
    if !canHaveLeadingZeros && length > 1 && haveLeadingZero {
      return false, start;
    }
    return true, p;
  }

  /** The optional exponent part, at `p` in the token that starts at `start`. */
  method ParseExponent(s: Text, start: nat, p: nat) returns (ok: bool, tokenEnd: nat)
    requires start <= p < |s|
    ensures ok == ScanExponent(s[start..], p - start).Some?
    ensures ok ==> tokenEnd == start + ScanExponent(s[start..], p - start).value
  {
    tokenEnd := p;
    if !IsExponentMark(s[p]) {
      return true, p;
    }
    tokenEnd := tokenEnd + 1;
    if tokenEnd == |s| {
      return false, p;
    }
    if IsSign(s[tokenEnd]) {
      tokenEnd := tokenEnd + 1;
      if tokenEnd == |s| {
        return false, p;
      }
    }
    assert s[tokenEnd..] == s[start..][tokenEnd - start..];
    ok, tokenEnd := ReadIntAt(s, tokenEnd, true);
  }

  /** The optional fraction part and what follows it. */
  method ParseFraction(s: Text, start: nat, p: nat) returns (ok: bool, tokenEnd: nat)
    requires start <= p < |s|
    ensures ok == ScanFraction(s[start..], p - start).Some?
    ensures ok ==> tokenEnd == start + ScanFraction(s[start..], p - start).value
  {
    hide DigitRun;
    tokenEnd := p;
    if s[p] == DOT {
      assert s[p + 1..] == s[start..][p + 1 - start..];
      ok, tokenEnd := ReadIntAt(s, p + 1, true);
      if !ok {
        return false, start;
      }
      if tokenEnd == |s| {
        return true, tokenEnd;
      }
    }
    ok, tokenEnd := ParseExponent(s, start, tokenEnd);
  }

  method ParseNumberToken(s: Text, start: nat) returns (ok: bool, tokenEnd: nat)
    requires start <= |s|
    ensures ok == ScanNumber(s[start..]).Some?
    ensures ok ==> tokenEnd == start + ScanNumber(s[start..]).value
  {
    if start == |s| {
      return false, start;
    }
    var p := start;
    if s[p] == MINUS {
      p := p + 1;
    }
    assert s[p..] == s[start..][p - start..];
    ok, p := ReadIntAt(s, p, false);
    if !ok {
      return false, start;
    }
    if p == |s| {
      return true, p;
    }
    ok, tokenEnd := ParseFraction(s, start, p);
  }

  method ReadHexDigits(s: Text, start: nat, digits: nat) returns (ok: bool, tokenEnd: nat)
    requires start <= |s|
    ensures ok == HexRun(s[start..], digits)
    ensures ok ==> tokenEnd == start + digits
  {
    if |s| - start < digits {
      return false, start;
    }
    ghost var t := s[start..];
    for i := 0 to digits
      invariant forall k :: 0 <= k < i ==> IsHexDigit(t[k])
    {
      assert t[i] == s[start + i];
      if !IsHexDigit(s[start + i]) {
        return false, start;
      }
    }
    return true, start + digits;
  }

  /** `start` is just after the opening quote. */
  method ParseStringToken(s: Text, start: nat) returns (ok: bool, tokenEnd: nat)
    requires start <= |s|
    ensures ok == ScanString(s[start..]).Some?
    ensures ok ==> tokenEnd == start + ScanString(s[start..]).value
  {
    var p := start;
    while p < |s|
      invariant start <= p <= |s|
      invariant ScanString(s[start..]).Some? == ScanString(s[p..]).Some?
      invariant ScanString(s[start..]).Some? ==>
                  start + ScanString(s[start..]).value == p + ScanString(s[p..]).value
    {
      ghost var t := s[p..];
      ghost var at := p;
      var c := s[p];
      p := p + 1;
      if c == BACKSLASH {
        if p == |s| {
          return false, start;
        }
        c := s[p];
        p := p + 1;
        assert t[1] == c && t[2..] == s[p..];
        if c == LETTER_X {
          ok, p := ReadHexDigits(s, p, 2);
          if !ok {
            return false, start;
          }
        } else if c == LETTER_U {
          ok, p := ReadHexDigits(s, p, 4);
          if !ok {
            return false, start;
          }
        } else if SimpleEscape(c).None? {
          return false, start;
        }
        assert UnitLength(t) == Some(p - at);
      } else if c == QUOTE {
        return true, p;
      }
      assert t[p - at..] == s[p..];
    }
    return false, start;
  }

  /** Decodes the plain unit or escape at `start`; the three quarters of `decodeString` that
      sit inside its loop. No index reaches `end`. */
  method DecodeUnitAt(s: Text, start: nat, end: nat) returns (c: Option<UChar>, next: nat)
    requires start < end <= |s| && UnitLength(s[start..end]).Some?
    ensures c == DecodeUnit(s[start..end])
    ensures c.Some? ==> next == start + UnitLength(s[start..end]).value
  {
    ghost var b := s[start..end];
    var p := start + 1;
    if s[start] != BACKSLASH {
      return Some(s[start]), p;
    }
    var letter := s[p];
    p := p + 1;
    if letter == LETTER_X {
      return None, p;
    }
    if letter == LETTER_U {
      assert forall i :: 0 <= i < 4 ==> b[2..][i] == s[p + i];
      return Some(HexToInt(s[p]) * 0x1000 + HexToInt(s[p + 1]) * 0x100 + HexToInt(s[p + 2]) * 0x10 +
                  HexToInt(s[p + 3])),
          p + 4;
    }
    return SimpleEscape(letter), p;
  }

  /** Decodes `s[start..end]`, the inside of a validated string token. No index leaves that
      range, and the only failure is a `\x` escape. */
  method DecodeString(s: Text, start: nat, end: nat) returns (ok: bool, output: Text)
    requires start <= end <= |s| && IsStringBody(s[start..end])
    ensures ok == Decode(s[start..end]).Some?
    ensures ok ==> output == Decode(s[start..end]).value
  {
    output := [];
    var p := start;
    while p < end
      invariant start <= p <= end && IsStringBody(s[p..end])
      invariant Decode(s[start..end]).Some? == Decode(s[p..end]).Some?
      invariant Decode(s[p..end]).Some? ==> Decode(s[start..end]).value == output + Decode(s[p..end]).value
    {
      hide UnitLength, DecodeUnit;
      var c, next := DecodeUnitAt(s, p, end);
      if c.None? {
        return false, [];
      }
      DecodeStep(s[p..end], next - p, c.value);
      assert s[p..end][next - p..] == s[next..end];
      output, p := output + [c.value], next;
    }
    return true, output;
  }

  method ParseConstToken(s: Text, start: nat, word: Text) returns (ok: bool, tokenEnd: nat)
    requires start <= |s| && word != []
    ensures ok == ScanConst(s[start..], word)
    ensures ok ==> tokenEnd == start + |word|
  {
    var k := 0;
    var same := true;
    while start + k < |s| && k < |word| && same
      invariant k <= |word| && start + k <= |s|
      invariant forall i :: 0 <= i < k - 1 ==> s[start + i] == word[i]
      invariant k > 0 ==> same == (s[start + k - 1] == word[k - 1])
      invariant k == 0 ==> same
      decreases |word| - k
    {
      same := s[start + k] == word[k];
      k := k + 1;
    }
    ghost var t := s[start..];
    if k != |word| {
      if |t| >= |word| {
        assert t[..|word| - 1][k - 1] == s[start + k - 1] != word[..|word| - 1][k - 1];
      }
      return false, start;
    }
    assert t[..k - 1] == word[..k - 1];
    return true, start + k;
  }

  /** The switch of `parseToken`, on the first unit of a token. */
  method ClassifyToken(s: Text, start: nat) returns (token: Option<Token>, tokenEnd: nat)
    requires start < |s|
    ensures match ScanToken(s[start..])
            case None => token.None?
            case Some(l) => token == Some(l.token) && tokenEnd == start + |l.span|
  {
    var c := s[start];
    assert s[start..][0] == c;
    var ok;
    if Keyword(c).Some? {
      var (kind, word) := Keyword(c).value;
      ok, tokenEnd := ParseConstToken(s, start, word);
      token := if ok then Some(kind) else None;
    } else if Punctuation(c).Some? {
      tokenEnd := start + 1;
      token := Punctuation(c);
    } else if IsDigit(c) || c == MINUS {
      ok, tokenEnd := ParseNumberToken(s, start);
      token := if ok then Some(Number) else None;
    } else if c == QUOTE {
      assert s[start..][1..] == s[start + 1..];
      ok, tokenEnd := ParseStringToken(s, start + 1);
      token := if ok then Some(StringLiteral) else None;
    } else {
      token, tokenEnd := None, start;
    }
  }

  /** Skips to the next token and classifies it; no token means an invalid one. */
  method ParseToken(s: Text, start: nat) returns (token: Option<Token>, tokenStart: nat, tokenEnd: nat)
    requires start <= |s|
    ensures start <= tokenStart <= |s| && s[tokenStart..] == SkipSpace(s[start..])
    ensures token.Some? == ScanToken(s[tokenStart..]).Some?
    ensures token.Some? ==> tokenStart < tokenEnd <= |s|
    ensures token.Some? ==> ScanToken(s[tokenStart..]) == Some(Lexeme(token.value, s[tokenStart..tokenEnd]))
  {
    tokenStart := SkipWhitespaceAndComments(s, start);
    if tokenStart == |s| {
      return None, tokenStart, tokenStart;
    }
    token, tokenEnd := ClassifyToken(s, tokenStart);
    assert token.Some? ==> s[tokenStart..][..tokenEnd - tokenStart] == s[tokenStart..tokenEnd];
  }
}
