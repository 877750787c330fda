/** What the scanners accept: declarative grammars for the tokens and for what may stand
    between them, and proofs that the scanners recognize exactly those. */
module Lexical {
  import opened String16
  import opened Writer
  import opened Lexer

  // ---------------------------------------------------------------- strings

  /** Scanning a unit looks no further than the unit. */
  lemma {:induction false} UnitLocal(u: Text, rest: Text)
    requires u != [] && UnitLength(u).Some?
    ensures UnitLength(u + rest) == UnitLength(u)
    ensures DecodeUnit(u + rest) == DecodeUnit(u)
  {
  }

  lemma {:induction false} UnitPrefix(t: Text, m: nat)
    requires t != [] && UnitLength(t).Some? && UnitLength(t).value <= m <= |t|
    ensures UnitLength(t[..m]) == UnitLength(t)
  {
  }

  /** A scanned string token encloses a well-formed body. */
  lemma {:induction false} ScanStringSound(t: Text)
    requires ScanString(t).Some?
    ensures IsStringBody(t[..ScanString(t).value - 1])
    decreases |t|
  {
    if t[0] != QUOTE {
      var n, k := UnitLength(t).value, ScanString(t).value;
      ScanStringSound(t[n..]);
      UnitPrefix(t, k - 1);
      assert t[..k - 1][n..] == t[n..][..k - n - 1];
    }
  }

  lemma {:induction false} ScanStringStep(t: Text, n: nat)
    requires t != [] && t[0] != QUOTE && UnitLength(t) == Some(n)
    ensures ScanString(t) == match ScanString(t[n..]) { case None => None case Some(k) => Some(n + k) }
  {
  }

  /** Every well-formed body followed by a quote is scanned up to that quote. */
  lemma {:induction false} ScanStringComplete(t: Text, m: nat)
    requires m < |t| && t[m] == QUOTE && IsStringBody(t[..m])
    ensures ScanString(t) == Some(m + 1)
    decreases |t|
  {
    if m > 0 {
      var b := t[..m];
      var n := UnitLength(b).value;
      UnitLocal(b, t[m..]);
      assert t == b + t[m..];
      assert t[n..][..m - n] == b[n..];
      ScanStringComplete(t[n..], m - n);
      ScanStringStep(t, n);
    }
  }

  /** A `\x` escape somewhere in a body. */
  predicate HasHexPairEscape(b: Text)
    requires IsStringBody(b)
    decreases |b|
  {
    b != [] && ((b[0] == BACKSLASH && b[1] == LETTER_X) || HasHexPairEscape(b[UnitLength(b).value..]))
  }

  /** Validation lets one thing through that decoding then rejects, and nothing else. */
  lemma {:induction false} DecodeFailsOnlyOnHexPair(b: Text)
    requires IsStringBody(b)
    ensures Decode(b).None? <==> HasHexPairEscape(b)
    decreases |b|
  {
    if b != [] {
      DecodeFailsOnlyOnHexPair(b[UnitLength(b).value..]);
    }
  }

  lemma {:induction false} HexOfUnit(c: UChar)
    ensures UnitLength(HexEscape(c)) == Some(6) && DecodeUnit(HexEscape(c)) == Some(c)
  {
    var t := HexEscape(c);
    assert t[2..] == [t[2], t[3], t[4], t[5]];
    HexDigitRoundTrip(c / 0x1000);
    HexDigitRoundTrip(c / 0x100 % 16);
    HexDigitRoundTrip(c / 0x10 % 16);
    HexDigitRoundTrip(c % 16);
    Nibbles(c, c / 4096, c / 256 % 16, c / 16 % 16, c % 16);
  }

  lemma {:induction false} HexDigitRoundTrip(d: int)
    requires 0 <= d < 16
    ensures IsHexDigit(HexDigit(d)) && HexToInt(HexDigit(d)) == d
  {
  }

  lemma {:induction false} EscapeUnitReads(c: UChar)
    ensures EscapeUnit(c)[0] != QUOTE
    ensures UnitLength(EscapeUnit(c)) == Some(|EscapeUnit(c)|) && DecodeUnit(EscapeUnit(c)) == Some(c)
  {
    if EscapeLetter(c).None? && (c < 32 || c > 126) {
      HexOfUnit(c);
    }
  }

  /** Escaping then decoding gives back any sequence of 16-bit units. */
  lemma {:induction false} EscapeRoundTrip(s: Text)
    ensures IsStringBody(Escape(s)) && Decode(Escape(s)) == Some(s)
  {
    if s != [] {
      var u, rest := EscapeUnit(s[0]), Escape(s[1..]);
      EscapeRoundTrip(s[1..]);
      EscapeUnitReads(s[0]);
      UnitLocal(u, rest);
      var b := u + rest;
      assert b[0] == u[0] && b[|u|..] == rest;
      DecodeStep(b, |u|, s[0]);
      assert s == [s[0]] + s[1..];
    }
  }

  // ---------------------------------------------------------------- numbers

  /** A number of section 2.4 of RFC 4627: [minus] int [frac] [exp]. */
  datatype NumberParts = NumberParts(minus: bool, whole: Text, fraction: Option<Text>, exponent: Option<Exponent>)

  datatype Exponent = Exponent(mark: UChar, sign: Option<UChar>, digits: Text)

  predicate ValidParts(p: NumberParts) {
    && p.whole != [] && AllDigits(p.whole) && (p.whole[0] == ZERO ==> |p.whole| == 1)
    && (p.fraction.Some? ==> p.fraction.value != [] && AllDigits(p.fraction.value))
    && (p.exponent.Some? ==> ValidExponent(p.exponent.value))
  }

  predicate ValidExponent(e: Exponent) {
    && (e.mark == 101 || e.mark == 69)
    && (e.sign.Some? ==> e.sign.value == MINUS || e.sign.value == PLUS)
    && e.digits != [] && AllDigits(e.digits)
  }

  function SpellExponent(e: Option<Exponent>): Text {
    match e
    case None => []
    case Some(x) => [x.mark] + (if x.sign.Some? then [x.sign.value] else []) + x.digits
  }

  function SpellFraction(f: Option<Text>): Text {
    if f.Some? then [DOT] + f.value else []
  }

  function SpellNumber(p: NumberParts): Text {
    (if p.minus then [MINUS] else []) + p.whole + SpellFraction(p.fraction) + SpellExponent(p.exponent)
  }

  ghost predicate IsNumber(span: Text) {
    exists p :: ValidParts(p) && span == SpellNumber(p)
  }

  /** What may follow a number so that it is taken whole. */
  predicate EndsNumber(rest: Text) {
    rest == [] || !(IsDigit(rest[0]) || rest[0] == DOT || IsExponentMark(rest[0]))
  }

  lemma {:induction false} DigitRunIs(digits: Text, rest: Text)
    requires AllDigits(digits) && (rest == [] || !IsDigit(rest[0]))
    ensures DigitRun(digits + rest) == |digits|
  {
    var t := digits + rest;
    if digits != [] {
      assert t[1..] == digits[1..] + rest;
      DigitRunIs(digits[1..], rest);
    } else {
      assert t == rest;
    }
  }

  lemma {:induction false} DigitRunStops(t: Text)
    ensures AllDigits(t[..DigitRun(t)]) && (DigitRun(t) < |t| ==> !IsDigit(t[DigitRun(t)]))
  {
    if t != [] && IsDigit(t[0]) {
      DigitRunStops(t[1..]);
      var n := DigitRun(t);
      assert forall i :: 0 < i < n ==> t[..n][i] == t[1..][..n - 1][i - 1];
    }
  }

  lemma {:induction false} ReadIntSound(t: Text, zeros: bool)
    requires ReadInt(t, zeros).Some?
    ensures var n := ReadInt(t, zeros).value;
            && AllDigits(t[..n]) && (n < |t| ==> !IsDigit(t[n])) && (!zeros && t[0] == ZERO ==> n == 1)
  {
    DigitRunStops(t);
  }

  lemma {:induction false} ScanExponentSound(t: Text, i: nat) returns (e: Option<Exponent>)
    requires i <= |t| && ScanExponent(t, i).Some?
    requires i < |t| ==> !IsDigit(t[i])
    ensures var n := ScanExponent(t, i).value;
            && (e.Some? ==> ValidExponent(e.value)) && t[i..n] == SpellExponent(e) && (n < |t| ==> !IsDigit(t[n]))
  {
    if i == |t| || !IsExponentMark(t[i]) {
      e := None;
    } else {
      var n := ScanExponent(t, i).value;
      var signed := IsSign(t[i + 1]);
      var k := if signed then i + 2 else i + 1;
      ReadIntSound(t[k..], true);
      e := Some(Exponent(t[i], if signed then Some(t[i + 1]) else None, t[k..n]));
      assert t[k..][..n - k] == t[k..n];
      assert t[i..n] == t[i..k] + t[k..n];
      assert t[i..k] == if signed then [t[i], t[i + 1]] else [t[i]];
    }
  }

  lemma {:induction false} ScanFractionSound(t: Text, i: nat) returns (f: Option<Text>, e: Option<Exponent>)
    requires i <= |t| && ScanFraction(t, i).Some?
    requires i < |t| ==> !IsDigit(t[i])
    ensures (f.Some? ==> f.value != [] && AllDigits(f.value)) && (e.Some? ==> ValidExponent(e.value))
    ensures var n := ScanFraction(t, i).value;
            t[i..n] == SpellFraction(f) + SpellExponent(e) && (n < |t| ==> !IsDigit(t[n]))
  {
    hide DigitRun, SpellExponent, AllDigits, ReadInt;
    if i == |t| || t[i] != DOT {
      f := None;
      e := ScanExponentSound(t, i);
      assert SpellFraction(f) + SpellExponent(e) == SpellExponent(e);
    } else {
      var d := t[i + 1..];
      ReadIntSound(d, true);
      var k := i + 1 + ReadInt(d, true).value;
      f := Some(d[..k - i - 1]);
      assert k < |t| ==> d[k - i - 1] == t[k];
      e := ScanExponentSound(t, k);
      JoinFraction(t, i, k, ScanFraction(t, i).value);
    }
  }

  lemma {:induction false} JoinFraction(t: Text, i: nat, k: nat, n: nat)
    requires i < k <= n <= |t| && t[i] == DOT
    ensures t[i..n] == [DOT] + t[i + 1..][..k - i - 1] + t[k..n]
  {
  }

  /** The parts of a scanned number. */
  lemma {:induction false} ScanNumberParts(t: Text) returns (p: NumberParts)
    requires ScanNumber(t).Some?
    ensures ValidParts(p) && t[..ScanNumber(t).value] == SpellNumber(p)
    ensures ScanNumber(t).value < |t| ==> !IsDigit(t[ScanNumber(t).value])
  {
    var s := if t[0] == MINUS then 1 else 0;
    var k := s + ReadInt(t[s..], false).value;
    ReadIntSound(t[s..], false);
    var whole := t[s..k];
    assert t[s..][..k - s] == whole && whole[0] == t[s];
    assert k < |t| ==> t[s..][k - s] == t[k];
    var f, e := ScanFractionSound(t, k);
    p := NumberParts(s == 1, whole, f, e);
    SplitNumber(t, s, k, ScanNumber(t).value, p);
  }

  lemma {:induction false} SplitNumber(t: Text, s: nat, k: nat, n: nat, p: NumberParts)
    requires s <= k <= n <= |t|
    requires t[..s] == if p.minus then [MINUS] else []
    requires t[s..k] == p.whole && t[k..n] == SpellFraction(p.fraction) + SpellExponent(p.exponent)
    ensures t[..n] == SpellNumber(p)
  {
  }

  /** A scanned number is in the grammar, and no digit follows it. */
  lemma {:induction false} ScanNumberSound(t: Text)
    requires ScanNumber(t).Some?
    ensures IsNumber(t[..ScanNumber(t).value])
    ensures ScanNumber(t).value < |t| ==> !IsDigit(t[ScanNumber(t).value])
  {
    var p := ScanNumberParts(t);
  }

  lemma {:induction false} ReadIntComplete(t: Text, k: nat, digits: Text, zeros: bool)
    requires k + |digits| <= |t| && t[k..k + |digits|] == digits
    requires digits != [] && AllDigits(digits) && (zeros || (digits[0] == ZERO ==> |digits| == 1))
    requires k + |digits| < |t| ==> !IsDigit(t[k + |digits|])
    ensures ReadInt(t[k..], zeros) == Some(|digits|)
  {
    var rest := t[k + |digits|..];
    assert t[k..] == digits + rest;
    DigitRunIs(digits, rest);
  }

  lemma {:induction false} ScanExponentComplete(t: Text, i: nat, e: Option<Exponent>)
    requires e.Some? ==> ValidExponent(e.value)
    requires i <= |t| && SpellExponent(e) <= t[i..] && EndsNumber(t[i + |SpellExponent(e)|..])
    ensures ScanExponent(t, i) == Some(i + |SpellExponent(e)|)
  {
    var spelled := SpellExponent(e);
    assert forall j :: 0 <= j < |spelled| ==> t[i + j] == spelled[j];
    if e.Some? {
      var x := e.value;
      var h := |spelled| - |x.digits|;
      assert spelled[h..] == x.digits;
      assert t[i + h..i + |spelled|] == x.digits;
      assert spelled[0] == x.mark;
      assert x.sign.Some? ==> spelled[1] == x.sign.value;
      assert x.sign.None? ==> spelled[1] == x.digits[0] && IsDigit(x.digits[0]);
      ReadIntComplete(t, i + h, x.digits, true);
    }
  }

  lemma {:induction false} ScanFractionComplete(t: Text, k: nat, f: Option<Text>, e: Option<Exponent>)
    requires f.Some? ==> f.value != [] && AllDigits(f.value)
    requires e.Some? ==> ValidExponent(e.value)
    requires k <= |t| && SpellFraction(f) + SpellExponent(e) <= t[k..]
    requires EndsNumber(t[k + |SpellFraction(f) + SpellExponent(e)|..])
    ensures ScanFraction(t, k) == Some(k + |SpellFraction(f) + SpellExponent(e)|)
  {
    hide ScanExponent, DigitRun, ReadInt;
    var sf, se := SpellFraction(f), SpellExponent(e);
    var m := k + |sf|;
    assert forall j :: 0 <= j < |sf + se| ==> t[k + j] == (sf + se)[j];
    assert t[m..][..|se|] == se;
    ScanExponentComplete(t, m, e);
    if f.Some? {
      assert t[k] == sf[0] == DOT;
      assert t[k + 1..m] == sf[1..] == f.value;
      assert m < |t| && e.Some? ==> t[m] == se[0];
      ReadIntComplete(t, k + 1, f.value, true);
    } else if e.Some? {
      assert t[k] == se[0];
    }
  }

  /** Every number of the grammar is taken whole unless what follows could continue it. */
  lemma {:induction false} ScanNumberComplete(p: NumberParts, t: Text)
    requires ValidParts(p) && SpellNumber(p) <= t && EndsNumber(t[|SpellNumber(p)|..])
    ensures ScanNumber(t) == Some(|SpellNumber(p)|)
  {
    hide DigitRun, ReadInt, ScanFraction, ScanExponent, SpellNumber, SpellFraction, SpellExponent;
    var sign: Text := if p.minus then [MINUS] else [];
    var tail := SpellFraction(p.fraction) + SpellExponent(p.exponent);
    SpellNumberIs(p, sign, tail);
    TailStart(p);
    FourParts(t, sign, p.whole, tail, t[|SpellNumber(p)|..]);
    ReadIntComplete(t, |sign|, p.whole, false);
    ScanFractionComplete(t, |sign| + |p.whole|, p.fraction, p.exponent);
  }

  lemma {:induction false} SpellNumberIs(p: NumberParts, sign: Text, tail: Text)
    requires sign == (if p.minus then [MINUS] else [])
    requires tail == SpellFraction(p.fraction) + SpellExponent(p.exponent)
    ensures SpellNumber(p) == sign + p.whole + tail
  {
  }

  lemma {:induction false} TailStart(p: NumberParts)
    requires ValidParts(p)
    ensures var tail := SpellFraction(p.fraction) + SpellExponent(p.exponent); tail != [] ==> !IsDigit(tail[0])
    ensures IsDigit(p.whole[0]) && p.whole[0] != MINUS
  {
  }

  lemma {:induction false} FourParts(t: Text, a: Text, b: Text, c: Text, d: Text)
    requires a + b + c <= t && d == t[|a + b + c|..] && b != []
    ensures t[|a|..|a| + |b|] == b && t[|a|] == b[0] && (|a| > 0 ==> t[0] == a[0])
    ensures t[|a| + |b|..][..|c|] == c
    ensures |a| + |b| < |t| ==> t[|a| + |b|] == if c != [] then c[0] else d[0]
  {
  }

  // ---------------------------------------------------------------- tokens

  /** The spelling of a token. Constants are matched without their last unit. */
  ghost predicate ValidLexeme(l: Lexeme) {
    match l.token
    case Number => IsNumber(l.span)
    case StringLiteral =>
      |l.span| >= 2 && l.span[0] == QUOTE && l.span[|l.span| - 1] == QUOTE && IsStringBody(l.span[1..|l.span| - 1])
    case NullToken => ConstSpan(l.span, NULL_WORD)
    case BoolTrue => ConstSpan(l.span, TRUE_WORD)
    case BoolFalse => ConstSpan(l.span, FALSE_WORD)
    case _ => |l.span| == 1 && Punctuation(l.span[0]) == Some(l.token)
  }

  predicate ConstSpan(span: Text, word: Text)
    requires word != []
  {
    |span| == |word| && span[..|word| - 1] == word[..|word| - 1]
  }

  lemma {:induction false} ScanTokenSound(t: Text)
    requires ScanToken(t).Some?
    ensures ValidLexeme(ScanToken(t).value)
  {
    var l := ScanToken(t).value;
    if Keyword(t[0]).Some? {
      var (token, word) := Keyword(t[0]).value;
      assert l.span[..|word| - 1] == t[..|word| - 1];
    } else if l.token == Number {
      ScanNumberSound(t);
    } else if l.token == StringLiteral {
      ScanStringSound(t[1..]);
      var k := ScanString(t[1..]).value;
      assert l.span[1..|l.span| - 1] == t[1..][..k - 1];
      assert l.span[|l.span| - 1] == t[1..][k - 1];
    }
  }

  /** A valid token is read back whole, unless it is a number and more of it follows. */
  lemma {:induction false} ScanTokenComplete(l: Lexeme, rest: Text)
    requires ValidLexeme(l) && (l.token == Number ==> EndsNumber(rest))
    ensures ScanToken(l.span + rest) == Some(l)
  {
    var t := l.span + rest;
    assert t[..|l.span|] == l.span;
    match l.token {
      case Number =>
        var p :| ValidParts(p) && l.span == SpellNumber(p);
        assert t[|l.span|..] == rest;
        ScanNumberComplete(p, t);
        assert t[0] == if p.minus then MINUS else p.whole[0];
      case StringLiteral =>
        var b := l.span[1..|l.span| - 1];
        assert t[1..][..|b|] == b;
        ScanStringComplete(t[1..], |b|);
      case NullToken => ConstComplete(l.span, NULL_WORD, rest);
      case BoolTrue => ConstComplete(l.span, TRUE_WORD, rest);
      case BoolFalse => ConstComplete(l.span, FALSE_WORD, rest);
      case _ =>
        assert t[0] == l.span[0];
    }
  }

  lemma {:induction false} ConstComplete(span: Text, word: Text, rest: Text)
    requires |word| > 1 && ConstSpan(span, word)
    ensures ScanConst(span + rest, word) && (span + rest)[0] == word[0]
  {
  }

  // ---------------------------------------------------------------- whitespace and comments

  datatype Trivia = Space(c: UChar) | LineComment(body: Text, newline: UChar) | BlockComment(inner: Text)

  predicate NoNewline(t: Text) {
    forall i :: 0 <= i < |t| ==> t[i] != NEWLINE && t[i] != RETURN
  }

  predicate NoBlockEnd(t: Text) {
    forall i :: 0 <= i < |t| - 1 ==> !(t[i] == STAR && t[i + 1] == SLASH)
  }

  predicate ValidTrivia(x: Trivia) {
    match x
    case Space(c) => IsSpaceOrNewLine(c)
    case LineComment(body, newline) => NoNewline(body) && (newline == NEWLINE || newline == RETURN)
    case BlockComment(inner) => NoBlockEnd(inner)
  }

  function TriviaText(x: Trivia): Text {
    match x
    case Space(c) => [c]
    case LineComment(body, newline) => [SLASH, SLASH] + body + [newline]
    case BlockComment(inner) => [SLASH, STAR] + inner + [STAR, SLASH]
  }

  type Gap = seq<Trivia>

  predicate ValidGap(g: Gap) {
    forall i :: 0 <= i < |g| ==> ValidTrivia(g[i])
  }

  function GapText(g: Gap): Text {
    if g == [] then [] else TriviaText(g[0]) + GapText(g[1..])
  }

  /** What may end a text: nothing, or a line comment that runs into the end. */
  predicate ValidTail(t: Text) {
    t == [] || (|t| >= 2 && t[0] == SLASH && t[1] == SLASH && NoNewline(t[2..]))
  }

  lemma {:induction false} AfterLineIs(body: Text, newline: UChar, rest: Text)
    requires NoNewline(body) && (newline == NEWLINE || newline == RETURN)
    ensures AfterLine(body + [newline] + rest) == rest
  {
    var t := body + [newline] + rest;
    if body != [] {
      assert t[1..] == body[1..] + [newline] + rest;
      AfterLineIs(body[1..], newline, rest);
    } else {
      assert t[1..] == rest;
    }
  }

  lemma {:induction false} AfterLineOpen(body: Text)
    requires NoNewline(body)
    ensures AfterLine(body) == []
  {
    if body != [] {
      AfterLineOpen(body[1..]);
    }
  }

  lemma {:induction false} AfterBlockIs(inner: Text, previous: UChar, rest: Text)
    requires NoBlockEnd(inner) && (inner != [] ==> !(previous == STAR && inner[0] == SLASH))
    ensures AfterBlock(inner + [STAR, SLASH] + rest, previous) == Some(rest)
  {
    var t := inner + [STAR, SLASH] + rest;
    if inner != [] {
      assert t[1..] == inner[1..] + [STAR, SLASH] + rest;
      AfterBlockIs(inner[1..], inner[0], rest);
    } else {
      assert t[1..] == [SLASH] + rest;
      assert t[1..][1..] == rest;
    }
  }

  lemma {:induction false} SkipTrivia(x: Trivia, rest: Text)
    requires ValidTrivia(x)
    ensures SkipSpace(TriviaText(x) + rest) == SkipSpace(rest)
  {
    var t := TriviaText(x) + rest;
    match x {
      case Space(c) => assert t[1..] == rest;
      case LineComment(body, newline) =>
        assert t[2..] == body + [newline] + rest;
        AfterLineIs(body, newline, rest);
      case BlockComment(inner) =>
        assert t[2..] == inner + [STAR, SLASH] + rest;
        AfterBlockIs(inner, 0, rest);
    }
  }

  lemma {:induction false} SkipGap(g: Gap, rest: Text)
    requires ValidGap(g)
    ensures SkipSpace(GapText(g) + rest) == SkipSpace(rest)
  {
    hide SkipSpace, TriviaText, ValidTrivia;
    if g == [] {
      assert GapText(g) + rest == rest;
    } else {
      SkipTrivia(g[0], GapText(g[1..]) + rest);
      SkipGap(g[1..], rest);
      assert GapText(g) + rest == TriviaText(g[0]) + (GapText(g[1..]) + rest);
    }
  }

  lemma {:induction false} SkipTail(tail: Text)
    requires ValidTail(tail)
    ensures SkipSpace(tail) == []
  {
    if tail != [] {
      AfterLineOpen(tail[2..]);
    }
  }

  lemma {:induction false} AfterLineSound(t: Text) returns (body: Text, newline: Option<UChar>)
    ensures NoNewline(body)
    ensures newline.Some? ==> (newline.value == NEWLINE || newline.value == RETURN) &&
                              t == body + [newline.value] + AfterLine(t)
    ensures newline.None? ==> t == body && AfterLine(t) == []
  {
    if t == [] {
      body, newline := [], None;
    } else if t[0] == NEWLINE || t[0] == RETURN {
      body, newline := [], Some(t[0]);
    } else {
      body, newline := AfterLineSound(t[1..]);
      body := [t[0]] + body;
      assert t == [t[0]] + t[1..];
    }
  }

  lemma {:induction false} AfterBlockSound(t: Text, previous: UChar) returns (inner: Text)
    requires AfterBlock(t, previous).Some?
    ensures NoBlockEnd([previous] + inner)
    ensures [previous] + t == [previous] + inner + [STAR, SLASH] + AfterBlock(t, previous).value
            || ([previous] + t == [STAR, SLASH] + AfterBlock(t, previous).value && inner == [])
    ensures previous != STAR ==> t == inner + [STAR, SLASH] + AfterBlock(t, previous).value
  {
    if previous == STAR && t[0] == SLASH {
      inner := [];
    } else if t[0] == STAR && t[1] == SLASH {
      inner := [];
      assert AfterBlock(t[1..], STAR) == Some(t[1..][1..]);
      assert t == [STAR, SLASH] + t[2..];
    } else {
      var i := AfterBlockSound(t[1..], t[0]);
      inner := [t[0]] + i;
      assert t == [t[0]] + t[1..];
      assert [t[0]] + t[1..] == [t[0]] + i + [STAR, SLASH] + AfterBlock(t, previous).value;
      assert t == inner + [STAR, SLASH] + AfterBlock(t, previous).value;
      assert ([previous] + inner)[1..] == inner;
    }
  }

  lemma {:induction false} NoBlockEndTail(inner: Text)
    requires NoBlockEnd([0] + inner)
    ensures NoBlockEnd(inner)
  {
    assert inner == ([0] + inner)[1..];
  }

  /** A comment that is followed by more text is whole; otherwise it may be cut short. */
  lemma {:induction false} AfterCommentSound(t: Text) returns (x: Option<Trivia>)
    requires AfterComment(t).Some?
    ensures x.Some? ==> ValidTrivia(x.value) && t == TriviaText(x.value) + AfterComment(t).value
    ensures x.None? ==> ValidTail(t) && AfterComment(t).value == []
  {
    hide AfterLine, AfterBlock, NoBlockEnd;
    if t[1] == SLASH {
      var body, newline := AfterLineSound(t[2..]);
      assert t == [SLASH, SLASH] + t[2..];
      x := if newline.None? then None else Some(LineComment(body, newline.value));
    } else {
      var inner := AfterBlockSound(t[2..], 0);
      NoBlockEndTail(inner);
      x := Some(BlockComment(inner));
      assert t == [SLASH, STAR] + t[2..];
    }
  }

  /** Everything skipped is a sequence of spaces and whole comments, except that a line comment
      may be cut short by the end of the text. */
  lemma {:induction false} SkipSpaceSound(t: Text) returns (g: Gap, tail: Text)
    ensures ValidGap(g) && ValidTail(tail) && (tail != [] ==> SkipSpace(t) == [])
    ensures t == GapText(g) + tail + SkipSpace(t)
    decreases |t|
  {
    g, tail := [], [];
    var x := if t != [] && IsSpaceOrNewLine(t[0]) then Some(Space(t[0])) else None;
    var after := if x.Some? then t[1..] else t;
    if x.None? && t != [] && t[0] == SLASH && AfterComment(t).Some? {
      x := AfterCommentSound(t);
      after := AfterComment(t).value;
      if x.None? {
        tail := t;
        return;
      }
    }
    if x.Some? {
      g, tail := SkipSpaceSound(after);
      GapTextCons(x.value, g, tail, t, after);
      g := [x.value] + g;
    }
  }

  lemma {:induction false} GapTextCons(x: Trivia, g: Gap, tail: Text, t: Text, after: Text)
    requires t == TriviaText(x) + after && SkipSpace(after) == SkipSpace(t)
    requires after == GapText(g) + tail + SkipSpace(after)
    ensures t == GapText([x] + g) + tail + SkipSpace(t)
  {
  }

  lemma {:induction false} SkipTwice(t: Text)
    ensures SkipSpace(SkipSpace(t)) == SkipSpace(t)
    decreases |t|
  {
    if t == [] {
    } else if IsSpaceOrNewLine(t[0]) {
      SkipTwice(t[1..]);
    } else if t[0] == SLASH && AfterComment(t).Some? {
      SkipTwice(AfterComment(t).value);
    }
  }
}
