/** The accepted language and its meaning in their own terms: what each text stands for, said
    without any of the functions that scan, decode or build. */
module Language {
  import opened String16
  import opened Values
  import opened Writer
  import opened Lexer
  import opened Lexical
  import opened Layout
  import opened Parser
  import opened Syntax
  import opened RoundTrip

  // ---------------------------------------------------------------- strings

  /** The digit at index `n` is worth `n`, in either case. */
  const LOWER_CASE := "0123456789abcdef"
  const UPPER_CASE := "0123456789ABCDEF"

  predicate IsWorth(digit: UChar, n: nat) {
    n < 16 && (digit == LOWER_CASE[n] as int || digit == UPPER_CASE[n] as int)
  }

  /** One unit of a string as it may be written: by itself, as a backslash and a letter, or as a
      backslash, a `u` and four hexadecimal digits with the given worths. */
  datatype Piece = Plain(unit: UChar) | Short(letter: char) | Hex(digits: Text, worths: seq<nat>)

  /** The letters after a backslash, and what they stand for. */
  const SHORT_FORMS: seq<(char, UChar)> :=
    [('"', 34), ('\\', 92), ('/', 47), ('b', 8), ('f', 12), ('n', 10), ('r', 13), ('t', 9), ('v', 11)]

  predicate StandsFor(letter: char, unit: UChar) {
    (letter, unit) in SHORT_FORMS
  }

  predicate ValidPiece(p: Piece) {
    match p
    case Plain(c) => c != '"' as int && c != '\\' as int
    case Short(letter) => exists i :: 0 <= i < |SHORT_FORMS| && SHORT_FORMS[i].0 == letter
    case Hex(digits, worths) => |digits| == |worths| == 4 && forall i :: 0 <= i < 4 ==> IsWorth(digits[i], worths[i])
  }

  function PieceText(p: Piece): Text
    requires ValidPiece(p)
  {
    match p
    case Plain(c) => [c]
    case Short(letter) => ShortText(letter)
    case Hex(digits, _) => ['\\' as int, 'u' as int] + digits
  }

  function ShortText(letter: char): Text {
    ['\\' as int, if letter as int < 128 then letter as int else 0]
  }

  /** The unit a piece stands for. */
  predicate PieceUnit(p: Piece, unit: UChar) {
    match p
    case Plain(c) => unit == c
    case Short(letter) => StandsFor(letter, unit)
    case Hex(_, w) => |w| == 4 && unit == w[0] * 4096 + w[1] * 256 + w[2] * 16 + w[3]
  }

  predicate ValidPieces(ps: seq<Piece>) {
    forall i :: 0 <= i < |ps| ==> ValidPiece(ps[i])
  }

  function PiecesText(ps: seq<Piece>): Text
    requires ValidPieces(ps)
  {
    if ps == [] then [] else PieceText(ps[0]) + PiecesText(ps[1..])
  }

  predicate PiecesUnits(ps: seq<Piece>, s: Text) {
    |ps| == |s| && forall i :: 0 <= i < |ps| ==> PieceUnit(ps[i], s[i])
  }

  /** `body`, between quotes, is one way to write the string `s`. */
  ghost predicate WritesString(body: Text, s: Text) {
    exists ps: seq<Piece> :: ValidPieces(ps) && body == PiecesText(ps) && PiecesUnits(ps, s)
  }

  lemma {:induction false} WorthIsHex(digit: UChar, n: nat)
    requires IsWorth(digit, n)
    ensures IsHexDigit(digit) && HexToInt(digit) == n
  {
    var i: nat := n;
    assert LOWER_CASE[i] as int == if i < 10 then 48 + i else 87 + i;
    assert UPPER_CASE[i] as int == if i < 10 then 48 + i else 55 + i;
  }

  lemma {:induction false} HexHasWorth(digit: UChar) returns (n: nat)
    requires IsHexDigit(digit)
    ensures IsWorth(digit, n) && n == HexToInt(digit)
  {
    n := HexToInt(digit);
    assert LOWER_CASE[n] as int == if n < 10 then 48 + n else 87 + n;
    assert UPPER_CASE[n] as int == if n < 10 then 48 + n else 55 + n;
  }

  lemma {:induction false} ShortAt(i: nat)
    requires i < |SHORT_FORMS|
    ensures var (letter, unit) := SHORT_FORMS[i]; letter as int < 128 && SimpleEscape(letter as int) == Some(unit)
  {
  }

  lemma {:induction false} SimpleHasShort(c: UChar) returns (i: nat)
    requires SimpleEscape(c).Some?
    ensures i < |SHORT_FORMS| && SHORT_FORMS[i] == (c as char, SimpleEscape(c).value)
  {
    i := if c == 34 then 0 else if c == 92 then 1 else if c == 47 then 2 else if c == 98 then 3 else if c == 102 then 4
    else if c == 110 then 5 else if c == 114 then 6 else if c == 116 then 7 else 8;
  }

  lemma {:induction false} ShortIsSimple(letter: char, unit: UChar)
    ensures StandsFor(letter, unit) <==> letter as int < 128 && SimpleEscape(letter as int) == Some(unit)
  {
    hide SimpleEscape;
    if StandsFor(letter, unit) {
      var i :| 0 <= i < |SHORT_FORMS| && SHORT_FORMS[i] == (letter, unit);
      ShortAt(i);
    }
    if letter as int < 128 && SimpleEscape(letter as int) == Some(unit) {
      var i := SimpleHasShort(letter as int);
    }
  }

  lemma {:induction false} PieceReads(p: Piece, unit: UChar)
    requires ValidPiece(p) && PieceUnit(p, unit)
    ensures var u := PieceText(p);
            u != [] && u[0] != QUOTE && UnitLength(u) == Some(|u|) && DecodeUnit(u) == Some(unit)
  {
    var u := PieceText(p);
    match p {
      case Plain(c) =>
      case Short(letter) => ShortIsSimple(letter, unit);
      case Hex(digits, w) =>
        WorthIsHex(digits[0], w[0]);
        WorthIsHex(digits[1], w[1]);
        WorthIsHex(digits[2], w[2]);
        WorthIsHex(digits[3], w[3]);
        assert u[2..] == digits;
    }
  }

  /** Every way of writing a string is accepted and read as that string. */
  lemma {:induction false} PiecesRead(ps: seq<Piece>, s: Text)
    requires ValidPieces(ps) && PiecesUnits(ps, s)
    ensures IsStringBody(PiecesText(ps)) && Decode(PiecesText(ps)) == Some(s)
  {
    if ps != [] {
      var u, rest := PieceText(ps[0]), PiecesText(ps[1..]);
      hide PieceText, PieceUnit, ValidPiece, Decode, IsStringBody;
      PiecesRead(ps[1..], s[1..]);
      PieceReads(ps[0], s[0]);
      BodyCons(u, rest, s[0], s[1..]);
      assert s == [s[0]] + s[1..];
    }
  }

  lemma {:induction false} BodyCons(u: Text, rest: Text, c: UChar, s: Text)
    requires u != [] && u[0] != QUOTE && UnitLength(u) == Some(|u|) && DecodeUnit(u) == Some(c)
    requires IsStringBody(rest) && Decode(rest) == Some(s)
    ensures IsStringBody(u + rest) && Decode(u + rest) == Some([c] + s)
  {
    UnitLocal(u, rest);
    hide UnitLength, DecodeUnit;
    var b := u + rest;
    assert b[0] == u[0] && b[|u|..] == rest;
    DecodeStep(b, |u|, c);
  }

  lemma {:induction false} UnitPiece(b: Text) returns (p: Piece)
    requires b != [] && b[0] != QUOTE && UnitLength(b).Some? && DecodeUnit(b).Some?
    ensures ValidPiece(p) && PieceUnit(p, DecodeUnit(b).value) && PieceText(p) == b[..UnitLength(b).value]
  {
    if b[0] != BACKSLASH {
      p := Plain(b[0]);
    } else if b[1] == LETTER_U {
      var digits := b[2..6];
      assert forall i :: 0 <= i < 4 ==> digits[i] == b[2..][i];
      var w0 := HexHasWorth(digits[0]);
      var w1 := HexHasWorth(digits[1]);
      var w2 := HexHasWorth(digits[2]);
      var w3 := HexHasWorth(digits[3]);
      p := Hex(digits, [w0, w1, w2, w3]);
      assert b[..6] == [b[0], b[1]] + digits;
    } else {
      var letter := b[1] as char;
      ShortIsSimple(letter, DecodeUnit(b).value);
      p := Short(letter);
      var i :| 0 <= i < |SHORT_FORMS| && SHORT_FORMS[i] == (letter, DecodeUnit(b).value);
      assert b[..2] == [b[0], b[1]];
    }
  }

  lemma {:induction false} BodyHead(b: Text)
    requires b != [] && IsStringBody(b) && Decode(b).Some?
    ensures b[0] != QUOTE && UnitLength(b).Some? && DecodeUnit(b).Some?
    ensures var rest := b[UnitLength(b).value..];
            IsStringBody(rest) && Decode(rest).Some? && Decode(b).value == [DecodeUnit(b).value] + Decode(rest).value
  {
    hide UnitLength, DecodeUnit;
  }

  lemma {:induction false} NoPieces()
    ensures ValidPieces([]) && PiecesText([]) == [] && Decode([]) == Some([]) && PiecesUnits([], [])
  {
  }

  lemma {:induction false} PiecesCons(p: Piece, rest: seq<Piece>, c: UChar, s: Text)
    requires ValidPiece(p) && ValidPieces(rest) && PieceUnit(p, c) && PiecesUnits(rest, s)
    ensures ValidPieces([p] + rest) && PiecesUnits([p] + rest, [c] + s)
    ensures PiecesText([p] + rest) == PieceText(p) + PiecesText(rest)
  {
    hide ValidPiece, PieceUnit, PieceText;
    assert ([p] + rest)[1..] == rest;
  }

  lemma {:induction false} BodyPieces(b: Text) returns (ps: seq<Piece>)
    requires IsStringBody(b) && Decode(b).Some?
    ensures ValidPieces(ps) && PiecesText(ps) == b && PiecesUnits(ps, Decode(b).value)
    decreases |b|
  {
    hide PieceText, PieceUnit, ValidPiece, UnitLength, DecodeUnit, Decode, IsStringBody, ValidPieces, PiecesText;
    hide PiecesUnits;
    if b == [] {
      NoPieces();
      return [];
    }
    BodyHead(b);
    var n := UnitLength(b).value;
    var p := UnitPiece(b);
    var rest := BodyPieces(b[n..]);
    PiecesCons(p, rest, DecodeUnit(b).value, Decode(b[n..]).value);
    assert b == b[..n] + b[n..];
    ps := [p] + rest;
  }

  /** What is accepted as the body of a string and decodes to `s` is exactly what writes `s`. */
  lemma {:induction false} DecodeIffWrites(b: Text, s: Text)
    ensures IsStringBody(b) && Decode(b) == Some(s) <==> WritesString(b, s)
  {
    if IsStringBody(b) && Decode(b) == Some(s) {
      var ps := BodyPieces(b);
    }
    if WritesString(b, s) {
      var ps: seq<Piece> :| ValidPieces(ps) && b == PiecesText(ps) && PiecesUnits(ps, s);
      PiecesRead(ps, s);
    }
  }

  // ---------------------------------------------------------------- numbers and constants

  function Power(n: nat): nat {
    if n == 0 then 1 else 10 * Power(n - 1)
  }

  /** The value of decimal digits, each in its place. */
  function Worth(digits: Text): nat
    requires AllDigits(digits)
  {
    if digits == [] then 0 else (digits[0] - '0' as int) * Power(|digits| - 1) + Worth(digits[1..])
  }

  lemma {:induction false} TenTimes(d: int, p: nat)
    ensures d * (10 * p) == d * p * 10
  {
  }

  lemma {:induction false} WorthSnoc(digits: Text, last: UChar)
    requires AllDigits(digits) && IsDigit(last)
    ensures Worth(digits + [last]) == Worth(digits) * 10 + (last - '0' as int)
  {
    var t := digits + [last];
    if digits == [] {
      assert t[1..] == [];
      assert Power(0) == 1;
    } else {
      assert t[1..] == digits[1..] + [last];
      WorthSnoc(digits[1..], last);
      var d, p, n := digits[0] - 48, Power(|digits| - 1), |digits|;
      assert Power(n) == 10 * p;
      hide Power;
      TenTimes(d, p);
      assert Worth(t) == d * (10 * p) + Worth(t[1..]);
      assert Worth(digits) == d * p + Worth(digits[1..]);
    }
  }

  lemma {:induction false} WorthIsValue(digits: Text)
    requires AllDigits(digits)
    ensures Worth(digits) == DigitsValue(digits)
    decreases |digits|
  {
    if digits != [] {
      var n := |digits| - 1;
      assert digits == digits[..n] + [digits[n]];
      WorthSnoc(digits[..n], digits[n]);
      WorthIsValue(digits[..n]);
    }
  }

  function Signed(minus: bool, n: nat): int {
    if minus then 0 - n else n
  }

  /** A whole number that fits 32 bits is itself. What becomes of any other number is up to the
      floating point of the host. */
  predicate NumberMeans(p: NumberParts, v: Value, host: Host)
    requires ValidParts(p)
  {
    if p.fraction.None? && p.exponent.None? && -2147483648 <= Signed(p.minus, Worth(p.whole)) <= 2147483647
    then v == Integer(Signed(p.minus, Worth(p.whole)))
    else
      match host.toNumber(SpellNumber(p))
      case Rejected => false
      case Whole(n) => v == Integer(n)
      case Real(bits) => v == Double(bits)
  }

  /** A constant is recognized by all its letters but the last. */
  predicate IsConstant(span: Text, word: string)
    requires word != ""
  {
    |span| == |word| && span[..|word| - 1] == Ascii(word[..|word| - 1])
  }

  ghost predicate WritesNumber(span: Text, v: Value, host: Host) {
    exists p :: ValidParts(p) && span == SpellNumber(p) && NumberMeans(p, v, host)
  }

  ghost predicate WritesQuoted(span: Text, s: Text) {
    |span| >= 2 && span[0] == '"' as int == span[|span| - 1] && WritesString(span[1..|span| - 1], s)
  }

  /** The text of one token stands for the value. */
  ghost predicate WritesScalar(span: Text, v: Value, host: Host) {
    || (v == Null && IsConstant(span, "null"))
    || (v == Boolean(true) && IsConstant(span, "true"))
    || (v == Boolean(false) && IsConstant(span, "false"))
    || WritesNumber(span, v, host)
    || (v.Str? && WritesQuoted(span, v.s))
  }

  lemma {:induction false} ConstantIs(span: Text)
    ensures IsConstant(span, "null") <==> ConstSpan(span, NULL_WORD)
    ensures IsConstant(span, "true") <==> ConstSpan(span, TRUE_WORD)
    ensures IsConstant(span, "false") <==> ConstSpan(span, FALSE_WORD)
  {
    assert Ascii("null"[..3]) == NULL_WORD[..3];
    assert Ascii("true"[..3]) == TRUE_WORD[..3];
    assert Ascii("false"[..4]) == FALSE_WORD[..4];
  }

  function Tail(p: NumberParts): Text {
    SpellFraction(p.fraction) + SpellExponent(p.exponent)
  }

  lemma {:induction false} TailIs(p: NumberParts)
    requires ValidParts(p)
    ensures Tail(p) == [] <==> p.fraction.None? && p.exponent.None?
    ensures Tail(p) != [] ==> !IsDigit(Tail(p)[0])
    ensures p.whole != [] && AllDigits(p.whole)
  {
    TailStart(p);
  }

  lemma {:induction false} SignSplit(minus: bool, whole: Text, tail: Text, span: Text)
    requires span == (if minus then [MINUS] else []) + whole + tail && whole != []
    ensures span != [] && span[0] == if minus then MINUS else whole[0]
    ensures (if minus then span[1..] else span) == whole + tail
  {
  }

  lemma {:induction false} AfterSign(p: NumberParts)
    requires ValidParts(p)
    ensures |SpellNumber(p)| > 0 && p.whole != [] && SpellNumber(p)[0] == if p.minus then MINUS else p.whole[0]
    ensures (if p.minus then SpellNumber(p)[1..] else SpellNumber(p)) == p.whole + Tail(p)
  {
    hide SpellNumber, SpellFraction, SpellExponent, ValidExponent, AllDigits;
    SpellNumberIs(p, if p.minus then [MINUS] else [], Tail(p));
    SignSplit(p.minus, p.whole, Tail(p), SpellNumber(p));
  }

  /** A number is plain decimal exactly when it has neither fraction nor exponent. */
  lemma {:induction false} PlainDecimal(p: NumberParts)
    requires ValidParts(p)
    ensures IsDecimal(SpellNumber(p)) <==> p.fraction.None? && p.exponent.None?
    ensures IsDecimal(SpellNumber(p)) ==> DecimalValue(SpellNumber(p)) == Signed(p.minus, Worth(p.whole))
  {
    AfterSign(p);
    TailIs(p);
    WorthIsValue(p.whole);
    hide SpellNumber, Tail, ValidParts, Worth, DigitsValue;
    var digits := p.whole + Tail(p);
    if Tail(p) != [] {
      assert digits[|p.whole|] == Tail(p)[0];
    } else {
      assert digits == p.whole;
    }
  }

  lemma {:induction false} NumberIs(p: NumberParts, v: Value, host: Host)
    requires ValidParts(p)
    ensures ReadNumber(SpellNumber(p), host) == Some(v) <==> NumberMeans(p, v, host)
  {
    PlainDecimal(p);
    hide SpellNumber, Worth, IsDecimal, DecimalValue;
  }

  /** What the first unit of a scalar can be. */
  lemma {:induction false} FirstOfScalar(l: Lexeme)
    requires ValidLexeme(l) && IsScalarToken(l.token)
    ensures l.span != []
    ensures match l.token
            case NullToken => l.span[0] == 'n' as int
            case BoolTrue => l.span[0] == 't' as int
            case BoolFalse => l.span[0] == 'f' as int
            case StringLiteral => l.span[0] == '"' as int
            case _ => l.span[0] == '-' as int || IsDigit(l.span[0])
  {
    if l.token == Number {
      var p :| ValidParts(p) && l.span == SpellNumber(p);
      assert l.span[0] == if p.minus then MINUS else p.whole[0];
    }
  }

  lemma {:induction false} NumberIff(l: Lexeme, v: Value, host: Host)
    requires ValidLexeme(l) && l.token == Number
    ensures ReadNumber(l.span, host) == Some(v) <==> WritesNumber(l.span, v, host)
  {
    hide ReadNumber, SpellNumber, NumberMeans, ValidParts;
    var p :| ValidParts(p) && l.span == SpellNumber(p);
    NumberIs(p, v, host);
    if WritesNumber(l.span, v, host) {
      var q :| ValidParts(q) && l.span == SpellNumber(q) && NumberMeans(q, v, host);
      NumberIs(q, v, host);
    }
  }

  lemma {:induction false} QuotedIff(span: Text, s: Text)
    requires ValidLexeme(Lexeme(StringLiteral, span))
    ensures DecodeSpan(span) == Some(s) <==> WritesQuoted(span, s)
  {
    DecodeIffWrites(span[1..|span| - 1], s);
  }

  /** A valid token means a value exactly when its text stands for it. */
  lemma {:induction false} ScalarIff(l: Lexeme, v: Value, host: Host)
    requires ValidLexeme(l) && IsScalarToken(l.token)
    ensures Scalar(l, host) == Some(v) <==> WritesScalar(l.span, v, host)
  {
    FirstOfScalar(l);
    ConstantIs(l.span);
    FirstOfWritten(l.span, v, host);
    hide ReadNumber, DecodeSpan, WritesNumber, WritesQuoted, IsStringBody, IsConstant, ConstSpan, IsNumber, IsDigit;
    match l.token {
      case Number => NumberIff(l, v, host);
      case StringLiteral => if v.Str? { QuotedIff(l.span, v.s); }
      case _ =>
    }
  }

  lemma {:induction false} FirstOfWritten(span: Text, v: Value, host: Host)
    requires span != []
    ensures IsConstant(span, "null") ==> span[0] == 'n' as int
    ensures IsConstant(span, "true") ==> span[0] == 't' as int
    ensures IsConstant(span, "false") ==> span[0] == 'f' as int
    ensures WritesNumber(span, v, host) ==> span[0] == '-' as int || IsDigit(span[0])
    ensures v.Str? && WritesQuoted(span, v.s) ==> span[0] == '"' as int
  {
    hide WritesString;
    if IsConstant(span, "null") { assert span[..3][0] == 'n' as int; }
    if IsConstant(span, "true") { assert span[..3][0] == 't' as int; }
    if IsConstant(span, "false") { assert span[..4][0] == 'f' as int; }
    if WritesNumber(span, v, host) {
      var p :| ValidParts(p) && span == SpellNumber(p) && NumberMeans(p, v, host);
      assert span[0] == if p.minus then MINUS else p.whole[0];
    }
  }

  // ---------------------------------------------------------------- whole texts

  /** The entries of an object whose members are listed so: each key once, in the order of the
      first listings, with the value of the last. */
  ghost predicate Merges(listed: seq<Entry>, entries: seq<Entry>) {
    DistinctKeys(entries) && InFirstOrder(listed, Keys(entries)) && forall k :: Find(entries, k) == LastValue(listed, k)
  }

  /** The tree stands for the value. */
  ghost predicate Means(tree: Tree, v: Value, host: Host)
    decreases tree, 1
  {
    match tree
    case Leaf(l) => WritesScalar(l.span, v, host)
    case ListTree(items) => v.Array? && ItemsMean(items, v.items, host)
    case DictTree(members) =>
      v.Object? && exists listed: seq<Entry> :: MembersMean(members, listed, host) && Merges(listed, v.entries)
  }

  ghost predicate ItemsMean(items: seq<Tree>, vs: seq<Value>, host: Host)
    decreases items, 0
  {
    |items| == |vs| && forall i :: 0 <= i < |items| ==> Means(items[i], vs[i], host)
  }

  ghost predicate MembersMean(members: seq<Member>, listed: seq<Entry>, host: Host)
    decreases members, 0
  {
    |members| == |listed| && forall i :: 0 <= i < |members| ==> MemberMeans(members[i], listed[i], host)
  }

  ghost predicate MemberMeans(m: Member, e: Entry, host: Host)
    decreases m, 0
  {
    WritesQuoted(m.key.span, e.key) && Means(m.value, e.value, host)
  }

  lemma {:induction false} SameFirst(listed: seq<Entry>, ks: seq<Text>, ls: seq<Text>)
    requires InFirstOrder(listed, ks) && InFirstOrder(listed, ls) && ks != [] && forall k :: k in ks <==> k in ls
    ensures ls != [] && ks[0] == ls[0]
  {
    hide FirstAt;
    assert ks[0] in ls;
    var i :| 0 <= i < |ls| && ls[i] == ks[0];
    assert ls[0] in ks;
    var j :| 0 <= j < |ks| && ks[j] == ls[0];
  }

  lemma {:induction false} FirstThenRest(listed: seq<Entry>, ks: seq<Text>)
    requires InFirstOrder(listed, ks) && ks != []
    ensures InFirstOrder(listed, ks[1..]) && forall k :: k in ks[1..] <==> k in ks && k != ks[0]
  {
    hide FirstAt;
  }

  lemma {:induction false} SameOrder(listed: seq<Entry>, ks: seq<Text>, ls: seq<Text>)
    requires InFirstOrder(listed, ks) && InFirstOrder(listed, ls) && forall k :: k in ks <==> k in ls
    ensures ks == ls
  {
    hide FirstAt;
    if |ls| > 0 {
      assert ls[0] in ks;
    }
    if ks != [] {
      SameFirst(listed, ks, ls);
      FirstThenRest(listed, ks);
      FirstThenRest(listed, ls);
      hide InFirstOrder;
      SameOrder(listed, ks[1..], ls[1..]);
    }
  }

  lemma {:induction false} MergesOnce(listed: seq<Entry>, es: seq<Entry>, fs: seq<Entry>)
    requires Merges(listed, es) && Merges(listed, fs)
    ensures es == fs
  {
    hide LastValue, FirstAt;
    forall k ensures k in Keys(es) <==> k in Keys(fs) {
      FindIffKey(es, k);
      FindIffKey(fs, k);
    }
    SameOrder(listed, Keys(es), Keys(fs));
    forall i | 0 <= i < |es| ensures es[i] == fs[i] {
      assert Keys(es)[i] == Keys(fs)[i];
      FindAt(es, i);
      FindAt(fs, i);
    }
  }

  lemma {:induction false} CollectIffMerges(listed: seq<Entry>, entries: seq<Entry>)
    ensures entries == Collect([], listed) <==> Merges(listed, entries)
  {
    CollectMerges(listed);
    hide Collect, DistinctKeys, InFirstOrder, LastValue;
    if Merges(listed, entries) {
      MergesOnce(listed, entries, Collect([], listed));
    }
  }

  lemma {:induction false} ValidParts2(a: seq<Lexeme>, b: seq<Lexeme>)
    requires ValidLexemes(a + b)
    ensures ValidLexemes(a) && ValidLexemes(b)
  {
    assert forall i :: 0 <= i < |a| ==> (a + b)[i] == a[i];
    assert forall i :: 0 <= i < |b| ==> (a + b)[|a| + i] == b[i];
  }

  lemma {:induction false} AllValid(ls: seq<Lexeme>, i: nat)
    requires ValidLexemes(ls) && i < |ls|
    ensures ValidLexeme(ls[i])
  {
  }

  /** What the parser's own reading of a tree gives is what the tree stands for. */
  lemma {:induction false} MeaningIff(tree: Tree, v: Value, host: Host)
    requires ValidTree(tree) && ValidLexemes(Spelling(tree))
    ensures Meaning(tree, host) == Some(v) <==> Means(tree, v, host)
    decreases tree, 1
  {
    hide Scalar, WritesScalar, Collect, Merges, SpellItems, SpellMembers, ValidLexemes;
    match tree {
      case Leaf(l) =>
        AllValid(Spelling(tree), 0);
        ScalarIff(l, v, host);
      case ListTree(items) =>
        ValidParts2([OPEN_BRACKET] + SpellItems(items), [CLOSE_BRACKET]);
        ValidParts2([OPEN_BRACKET], SpellItems(items));
        if v.Array? {
          ItemsIff(items, v.items, host);
        }
      case DictTree(members) =>
        ValidParts2([OPEN_BRACE] + SpellMembers(members), [CLOSE_BRACE]);
        ValidParts2([OPEN_BRACE], SpellMembers(members));
        if v.Object? {
          forall listed: seq<Entry>
            ensures MeaningMembers(members, host) == Some(listed) <==> MembersMean(members, listed, host)
          {
            MembersIff(members, listed, host);
          }
          forall listed: seq<Entry>
            ensures v.entries == Collect([], listed) <==> Merges(listed, v.entries)
          {
            CollectIffMerges(listed, v.entries);
          }
        }
    }
  }

  lemma {:induction false} ItemsIff(items: seq<Tree>, vs: seq<Value>, host: Host)
    requires ValidItems(items) && (ValidLexemes(SpellItems(items)) || ValidLexemes(SpellMoreItems(items)))
    ensures MeaningItems(items, host) == Some(vs) <==> ItemsMean(items, vs, host)
    decreases items, 0
  {
    hide Meaning, Spelling, ValidLexemes;
    if items != [] {
      if ValidLexemes(SpellMoreItems(items)) {
        ValidParts2([COMMA_MARK] + Spelling(items[0]), SpellMoreItems(items[1..]));
        ValidParts2([COMMA_MARK], Spelling(items[0]));
      } else {
        ValidParts2(Spelling(items[0]), SpellMoreItems(items[1..]));
      }
      if vs != [] {
        MeaningIff(items[0], vs[0], host);
        ItemsIff(items[1..], vs[1..], host);
        assert vs == [vs[0]] + vs[1..];
        hide Means;
        assert ItemsMean(items, vs, host) <==> Means(items[0], vs[0], host) && ItemsMean(items[1..], vs[1..], host) by {
          ItemsMeanCons(items, vs, host);
        }
      }
    }
  }

  lemma {:induction false} ItemsMeanCons(items: seq<Tree>, vs: seq<Value>, host: Host)
    requires items != [] && vs != []
    ensures ItemsMean(items, vs, host) <==> Means(items[0], vs[0], host) && ItemsMean(items[1..], vs[1..], host)
  {
    hide Means;
    if Means(items[0], vs[0], host) && ItemsMean(items[1..], vs[1..], host) {
      forall i | 0 <= i < |items| ensures Means(items[i], vs[i], host) {
        assert i > 0 ==> Means(items[1..][i - 1], vs[1..][i - 1], host);
      }
    }
  }

  lemma {:induction false} MembersIff(members: seq<Member>, listed: seq<Entry>, host: Host)
    requires ValidMembers(members) && (ValidLexemes(SpellMembers(members)) || ValidLexemes(SpellMoreMembers(members)))
    ensures MeaningMembers(members, host) == Some(listed) <==> MembersMean(members, listed, host)
    decreases members, 0
  {
    hide MeaningMember, SpellMember, ValidLexemes;
    if members != [] {
      if ValidLexemes(SpellMoreMembers(members)) {
        ValidParts2([COMMA_MARK] + SpellMember(members[0]), SpellMoreMembers(members[1..]));
        ValidParts2([COMMA_MARK], SpellMember(members[0]));
      } else {
        ValidParts2(SpellMember(members[0]), SpellMoreMembers(members[1..]));
      }
      if listed != [] {
        MemberIff(members[0], listed[0], host);
        MembersIff(members[1..], listed[1..], host);
        assert listed == [listed[0]] + listed[1..];
        MembersMeanCons(members, listed, host);
        hide MemberMeans;
      }
    }
  }

  lemma {:induction false} MembersMeanCons(members: seq<Member>, listed: seq<Entry>, host: Host)
    requires members != [] && listed != []
    ensures MembersMean(members, listed, host) <==>
            MemberMeans(members[0], listed[0], host) && MembersMean(members[1..], listed[1..], host)
  {
    hide MemberMeans;
    if MemberMeans(members[0], listed[0], host) && MembersMean(members[1..], listed[1..], host) {
      forall i | 0 <= i < |members| ensures MemberMeans(members[i], listed[i], host) {
        assert i > 0 ==> MemberMeans(members[1..][i - 1], listed[1..][i - 1], host);
      }
    }
  }

  lemma {:induction false} MemberIff(m: Member, e: Entry, host: Host)
    requires ValidMember(m) && ValidLexemes(SpellMember(m))
    ensures MeaningMember(m, host) == Some(e) <==> MemberMeans(m, e, host)
    decreases m, 0
  {
    hide Meaning, DecodeSpan, WritesQuoted, Means;
    AllValid(SpellMember(m), 0);
    assert m.key == Lexeme(StringLiteral, m.key.span);
    QuotedIff(m.key.span, e.key);
    ValidParts2([m.key, COLON_MARK], Spelling(m.value));
    MeaningIff(m.value, e.value, host);
  }

  /** The text stands for the value: it is a layout of a tree that does, of at most 1000 levels. */
  ghost predicate TextMeans(t: Text, v: Value, host: Host) {
    exists tree, gaps, tail :: IsLayout(t, tree, gaps, tail) && TreeHeight(tree) <= 1000 && Means(tree, v, host)
  }

  /** The parser returns a value exactly when the text stands for it, strings, numbers and repeated
      keys being read as `WritesScalar` and `Merges` say. */
  lemma {:induction false} ParserIsLanguage(t: Text, v: Value, host: Host)
    ensures Parse(t, host) == Some(v) <==> TextMeans(t, v, host)
  {
    ParserIsGrammar(t, v, host);
    hide Meaning, Means, TreeHeight, Parse;
    if Denotes(t, v, host) {
      var tree, gaps, tail :| IsLayout(t, tree, gaps, tail) && MeansWithin(tree, v, host);
      MeaningIff(tree, v, host);
      assert IsLayout(t, tree, gaps, tail) && TreeHeight(tree) <= 1000 && Means(tree, v, host);
    }
    if TextMeans(t, v, host) {
      var tree, gaps, tail :| IsLayout(t, tree, gaps, tail) && TreeHeight(tree) <= 1000 && Means(tree, v, host);
      MeaningIff(tree, v, host);
      assert IsLayout(t, tree, gaps, tail) && MeansWithin(tree, v, host);
    }
  }

  lemma {:induction false} OneToken(l: Lexeme, gaps: seq<Gap>)
    requires gaps == [[], []]
    ensures Weave([l], gaps, []) == l.span
  {
    var ls := [l];
    assert ls[1..] == [] && gaps[1..] == [[]];
    assert Weave([], [[]], []) == [];
    assert l.span + [] == l.span && [] + l.span == l.span;
  }

  /** A valid token that is a value by itself is a whole text. */
  lemma {:induction false} ScalarText(l: Lexeme, v: Value, host: Host)
    requires ValidLexeme(l) && IsScalarToken(l.token)
    ensures Parse(l.span, host) == Some(v) <==> WritesScalar(l.span, v, host)
  {
    ScalarIff(l, v, host);
    hide WritesScalar, Scalar, ValidLexeme, Parse;
    var gaps: seq<Gap> := [[], []];
    OneToken(l, gaps);
    assert IsLayout(l.span, Leaf(l), gaps, []);
    ParseLayout(l.span, Leaf(l), gaps, [], host);
  }

  /** Four hexadecimal digits after `\u`, in either case and in any mixture, are the unit whose
      sixteens they give. */
  lemma {:induction false} AnyCaseHex(digits: Text, worths: seq<nat>, unit: UChar, host: Host)
    requires |digits| == |worths| == 4 && forall i :: 0 <= i < 4 ==> IsWorth(digits[i], worths[i])
    requires unit == worths[0] * 4096 + worths[1] * 256 + worths[2] * 16 + worths[3]
    ensures Parse(Ascii("\"\\u") + digits + Ascii("\""), host) == Some(Str([unit]))
  {
    OnePiece(Hex(digits, worths), unit, host);
    assert Ascii("\"\\u") + digits + Ascii("\"") == [QUOTE] + PieceText(Hex(digits, worths)) + [QUOTE];
  }

  /** So are the two-unit escapes, those included that the printer never writes. */
  lemma {:induction false} ShortEscapes(i: nat, host: Host)
    requires i < |SHORT_FORMS|
    ensures Parse(Ascii("\"\\") + [SHORT_FORMS[i].0 as int, '"' as int], host) == Some(Str([SHORT_FORMS[i].1]))
  {
    var letter, unit := SHORT_FORMS[i].0, SHORT_FORMS[i].1;
    assert (letter, unit) in SHORT_FORMS;
    ShortIsSimple(letter, unit);
    OnePiece(Short(letter), unit, host);
    assert Ascii("\"\\") + [letter as int, '"' as int] == [QUOTE] + PieceText(Short(letter)) + [QUOTE];
  }

  lemma {:induction false} OnePiece(p: Piece, unit: UChar, host: Host)
    requires ValidPiece(p) && PieceUnit(p, unit)
    ensures Parse([QUOTE] + PieceText(p) + [QUOTE], host) == Some(Str([unit]))
  {
    hide Parse, IsStringBody, Decode, PieceText, PieceUnit, ValidPiece;
    var ps, s := [p], [unit];
    assert ps[1..] == [] && PiecesText(ps[1..]) == [];
    assert PiecesText(ps) == PieceText(p);
    PiecesRead(ps, s);
    var span := [QUOTE] + PieceText(p) + [QUOTE];
    assert span[1..|span| - 1] == PieceText(p);
    assert WritesString(PieceText(p), s);
    assert WritesScalar(span, Str(s), host);
    ScalarText(Lexeme(StringLiteral, span), Str(s), host);
  }

  // ---------------------------------------------------------------- marks, spaces and depth

  /** The marks between values, and what counts as space. */
  lemma {:induction false} MarksAndSpaces()
    ensures OPEN_BRACKET.span == Ascii("[") && CLOSE_BRACKET.span == Ascii("]")
    ensures OPEN_BRACE.span == Ascii("{") && CLOSE_BRACE.span == Ascii("}")
    ensures COMMA_MARK.span == Ascii(",") && COLON_MARK.span == Ascii(":")
    ensures QUOTE == '"' as int && MINUS == '-' as int && PLUS == '+' as int && DOT == '.' as int && ZERO == '0' as int
    ensures forall c: UChar :: IsDigit(c) <==> '0' as int <= c <= '9' as int
    ensures forall c: UChar :: IsSpaceOrNewLine(c) <==> c in [9, 10, 11, 12, 13, 32]
    ensures forall x: Trivia ::
              TriviaText(x) == match x
                               case Space(c) => [c]
                               case LineComment(body, newline) => Ascii("//") + body + [newline]
                               case BlockComment(inner) => Ascii("/*") + inner + Ascii("*/")
  {
    assert Ascii("//") == [SLASH, SLASH] && Ascii("/*") == [SLASH, STAR] && Ascii("*/") == [STAR, SLASH];
  }

  function Repeated(c: char, n: nat): Text {
    seq(n, i => if c as int < 128 then c as int else 0)
  }

  function Nested(n: nat): Value {
    if n == 0 then Array([]) else Array([Nested(n - 1)])
  }

  lemma {:induction false} OneItem(v: Value, host: Host)
    ensures Render(Array([v]), host) == [LBRACKET] + Render(v, host) + [RBRACKET]
    ensures Height(Array([v])) == 1 + Height(v) && (WellFormed(v) ==> WellFormed(Array([v])))
    ensures ExactDoubles(v, host) ==> ExactDoubles(Array([v]), host)
    ensures PrintsNumbers(v, host) ==> PrintsNumbers(Array([v]), host)
  {
    var items := [v];
    assert items[1..] == [] && items[0] == v;
    assert RenderItems(items, false, host) == RenderItem(v, false, host) + RenderItems(items[1..], true, host);
    assert RenderItems(items, false, host) == Render(v, host);
    assert ItemsHeight(items) == Max(1 + Height(v), ItemsHeight(items[1..]));
  }

  lemma {:induction false} NoItems(host: Host)
    ensures Render(Array([]), host) == [LBRACKET, RBRACKET]
    ensures Height(Array([])) == 0 && WellFormed(Array([]))
    ensures ExactDoubles(Array([]), host) && PrintsNumbers(Array([]), host)
  {
    assert Render(Array([]), host) == [LBRACKET] + [] + [RBRACKET];
  }

  lemma {:induction false} NestedText(n: nat, host: Host)
    ensures Render(Nested(n), host) == Repeated('[', n + 1) + Repeated(']', n + 1)
    ensures Height(Nested(n)) == n && WellFormed(Nested(n))
    ensures ExactDoubles(Nested(n), host) && PrintsNumbers(Nested(n), host)
  {
    hide Render, Height, WellFormed, ExactDoubles, PrintsNumbers;
    if n > 0 {
      NestedText(n - 1, host);
      OneItem(Nested(n - 1), host);
      assert Repeated('[', n + 1) == [LBRACKET] + Repeated('[', n);
      assert Repeated(']', n + 1) == Repeated(']', n) + [RBRACKET];
    } else {
      NoItems(host);
      assert Repeated('[', 1) == [LBRACKET] && Repeated(']', 1) == [RBRACKET];
    }
  }

  /** Brackets within brackets are read up to the 1001st pair. */
  lemma {:induction false} NestedLists(n: nat, host: Host)
    requires n > 0
    ensures Parse(Repeated('[', n) + Repeated(']', n), host).Some? <==> n <= 1001
  {
    NestedText(n - 1, host);
    hide Render, Parse, Nested, Height;
    PrintThenParse(Nested(n - 1), host);
  }

  // ---------------------------------------------------------------- how the printer writes

  /** Seven units have short forms, all others outside 32..126 are written with four capital
      hexadecimal digits, and the rest stand for themselves. */
  lemma {:induction false} PrinterWrites(c: UChar) returns (worths: seq<nat>)
    ensures |worths| == 4 && (forall i :: 0 <= i < 4 ==> worths[i] < 16)
    ensures c == worths[0] * 4096 + worths[1] * 256 + worths[2] * 16 + worths[3]
    ensures EscapeUnit(c) ==
            if c == 8 then Ascii("\\b") else if c == 12 then Ascii("\\f") else if c == 10 then Ascii("\\n")
            else if c == 13 then Ascii("\\r") else if c == 9 then Ascii("\\t") else if c == 92 then Ascii("\\\\")
            else if c == 34 then Ascii("\\\"")
            else if 32 <= c <= 126 then [c]
            else Ascii("\\u") + seq(4, i requires 0 <= i < 4 => Capital(worths[i]))
  {
    worths := [c / 4096, c / 256 % 16, c / 16 % 16, c % 16];
    Nibbles(c, c / 4096, c / 256 % 16, c / 16 % 16, c % 16);
    HexIsCapital(c, worths);
    ShortTexts();
    hide HexEscape, Capital, Ascii;
  }

  lemma {:induction false} ShortTexts()
    ensures Ascii("\\b") == [92, 98] && Ascii("\\f") == [92, 102] && Ascii("\\n") == [92, 110]
    ensures Ascii("\\r") == [92, 114] && Ascii("\\t") == [92, 116] && Ascii("\\\\") == [92, 92]
    ensures Ascii("\\\"") == [92, 34] && Ascii("\\u") == [92, 117]
  {
  }

  lemma {:induction false} HexIsCapital(c: UChar, worths: seq<nat>)
    requires worths == [c / 4096, c / 256 % 16, c / 16 % 16, c % 16]
    ensures HexEscape(c) == Ascii("\\u") + seq(4, i requires 0 <= i < 4 => Capital(worths[i]))
  {
    CapitalIs(worths[0]);
    CapitalIs(worths[1]);
    CapitalIs(worths[2]);
    CapitalIs(worths[3]);
    ShortTexts();
    hide HexDigit, Capital, Ascii;
  }

  function Capital(n: nat): UChar
    requires n < 16
  {
    UPPER_CASE[n] as int % 0x1_0000
  }

  lemma {:induction false} CapitalIs(n: nat)
    requires n < 16
    ensures Capital(n) == HexDigit(n)
  {
    assert UPPER_CASE[n] as int == if n < 10 then 48 + n else 55 + n;
  }

  /** A double is finite unless its bits, the sign apart, are those of infinity or above. */
  lemma {:induction false} FiniteBelowInfinity(bits: Bits64)
    ensures IsFinite(bits) <==> bits % 0x8000_0000_0000_0000 < 0x7FF0_0000_0000_0000
  {
    var q := bits / 0x10_0000_0000_0000;
    var r := bits % 0x10_0000_0000_0000;
    assert bits == q * 0x10_0000_0000_0000 + r;
    assert q < 0x1000;
    var sign := if q < 0x800 then 0 else 1;
    assert q % 0x800 == q - sign * 0x800;
    assert bits % 0x8000_0000_0000_0000 == (q - sign * 0x800) * 0x10_0000_0000_0000 + r;
  }
}
