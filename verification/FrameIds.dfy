/** The ids of frame properties: the name goes into them as it is, so exactly the names without a
    quote or a backslash can be read back. */
module FrameIds {
  import opened String16
  import opened Values
  import opened Writer
  import opened Lexer
  import opened Lexical
  import opened Layout
  import opened Parser
  import opened Syntax
  import opened RoundTrip
  import opened Names

  predicate Unquoted(s: Text) {
    forall i :: 0 <= i < |s| ==> s[i] != QUOTE && s[i] != BACKSLASH
  }

  // ---------------------------------------------------------------- the tokens of such an id

  function StringToken(body: Text): Lexeme {
    Lexeme(StringLiteral, [QUOTE] + body + [QUOTE])
  }

  /** The tokens before the name. */
  function HeadTokens(ordinal: int32): seq<Lexeme> {
    [OPEN_BRACE, StringToken(Ascii(ORDINAL_NAME)), COLON_MARK, Lexeme(Number, Decimal(ordinal)), COMMA_MARK,
     StringToken(Ascii(NAME_NAME)), COLON_MARK]
  }

  /** The text from the name on. */
  function TailText(propName: Text): Text {
    [QUOTE] + propName + [QUOTE, RBRACE]
  }

  /** A token at the front of a text is the first that is read, if the text does not go on with it. */
  lemma {:induction false} LexFirst(l: Lexeme, rest: Text)
    requires ValidLexeme(l) && (l.token == Number ==> EndsNumber(rest))
    ensures Lex(l.span + rest) == Lexed([l] + Lex(rest).lexemes, Lex(rest).clean)
  {
    hide ValidLexeme, ScanToken, SkipSpace, EndsNumber;
    FirstUnit(l);
    var u := l.span + rest;
    NothingToSkip(u);
    ScanTokenComplete(l, rest);
    assert u[|l.span|..] == rest;
  }

  lemma {:induction false} UnquotedBody(s: Text)
    requires Unquoted(s)
    ensures IsStringBody(s) && Decode(s) == Some(s)
  {
    if s != [] {
      UnquotedBody(s[1..]);
      assert s == [s[0]] + s[1..];
    }
  }

  lemma {:induction false} UnquotedToken(s: Text)
    requires Unquoted(s)
    ensures ValidLexeme(StringToken(s)) && DecodeSpan(StringToken(s).span) == Some(s)
  {
    UnquotedBody(s);
    assert StringToken(s).span[1..|s| + 1] == s;
  }

  lemma {:induction false} LiteralsUnquoted()
    ensures Unquoted(Ascii(ORDINAL_NAME)) && Unquoted(Ascii(NAME_NAME)) && Ascii(ORDINAL_NAME) != Ascii(NAME_NAME)
  {
    assert |ORDINAL_NAME| == 7 && |NAME_NAME| == 4;
  }

  predicate NumbersThenCommas(ls: seq<Lexeme>) {
    forall i :: 0 <= i < |ls| && ls[i].token == Number ==> i + 1 < |ls| && ls[i + 1].token == ListSeparator
  }

  lemma {:induction false} NumbersTail(ls: seq<Lexeme>)
    requires ls != [] && NumbersThenCommas(ls) && ValidLexemes(ls)
    ensures NumbersThenCommas(ls[1..]) && ValidLexemes(ls[1..]) && ValidLexeme(ls[0])
    ensures ls[0].token == Number ==> |ls| > 1 && ls[1].token == ListSeparator && ValidLexeme(ls[1])
  {
  }

  lemma {:induction false} Associate<T>(a: seq<T>, b: seq<T>, c: seq<T>)
    ensures (a + b) + c == a + (b + c)
  {
  }

  /** Tokens with nothing between them, where no number is followed by what could continue it. */
  lemma {:induction false} LexPrefix(ls: seq<Lexeme>, rest: Text)
    requires ValidLexemes(ls) && NumbersThenCommas(ls)
    ensures Lex(Spans(ls) + rest) == Lexed(ls + Lex(rest).lexemes, Lex(rest).clean)
  {
    hide Lex, ValidLexeme, EndsNumber, NumbersThenCommas, ValidLexemes;
    if ls == [] {
      assert Spans(ls) + rest == rest;
      assert ls + Lex(rest).lexemes == Lex(rest).lexemes;
    } else {
      hide Spans;
      var l, tail := ls[0], ls[1..];
      assert ls == [l] + tail;
      NumbersTail(ls);
      SpansCons(l, tail);
      Associate(l.span, Spans(tail), rest);
      if l.token == Number {
        CommaStops(tail, rest);
      }
      LexPrefix(tail, rest);
      LexFirst(l, Spans(tail) + rest);
      Associate([l], tail, Lex(rest).lexemes);
    }
  }

  lemma {:induction false} SpansCons(l: Lexeme, ls: seq<Lexeme>)
    ensures Spans([l] + ls) == l.span + Spans(ls)
  {
    assert ([l] + ls)[1..] == ls;
  }

  lemma {:induction false} CommaStops(ls: seq<Lexeme>, rest: Text)
    requires ls != [] && ValidLexeme(ls[0]) && ls[0].token == ListSeparator
    ensures EndsNumber(Spans(ls) + rest)
  {
    assert ls[0].span[0] == COMMA;
  }

  lemma {:induction false} SpansOfSeven(a: Lexeme, b: Lexeme, c: Lexeme, d: Lexeme, e: Lexeme, f: Lexeme, g: Lexeme)
    ensures Spans([a, b, c, d, e, f, g]) == a.span + b.span + c.span + d.span + e.span + f.span + g.span
  {
    SpansCons(g, []);
    SpansCons(f, [g]);
    SpansCons(e, [f, g]);
    SpansCons(d, [e, f, g]);
    SpansCons(c, [d, e, f, g]);
    SpansCons(b, [c, d, e, f, g]);
    SpansCons(a, [b, c, d, e, f, g]);
    assert [g] + [] == [g] && [f] + [g] == [f, g] && [e] + [f, g] == [e, f, g] && [d] + [e, f, g] == [d, e, f, g];
    assert [c] + [d, e, f, g] == [c, d, e, f, g] && [b] + [c, d, e, f, g] == [b, c, d, e, f, g];
    assert [a] + [b, c, d, e, f, g] == [a, b, c, d, e, f, g];
    assert Spans([]) == [];
    hide Spans;
  }

  lemma {:induction false} IdInParts(ordinal: int32, propName: Text)
    ensures GetObjectIdForFrameProp(ordinal, propName) == Spans(HeadTokens(ordinal)) + TailText(propName)
  {
    Openings();
    var ls := HeadTokens(ordinal);
    SpansOfSeven(ls[0], ls[1], ls[2], ls[3], ls[4], ls[5], ls[6]);
    hide Ascii, Decimal, Spans;
    assert Ascii("\"}") == [QUOTE, RBRACE];
  }

  lemma {:induction false} HeadValid(ordinal: int32)
    ensures ValidLexemes(HeadTokens(ordinal))
  {
    LiteralsUnquoted();
    UnquotedToken(Ascii(ORDINAL_NAME));
    UnquotedToken(Ascii(NAME_NAME));
    DecimalIsNumber(ordinal);
    hide Ascii, Decimal, IsNumber, StringToken;
    assert ValidLexeme(Lexeme(Number, Decimal(ordinal)));
    assert ValidLexeme(OPEN_BRACE) && ValidLexeme(COLON_MARK) && ValidLexeme(COMMA_MARK);
  }

  lemma {:induction false} LexId(ordinal: int32, propName: Text)
    ensures var rest := Lex(TailText(propName));
            Lex(GetObjectIdForFrameProp(ordinal, propName)) == Lexed(HeadTokens(ordinal) + rest.lexemes, rest.clean)
  {
    assert NumbersThenCommas(HeadTokens(ordinal));
    hide Lex, TailText, GetObjectIdForFrameProp, ValidLexemes;
    IdInParts(ordinal, propName);
    HeadValid(ordinal);
    LexPrefix(HeadTokens(ordinal), TailText(propName));
  }

  // ---------------------------------------------------------------- what they parse to

  /** The members from the name on. */
  function NameMembers(ls: seq<Lexeme>, host: Host): Option<(seq<Entry>, seq<Lexeme>)> {
    ParseMembers([StringToken(Ascii(NAME_NAME)), COLON_MARK] + ls, 0, host)
  }

  lemma {:induction false} ReadOrdinal(ordinal: int32, host: Host)
    ensures Scalar(Lexeme(Number, Decimal(ordinal)), host) == Some(Integer(ordinal))
  {
    DecimalRoundTrip(ordinal);
  }

  /** The first member, and whatever comes after its comma. */
  lemma {:induction false} FirstMember(key: Lexeme, value: Lexeme, more: seq<Lexeme>, name: Text, v: Value, host: Host)
    requires key.token == StringLiteral && DecodeSpan(key.span) == Some(name)
    requires value.token == Number && Scalar(value, host) == Some(v) && !StartsWith(more, ObjectEnd)
    ensures ParseMembers([key, COLON_MARK, value, COMMA_MARK] + more, 0, host) ==
            match ParseMembers(more, 0, host)
            case None => None
            case Some((es, rest)) => Some(([Entry(name, v)] + es, rest))
  {
    hide DecodeSpan, Scalar;
    var all := [key, COLON_MARK, value, COMMA_MARK] + more;
    assert all[2..] == [value, COMMA_MARK] + more;
    assert all[2..][1..] == [COMMA_MARK] + more;
    assert ([COMMA_MARK] + more)[1..] == more;
    assert ParseValue(all[2..], 1, host) == Some((v, [COMMA_MARK] + more));
    assert all[1..][0] == COLON_MARK;
  }

  lemma {:induction false} ParseHead(ordinal: int32, ls: seq<Lexeme>, host: Host)
    ensures ParseValue(HeadTokens(ordinal) + ls, 0, host) ==
            match NameMembers(ls, host)
            case None => None
            case Some((es, rest)) => Some((Object(Collect([], [IntField(ORDINAL_NAME, ordinal)] + es)), rest))
  {
    LiteralsUnquoted();
    UnquotedToken(Ascii(ORDINAL_NAME));
    ReadOrdinal(ordinal, host);
    var o, number := StringToken(Ascii(ORDINAL_NAME)), Lexeme(Number, Decimal(ordinal));
    var more := [StringToken(Ascii(NAME_NAME)), COLON_MARK] + ls;
    hide Ascii, Decimal, Scalar, DecodeSpan, Collect, ParseMembers;
    var all := HeadTokens(ordinal) + ls;
    assert all[1..] == [o, COLON_MARK, number, COMMA_MARK] + more;
    FirstMember(o, number, more, Ascii(ORDINAL_NAME), Integer(ordinal), host);
  }

  /** A name without a quote or a backslash is one token, then the brace closes. */
  lemma {:induction false} LexPlainTail(propName: Text)
    requires Unquoted(propName)
    ensures Lex(TailText(propName)) == Lexed([StringToken(propName), CLOSE_BRACE], true)
  {
    UnquotedToken(propName);
    assert ValidLexeme(CLOSE_BRACE);
    assert TailText(propName) == StringToken(propName).span + (CLOSE_BRACE.span + []);
    assert Lex([]) == Lexed([], true);
    hide Lex, ValidLexeme, StringToken, TailText;
    LexFirst(CLOSE_BRACE, []);
    LexFirst(StringToken(propName), CLOSE_BRACE.span + []);
    assert [CLOSE_BRACE] + [] == [CLOSE_BRACE];
  }

  /** One member and the closing brace. */
  lemma {:induction false} LastMember(key: Lexeme, value: Lexeme, name: Text, v: Value, host: Host)
    requires key.token == StringLiteral && DecodeSpan(key.span) == Some(name)
    requires value.token == StringLiteral && Scalar(value, host) == Some(v)
    ensures ParseMembers([key, COLON_MARK] + [value, CLOSE_BRACE], 0, host) == Some(([Entry(name, v)], []))
  {
    hide DecodeSpan, Scalar;
    var all := [key, COLON_MARK] + [value, CLOSE_BRACE];
    assert all[2..] == [value, CLOSE_BRACE] && [value, CLOSE_BRACE][1..] == [CLOSE_BRACE] && [CLOSE_BRACE][1..] == [];
    assert ParseValue(all[2..], 1, host) == Some((v, [CLOSE_BRACE]));
    assert all[1..][0] == COLON_MARK;
  }

  lemma {:induction false} PlainNameMembers(propName: Text, host: Host)
    requires Unquoted(propName)
    ensures NameMembers([StringToken(propName), CLOSE_BRACE], host) ==
            Some(([Entry(Ascii(NAME_NAME), Str(propName))], []))
  {
    LiteralsUnquoted();
    UnquotedToken(Ascii(NAME_NAME));
    UnquotedToken(propName);
    LastMember(StringToken(Ascii(NAME_NAME)), StringToken(propName), Ascii(NAME_NAME), Str(propName), host);
  }

  // ---------------------------------------------------------------- no other name survives

  /** Decoding never lengthens, and a quote or a backslash costs at least one unit more. */
  lemma {:induction false} DecodeLength(b: Text)
    requires IsStringBody(b) && Decode(b).Some?
    ensures |Decode(b).value| <= |b| && (|Decode(b).value| == |b| ==> Unquoted(Decode(b).value))
    decreases |b|
  {
    if b != [] {
      DecodeLength(b[UnitLength(b).value..]);
    }
  }

  lemma {:induction false} StringSpan(l: Lexeme, host: Host)
    requires Scalar(l, host).Some? && Scalar(l, host).value.Str?
    ensures var s := Scalar(l, host).value.s; |l.span| >= |s| + 2 && (!Unquoted(s) ==> |l.span| >= |s| + 3)
  {
    hide IsStringBody, Decode;
    if l.token == StringLiteral {
      DecodeLength(l.span[1..|l.span| - 1]);
    }
  }

  lemma {:induction false} LexTotal(t: Text)
    ensures |Spans(Lex(t).lexemes)| <= |t|
    decreases |t|
  {
    var u := SkipSpace(t);
    if ScanToken(u).Some? {
      var l := ScanToken(u).value;
      LexTotal(u[|l.span|..]);
      assert Lex(t).lexemes[1..] == Lex(u[|l.span|..]).lexemes;
    }
  }

  lemma {:induction false} SuffixSpans(a: seq<Lexeme>, b: seq<Lexeme>, ls: seq<Lexeme>)
    requires ls == a + b
    ensures |Spans(ls)| == |Spans(a)| + |Spans(b)| && |Spans(b)| <= |Spans(ls)|
  {
    SpansConcat(a, b);
  }

  lemma {:induction false} FirstSpan(ls: seq<Lexeme>)
    requires ls != [] && ValidLexemes(ls)
    ensures |Spans(ls)| == |ls[0].span| + |Spans(ls[1..])| && |ls[0].span| > 0
  {
    FirstUnit(ls[0]);
  }

  lemma {:induction false} AfterValue(ls: seq<Lexeme>, depth: nat, host: Host)
    requires ValidLexemes(ls) && ParseValue(ls, depth, host).Some?
    ensures var after := ParseValue(ls, depth, host).value.1; ValidLexemes(after) && |Spans(after)| <= |Spans(ls)|
  {
    var after := ParseValue(ls, depth, host).value.1;
    var tree := ParseSound(ls, depth, host);
    SuffixSpans(Spelling(tree), after, ls);
    hide ValidLexeme, ParseValue, Spans, Spelling;
    forall k | 0 <= k < |after| ensures ValidLexeme(after[k]) {
      assert ls[|Spelling(tree)| + k] == after[k];
    }
  }

  lemma {:induction false} AfterString(ls: seq<Lexeme>, depth: nat, host: Host)
    requires ValidLexemes(ls) && ParseValue(ls, depth, host).Some? && ParseValue(ls, depth, host).value.0.Str?
    ensures var (v, after) := ParseValue(ls, depth, host).value;
            |Spans(ls)| >= |Spans(after)| + |v.s| + 2 && (!Unquoted(v.s) ==> |Spans(ls)| >= |Spans(after)| + |v.s| + 3)
  {
    hide Scalar, Unquoted, ValidLexeme;
    FirstSpan(ls);
    StringSpan(ls[0], host);
  }

  /** A string value of a member is spelled, with its quotes and what must follow it, in the tokens
      after the first key. */
  lemma {:induction false} StringMemberIsShort(ls: seq<Lexeme>, host: Host, i: nat)
    requires ValidLexemes(ls) && ParseMembers(ls, 0, host).Some? && i < |ParseMembers(ls, 0, host).value.0|
    requires ParseMembers(ls, 0, host).value.0[i].value.Str?
    ensures |ls| >= 2
    ensures var s := ParseMembers(ls, 0, host).value.0[i].value.s;
            |Spans(ls[2..])| >= |s| + 3 && (!Unquoted(s) ==> |Spans(ls[2..])| >= |s| + 4)
    decreases |ls|
  {
    var after := ParseValue(ls[2..], 1, host).value.1;
    hide ParseValue, Spans, Unquoted, ValidLexeme, DecodeSpan;
    AfterValue(ls[2..], 1, host);
    FirstSpan(after);
    if i == 0 {
      AfterString(ls[2..], 1, host);
    } else {
      var rest := after[1..];
      StringMemberIsShort(rest, host, i - 1);
      assert rest == rest[..2] + rest[2..];
      SuffixSpans(rest[..2], rest[2..], rest);
    }
  }

  // ---------------------------------------------------------------- exactly the names that survive

  lemma {:induction false} ParseId(ordinal: int32, propName: Text, host: Host)
    ensures var lexed := Lex(TailText(propName));
            ParseObjectId(GetObjectIdForFrameProp(ordinal, propName), host) ==
            match NameMembers(lexed.lexemes, host)
            case Some((es, rest)) =>
              if rest == [] && lexed.clean then Some(Collect([], [IntField(ORDINAL_NAME, ordinal)] + es)) else None
            case None => None
  {
    LexId(ordinal, propName);
    ParseHead(ordinal, Lex(TailText(propName)).lexemes, host);
    hide Lex, ParseValue, NameMembers, Collect, HeadTokens, TailText, GetObjectIdForFrameProp;
  }

  /** A frame-property id parses back to its ordinal and its name exactly when the name has neither
      a quote nor a backslash; all other units, printable or not, are read back as they are. */
  lemma {:induction false} NameSurvivesIff(ordinal: int32, propName: Text, host: Host)
    ensures ParseObjectId(GetObjectIdForFrameProp(ordinal, propName), host) == Some(PropFields(ordinal, propName))
       <==> Unquoted(propName)
  {
    ParseId(ordinal, propName, host);
    if Unquoted(propName) {
      LexPlainTail(propName);
      PlainNameMembers(propName, host);
      LiteralsUnquoted();
      CollectPair(IntField(ORDINAL_NAME, ordinal), Entry(Ascii(NAME_NAME), Str(propName)));
    }
    if ParseObjectId(GetObjectIdForFrameProp(ordinal, propName), host) == Some(PropFields(ordinal, propName)) {
      SurvivorsAreUnquoted(ordinal, propName, host);
    }
  }

  lemma {:induction false} CollectPair(d: Entry, e: Entry)
    requires d.key != e.key
    ensures Collect([], [d] + [e]) == [d, e]
  {
    CollectDistinct([], [d, e]);
    assert [d] + [e] == [d, e] && [] + [d, e] == [d, e];
  }

  lemma {:induction false} SurvivorsAreUnquoted(ordinal: int32, propName: Text, host: Host)
    requires ParseObjectId(GetObjectIdForFrameProp(ordinal, propName), host) == Some(PropFields(ordinal, propName))
    ensures Unquoted(propName)
  {
    hide Ascii, Lex, ParseMembers, Collect, GetObjectIdForFrameProp, ParseObjectId, ValidLexemes;
    ParseId(ordinal, propName, host);
    var lexed := Lex(TailText(propName));
    var first := IntField(ORDINAL_NAME, ordinal);
    var es := NameMembers(lexed.lexemes, host).value.0;
    CollectMerges([first] + es);
    FindFields(ordinal, propName);
    LiteralsUnquoted();
    var key := Ascii(NAME_NAME);
    assert LastValue([first] + es, key) == Some(Str(propName));
    var i :| 0 <= i < |[first] + es| && ([first] + es)[i] == Entry(key, Str(propName));
    assert i > 0 && es[i - 1] == Entry(key, Str(propName));
    var ls := [StringToken(key), COLON_MARK] + lexed.lexemes;
    TailTokensValid(propName, ls);
    StringMemberIsShort(ls, host, i - 1);
    assert ls[2..] == lexed.lexemes;
    LexTotal(TailText(propName));
  }

  lemma {:induction false} TailTokensValid(propName: Text, ls: seq<Lexeme>)
    requires Lex(TailText(propName)).clean &&
             ls == [StringToken(Ascii(NAME_NAME)), COLON_MARK] + Lex(TailText(propName)).lexemes
    ensures ValidLexemes(ls)
  {
    hide Ascii, Lex;
    var gaps, tail := LexSound(TailText(propName));
    LiteralsUnquoted();
    UnquotedToken(Ascii(NAME_NAME));
    assert ValidLexeme(COLON_MARK);
  }
}
