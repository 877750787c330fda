/** Texts as tokens with gaps between them, and the theorem that lexing such a text gives back
    exactly the tokens, whatever the gaps are. */
module Layout {
  import opened String16
  import opened Lexer
  import opened Lexical

  /** `gaps[i]` stands before token `i`; the last gap and `tail` stand at the end. */
  function Weave(ls: seq<Lexeme>, gaps: seq<Gap>, tail: Text): Text
    requires |gaps| == |ls| + 1
  {
    if ls == [] then GapText(gaps[0]) + tail
    else GapText(gaps[0]) + (ls[0].span + Weave(ls[1..], gaps[1..], tail))
  }

  ghost predicate ValidLexemes(ls: seq<Lexeme>) {
    forall i :: 0 <= i < |ls| ==> ValidLexeme(ls[i])
  }

  predicate ValidGaps(gaps: seq<Gap>) {
    forall i :: 0 <= i < |gaps| ==> ValidGap(gaps[i])
  }

  /** A number is not followed at once by a token that starts with a digit. */
  predicate Separated(ls: seq<Lexeme>, gaps: seq<Gap>)
    requires |gaps| == |ls| + 1
  {
    forall i :: 0 < i < |ls| && ls[i - 1].token == Number && gaps[i] == [] ==>
                  ls[i].span == [] || !IsDigit(ls[i].span[0])
  }

  lemma {:induction false} FirstUnit(l: Lexeme)
    requires ValidLexeme(l)
    ensures l.span != [] && l.span[0] != DOT && !IsExponentMark(l.span[0])
    ensures !IsSpaceOrNewLine(l.span[0]) && l.span[0] != SLASH
  {
  }

  lemma {:induction false} GapFirst(g: Gap, rest: Text)
    requires ValidGap(g) && g != []
    ensures EndsNumber(GapText(g) + rest)
  {
  }

  /** What follows a number never continues it. */
  lemma {:induction false} WeaveEndsNumber(ls: seq<Lexeme>, gaps: seq<Gap>, tail: Text)
    requires |gaps| == |ls| + 1 && ValidLexemes(ls) && ValidGaps(gaps) && ValidTail(tail)
    requires ls != [] && gaps[0] == [] ==> !IsDigit(ls[0].span[0])
    requires ls != [] ==> ls[0].span != []
    ensures EndsNumber(Weave(ls, gaps, tail))
  {
    if gaps[0] != [] {
      GapFirst(gaps[0], if ls == [] then tail else ls[0].span + Weave(ls[1..], gaps[1..], tail));
    } else if ls != [] {
      FirstUnit(ls[0]);
    }
  }

  /** Reading a text token by token recovers the tokens it was woven from. */
  lemma {:induction false} LexWeave(ls: seq<Lexeme>, gaps: seq<Gap>, tail: Text)
    requires |gaps| == |ls| + 1 && ValidLexemes(ls) && ValidGaps(gaps) && ValidTail(tail)
    requires Separated(ls, gaps)
    ensures Lex(Weave(ls, gaps, tail)) == Lexed(ls, true)
  {
    hide SkipSpace, ScanToken, GapText, ValidGap, ValidLexeme, EndsNumber;
    if ls == [] {
      SkipGap(gaps[0], tail);
      SkipTail(tail);
      ScanNothing();
    } else {
      var rest := Weave(ls[1..], gaps[1..], tail);
      var u := ls[0].span + rest;
      assert ValidLexeme(ls[0]) && ValidGap(gaps[0]);
      SkipGap(gaps[0], u);
      FirstUnit(ls[0]);
      NothingToSkip(u);
      if ls[0].token == Number {
        if |ls| > 1 { FirstUnit(ls[1]); }
        assert Separated(ls, gaps) ==> |ls| > 1 && gaps[1] == [] ==> !IsDigit(ls[1].span[0]);
        WeaveEndsNumber(ls[1..], gaps[1..], tail);
      }
      ScanTokenComplete(ls[0], rest);
      assert u[|ls[0].span|..] == rest;
      SeparatedTail(ls, gaps);
      LexWeave(ls[1..], gaps[1..], tail);
    }
  }

  lemma {:induction false} ScanNothing()
    ensures ScanToken([]).None?
  {
  }

  lemma {:induction false} NothingToSkip(u: Text)
    requires u != [] && !IsSpaceOrNewLine(u[0]) && u[0] != SLASH
    ensures SkipSpace(u) == u
  {
  }

  lemma {:induction false} SeparatedTail(ls: seq<Lexeme>, gaps: seq<Gap>)
    requires |gaps| == |ls| + 1 && ls != [] && Separated(ls, gaps)
    ensures Separated(ls[1..], gaps[1..])
  {
  }

  /** Every text that lexes cleanly is woven from its tokens and some gaps. */
  lemma {:induction false} LexSound(t: Text) returns (gaps: seq<Gap>, tail: Text)
    requires Lex(t).clean
    ensures ValidLexemes(Lex(t).lexemes) && ValidGaps(gaps) && ValidTail(tail)
    ensures |gaps| == |Lex(t).lexemes| + 1 && Separated(Lex(t).lexemes, gaps)
    ensures t == Weave(Lex(t).lexemes, gaps, tail)
    decreases |t|
  {
    hide SkipSpace, ScanToken, GapText, ValidGap, ValidTail, ValidLexeme;
    var u := SkipSpace(t);
    var g, end := SkipSpaceSound(t);
    if ScanToken(u).None? {
      gaps, tail := [g], end;
    } else {
      var l := ScanToken(u).value;
      var rest := u[|l.span|..];
      var gs;
      gs, tail := LexSound(rest);
      ScanTokenSound(u);
      ScanSomething(u);
      assert end == [];
      gaps := [g] + gs;
      var ls := Lex(rest).lexemes;
      assert Lex(t).lexemes == [l] + ls && ([l] + ls)[1..] == ls && gaps[1..] == gs;
      assert u == l.span + rest;
      assert t == GapText(g) + u;
      if l.token == Number && ls != [] && gs[0] == [] {
        assert rest == ls[0].span + Weave(ls[1..], gs[1..], tail) by { NoGap(); }
        FirstUnit(ls[0]);
        NumberStops(u);
        assert rest[0] == ls[0].span[0];
      }
      SeparatedCons(l, ls, g, gs);
    }
  }

  lemma {:induction false} NoGap()
    ensures GapText([]) == []
    ensures forall t: Text :: GapText([]) + t == t
  {
  }

  lemma {:induction false} ScanSomething(u: Text)
    requires ScanToken(u).Some?
    ensures u != []
  {
  }

  lemma {:induction false} NumberStops(u: Text)
    requires ScanToken(u).Some? && ScanToken(u).value.token == Number
    ensures var n := |ScanToken(u).value.span|; n < |u| ==> !IsDigit(u[n])
  {
    hide ScanNumber, ScanString;
    ScanNumberSound(u);
  }

  lemma {:induction false} SeparatedCons(l: Lexeme, ls: seq<Lexeme>, g: Gap, gs: seq<Gap>)
    requires |gs| == |ls| + 1 && Separated(ls, gs)
    requires l.token == Number && ls != [] && gs[0] == [] ==> ls[0].span == [] || !IsDigit(ls[0].span[0])
    ensures Separated([l] + ls, [g] + gs)
  {
  }
}
