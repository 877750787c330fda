/** The main results about JSON text: the parser accepts exactly the layouts of the grammar,
    and undoes the printer. */
module RoundTrip {
  import opened String16
  import opened Values
  import opened Writer
  import opened Lexer
  import opened Lexical
  import opened Layout
  import opened Parser
  import opened Syntax

  // ---------------------------------------------------------------- the accepted language

  /** `t` is the spelling of `tree` with the given gaps. */
  ghost predicate IsLayout(t: Text, tree: Tree, gaps: seq<Gap>, tail: Text) {
    && ValidTree(tree) && ValidLexemes(Spelling(tree))
    && |gaps| == |Spelling(tree)| + 1 && ValidGaps(gaps) && ValidTail(tail)
    && t == Weave(Spelling(tree), gaps, tail)
  }

  ghost predicate Denotes(t: Text, v: Value, host: Host) {
    exists tree, gaps, tail :: IsLayout(t, tree, gaps, tail) && MeansWithin(tree, v, host)
  }

  predicate MeansWithin(tree: Tree, v: Value, host: Host) {
    TreeHeight(tree) <= STACK_LIMIT && Meaning(tree, host) == Some(v)
  }

  predicate Closes(token: Token) {
    token == ListSeparator || token == ArrayEnd || token == ObjectEnd
  }

  predicate NumbersClosed(ls: seq<Lexeme>) {
    forall i :: 0 < i < |ls| && ls[i - 1].token == Number ==> Closes(ls[i].token)
  }

  lemma {:induction false} ClosedConcat(a: seq<Lexeme>, b: seq<Lexeme>)
    requires NumbersClosed(a) && NumbersClosed(b)
    requires a == [] || b == [] || a[|a| - 1].token != Number || Closes(b[0].token)
    ensures NumbersClosed(a + b)
  {
  }

  lemma {:induction false} SpellingClosed(tree: Tree)
    requires ValidTree(tree)
    ensures NumbersClosed(Spelling(tree))
    decreases tree, 1
  {
    hide NumbersClosed;
    SingleClosed();
    match tree {
      case Leaf(l) =>
      case ListTree(items) =>
        ItemsClosed(items);
        ClosedConcat([OPEN_BRACKET], SpellItems(items));
        ClosedConcat([OPEN_BRACKET] + SpellItems(items), [CLOSE_BRACKET]);
      case DictTree(members) =>
        MembersClosed(members);
        ClosedConcat([OPEN_BRACE], SpellMembers(members));
        ClosedConcat([OPEN_BRACE] + SpellMembers(members), [CLOSE_BRACE]);
    }
  }

  lemma {:induction false} SingleClosed()
    ensures forall l: Lexeme :: NumbersClosed([l])
    ensures NumbersClosed([])
  {
  }

  lemma {:induction false} ItemsClosed(items: seq<Tree>)
    requires ValidItems(items)
    ensures NumbersClosed(SpellItems(items)) && NumbersClosed(SpellMoreItems(items))
    ensures SpellMoreItems(items) != [] ==> SpellMoreItems(items)[0] == COMMA_MARK
    decreases items, 0
  {
    hide NumbersClosed, Spelling;
    SingleClosed();
    if items != [] {
      SpellingClosed(items[0]);
      ItemsClosed(items[1..]);
      ClosedConcat(Spelling(items[0]), SpellMoreItems(items[1..]));
      ClosedConcat([COMMA_MARK], Spelling(items[0]) + SpellMoreItems(items[1..]));
      assert SpellMoreItems(items) == [COMMA_MARK] + (Spelling(items[0]) + SpellMoreItems(items[1..]));
    }
  }

  lemma {:induction false} MembersClosed(members: seq<Member>)
    requires ValidMembers(members)
    ensures NumbersClosed(SpellMembers(members)) && NumbersClosed(SpellMoreMembers(members))
    ensures SpellMoreMembers(members) != [] ==> SpellMoreMembers(members)[0] == COMMA_MARK
    decreases members, 0
  {
    hide NumbersClosed, SpellMember;
    SingleClosed();
    if members != [] {
      MemberClosed(members[0]);
      MembersClosed(members[1..]);
      ClosedConcat(SpellMember(members[0]), SpellMoreMembers(members[1..]));
      ClosedConcat([COMMA_MARK], SpellMember(members[0]) + SpellMoreMembers(members[1..]));
      assert SpellMoreMembers(members) == [COMMA_MARK] + (SpellMember(members[0]) + SpellMoreMembers(members[1..]));
    }
  }

  lemma {:induction false} MemberClosed(m: Member)
    requires ValidMember(m)
    ensures NumbersClosed(SpellMember(m))
    decreases m, 0
  {
    SpellingClosed(m.value);
    ClosedConcat([m.key, COLON_MARK], Spelling(m.value));
  }

  lemma {:induction false} TreesAreSeparated(tree: Tree, gaps: seq<Gap>)
    requires ValidTree(tree) && ValidLexemes(Spelling(tree)) && |gaps| == |Spelling(tree)| + 1
    ensures Separated(Spelling(tree), gaps)
  {
    var ls := Spelling(tree);
    SpellingClosed(tree);
    forall i | 0 < i < |ls| && ls[i - 1].token == Number && gaps[i] == []
      ensures ls[i].span == [] || !IsDigit(ls[i].span[0])
    {
      assert ValidLexeme(ls[i]) && Closes(ls[i].token);
    }
  }

  /** Whatever stands between the tokens, a spelling of a tree parses to the meaning of the
      tree, unless the tree is too deep or has none. */
  lemma {:induction false} ParseLayout(t: Text, tree: Tree, gaps: seq<Gap>, tail: Text, host: Host)
    requires IsLayout(t, tree, gaps, tail)
    ensures Parse(t, host) == if TreeHeight(tree) <= STACK_LIMIT then Meaning(tree, host) else None
  {
    TreesAreSeparated(tree, gaps);
    LexWeave(Spelling(tree), gaps, tail);
    ParseComplete(tree, [], 0, host);
    assert Spelling(tree) + [] == Spelling(tree);
  }

  /** The parser accepts a text, with value `v`, exactly when the text is some layout of a
      tree that means `v` and is at most 1000 levels deep. */
  lemma {:induction false} ParserIsGrammar(t: Text, v: Value, host: Host)
    ensures Parse(t, host) == Some(v) <==> Denotes(t, v, host)
  {
    if Denotes(t, v, host) {
      var tree, gaps, tail :| IsLayout(t, tree, gaps, tail) && MeansWithin(tree, v, host);
      ParseLayout(t, tree, gaps, tail, host);
    }
    if Parse(t, host) == Some(v) {
      var gaps, tail := LexSound(t);
      var ls := Lex(t).lexemes;
      var tree := ParseSound(ls, 0, host);
      assert Spelling(tree) + [] == Spelling(tree);
      assert IsLayout(t, tree, gaps, tail) && MeansWithin(tree, v, host);
    }
  }

  /** Parsing an object, whatever its layout and however often its keys are repeated: each key is
      there once, in the place of its first listing, with the value of its last. */
  lemma {:induction false} RepeatedKeysMerge(t: Text, members: seq<Member>, gaps: seq<Gap>, tail: Text, host: Host)
    requires IsLayout(t, DictTree(members), gaps, tail) && Parse(t, host).Some?
    ensures MeaningMembers(members, host).Some? && Parse(t, host).value.Object?
    ensures var listed, entries := MeaningMembers(members, host).value, Parse(t, host).value.entries;
            && DistinctKeys(entries) && InFirstOrder(listed, Keys(entries))
            && (forall k :: Find(entries, k) == LastValue(listed, k))
  {
    ParseLayout(t, DictTree(members), gaps, tail, host);
    CollectMerges(MeaningMembers(members, host).value);
  }

  /** What the parser returns is a tree as the library builds them, and never a deeper one than
      the limit allows. */
  lemma {:induction false} ParsedIsWellFormed(t: Text, v: Value, host: Host)
    requires Parse(t, host) == Some(v)
    ensures WellFormed(v) && Height(v) <= STACK_LIMIT
  {
    ParserIsGrammar(t, v, host);
    var tree, gaps, tail :| IsLayout(t, tree, gaps, tail) && MeansWithin(tree, v, host);
    MeaningWellFormed(tree, host);
  }

  lemma {:induction false} MeaningWellFormed(tree: Tree, host: Host)
    requires Meaning(tree, host).Some?
    ensures WellFormed(Meaning(tree, host).value) && Height(Meaning(tree, host).value) <= TreeHeight(tree)
    decreases tree, 1
  {
    match tree {
      case Leaf(l) =>
      case ListTree(items) => MeaningItemsWellFormed(items, host);
      case DictTree(members) =>
        MeaningMembersWellFormed(members, host);
        var listed := MeaningMembers(members, host).value;
        CollectMerges(listed);
        CollectWellFormed([], listed);
    }
  }

  lemma {:induction false} MeaningItemsWellFormed(items: seq<Tree>, host: Host)
    requires MeaningItems(items, host).Some?
    ensures ItemsWellFormed(MeaningItems(items, host).value)
    ensures ItemsHeight(MeaningItems(items, host).value) <= ItemTreesHeight(items)
    decreases items, 0
  {
    if items != [] {
      MeaningWellFormed(items[0], host);
      MeaningItemsWellFormed(items[1..], host);
      assert MeaningItems(items, host).value[1..] == MeaningItems(items[1..], host).value;
    }
  }

  lemma {:induction false} MeaningMembersWellFormed(members: seq<Member>, host: Host)
    requires MeaningMembers(members, host).Some?
    ensures EntriesWellFormed(MeaningMembers(members, host).value)
    ensures EntriesHeight(MeaningMembers(members, host).value) <= MemberTreesHeight(members)
    decreases members, 0
  {
    if members != [] {
      MeaningMemberWellFormed(members[0], host);
      MeaningMembersWellFormed(members[1..], host);
      assert MeaningMembers(members, host).value[1..] == MeaningMembers(members[1..], host).value;
    }
  }

  lemma {:induction false} MeaningMemberWellFormed(m: Member, host: Host)
    requires MeaningMember(m, host).Some?
    ensures WellFormed(MeaningMember(m, host).value.value)
    ensures Height(MeaningMember(m, host).value.value) <= MemberHeight(m)
    decreases m, 0
  {
    MeaningWellFormed(m.value, host);
  }

  lemma {:induction false} CollectWellFormed(done: seq<Entry>, members: seq<Entry>)
    requires EntriesWellFormed(done) && EntriesWellFormed(members)
    ensures EntriesWellFormed(Collect(done, members))
    ensures EntriesHeight(Collect(done, members)) <= Max(EntriesHeight(done), EntriesHeight(members))
    decreases |members|
  {
    if members != [] {
      SetWellFormed(done, members[0].key, members[0].value);
      CollectWellFormed(SetEntry(done, members[0].key, members[0].value), members[1..]);
    }
  }

  lemma {:induction false} SetWellFormed(entries: seq<Entry>, key: Text, value: Value)
    requires EntriesWellFormed(entries) && WellFormed(value)
    ensures EntriesWellFormed(SetEntry(entries, key, value))
    ensures EntriesHeight(SetEntry(entries, key, value)) <= Max(EntriesHeight(entries), 1 + Height(value))
  {
    var r := SetEntry(entries, key, value);
    if entries != [] && entries[0].key != key {
      SetWellFormed(entries[1..], key, value);
      assert r[1..] == SetEntry(entries[1..], key, value);
    } else if entries != [] {
      assert r[1..] == entries[1..];
    } else {
      assert r[1..] == [];
    }
  }

  /** The last unit of a constant is not looked at: `nul` followed by anything is null. */
  lemma {:induction false} AnyFourthUnitMakesNull(c: UChar, host: Host)
    ensures Parse([110, 117, 108, c], host) == Some(Null)
  {
    var l := Lexeme(NullToken, [110, 117, 108, c]);
    assert l.span[..3] == NULL_WORD[..3];
    var gaps: seq<Gap> := [[], []];
    TightWeave([l], gaps);
    SpansOne(l);
    ParseLayout(l.span, Leaf(l), gaps, [], host);
  }

  // ---------------------------------------------------------------- what the printer prints

  /** The printed form of a tree as a tree of tokens. */
  function TreeOf(v: Value, host: Host): Tree
    decreases v, 0
  {
    match v
    case Null => Leaf(Lexeme(NullToken, NULL_WORD))
    case Boolean(b) => if b then Leaf(Lexeme(BoolTrue, TRUE_WORD)) else Leaf(Lexeme(BoolFalse, FALSE_WORD))
    case Integer(n) => Leaf(Lexeme(Number, Decimal(n)))
    case Double(bits) =>
      if IsFinite(bits) then Leaf(Lexeme(Number, host.fromDouble(bits))) else Leaf(Lexeme(NullToken, NULL_WORD))
    case Str(s) => Leaf(Lexeme(StringLiteral, Quoted(s)))
    case Object(entries) => DictTree(MembersOf(entries, host))
    case Array(items) => ListTree(TreesOf(items, host))
    case Serialized(_) => Leaf(Lexeme(NullToken, NULL_WORD))
  }

  function TreesOf(items: seq<Value>, host: Host): seq<Tree>
    decreases items, 0
  {
    if items == [] then [] else [TreeOf(items[0], host)] + TreesOf(items[1..], host)
  }

  function MemberOf(e: Entry, host: Host): Member
    decreases e, 0
  {
    Member(Lexeme(StringLiteral, Quoted(e.key)), TreeOf(e.value, host))
  }

  function MembersOf(entries: seq<Entry>, host: Host): seq<Member>
    decreases entries, 0
  {
    if entries == [] then [] else [MemberOf(entries[0], host)] + MembersOf(entries[1..], host)
  }

  /** No part is already serialized, and finite doubles print as numbers of the grammar. */
  ghost predicate PrintsNumbers(v: Value, host: Host)
    decreases v, 0
  {
    match v
    case Double(bits) => IsFinite(bits) ==> IsNumber(host.fromDouble(bits))
    case Serialized(_) => false
    case Object(entries) => EntriesPrintNumbers(entries, host)
    case Array(items) => ItemsPrintNumbers(items, host)
    case _ => true
  }

  ghost predicate ItemsPrintNumbers(items: seq<Value>, host: Host)
    decreases items, 0
  {
    items == [] || (PrintsNumbers(items[0], host) && ItemsPrintNumbers(items[1..], host))
  }

  ghost predicate EntriesPrintNumbers(entries: seq<Entry>, host: Host)
    decreases entries, 0
  {
    entries == [] || (PrintsNumbers(entries[0].value, host) && EntriesPrintNumbers(entries[1..], host))
  }

  function Spans(ls: seq<Lexeme>): Text {
    if ls == [] then [] else ls[0].span + Spans(ls[1..])
  }

  lemma {:induction false} SpansConcat(a: seq<Lexeme>, b: seq<Lexeme>)
    ensures Spans(a + b) == Spans(a) + Spans(b)
  {
    if a == [] {
      assert a + b == b;
    } else {
      assert (a + b)[1..] == a[1..] + b;
      SpansConcat(a[1..], b);
    }
  }

  lemma {:induction false} SpellingIsRender(v: Value, host: Host)
    requires PrintsNumbers(v, host)
    ensures ValidTree(TreeOf(v, host)) && ValidLexemes(Spelling(TreeOf(v, host)))
    ensures Spans(Spelling(TreeOf(v, host))) == Render(v, host)
    ensures TreeHeight(TreeOf(v, host)) == Height(v)
    decreases v, 1
  {
    match v {
      case Object(entries) =>
        MembersRender(entries, host);
        Bracketed(OPEN_BRACE, SpellMembers(MembersOf(entries, host)), CLOSE_BRACE);
      case Array(items) =>
        ItemsRender(items, host);
        Bracketed(OPEN_BRACKET, SpellItems(TreesOf(items, host)), CLOSE_BRACKET);
      case _ =>
        ScalarRender(v, host);
    }
  }

  lemma {:induction false} ScalarRender(v: Value, host: Host)
    requires PrintsNumbers(v, host) && !v.Object? && !v.Array?
    ensures ValidTree(TreeOf(v, host)) && ValidLexemes(Spelling(TreeOf(v, host)))
    ensures Spans(Spelling(TreeOf(v, host))) == Render(v, host)
  {
    var l := TreeOf(v, host).lexeme;
    assert Spelling(TreeOf(v, host)) == [l];
    SpansOne(l);
    ScalarLexeme(v, host);
  }

  lemma {:induction false} ScalarLexeme(v: Value, host: Host)
    requires PrintsNumbers(v, host) && !v.Object? && !v.Array?
    ensures ValidLexeme(TreeOf(v, host).lexeme) && TreeOf(v, host).lexeme.span == Render(v, host)
  {
    hide IsNumber, Quoted, IsStringBody;
    match v {
      case Integer(n) => DecimalIsNumber(n);
      case Str(s) => QuotedIsString(s);
      case _ =>
    }
  }

  lemma {:induction false} DecimalIsNumber(n: int)
    ensures IsNumber(Decimal(n))
  {
    var p := NumberParts(n < 0, Digits(if n < 0 then -n else n), None, None);
    assert ValidParts(p);
    assert SpellNumber(p) == Decimal(n);
  }

  lemma {:induction false} QuotedIsString(s: Text)
    ensures ValidLexeme(Lexeme(StringLiteral, Quoted(s))) && DecodeSpan(Quoted(s)) == Some(s)
  {
    EscapeRoundTrip(s);
    assert Quoted(s)[1..|Quoted(s)| - 1] == Escape(s);
  }

  lemma {:induction false} Bracketed(open: Lexeme, inner: seq<Lexeme>, close: Lexeme)
    ensures Spans([open] + inner + [close]) == open.span + Spans(inner) + close.span
    ensures ValidLexemes(inner) && ValidLexeme(open) && ValidLexeme(close) ==> ValidLexemes([open] + inner + [close])
  {
    hide ValidLexeme;
    SpansConcat([open] + inner, [close]);
    SpansConcat([open], inner);
    SpansOne(open);
    SpansOne(close);
  }

  lemma {:induction false} SpansOne(l: Lexeme)
    ensures Spans([l]) == l.span
  {
  }

  /** Tokens put in front of tokens. */
  lemma {:induction false} Prepend(front: seq<Lexeme>, back: seq<Lexeme>)
    requires ValidLexemes(front) && ValidLexemes(back)
    ensures ValidLexemes(front + back) && Spans(front + back) == Spans(front) + Spans(back)
  {
    hide ValidLexeme, Spans;
    SpansConcat(front, back);
  }

  lemma {:induction false} ItemsRender(items: seq<Value>, host: Host)
    requires ItemsPrintNumbers(items, host)
    ensures var trees := TreesOf(items, host);
            && ValidItems(trees) && ItemTreesHeight(trees) == ItemsHeight(items)
            && ValidLexemes(SpellItems(trees)) && Spans(SpellItems(trees)) == RenderItems(items, false, host)
            && ValidLexemes(SpellMoreItems(trees)) && Spans(SpellMoreItems(trees)) == RenderItems(items, true, host)
    decreases items, 0
  {
    if items != [] {
      var tree, more := TreeOf(items[0], host), TreesOf(items[1..], host);
      SpellingIsRender(items[0], host);
      ItemsRender(items[1..], host);
      CommaBeforeItem(items[0], host);
      hide PrintsNumbers, TreeOf, Spelling, Render, RenderItem, ValidLexeme, Spans, TreeHeight, Height, ValidTree;
      assert TreesOf(items, host)[1..] == more;
      Prepend(Spelling(tree), SpellMoreItems(more));
      CommaFirst(Spelling(tree));
      Prepend([COMMA_MARK] + Spelling(tree), SpellMoreItems(more));
    }
  }

  lemma {:induction false} CommaBeforeItem(item: Value, host: Host)
    ensures RenderItem(item, true, host) == [COMMA] + RenderItem(item, false, host)
    ensures RenderItem(item, false, host) == Render(item, host)
  {
  }

  lemma {:induction false} CommaFirst(ls: seq<Lexeme>)
    requires ValidLexemes(ls)
    ensures ValidLexemes([COMMA_MARK] + ls) && Spans([COMMA_MARK] + ls) == [COMMA] + Spans(ls)
  {
  }

  lemma {:induction false} MemberRender(e: Entry, host: Host)
    requires PrintsNumbers(e.value, host)
    ensures var m := MemberOf(e, host);
            && ValidMember(m) && MemberHeight(m) == Height(e.value)
            && ValidLexemes(SpellMember(m)) && Spans(SpellMember(m)) == RenderEntry(e, false, host)
    decreases e, 0
  {
    SpellingIsRender(e.value, host);
    QuotedIsString(e.key);
    hide Spelling, TreeOf, Render, Quoted, PrintsNumbers, ValidTree, TreeHeight, Height;
    var m := MemberOf(e, host);
    KeyFirst(m.key, Spelling(m.value));
  }

  lemma {:induction false} KeyFirst(key: Lexeme, ls: seq<Lexeme>)
    requires ValidLexeme(key) && ValidLexemes(ls)
    ensures ValidLexemes([key, COLON_MARK] + ls)
    ensures Spans([key, COLON_MARK] + ls) == key.span + [COLON] + Spans(ls)
  {
  }

  lemma {:induction false} MembersRender(entries: seq<Entry>, host: Host)
    requires EntriesPrintNumbers(entries, host)
    ensures var members := MembersOf(entries, host);
            && ValidMembers(members) && MemberTreesHeight(members) == EntriesHeight(entries)
            && ValidLexemes(SpellMembers(members))
            && Spans(SpellMembers(members)) == RenderEntries(entries, false, host)
            && ValidLexemes(SpellMoreMembers(members))
            && Spans(SpellMoreMembers(members)) == RenderEntries(entries, true, host)
    decreases entries, 0
  {
    if entries != [] {
      var m, more := MemberOf(entries[0], host), MembersOf(entries[1..], host);
      MemberRender(entries[0], host);
      MembersRender(entries[1..], host);
      CommaBefore(entries[0], host);
      hide PrintsNumbers, MemberOf, SpellMember, RenderEntry, ValidLexeme, Spans, MemberHeight, Height, ValidMember;
      assert MembersOf(entries, host)[1..] == more;
      Prepend(SpellMember(m), SpellMoreMembers(more));
      CommaFirst(SpellMember(m));
      Prepend([COMMA_MARK] + SpellMember(m), SpellMoreMembers(more));
    }
  }

  lemma {:induction false} CommaBefore(e: Entry, host: Host)
    ensures RenderEntry(e, true, host) == [COMMA] + RenderEntry(e, false, host)
  {
  }

  lemma {:induction false} TightWeave(ls: seq<Lexeme>, gaps: seq<Gap>)
    requires |gaps| == |ls| + 1 && (forall i :: 0 <= i < |gaps| ==> gaps[i] == [])
    ensures Weave(ls, gaps, []) == Spans(ls)
  {
    assert GapText(gaps[0]) == [];
    if ls != [] {
      TightWeave(ls[1..], gaps[1..]);
    }
  }

  // ---------------------------------------------------------------- reading it back

  /** Every double prints as a number that reads back as that double. */
  predicate ExactDoubles(v: Value, host: Host)
    decreases v, 0
  {
    match v
    case Double(bits) => IsFinite(bits) && ReadNumber(host.fromDouble(bits), host) == Some(v)
    case Object(entries) => EntriesExact(entries, host)
    case Array(items) => ItemsExact(items, host)
    case _ => true
  }

  predicate ItemsExact(items: seq<Value>, host: Host)
    decreases items, 0
  {
    items == [] || (ExactDoubles(items[0], host) && ItemsExact(items[1..], host))
  }

  predicate EntryExact(e: Entry, host: Host)
    decreases e, 0
  {
    ExactDoubles(e.value, host)
  }

  predicate EntriesExact(entries: seq<Entry>, host: Host)
    decreases entries, 0
  {
    entries == [] || (EntryExact(entries[0], host) && EntriesExact(entries[1..], host))
  }

  /** Setting distinct keys in turn just lists them. */
  lemma {:induction false} CollectDistinct(done: seq<Entry>, members: seq<Entry>)
    requires DistinctKeys(done + members)
    ensures Collect(done, members) == done + members
    decreases |members|
  {
    if members == [] {
      assert done + members == done;
    } else {
      var e := members[0];
      forall i | 0 <= i < |done| ensures done[i].key != e.key {
        assert (done + members)[i] == done[i] && (done + members)[|done|] == e;
      }
      SetEntryAppends(done, e.key, e.value);
      assert Entry(e.key, e.value) == e;
      assert done + [e] + members[1..] == done + members;
      CollectDistinct(done + [e], members[1..]);
    }
  }

  lemma {:induction false} MeaningOfPrinted(v: Value, host: Host)
    requires WellFormed(v) && PrintsNumbers(v, host)
    ensures Meaning(TreeOf(v, host), host) == Some(v) <==> ExactDoubles(v, host)
    decreases v, 1
  {
    match v {
      case Integer(n) => DecimalRoundTrip(n);
      case Str(s) => QuotedIsString(s);
      case Object(entries) =>
        MeaningOfEntries(entries, host);
        var es := MeaningMembers(MembersOf(entries, host), host);
        if es.Some? {
          DistinctIffKeys(es.value);
          DistinctIffKeys(entries);
          assert [] + es.value == es.value;
          CollectDistinct([], es.value);
        }
      case Array(items) => MeaningOfItems(items, host);
      case _ =>
    }
  }

  lemma {:induction false} MeaningOfItems(items: seq<Value>, host: Host)
    requires ItemsWellFormed(items) && ItemsPrintNumbers(items, host)
    ensures MeaningItems(TreesOf(items, host), host) == Some(items) <==> ItemsExact(items, host)
    decreases items, 0
  {
    if items != [] {
      MeaningOfPrinted(items[0], host);
      MeaningOfItems(items[1..], host);
      hide Meaning, TreeOf, ExactDoubles;
      var trees := TreesOf(items, host);
      assert trees[1..] == TreesOf(items[1..], host);
      assert items == [items[0]] + items[1..];
      var vs := MeaningItems(trees, host);
      if vs == Some(items) {
        assert vs.value[0] == items[0] && vs.value[1..] == items[1..];
      }
    }
  }

  lemma {:induction false} MeaningOfEntry(e: Entry, host: Host)
    requires WellFormed(e.value) && PrintsNumbers(e.value, host)
    ensures MeaningMember(MemberOf(e, host), host) == Some(e) <==> EntryExact(e, host)
    ensures MeaningMember(MemberOf(e, host), host).Some? ==> MeaningMember(MemberOf(e, host), host).value.key == e.key
    decreases e, 0
  {
    QuotedIsString(e.key);
    MeaningOfPrinted(e.value, host);
  }

  lemma {:induction false} MeaningOfEntries(entries: seq<Entry>, host: Host)
    requires EntriesWellFormed(entries) && EntriesPrintNumbers(entries, host)
    ensures MeaningMembers(MembersOf(entries, host), host) == Some(entries) <==> EntriesExact(entries, host)
    ensures var es := MeaningMembers(MembersOf(entries, host), host);
            es.Some? ==> Keys(es.value) == Keys(entries)
    decreases entries, 0
  {
    if entries != [] {
      MeaningOfEntry(entries[0], host);
      MeaningOfEntries(entries[1..], host);
      hide MeaningMember, MemberOf, EntryExact;
      var members := MembersOf(entries, host);
      assert members[1..] == MembersOf(entries[1..], host);
      assert entries == [entries[0]] + entries[1..];
      var es := MeaningMembers(members, host);
      if es.Some? {
        KeysCons(es.value[0], es.value[1..]);
        KeysCons(entries[0], entries[1..]);
        assert es.value == [es.value[0]] + es.value[1..];
      }
    }
  }

  /** Printing a well-formed tree, spreading any gaps between the printed tokens and
      parsing the result gives the tree back exactly when no node is deeper than 1000 and
      every double reads back as itself; a deeper tree is rejected. */
  lemma {:induction false} LayoutRoundTrip(v: Value, gaps: seq<Gap>, tail: Text, host: Host)
    requires WellFormed(v) && PrintsNumbers(v, host)
    requires |gaps| == |Spelling(TreeOf(v, host))| + 1 && ValidGaps(gaps) && ValidTail(tail)
    ensures var t := Weave(Spelling(TreeOf(v, host)), gaps, tail);
            && (Parse(t, host) == Some(v) <==> Height(v) <= STACK_LIMIT && ExactDoubles(v, host))
            && (Height(v) > STACK_LIMIT ==> Parse(t, host) == None)
  {
    var tree := TreeOf(v, host);
    SpellingIsRender(v, host);
    MeaningOfPrinted(v, host);
    ParseLayout(Weave(Spelling(tree), gaps, tail), tree, gaps, tail, host);
  }

  /** The same without any gaps: what `serialize` returns. */
  lemma {:induction false} PrintThenParse(v: Value, host: Host)
    requires WellFormed(v) && PrintsNumbers(v, host)
    ensures Parse(Render(v, host), host) == Some(v) <==> Height(v) <= STACK_LIMIT && ExactDoubles(v, host)
    ensures Height(v) > STACK_LIMIT ==> Parse(Render(v, host), host) == None
  {
    var ls := Spelling(TreeOf(v, host));
    var gaps: seq<Gap> := seq(|ls| + 1, _ => []);
    SpellingIsRender(v, host);
    TightWeave(ls, gaps);
    LayoutRoundTrip(v, gaps, [], host);
  }

  // ---------------------------------------------------------------- splicing serialized parts

  /** `w` is `v` with some subtrees replaced by their printed text. */
  predicate Spliced(v: Value, w: Value, host: Host)
    decreases v, 0
  {
    if w.Serialized? then w.text == Render(v, host)
    else match v
         case Object(entries) => w.Object? && SplicedEntries(entries, w.entries, host)
         case Array(items) => w.Array? && SplicedItems(items, w.items, host)
         case _ => v == w
  }

  predicate SplicedItems(a: seq<Value>, b: seq<Value>, host: Host)
    decreases a, 0
  {
    |a| == |b| && (a == [] || (Spliced(a[0], b[0], host) && SplicedItems(a[1..], b[1..], host)))
  }

  predicate SplicedEntries(a: seq<Entry>, b: seq<Entry>, host: Host)
    decreases a, 0
  {
    |a| == |b| && (a == [] || (SplicedEntry(a[0], b[0], host) && SplicedEntries(a[1..], b[1..], host)))
  }

  predicate SplicedEntry(a: Entry, b: Entry, host: Host)
    decreases a, 0
  {
    a.key == b.key && Spliced(a.value, b.value, host)
  }

  /** Embedding parts as already-serialized text prints the same text as embedding the values. */
  lemma {:induction false} SplicePrintsTheSame(v: Value, w: Value, host: Host)
    requires Spliced(v, w, host)
    ensures Render(w, host) == Render(v, host)
    decreases v, 1
  {
    if !w.Serialized? {
      match v {
        case Object(entries) => SpliceEntries(entries, w.entries, false, host);
        case Array(items) => SpliceItems(items, w.items, false, host);
        case _ =>
      }
    }
  }

  lemma {:induction false} SpliceItems(a: seq<Value>, b: seq<Value>, more: bool, host: Host)
    requires SplicedItems(a, b, host)
    ensures RenderItems(b, more, host) == RenderItems(a, more, host)
    decreases a, 0
  {
    if a != [] {
      SplicePrintsTheSame(a[0], b[0], host);
      SpliceItems(a[1..], b[1..], true, host);
    }
  }

  lemma {:induction false} SpliceEntry(a: Entry, b: Entry, more: bool, host: Host)
    requires SplicedEntry(a, b, host)
    ensures RenderEntry(b, more, host) == RenderEntry(a, more, host)
    decreases a, 0
  {
    SplicePrintsTheSame(a.value, b.value, host);
  }

  lemma {:induction false} SpliceEntries(a: seq<Entry>, b: seq<Entry>, more: bool, host: Host)
    requires SplicedEntries(a, b, host)
    ensures RenderEntries(b, more, host) == RenderEntries(a, more, host)
    decreases a, 0
  {
    if a != [] {
      SpliceEntry(a[0], b[0], more, host);
      SpliceEntries(a[1..], b[1..], true, host);
    }
  }
}
