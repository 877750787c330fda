/** The grammar the parser accepts, as trees of tokens, and the proof that the parser accepts
    exactly the spellings of those trees and returns what they mean. */
module Syntax {
  import opened String16
  import opened Values
  import opened Lexer
  import opened Lexical
  import opened Layout
  import opened Parser

  datatype Tree = Leaf(lexeme: Lexeme) | ListTree(items: seq<Tree>) | DictTree(members: seq<Member>)

  datatype Member = Member(key: Lexeme, value: Tree)

  const OPEN_BRACKET := Lexeme(ArrayBegin, [LBRACKET])
  const CLOSE_BRACKET := Lexeme(ArrayEnd, [RBRACKET])
  const OPEN_BRACE := Lexeme(ObjectBegin, [LBRACE])
  const CLOSE_BRACE := Lexeme(ObjectEnd, [RBRACE])
  const COMMA_MARK := Lexeme(ListSeparator, [COMMA])
  const COLON_MARK := Lexeme(ObjectPairSeparator, [COLON])

  predicate IsScalarToken(token: Token) {
    token == StringLiteral || token == Number || token == BoolTrue || token == BoolFalse || token == NullToken
  }

  predicate ValidTree(tree: Tree)
    decreases tree, 0
  {
    match tree
    case Leaf(l) => IsScalarToken(l.token)
    case ListTree(items) => ValidItems(items)
    case DictTree(members) => ValidMembers(members)
  }

  predicate ValidItems(items: seq<Tree>)
    decreases items, 0
  {
    items == [] || (ValidTree(items[0]) && ValidItems(items[1..]))
  }

  predicate ValidMembers(members: seq<Member>)
    decreases members, 0
  {
    members == [] || (ValidMember(members[0]) && ValidMembers(members[1..]))
  }

  predicate ValidMember(m: Member)
    decreases m, 0
  {
    m.key.token == StringLiteral && ValidTree(m.value)
  }

  /** The tokens of a tree, in order. */
  function Spelling(tree: Tree): (ls: seq<Lexeme>)
    ensures ls != []
    decreases tree, 1
  {
    match tree
    case Leaf(l) => [l]
    case ListTree(items) => [OPEN_BRACKET] + SpellItems(items) + [CLOSE_BRACKET]
    case DictTree(members) => [OPEN_BRACE] + SpellMembers(members) + [CLOSE_BRACE]
  }

  function SpellItems(items: seq<Tree>): seq<Lexeme>
    decreases items, 0
  {
    if items == [] then [] else Spelling(items[0]) + SpellMoreItems(items[1..])
  }

  function SpellMoreItems(items: seq<Tree>): seq<Lexeme>
    decreases items, 0
  {
    if items == [] then [] else [COMMA_MARK] + Spelling(items[0]) + SpellMoreItems(items[1..])
  }

  function SpellMember(m: Member): (ls: seq<Lexeme>)
    decreases m, 0
  {
    [m.key, COLON_MARK] + Spelling(m.value)
  }

  function SpellMembers(members: seq<Member>): seq<Lexeme>
    decreases members, 0
  {
    if members == [] then [] else SpellMember(members[0]) + SpellMoreMembers(members[1..])
  }

  function SpellMoreMembers(members: seq<Member>): seq<Lexeme>
    decreases members, 0
  {
    if members == [] then [] else [COMMA_MARK] + SpellMember(members[0]) + SpellMoreMembers(members[1..])
  }

  function TreeHeight(tree: Tree): nat
    decreases tree, 0
  {
    match tree
    case Leaf(_) => 0
    case ListTree(items) => ItemTreesHeight(items)
    case DictTree(members) => MemberTreesHeight(members)
  }

  function ItemTreesHeight(items: seq<Tree>): nat
    decreases items, 0
  {
    if items == [] then 0 else Max(1 + TreeHeight(items[0]), ItemTreesHeight(items[1..]))
  }

  function MemberTreesHeight(members: seq<Member>): nat
    decreases members, 0
  {
    if members == [] then 0 else Max(1 + MemberHeight(members[0]), MemberTreesHeight(members[1..]))
  }

  function MemberHeight(m: Member): nat
    decreases m, 0
  {
    TreeHeight(m.value)
  }

  /** The value of a tree: repeated keys of an object keep the place of the first and the
      value of the last. There is none when a string or a number has none. */
  function Meaning(tree: Tree, host: Host): Option<Value>
    decreases tree, 0
  {
    match tree
    case Leaf(l) => Scalar(l, host)
    case ListTree(items) => (match MeaningItems(items, host) case None => None case Some(vs) => Some(Array(vs)))
    case DictTree(members) =>
      (match MeaningMembers(members, host) case None => None case Some(es) => Some(Object(Collect([], es))))
  }

  function MeaningItems(items: seq<Tree>, host: Host): Option<seq<Value>>
    decreases items, 0
  {
    if items == [] then Some([])
    else
      var v, rest := Meaning(items[0], host), MeaningItems(items[1..], host);
      if v.None? || rest.None? then None else Some([v.value] + rest.value)
  }

  function MeaningMembers(members: seq<Member>, host: Host): Option<seq<Entry>>
    decreases members, 0
  {
    if members == [] then Some([])
    else
      var e, rest := MeaningMember(members[0], host), MeaningMembers(members[1..], host);
      if e.None? || rest.None? then None else Some([e.value] + rest.value)
  }

  function MeaningMember(m: Member, host: Host): Option<Entry>
    decreases m, 0
  {
    var k, v := DecodeSpan(m.key.span), Meaning(m.value, host);
    if k.None? || v.None? then None else Some(Entry(k.value, v.value))
  }

  // ---------------------------------------------------------------- every spelling is parsed to its meaning

  /** No value starts with a closing bracket, a closing brace, a comma or a colon. */
  lemma {:induction false} SpellingStarts(tree: Tree)
    requires ValidTree(tree)
    ensures Spelling(tree)[0].token == ArrayBegin || Spelling(tree)[0].token == ObjectBegin
            || IsScalarToken(Spelling(tree)[0].token)
  {
  }

  lemma {:induction false} ParseComplete(tree: Tree, rest: seq<Lexeme>, depth: nat, host: Host)
    requires ValidTree(tree)
    ensures ParseValue(Spelling(tree) + rest, depth, host) ==
            if depth + TreeHeight(tree) <= STACK_LIMIT && Meaning(tree, host).Some?
            then Some((Meaning(tree, host).value, rest)) else None
    decreases tree, 1
  {
    var ls := Spelling(tree) + rest;
    hide Scalar, Collect, SpellItems, SpellMembers;
    match tree {
      case Leaf(l) =>
        assert ls[0] == l && ls[1..] == rest;
      case ListTree(items) =>
        var inner := SpellItems(items) + ([CLOSE_BRACKET] + rest);
        assert ls == [OPEN_BRACKET] + inner;
        assert ls[0] == OPEN_BRACKET && ls[1..] == inner;
        if items == [] {
          NoItems(rest);
        } else if depth <= STACK_LIMIT {
          ItemsComplete(items, rest, depth, host);
        }
      case DictTree(members) =>
        var inner := SpellMembers(members) + ([CLOSE_BRACE] + rest);
        assert ls == [OPEN_BRACE] + inner;
        assert ls[0] == OPEN_BRACE && ls[1..] == inner;
        if members == [] {
          NoMembers(rest);
        } else if depth <= STACK_LIMIT {
          MembersComplete(members, rest, depth, host);
        }
    }
  }

  lemma {:induction false} NoItems(rest: seq<Lexeme>)
    ensures SpellItems([]) + ([CLOSE_BRACKET] + rest) == [CLOSE_BRACKET] + rest
  {
  }

  lemma {:induction false} NoMembers(rest: seq<Lexeme>)
    ensures SpellMembers([]) + ([CLOSE_BRACE] + rest) == [CLOSE_BRACE] + rest
    ensures Collect([], []) == []
  {
  }

  lemma {:induction false} ItemsComplete(items: seq<Tree>, rest: seq<Lexeme>, depth: nat, host: Host)
    requires items != [] && ValidItems(items)
    ensures var ls := SpellItems(items) + ([CLOSE_BRACKET] + rest);
            && !StartsWith(ls, ArrayEnd)
            && ParseItems(ls, depth, host) ==
               if depth + ItemTreesHeight(items) <= STACK_LIMIT && MeaningItems(items, host).Some?
               then Some((MeaningItems(items, host).value, rest)) else None
    decreases items, 0
  {
    var more := items[1..];
    var close := [CLOSE_BRACKET] + rest;
    var after := SpellMoreItems(more) + close;
    Reassociate(Spelling(items[0]), SpellMoreItems(more), close);
    SpellingStarts(items[0]);
    ParseComplete(items[0], after, depth + 1, host);
    hide Spelling, ParseValue, TreeHeight, Meaning, StartsWith;
    if more != [] {
      ItemsComplete(more, rest, depth, host);
    } else if Meaning(items[0], host).Some? {
      Alone(Meaning(items[0], host).value);
    }
    AfterItem(more, after, rest);
    ItemsStartWith(items[0], after);
  }

  lemma {:induction false} Alone<T>(x: T)
    ensures [x] + [] == [x]
  {
  }

  /** What stands after an item: the closing bracket, or a comma and more items. */
  lemma {:induction false} AfterItem(more: seq<Tree>, after: seq<Lexeme>, rest: seq<Lexeme>)
    requires after == SpellMoreItems(more) + ([CLOSE_BRACKET] + rest)
    ensures more == [] ==> StartsWith(after, ArrayEnd) && after[1..] == rest
    ensures more != [] ==> StartsWith(after, ListSeparator) && !StartsWith(after, ArrayEnd)
    ensures more != [] ==> after[1..] == SpellItems(more) + ([CLOSE_BRACKET] + rest)
  {
    if more != [] {
      var close := [CLOSE_BRACKET] + rest;
      assert SpellMoreItems(more) == [COMMA_MARK] + SpellItems(more);
      assert after == [COMMA_MARK] + (SpellItems(more) + close);
    }
  }

  lemma {:induction false} ItemsStartWith(item: Tree, after: seq<Lexeme>)
    requires ValidTree(item)
    ensures var ls := Spelling(item) + after; !StartsWith(ls, ArrayEnd) && !StartsWith(ls, ObjectEnd)
  {
  }

  lemma {:induction false} Reassociate(a: seq<Lexeme>, b: seq<Lexeme>, c: seq<Lexeme>)
    ensures a + b + c == a + (b + c)
  {
  }

  lemma {:induction false} MembersComplete(members: seq<Member>, rest: seq<Lexeme>, depth: nat, host: Host)
    requires members != [] && ValidMembers(members)
    ensures var ls := SpellMembers(members) + ([CLOSE_BRACE] + rest);
            && !StartsWith(ls, ObjectEnd)
            && ParseMembers(ls, depth, host) ==
               if depth + MemberTreesHeight(members) <= STACK_LIMIT && MeaningMembers(members, host).Some?
               then Some((MeaningMembers(members, host).value, rest)) else None
    decreases members, 0
  {
    var m, more := members[0], members[1..];
    var after := SpellMoreMembers(more) + ([CLOSE_BRACE] + rest);
    var ls := SpellMembers(members) + ([CLOSE_BRACE] + rest);
    Reassociate(SpellMember(m), SpellMoreMembers(more), [CLOSE_BRACE] + rest);
    MemberStarts(m, after, ls);
    MemberComplete(m, after, depth, host);
    hide Spelling, ParseValue, Meaning, MeaningMember, DecodeSpan, StartsWith, SpellMember, MemberHeight;
    if more != [] {
      MembersComplete(more, rest, depth, host);
    } else if MeaningMember(m, host).Some? {
      Alone(MeaningMember(m, host).value);
    }
    AfterMember(more, after, rest);
  }

  lemma {:induction false} MemberComplete(m: Member, after: seq<Lexeme>, depth: nat, host: Host)
    requires ValidMember(m)
    ensures ParseValue(Spelling(m.value) + after, depth + 1, host) ==
            if depth + 1 + MemberHeight(m) <= STACK_LIMIT && Meaning(m.value, host).Some?
            then Some((Meaning(m.value, host).value, after)) else None
    ensures MeaningMember(m, host) ==
            if DecodeSpan(m.key.span).None? || Meaning(m.value, host).None? then None
            else Some(Entry(DecodeSpan(m.key.span).value, Meaning(m.value, host).value))
    decreases m, 0
  {
    ParseComplete(m.value, after, depth + 1, host);
  }

  lemma {:induction false} MemberStarts(m: Member, after: seq<Lexeme>, ls: seq<Lexeme>)
    requires ValidMember(m) && ls == SpellMember(m) + after
    ensures StartsWith(ls, StringLiteral) && !StartsWith(ls, ObjectEnd) && StartsWith(ls[1..], ObjectPairSeparator)
    ensures ls[0] == m.key && ls[2..] == Spelling(m.value) + after
  {
  }

  lemma {:induction false} AfterMember(more: seq<Member>, after: seq<Lexeme>, rest: seq<Lexeme>)
    requires after == SpellMoreMembers(more) + ([CLOSE_BRACE] + rest)
    ensures more == [] ==> StartsWith(after, ObjectEnd) && after[1..] == rest
    ensures more != [] ==> StartsWith(after, ListSeparator) && !StartsWith(after, ObjectEnd)
    ensures more != [] ==> after[1..] == SpellMembers(more) + ([CLOSE_BRACE] + rest)
  {
    hide SpellMember;
    if more != [] {
      var close := [CLOSE_BRACE] + rest;
      assert SpellMoreMembers(more) == [COMMA_MARK] + SpellMembers(more);
      assert after == [COMMA_MARK] + (SpellMembers(more) + close);
    }
  }

  // ---------------------------------------------------------------- whatever is parsed is a spelling

  /** A punctuation token has only one spelling. */
  lemma {:induction false} PunctuationIs(l: Lexeme, mark: Lexeme)
    requires ValidLexeme(l) && l.token == mark.token
    requires mark in {OPEN_BRACKET, CLOSE_BRACKET, OPEN_BRACE, CLOSE_BRACE, COMMA_MARK, COLON_MARK}
    ensures l == mark
  {
  }

  lemma {:induction false} ParseSound(ls: seq<Lexeme>, depth: nat, host: Host) returns (tree: Tree)
    requires ValidLexemes(ls) && ParseValue(ls, depth, host).Some?
    ensures ValidTree(tree) && ls == Spelling(tree) + ParseValue(ls, depth, host).value.1
    ensures depth + TreeHeight(tree) <= STACK_LIMIT && Meaning(tree, host) == Some(ParseValue(ls, depth, host).value.0)
    decreases |ls|, 0
  {
    hide ValidLexeme, Scalar, Collect, ParseItems, ParseMembers;
    var rest := ParseValue(ls, depth, host).value.1;
    if ls[0].token == ArrayBegin {
      PunctuationIs(ls[0], OPEN_BRACKET);
      if StartsWith(ls[1..], ArrayEnd) {
        PunctuationIs(ls[1], CLOSE_BRACKET);
        tree := ListTree([]);
        assert ls == [ls[0], ls[1]] + rest;
      } else {
        assert ValidLexemes(ls[1..]);
        var items := ItemsSound(ls[1..], depth, host);
        tree := ListTree(items);
        assert ls == [ls[0]] + ls[1..];
        assert ls == [OPEN_BRACKET] + (SpellItems(items) + [CLOSE_BRACKET] + rest);
      }
    } else if ls[0].token == ObjectBegin {
      PunctuationIs(ls[0], OPEN_BRACE);
      if StartsWith(ls[1..], ObjectEnd) {
        PunctuationIs(ls[1], CLOSE_BRACE);
        NoMembers([]);
        tree := DictTree([]);
        assert ls == [ls[0], ls[1]] + rest;
      } else {
        assert ValidLexemes(ls[1..]);
        var members := MembersSound(ls[1..], depth, host);
        tree := DictTree(members);
        assert ls == [ls[0]] + ls[1..];
        assert ls == [OPEN_BRACE] + (SpellMembers(members) + [CLOSE_BRACE] + rest);
      }
    } else {
      ScalarTokens(ls[0], host);
      tree := Leaf(ls[0]);
      assert ls == [ls[0]] + ls[1..];
    }
  }

  lemma {:induction false} ScalarTokens(l: Lexeme, host: Host)
    requires Scalar(l, host).Some?
    ensures IsScalarToken(l.token)
  {
  }

  lemma {:induction false} ItemsSound(ls: seq<Lexeme>, depth: nat, host: Host) returns (items: seq<Tree>)
    requires ValidLexemes(ls) && ParseItems(ls, depth, host).Some?
    ensures items != [] && ValidItems(items)
    ensures ls == SpellItems(items) + [CLOSE_BRACKET] + ParseItems(ls, depth, host).value.1
    ensures depth + ItemTreesHeight(items) <= STACK_LIMIT
    ensures MeaningItems(items, host) == Some(ParseItems(ls, depth, host).value.0)
    decreases |ls|, 1
  {
    var tree := ParseSound(ls, depth + 1, host);
    hide ParseValue, ValidLexeme, ValidTree, TreeHeight, Meaning, Spelling, SpellItems, SpellMoreItems;
    var after := ParseValue(ls, depth + 1, host).value.1;
    var rest := ParseItems(ls, depth, host).value.1;
    ValidAfter(ls, Spelling(tree), after);
    var more := [];
    if StartsWith(after, ArrayEnd) {
      PunctuationIs(after[0], CLOSE_BRACKET);
      Alone(ParseValue(ls, depth + 1, host).value.0);
    } else {
      PunctuationIs(after[0], COMMA_MARK);
      more := ItemsSound(after[1..], depth, host);
    }
    items := [tree] + more;
    assert items[1..] == more;
    JoinItems(ls, tree, more, after, rest);
  }

  /** The tokens of a list, put together from its first item and what was read after it. */
  lemma {:induction false} JoinItems(ls: seq<Lexeme>, tree: Tree, more: seq<Tree>, after: seq<Lexeme>,
                                     rest: seq<Lexeme>)
    requires ls == Spelling(tree) + after && after != []
    requires more == [] ==> after[0] == CLOSE_BRACKET && after[1..] == rest
    requires more != [] ==> after[0] == COMMA_MARK && after[1..] == SpellItems(more) + [CLOSE_BRACKET] + rest
    ensures ls == SpellItems([tree] + more) + [CLOSE_BRACKET] + rest
  {
  }

  lemma {:induction false} ValidAfter(ls: seq<Lexeme>, front: seq<Lexeme>, after: seq<Lexeme>)
    requires ValidLexemes(ls) && ls == front + after
    ensures ValidLexemes(after) && ValidLexemes(if after == [] then [] else after[1..])
  {
    hide ValidLexeme;
    assert forall i :: 0 <= i < |after| ==> after[i] == ls[|front| + i];
  }

  lemma {:induction false} MembersSound(ls: seq<Lexeme>, depth: nat, host: Host) returns (members: seq<Member>)
    requires ValidLexemes(ls) && ParseMembers(ls, depth, host).Some?
    ensures members != [] && ValidMembers(members)
    ensures ls == SpellMembers(members) + [CLOSE_BRACE] + ParseMembers(ls, depth, host).value.1
    ensures depth + MemberTreesHeight(members) <= STACK_LIMIT
    ensures MeaningMembers(members, host) == Some(ParseMembers(ls, depth, host).value.0)
    decreases |ls|, 1
  {
    var m := MemberSound(ls, depth, host);
    hide ParseValue, ValidLexeme, ValidMember, MemberHeight, MeaningMember, DecodeSpan, SpellMember, SpellMembers,
      SpellMoreMembers;
    var after := ParseValue(ls[2..], depth + 1, host).value.1;
    var rest := ParseMembers(ls, depth, host).value.1;
    ValidAfter(ls, SpellMember(m), after);
    var more := [];
    if StartsWith(after, ObjectEnd) {
      PunctuationIs(after[0], CLOSE_BRACE);
      Alone(MeaningMember(m, host).value);
    } else {
      PunctuationIs(after[0], COMMA_MARK);
      more := MembersSound(after[1..], depth, host);
    }
    members := [m] + more;
    assert members[1..] == more;
    JoinMembers(ls, m, more, after, rest);
  }

  lemma {:induction false} MemberSound(ls: seq<Lexeme>, depth: nat, host: Host) returns (m: Member)
    requires ValidLexemes(ls) && ParseMembers(ls, depth, host).Some?
    ensures ValidMember(m) && ls == SpellMember(m) + ParseValue(ls[2..], depth + 1, host).value.1
    ensures depth + 1 + MemberHeight(m) <= STACK_LIMIT
    ensures MeaningMember(m, host) ==
            Some(Entry(DecodeSpan(ls[0].span).value, ParseValue(ls[2..], depth + 1, host).value.0))
    decreases |ls|, 0
  {
    hide ParseValue, ValidLexeme, DecodeSpan, Spelling, Meaning, TreeHeight, ValidTree;
    assert ValidLexemes(ls[2..]);
    var tree := ParseSound(ls[2..], depth + 1, host);
    assert ls[1] == ls[1..][0];
    PunctuationIs(ls[1], COLON_MARK);
    m := Member(ls[0], tree);
    assert ls == [m.key, COLON_MARK] + ls[2..];
  }

  lemma {:induction false} JoinMembers(ls: seq<Lexeme>, m: Member, more: seq<Member>, after: seq<Lexeme>,
                                       rest: seq<Lexeme>)
    requires ls == SpellMember(m) + after && after != []
    requires more == [] ==> after[0] == CLOSE_BRACE && after[1..] == rest
    requires more != [] ==> after[0] == COMMA_MARK && after[1..] == SpellMembers(more) + [CLOSE_BRACE] + rest
    ensures ls == SpellMembers([m] + more) + [CLOSE_BRACE] + rest
  {
  }
}
