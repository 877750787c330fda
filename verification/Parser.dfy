/** The recursive `buildValue`. The functions parse a token list; the methods walk the
    text, re-reading tokens as they go, and are proved to agree with lexing first. */
module Parser {
  import opened String16
  import opened Values
  import opened Lexer
  import opened Lexical

  const STACK_LIMIT: nat := 1000

  /** `charactersToDouble` and the integer test after it. A plain decimal literal in the
      range of int is exact in a double, so it is that integer. */
  function ReadNumber(span: Text, host: Host): Option<Value> {
    if IsDecimal(span) && -0x8000_0000 <= DecimalValue(span) < 0x8000_0000 then Some(Integer(DecimalValue(span)))
    else match host.toNumber(span)
         case Rejected => None
         case Whole(n) => Some(Integer(n))
         case Real(bits) => Some(Double(bits))
  }

  /** The text that a string token stands for. */
  function DecodeSpan(span: Text): Option<Text> {
    if |span| >= 2 && IsStringBody(span[1..|span| - 1]) then Decode(span[1..|span| - 1]) else None
  }

  /** The value of a token that is a value by itself. */
  function Scalar(l: Lexeme, host: Host): Option<Value> {
    match l.token
    case NullToken => Some(Null)
    case BoolTrue => Some(Boolean(true))
    case BoolFalse => Some(Boolean(false))
    case Number => ReadNumber(l.span, host)
    case StringLiteral => (match DecodeSpan(l.span) case None => None case Some(s) => Some(Str(s)))
    case _ => None
  }

  predicate StartsWith(ls: seq<Lexeme>, token: Token) {
    ls != [] && ls[0].token == token
  }

  /** One value from the front of `ls`, and the tokens after it. */
  function ParseValue(ls: seq<Lexeme>, depth: nat, host: Host): (r: Option<(Value, seq<Lexeme>)>)
    ensures r.Some? ==> |r.value.1| < |ls|
    decreases |ls|, 0
  {
    if depth > STACK_LIMIT || ls == [] then None
    else if ls[0].token == ArrayBegin then
      if StartsWith(ls[1..], ArrayEnd) then Some((Array([]), ls[2..]))
      else
        var r := ParseItems(ls[1..], depth, host);
        if r.None? then None else Some((Array(r.value.0), r.value.1))
    else if ls[0].token == ObjectBegin then
      if StartsWith(ls[1..], ObjectEnd) then Some((Object([]), ls[2..]))
      else
        var r := ParseMembers(ls[1..], depth, host);
        if r.None? then None else Some((Object(Collect([], r.value.0)), r.value.1))
    else
      var v := Scalar(ls[0], host);
      if v.None? then None else Some((v.value, ls[1..]))
  }

  /** At least one list item, up to and including the closing bracket. */
  function ParseItems(ls: seq<Lexeme>, depth: nat, host: Host): (r: Option<(seq<Value>, seq<Lexeme>)>)
    ensures r.Some? ==> |r.value.1| < |ls|
    decreases |ls|, 1
  {
    var item := ParseValue(ls, depth + 1, host);
    if item.None? then None
    else
      var (v, after) := item.value;
      if StartsWith(after, ArrayEnd) then Some(([v], after[1..]))
      else if StartsWith(after, ListSeparator) && !StartsWith(after[1..], ArrayEnd) then
        var rest := ParseItems(after[1..], depth, host);
        if rest.None? then None else Some(([v] + rest.value.0, rest.value.1))
      else None
  }

  /** At least one key-value pair, up to and including the closing brace; repeated keys are
      still listed. */
  function ParseMembers(ls: seq<Lexeme>, depth: nat, host: Host): (r: Option<(seq<Entry>, seq<Lexeme>)>)
    ensures r.Some? ==> |r.value.1| < |ls|
    decreases |ls|, 1
  {
    if !StartsWith(ls, StringLiteral) || !StartsWith(ls[1..], ObjectPairSeparator) ||
       DecodeSpan(ls[0].span).None? then None
    else
      var item := ParseValue(ls[2..], depth + 1, host);
      if item.None? then None
      else
        var (v, after) := item.value;
        var entry := Entry(DecodeSpan(ls[0].span).value, v);
        if StartsWith(after, ObjectEnd) then Some(([entry], after[1..]))
        else if StartsWith(after, ListSeparator) && !StartsWith(after[1..], ObjectEnd) then
          var rest := ParseMembers(after[1..], depth, host);
          if rest.None? then None else Some(([entry] + rest.value.0, rest.value.1))
        else None
  }

  /** Successive `setValue` calls. */
  function Collect(dictionary: seq<Entry>, members: seq<Entry>): seq<Entry>
    decreases |members|
  {
    if members == [] then dictionary
    else Collect(SetEntry(dictionary, members[0].key, members[0].value), members[1..])
  }

  /** `parseJSON`: one value, and nothing after it but whitespace and comments. */
  function Parse(t: Text, host: Host): Option<Value> {
    var lexed := Lex(t);
    var r := ParseValue(lexed.lexemes, 0, host);
    if r.None? || r.value.1 != [] || !lexed.clean then None else Some(r.value.0)
  }

  // ---------------------------------------------------------------- the recursive descent code

  /** What the rest of the text still holds in tokens. */
  function Tokens(s: Text, p: nat): seq<Lexeme> {
    if p <= |s| then Lex(s[p..]).lexemes else []
  }

  /** Skipping to a token, or past whitespace, does not change what the rest lexes to. */
  lemma {:induction false} LexAfterSkip(t: Text)
    ensures SkipSpace(SkipSpace(t)) == SkipSpace(t)
    ensures Lex(SkipSpace(t)) == Lex(t)
  {
    SkipTwice(t);
  }

  /** What `parseToken` reports at `p`, in terms of the token list. */
  method NextToken(s: Text, p: nat) returns (token: Option<Token>, tokenStart: nat, tokenEnd: nat)
    requires p <= |s|
    ensures token.Some? <==> Tokens(s, p) != []
    ensures token.Some? ==> p <= tokenStart < tokenEnd <= |s|
    ensures token.Some? ==> Tokens(s, p) == [Lexeme(token.value, s[tokenStart..tokenEnd])] + Tokens(s, tokenEnd)
    ensures token.Some? ==> Lex(s[tokenEnd..]).clean == Lex(s[p..]).clean
    ensures token.Some? ==> ValidLexeme(Lexeme(token.value, s[tokenStart..tokenEnd]))
  {
    hide ScanToken, SkipSpace, ValidLexeme;
    token, tokenStart, tokenEnd := ParseToken(s, p);
    if token.Some? {
      assert s[tokenStart..][tokenEnd - tokenStart..] == s[tokenEnd..];
      ScanTokenSound(s[tokenStart..]);
    }
  }

  /** What `buildValue` leaves behind when it succeeds at `start` and stops at `end`: a later
      position from which the remaining tokens are `rest`, with nothing left to skip. */
  predicate StopsAt(s: Text, start: nat, end: nat, rest: seq<Lexeme>)
    requires start <= |s|
  {
    && start < end <= |s| && Tokens(s, end) == rest
    && Lex(s[end..]).clean == Lex(s[start..]).clean
  }

  /** Everything from the opening bracket on. */
  function ParseArray(ls: seq<Lexeme>, depth: nat, host: Host): Option<(seq<Value>, seq<Lexeme>)> {
    if StartsWith(ls, ArrayEnd) then Some(([], ls[1..])) else ParseItems(ls, depth, host)
  }

  function ParseObject(ls: seq<Lexeme>, depth: nat, host: Host): Option<(seq<Entry>, seq<Lexeme>)> {
    if StartsWith(ls, ObjectEnd) then Some(([], ls[1..])) else ParseMembers(ls, depth, host)
  }

  function AfterItems<T>(done: seq<T>, r: Option<(seq<T>, seq<Lexeme>)>): Option<(seq<T>, seq<Lexeme>)> {
    match r
    case None => None
    case Some(p) => Some((done + p.0, p.1))
  }

  lemma {:induction false} AfterNone<T>(r: Option<(seq<T>, seq<Lexeme>)>)
    ensures AfterItems([], r) == r
  {
    if r.Some? {
      assert [] + r.value.0 == r.value.0;
    }
  }

  lemma {:induction false} SliceInside(s: Text, from: nat, to: nat)
    requires from + 2 <= to <= |s|
    ensures s[from..to][1..|s[from..to]| - 1] == s[from + 1..to - 1]
  {
    var span, inside := s[from..to], s[from + 1..to - 1];
    var cut := span[..|span| - 1];
    assert cut == s[from..to - 1];
    assert cut[1..] == inside;
    assert span[1..|span| - 1] == cut[1..];
  }

  /** The units between the quotes of a string token. */
  lemma {:induction false} InsideQuotes(s: Text, tokenStart: nat, tokenEnd: nat)
    requires tokenStart < tokenEnd <= |s| && ValidLexeme(Lexeme(StringLiteral, s[tokenStart..tokenEnd]))
    ensures tokenStart + 1 <= tokenEnd - 1 && IsStringBody(s[tokenStart + 1..tokenEnd - 1])
    ensures DecodeSpan(s[tokenStart..tokenEnd]) == Decode(s[tokenStart + 1..tokenEnd - 1])
  {
    hide IsStringBody, Decode;
    var span := s[tokenStart..tokenEnd];
    SliceInside(s, tokenStart, tokenEnd);
  }

  /** One turn of the list loop: an item and what follows it. */
  lemma {:induction false} ItemsStep(done: seq<Value>, ls: seq<Lexeme>, depth: nat, host: Host, v: Value,
                                     after: seq<Lexeme>)
    requires ParseValue(ls, depth + 1, host) == Some((v, after))
    ensures AfterItems(done, ParseItems(ls, depth, host)) ==
            if StartsWith(after, ArrayEnd) then Some((done + [v], after[1..]))
            else if StartsWith(after, ListSeparator) && !StartsWith(after[1..], ArrayEnd)
            then AfterItems(done + [v], ParseItems(after[1..], depth, host))
            else None
  {
    hide ParseValue;
    if StartsWith(after, ListSeparator) && !StartsWith(after[1..], ArrayEnd) {
      var rest := ParseItems(after[1..], depth, host);
      if rest.Some? {
        assert done + ([v] + rest.value.0) == done + [v] + rest.value.0;
      }
    }
  }

  method BuildArray(s: Text, start: nat, depth: nat, host: Host) returns (list: Option<seq<Value>>, end: nat)
    requires start <= |s|
    ensures list.Some? <==> ParseArray(Tokens(s, start), depth, host).Some?
    ensures list.Some? ==> ParseArray(Tokens(s, start), depth, host) == Some((list.value, Tokens(s, end)))
    ensures list.Some? ==> StopsAt(s, start, end, Tokens(s, end))
    decreases |s| - start, 2
  {
    hide ParseValue, ParseItems, Lex, ValidLexeme;
    var items: seq<Value> := [];
    var p := start;
    var token, tokenStart: nat, tokenEnd: nat := NextToken(s, p);
    AfterNone(ParseItems(Tokens(s, p), depth, host));
    while token != Some(ArrayEnd)
      invariant start <= p <= |s| && Lex(s[p..]).clean == Lex(s[start..]).clean
      invariant token.Some? <==> Tokens(s, p) != []
      invariant token.Some? ==> Tokens(s, p)[0].token == token.value
      invariant token == Some(ArrayEnd) ==> StopsAt(s, start, tokenEnd, Tokens(s, tokenEnd))
      invariant token == Some(ArrayEnd) ==>
                  ParseArray(Tokens(s, start), depth, host) == Some((items, Tokens(s, tokenEnd)))
      invariant token != Some(ArrayEnd) ==>
                  ParseArray(Tokens(s, start), depth, host) == AfterItems(items, ParseItems(Tokens(s, p), depth, host))
      decreases |s| - p
    {
      ghost var ls := Tokens(s, p);
      var arrayNode;
      arrayNode, tokenEnd := BuildValue(s, p, depth + 1, host);
      if arrayNode.None? {
        NoItem(ls, depth, host);
        return None, p;
      }
      ghost var done := items;
      ItemsStep(items, ls, depth, host, arrayNode.value, Tokens(s, tokenEnd));
      items := items + [arrayNode.value];
      p := tokenEnd;
      token, tokenStart, tokenEnd := NextToken(s, p);
      if token == Some(ListSeparator) {
        p := tokenEnd;
        token, tokenStart, tokenEnd := NextToken(s, p);
        if token == Some(ArrayEnd) {
          return None, p;
        }
      } else if token != Some(ArrayEnd) {
        return None, p;
      }
    }
    return Some(items), tokenEnd;
  }

  lemma {:induction false} NoItem(ls: seq<Lexeme>, depth: nat, host: Host)
    requires ParseValue(ls, depth + 1, host).None?
    ensures ParseItems(ls, depth, host).None?
  {
  }

  lemma {:induction false} CollectAppend(dictionary: seq<Entry>, members: seq<Entry>, e: Entry)
    ensures Collect(dictionary, members + [e]) == SetEntry(Collect(dictionary, members), e.key, e.value)
    decreases |members|
  {
    var all := members + [e];
    if members != [] {
      assert all[1..] == members[1..] + [e];
      CollectAppend(SetEntry(dictionary, members[0].key, members[0].value), members[1..], e);
    } else {
      assert all == [e] && all[1..] == [];
    }
  }

  /** The value listed last under a key. */
  function LastValue(members: seq<Entry>, key: Text): (r: Option<Value>)
    ensures r.None? <==> forall i :: 0 <= i < |members| ==> members[i].key != key
    ensures r.Some? ==> exists i :: 0 <= i < |members| && members[i] == Entry(key, r.value)
                                    && forall j :: i < j < |members| ==> members[j].key != key
  {
    if members == [] then None
    else
      var n := |members| - 1;
      if members[n].key == key then assert members[n] == Entry(key, members[n].value); Some(members[n].value)
      else LastValue(members[..n], key)
  }

  /** Where a key is listed first, or the length of the list. */
  function FirstAt(members: seq<Entry>, key: Text): (n: nat)
    ensures n <= |members| && (n < |members| ==> members[n].key == key)
    ensures forall i :: 0 <= i < n ==> members[i].key != key
  {
    if members == [] || members[0].key == key then 0 else 1 + FirstAt(members[1..], key)
  }

  /** Each key once, in the order in which the keys are listed first. */
  ghost predicate InFirstOrder(members: seq<Entry>, keys: seq<Text>) {
    && (forall i :: 0 <= i < |keys| ==> FirstAt(members, keys[i]) < |members|)
    && (forall i, j :: 0 <= i < j < |keys| ==> FirstAt(members, keys[i]) < FirstAt(members, keys[j]))
  }

  lemma {:induction false} FirstAtSnoc(members: seq<Entry>, e: Entry, key: Text)
    ensures FirstAt(members + [e], key) ==
            if FirstAt(members, key) < |members| || e.key == key then FirstAt(members, key) else |members| + 1
  {
    if members != [] && members[0].key != key {
      assert (members + [e])[1..] == members[1..] + [e];
      FirstAtSnoc(members[1..], e, key);
    }
  }

  /** Setting any listed members in turn, keys repeated or not: each key is there once, in the
      place of its first listing, and holds the value of its last. */
  lemma {:induction false} CollectMerges(members: seq<Entry>)
    ensures DistinctKeys(Collect([], members))
    ensures forall k :: Find(Collect([], members), k) == LastValue(members, k)
    ensures InFirstOrder(members, Keys(Collect([], members)))
  {
    if members != [] {
      var n := |members| - 1;
      var before, e := members[..n], members[n];
      var es := Collect([], before);
      assert members == before + [e];
      CollectMerges(before);
      CollectAppend([], before, e);
      DistinctAfterSet(es, e.key, e.value);
      forall k ensures Find(Collect([], members), k) == LastValue(members, k) {
        FindAfterSet(es, e.key, e.value, k);
      }
      KeysAfterSet(es, e.key, e.value);
      FindIffKey(es, e.key);
      MergedOrder(before, e, Keys(es), Keys(SetEntry(es, e.key, e.value)), LastValue(before, e.key).Some?);
    }
  }

  lemma {:induction false} MergedOrder(before: seq<Entry>, e: Entry, keys: seq<Text>, keys': seq<Text>, listed: bool)
    requires InFirstOrder(before, keys) && keys' == (if listed then keys else keys + [e.key])
    requires !listed ==> forall i :: 0 <= i < |before| ==> before[i].key != e.key
    ensures InFirstOrder(before + [e], keys')
  {
    forall k ensures FirstAt(before + [e], k) ==
                     if FirstAt(before, k) < |before| || e.key == k then FirstAt(before, k) else |before| + 1
    {
      FirstAtSnoc(before, e, k);
    }
    if !listed {
      assert FirstAt(before, e.key) == |before|;
    }
  }

  /** One turn of the dictionary loop: a key, a value and what follows them. */
  lemma {:induction false} MembersStep(done: seq<Entry>, ls: seq<Lexeme>, depth: nat, host: Host, key: Text,
                                       v: Value, after: seq<Lexeme>)
    requires StartsWith(ls, StringLiteral) && StartsWith(ls[1..], ObjectPairSeparator)
    requires DecodeSpan(ls[0].span) == Some(key) && ParseValue(ls[2..], depth + 1, host) == Some((v, after))
    ensures AfterItems(done, ParseMembers(ls, depth, host)) ==
            if StartsWith(after, ObjectEnd) then Some((done + [Entry(key, v)], after[1..]))
            else if StartsWith(after, ListSeparator) && !StartsWith(after[1..], ObjectEnd)
            then AfterItems(done + [Entry(key, v)], ParseMembers(after[1..], depth, host))
            else None
  {
    hide ParseValue, DecodeSpan;
    if StartsWith(after, ListSeparator) && !StartsWith(after[1..], ObjectEnd) {
      var rest := ParseMembers(after[1..], depth, host);
      if rest.Some? {
        assert done + ([Entry(key, v)] + rest.value.0) == done + [Entry(key, v)] + rest.value.0;
      }
    }
  }

  lemma {:induction false} NoMember(ls: seq<Lexeme>, depth: nat, host: Host)
    requires !StartsWith(ls, StringLiteral) || !StartsWith(ls[1..], ObjectPairSeparator)
             || DecodeSpan(ls[0].span).None? || ParseValue(ls[2..], depth + 1, host).None?
    ensures ParseMembers(ls, depth, host).None?
  {
  }

  /** The key and colon at `p`, in the order in which the code looks at them. */
  method BuildKey(s: Text, p: nat, token: Option<Token>, tokenStart: nat, tokenEnd: nat)
    returns (key: Option<Text>, end: nat)
    requires p <= |s|
    requires token.Some? <==> Tokens(s, p) != []
    requires token.Some? ==> p <= tokenStart < tokenEnd <= |s|
    requires token.Some? ==> Tokens(s, p) == [Lexeme(token.value, s[tokenStart..tokenEnd])] + Tokens(s, tokenEnd)
    requires token.Some? ==> Lex(s[tokenEnd..]).clean == Lex(s[p..]).clean
    requires token.Some? ==> ValidLexeme(Lexeme(token.value, s[tokenStart..tokenEnd]))
    ensures var ls := Tokens(s, p);
            key == if StartsWith(ls, StringLiteral) && StartsWith(ls[1..], ObjectPairSeparator)
            then DecodeSpan(ls[0].span) else None
    ensures key.Some? ==> StopsAt(s, p, end, Tokens(s, p)[2..])
  {
    hide Lex, Decode, IsStringBody, DecodeSpan, ValidLexeme;
    if token != Some(StringLiteral) {
      return None, p;
    }
    InsideQuotes(s, tokenStart, tokenEnd);
    var ok, text := DecodeString(s, tokenStart + 1, tokenEnd - 1);
    if !ok {
      return None, p;
    }
    var colon, _, colonEnd := NextToken(s, tokenEnd);
    if colon != Some(ObjectPairSeparator) {
      return None, p;
    }
    ghost var ls := Tokens(s, p);
    assert ls[1..] == Tokens(s, tokenEnd);
    assert ls[2..] == ls[1..][1..] == Tokens(s, colonEnd);
    return Some(text), colonEnd;
  }

  method BuildObject(s: Text, start: nat, depth: nat, host: Host) returns (dict: Option<seq<Entry>>, end: nat)
    requires start <= |s|
    ensures dict.Some? <==> ParseObject(Tokens(s, start), depth, host).Some?
    ensures dict.Some? ==>
              var r := ParseObject(Tokens(s, start), depth, host);
              dict.value == Collect([], r.value.0) && r.value.1 == Tokens(s, end)
    ensures dict.Some? ==> StopsAt(s, start, end, Tokens(s, end))
    decreases |s| - start, 2
  {
    hide ParseValue, ParseMembers, Lex, DecodeSpan, Collect, ValidLexeme;
    var entries: seq<Entry> := [];
    ghost var members: seq<Entry> := [];
    CollectNone();
    var p := start;
    var token, tokenStart: nat, tokenEnd: nat := NextToken(s, p);
    AfterNone(ParseMembers(Tokens(s, p), depth, host));
    while token != Some(ObjectEnd)
      invariant start <= p <= |s| && Lex(s[p..]).clean == Lex(s[start..]).clean
      invariant entries == Collect([], members)
      invariant token.Some? <==> Tokens(s, p) != []
      invariant token.Some? ==> p <= tokenStart < tokenEnd <= |s|
      invariant token.Some? ==> Tokens(s, p) == [Lexeme(token.value, s[tokenStart..tokenEnd])] + Tokens(s, tokenEnd)
      invariant token.Some? ==> Lex(s[tokenEnd..]).clean == Lex(s[p..]).clean
      invariant token.Some? ==> ValidLexeme(Lexeme(token.value, s[tokenStart..tokenEnd]))
      invariant token == Some(ObjectEnd) ==>
                  ParseObject(Tokens(s, start), depth, host) == Some((members, Tokens(s, tokenEnd)))
      invariant token != Some(ObjectEnd) ==>
                  ParseObject(Tokens(s, start), depth, host) ==
                  AfterItems(members, ParseMembers(Tokens(s, p), depth, host))
      decreases |s| - p
    {
      ghost var ls := Tokens(s, p);
      var key, keyEnd := BuildKey(s, p, token, tokenStart, tokenEnd);
      if key.None? {
        NoMember(ls, depth, host);
        return None, p;
      }
      var value;
      value, tokenEnd := BuildValue(s, keyEnd, depth + 1, host);
      if value.None? {
        NoMember(ls, depth, host);
        return None, p;
      }
      MembersStep(members, ls, depth, host, key.value, value.value, Tokens(s, tokenEnd));
      CollectAppend([], members, Entry(key.value, value.value));
      members := members + [Entry(key.value, value.value)];
      entries := SetEntry(entries, key.value, value.value);
      p := tokenEnd;
      token, tokenStart, tokenEnd := NextToken(s, p);
      if token == Some(ListSeparator) {
        p := tokenEnd;
        token, tokenStart, tokenEnd := NextToken(s, p);
        if token == Some(ObjectEnd) {
          return None, p;
        }
      } else if token != Some(ObjectEnd) {
        return None, p;
      }
    }
    return Some(entries), tokenEnd;
  }

  lemma {:induction false} CollectNone()
    ensures Collect([], []) == []
  {
  }

  /** The switch of `buildValue` on the first token. */
  method BuildNode(s: Text, start: nat, depth: nat, host: Host) returns (result: Option<Value>, tokenEnd: nat)
    requires start <= |s| && depth <= STACK_LIMIT
    ensures result.Some? <==> ParseValue(Tokens(s, start), depth, host).Some?
    ensures result.Some? ==> ParseValue(Tokens(s, start), depth, host) == Some((result.value, Tokens(s, tokenEnd)))
    ensures result.Some? ==> StopsAt(s, start, tokenEnd, Tokens(s, tokenEnd))
    decreases |s| - start, 0
  {
    hide Lex, ParseItems, ParseMembers, Collect, Decode, DecodeSpan, IsStringBody, ReadNumber, ValidLexeme;
    var token, tokenStart: nat, end: nat := NextToken(s, start);
    tokenEnd := end;
    if token.None? {
      return None, start;
    }
    match token.value {
      case NullToken => result := Some(Null);
      case BoolTrue => result := Some(Boolean(true));
      case BoolFalse => result := Some(Boolean(false));
      case Number =>
        result := ReadNumber(s[tokenStart..tokenEnd], host);
      case StringLiteral =>
        InsideQuotes(s, tokenStart, tokenEnd);
        var ok, value := DecodeString(s, tokenStart + 1, tokenEnd - 1);
        result := if ok then Some(Str(value)) else None;
      case ArrayBegin =>
        var list;
        list, tokenEnd := BuildArray(s, tokenEnd, depth, host);
        result := if list.Some? then Some(Array(list.value)) else None;
      case ObjectBegin =>
        var dict;
        dict, tokenEnd := BuildObject(s, tokenEnd, depth, host);
        CollectNone();
        result := if dict.Some? then Some(Object(dict.value)) else None;
      case _ => result := None;
    }
  }

  method BuildValue(s: Text, start: nat, depth: nat, host: Host) returns (result: Option<Value>, valueTokenEnd: nat)
    requires start <= |s|
    ensures result.Some? <==> ParseValue(Tokens(s, start), depth, host).Some?
    ensures result.Some? ==> ParseValue(Tokens(s, start), depth, host) == Some((result.value, Tokens(s, valueTokenEnd)))
    ensures result.Some? ==> StopsAt(s, start, valueTokenEnd, Tokens(s, valueTokenEnd))
    ensures result.Some? ==> SkipSpace(s[valueTokenEnd..]) == s[valueTokenEnd..]
    decreases |s| - start, 1
  {
    if depth > STACK_LIMIT {
      return None, start;
    }
    hide Lex, ParseValue, SkipSpace;
    var tokenEnd: nat;
    result, tokenEnd := BuildNode(s, start, depth, host);
    if result.None? {
      return None, start;
    }
    valueTokenEnd := SkipWhitespaceAndComments(s, tokenEnd);
    LexAfterSkip(s[tokenEnd..]);
  }

  /** `parseJSON`: an empty text is rejected up front. */
  method ParseJSON(s: Text, host: Host) returns (value: Option<Value>)
    ensures value == Parse(s, host)
  {
    if s == [] {
      return None;
    }
    var tokenEnd;
    value, tokenEnd := BuildValue(s, 0, 0, host);
    assert s[0..] == s;
    if value.None? || tokenEnd != |s| {
      return None;
    }
  }
}
