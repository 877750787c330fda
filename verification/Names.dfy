/** The names the debugger prints and later reads back: breakpoint keys, object ids and
    call-frame ids. */
module Names {
  import opened String16
  import opened Values
  import opened Writer
  import opened Parser
  import opened RoundTrip

  // ---------------------------------------------------------------- breakpoint keys

  datatype QueryType = ScriptId | Url | UrlRegex

  function QueryNumber(t: QueryType): int {
    match t case ScriptId => 0 case Url => 1 case UrlRegex => 2
  }

  /** `DebuggerBreakpoint::GenerateKey`. */
  function GenerateKey(t: QueryType, query: Text, line: int32, column: int32): Text {
    Decimal(QueryNumber(t)) + [COLON] + query + [COLON] + Decimal(line) + [COLON] + Decimal(column)
  }

  predicate NoColon(t: Text) {
    forall i :: 0 <= i < |t| ==> t[i] != COLON
  }

  /** A text splits in only one way at its last colon. */
  lemma {:induction false} LastColon(a: Text, x: Text, b: Text, y: Text)
    requires NoColon(x) && NoColon(y) && a + [COLON] + x == b + [COLON] + y
    ensures a == b && x == y
  {
    var t := a + [COLON] + x;
    var u := b + [COLON] + y;
    assert t[|a|] == COLON && u[|b|] == COLON;
    assert forall i :: |a| < i < |t| ==> t[i] == x[i - |a| - 1] != COLON;
    assert forall i :: |b| < i < |u| ==> u[i] == y[i - |b| - 1] != COLON;
    assert a == t[..|a|] && b == u[..|b|];
    assert x == t[|a| + 1..] && y == u[|b| + 1..];
  }

  lemma {:induction false} DecimalInjective(m: int, n: int)
    requires Decimal(m) == Decimal(n)
    ensures m == n
  {
    DecimalRoundTrip(m);
    DecimalRoundTrip(n);
  }

  lemma {:induction false} DecimalNoColon(n: int)
    ensures NoColon(Decimal(n))
  {
  }

  /** Breakpoints with the same key ask for the same place, whatever colons the queries hold. */
  lemma {:induction false} GenerateKeyInjective(t1: QueryType, q1: Text, l1: int32, c1: int32, t2: QueryType,
                                                q2: Text, l2: int32, c2: int32)
    requires GenerateKey(t1, q1, l1, c1) == GenerateKey(t2, q2, l2, c2)
    ensures t1 == t2 && q1 == q2 && l1 == l2 && c1 == c2
  {
    DecimalNoColon(l1); DecimalNoColon(l2); DecimalNoColon(c1); DecimalNoColon(c2);
    var d1, d2 := Decimal(QueryNumber(t1)), Decimal(QueryNumber(t2));
    hide Decimal;
    LastColon(d1 + [COLON] + q1 + [COLON] + Decimal(l1), Decimal(c1), d2 + [COLON] + q2 + [COLON] +
              Decimal(l2), Decimal(c2));
    LastColon(d1 + [COLON] + q1, Decimal(l1), d2 + [COLON] + q2, Decimal(l2));
    DecimalInjective(l1, l2);
    DecimalInjective(c1, c2);
    QueryNumberDigit(t1);
    QueryNumberDigit(t2);
    var u, w := d1 + [COLON] + q1, d2 + [COLON] + q2;
    assert u[0] == d1[0] && w[0] == d2[0];
    assert u[2..] == q1 && w[2..] == q2;
  }

  lemma {:induction false} QueryNumberDigit(t: QueryType)
    ensures Decimal(QueryNumber(t)) == [48 + QueryNumber(t)]
  {
  }

  /** A key reads from both ends: a digit for the kind of query before the first colon, the column after
      the last one, the line between that and the one before it, and the query in the middle. */
  lemma {:induction false} KeyReads(t: QueryType, query: Text, line: int32, column: int32)
    returns (l: Text, c: Text)
    ensures GenerateKey(t, query, line, column) ==
            Ascii(if t.ScriptId? then "0:" else if t.Url? then "1:" else "2:") + query + [':' as int] + l +
            [':' as int] + c
    ensures NoColon(l) && IsDecimal(l) && DecimalValue(l) == line
    ensures NoColon(c) && IsDecimal(c) && DecimalValue(c) == column
  {
    l, c := Decimal(line), Decimal(column);
    DecimalNoColon(line);
    DecimalNoColon(column);
    DecimalRoundTrip(line);
    DecimalRoundTrip(column);
    QueryNumberDigit(t);
    hide Decimal, IsDecimal, DecimalValue, NoColon;
    assert Ascii("0:") == [48, 58] && Ascii("1:") == [49, 58] && Ascii("2:") == [50, 58];
    assert Decimal(QueryNumber(t)) + [COLON] == [48 + QueryNumber(t), 58];
  }

  // ---------------------------------------------------------------- object and frame ids

  const HANDLE_NAME := "handle"
  const ORDINAL_NAME := "ordinal"
  const NAME_NAME := "name"
  const LOCALS_NAME := "locals"
  const GLOBALS_NAME := "globals"

  /** `ProtocolHelpers::GetObjectId`. */
  function GetObjectId(handle: int32): Text {
    Ascii("{\"handle\":") + Decimal(handle) + Ascii("}")
  }

  /** `DebuggerCallFrame::GetCallFrameId`. */
  function GetCallFrameId(ordinal: int32): Text {
    Ascii("{\"ordinal\":") + Decimal(ordinal) + Ascii("}")
  }

  /** `DebuggerCallFrame::GetObjectIdForFrameProp`: the name is not escaped. */
  function GetObjectIdForFrameProp(ordinal: int32, propName: Text): Text {
    Ascii("{\"ordinal\":") + Decimal(ordinal) + Ascii(",\"name\":\"") + propName + Ascii("\"}")
  }

  /** `ProtocolHelpers::ParseObjectId`; nothing where it throws. */
  function ParseObjectId(objectId: Text, host: Host): Option<seq<Entry>> {
    match Parse(objectId, host)
    case Some(Object(entries)) => Some(entries)
    case _ => None
  }

  function GetInteger(entries: seq<Entry>, name: string): Option<int32> {
    match Find(entries, Ascii(name))
    case Some(Integer(n)) => Some(n)
    case _ => None
  }

  function GetString(entries: seq<Entry>, name: string): Option<Text> {
    match Find(entries, Ascii(name))
    case Some(Str(s)) => Some(s)
    case _ => None
  }

  datatype Target = Throws | Invalid | Handle(handle: int32) | Locals(ordinal: int32) | Globals(ordinal: int32)

  /** What `RuntimeImpl::getProperties` reads the properties of. */
  function Resolve(objectId: Text, host: Host): Target {
    var parsed := ParseObjectId(objectId, host);
    if parsed.None? then Throws
    else
      var handle, ordinal, name := GetInteger(parsed.value, HANDLE_NAME), GetInteger(parsed.value, ORDINAL_NAME),
                                   GetString(parsed.value, NAME_NAME);
      if handle.Some? then Handle(handle.value)
      else if ordinal.Some? && name.Some? then
        if name.value == Ascii(LOCALS_NAME) then Locals(ordinal.value)
        else if name.value == Ascii(GLOBALS_NAME) then Globals(ordinal.value)
        else Invalid
      else Invalid
  }

  /** The frame that `DebuggerImpl::evaluateOnCallFrame` evaluates in. */
  function ResolveCallFrame(callFrameId: Text, host: Host): Option<int32> {
    var parsed := ParseObjectId(callFrameId, host);
    if parsed.None? then None else GetInteger(parsed.value, ORDINAL_NAME)
  }

  /** No unit needs escaping. */
  predicate Plain(s: Text) {
    forall i :: 0 <= i < |s| ==> 32 <= s[i] <= 126 && s[i] != QUOTE && s[i] != BACKSLASH
  }

  lemma {:induction false} PlainIffUnescaped(s: Text)
    ensures |Escape(s)| >= |s|
    ensures Plain(s) <==> Escape(s) == s
  {
    if s != [] {
      PlainIffUnescaped(s[1..]);
      assert s == [s[0]] + s[1..];
      var u := EscapeUnit(s[0]);
      if Plain(s) {
        assert Plain(s[1..]);
        assert u == [s[0]];
      }
      if Escape(s) == s {
        assert |u| == 1 && u == [s[0]];
        assert (u + Escape(s[1..]))[1..] == Escape(s[1..]);
        assert Plain(s[1..]);
        assert forall i :: 1 <= i < |s| ==> s[i] == s[1..][i - 1];
      }
    }
  }

  function IntField(name: string, n: int32): Entry {
    Entry(Ascii(name), Integer(n))
  }

  function HandleFields(handle: int32): seq<Entry> {
    [IntField(HANDLE_NAME, handle)]
  }

  function FrameFields(ordinal: int32): seq<Entry> {
    [IntField(ORDINAL_NAME, ordinal)]
  }

  function PropFields(ordinal: int32, propName: Text): seq<Entry> {
    [IntField(ORDINAL_NAME, ordinal), Entry(Ascii(NAME_NAME), Str(propName))]
  }

  lemma {:induction false} RenderOne(e: Entry, host: Host)
    ensures Render(Object([e]), host) == [LBRACE] + Quoted(e.key) + [COLON] + Render(e.value, host) + [RBRACE]
  {
    hide Quoted;
    assert [e][1..] == [];
    assert RenderEntries([e], false, host) == RenderEntry(e, false, host) + [];
  }

  lemma {:induction false} RenderTwo(d: Entry, e: Entry, host: Host)
    ensures Render(Object([d, e]), host) ==
            [LBRACE] + Quoted(d.key) + [COLON] + Render(d.value, host) + [COMMA] + Quoted(e.key) + [COLON] +
            Render(e.value, host) + [RBRACE]
  {
    hide Quoted;
    assert [d, e][1..] == [e] && [e][1..] == [];
    assert RenderEntries([e], true, host) == RenderEntry(e, true, host) + [];
    assert RenderEntries([d, e], false, host) == RenderEntry(d, false, host) + RenderEntries([e], true, host);
  }

  lemma {:induction false} LiteralsArePlain()
    ensures Plain(Ascii(HANDLE_NAME)) && Plain(Ascii(ORDINAL_NAME)) && Plain(Ascii(NAME_NAME))
    ensures Plain(Ascii(LOCALS_NAME)) && Plain(Ascii(GLOBALS_NAME))
  {
  }

  lemma {:induction false} NamesArePlain()
    ensures Escape(Ascii(HANDLE_NAME)) == Ascii(HANDLE_NAME) && Escape(Ascii(ORDINAL_NAME)) == Ascii(ORDINAL_NAME)
    ensures Escape(Ascii(NAME_NAME)) == Ascii(NAME_NAME)
    ensures Plain(Ascii(LOCALS_NAME)) && Plain(Ascii(GLOBALS_NAME))
  {
    LiteralsArePlain();
    hide Ascii, Plain, Escape;
    PlainIffUnescaped(Ascii(HANDLE_NAME));
    PlainIffUnescaped(Ascii(ORDINAL_NAME));
    PlainIffUnescaped(Ascii(NAME_NAME));
  }

  lemma {:induction false} Openings()
    ensures Ascii("{\"handle\":") == [LBRACE] + ([QUOTE] + Ascii(HANDLE_NAME) + [QUOTE]) + [COLON]
    ensures Ascii("{\"ordinal\":") == [LBRACE] + ([QUOTE] + Ascii(ORDINAL_NAME) + [QUOTE]) + [COLON]
    ensures Ascii(",\"name\":\"") == [COMMA] + ([QUOTE] + Ascii(NAME_NAME) + [QUOTE]) + [COLON] + [QUOTE]
    ensures Ascii("}") == [RBRACE] && Ascii("\"}") == [QUOTE, RBRACE]
  {
  }

  /** The printed ids are the serialized dictionaries; a frame property only if its name needs
      no escaping. */
  lemma {:induction false} IdsArePrinted(n: int32, propName: Text, host: Host)
    ensures GetObjectId(n) == Render(Object(HandleFields(n)), host)
    ensures GetCallFrameId(n) == Render(Object(FrameFields(n)), host)
    ensures Plain(propName) ==> GetObjectIdForFrameProp(n, propName) == Render(Object(PropFields(n, propName)), host)
  {
    NamesArePlain();
    Openings();
    PlainIffUnescaped(propName);
    RenderOne(IntField(HANDLE_NAME, n), host);
    RenderOne(IntField(ORDINAL_NAME, n), host);
    RenderTwo(IntField(ORDINAL_NAME, n), Entry(Ascii(NAME_NAME), Str(propName)), host);
    hide Ascii, Decimal, Escape;
    if Plain(propName) {
      JoinProp(Ascii(ORDINAL_NAME), Decimal(n), Ascii(NAME_NAME), propName);
    }
  }

  lemma {:induction false} JoinProp(o: Text, d: Text, n: Text, p: Text)
    ensures ([LBRACE] + ([QUOTE] + o + [QUOTE]) + [COLON]) + d +
            ([COMMA] + ([QUOTE] + n + [QUOTE]) + [COLON] + [QUOTE]) + p + [QUOTE, RBRACE]
         == [LBRACE] + ([QUOTE] + o + [QUOTE]) + [COLON] + d + [COMMA] + ([QUOTE] + n + [QUOTE]) + [COLON] +
            ([QUOTE] + p + [QUOTE]) + [RBRACE]
  {
  }

  predicate SimpleEntries(entries: seq<Entry>) {
    forall i :: 0 <= i < |entries| ==> entries[i].value.Integer? || entries[i].value.Str?
  }

  lemma {:induction false} SimpleEntriesRead(entries: seq<Entry>, host: Host)
    requires SimpleEntries(entries)
    ensures EntriesWellFormed(entries) && EntriesPrintNumbers(entries, host) && EntriesExact(entries, host)
    ensures EntriesHeight(entries) <= 1
  {
    if entries != [] {
      SimpleEntriesRead(entries[1..], host);
    }
  }

  lemma {:induction false} FieldsParse(entries: seq<Entry>, host: Host)
    requires DistinctKeys(entries) && SimpleEntries(entries)
    ensures ParseObjectId(Render(Object(entries), host), host) == Some(entries)
  {
    hide Parse, Render;
    SimpleEntriesRead(entries, host);
    PrintThenParse(Object(entries), host);
  }

  lemma {:induction false} NamesDiffer()
    ensures Ascii(HANDLE_NAME) != Ascii(ORDINAL_NAME) && Ascii(HANDLE_NAME) != Ascii(NAME_NAME)
    ensures Ascii(ORDINAL_NAME) != Ascii(NAME_NAME) && Ascii(LOCALS_NAME) != Ascii(GLOBALS_NAME)
  {
  }

  /** Every printed id leads back to the handle or frame it was printed for, for every int. Ids with
      a handle and ids with an ordinal are never confused. A scope id is accepted where a call-frame
      id is expected, and means its frame, because only the ordinal is looked at there. */
  lemma {:induction false} IdsResolve(n: int32, host: Host)
    ensures Resolve(GetObjectId(n), host) == Handle(n)
    ensures Resolve(GetObjectIdForFrameProp(n, Ascii("locals")), host) == Locals(n)
    ensures Resolve(GetObjectIdForFrameProp(n, Ascii("globals")), host) == Globals(n)
    ensures Resolve(GetCallFrameId(n), host) == Invalid
    ensures ResolveCallFrame(GetCallFrameId(n), host) == Some(n)
    ensures ResolveCallFrame(GetObjectId(n), host) == None
    ensures ResolveCallFrame(GetObjectIdForFrameProp(n, Ascii("locals")), host) == Some(n)
    ensures ResolveCallFrame(GetObjectIdForFrameProp(n, Ascii("globals")), host) == Some(n)
  {
    NamesArePlain();
    NamesDiffer();
    IdsArePrinted(n, Ascii(LOCALS_NAME), host);
    IdsArePrinted(n, Ascii(GLOBALS_NAME), host);
    hide Ascii, Render, Parse, ParseObjectId, GetObjectId, GetCallFrameId, GetObjectIdForFrameProp, Plain;
    FieldsParse(HandleFields(n), host);
    FieldsParse(FrameFields(n), host);
    FieldsParse(PropFields(n, Ascii(LOCALS_NAME)), host);
    FieldsParse(PropFields(n, Ascii(GLOBALS_NAME)), host);
    FindFields(n, Ascii(LOCALS_NAME));
    FindFields(n, Ascii(GLOBALS_NAME));
  }

  lemma {:induction false} FindFields(n: int32, propName: Text)
    ensures GetInteger(HandleFields(n), HANDLE_NAME) == Some(n) && GetInteger(HandleFields(n), ORDINAL_NAME) == None
    ensures GetInteger(FrameFields(n), HANDLE_NAME) == None && GetInteger(FrameFields(n), ORDINAL_NAME) == Some(n)
    ensures GetString(FrameFields(n), NAME_NAME) == None
    ensures GetInteger(PropFields(n, propName), HANDLE_NAME) == None
    ensures GetInteger(PropFields(n, propName), ORDINAL_NAME) == Some(n)
    ensures GetString(PropFields(n, propName), NAME_NAME) == Some(propName)
  {
    NamesDiffer();
    hide Ascii, Find;
    var i, o := IntField(HANDLE_NAME, n), IntField(ORDINAL_NAME, n);
    FindFirst(i, [], Ascii(HANDLE_NAME));
    FindFirst(i, [], Ascii(ORDINAL_NAME));
    forall name: string ensures Find([o], Ascii(name)) == if o.key == Ascii(name) then Some(o.value) else None {
      FindFirst(o, [], Ascii(name));
    }
    var p := Entry(Ascii(NAME_NAME), Str(propName));
    forall name: string ensures Find([o, p], Ascii(name)) ==
                                if o.key == Ascii(name) then Some(o.value)
                                else if p.key == Ascii(name) then Some(p.value) else None
    {
      FindFirst(o, [p], Ascii(name));
      FindFirst(p, [], Ascii(name));
    }
  }

  lemma {:induction false} FindFirst(e: Entry, rest: seq<Entry>, key: Text)
    ensures Find([e] + rest, key) == if e.key == key then Some(e.value) else Find(rest, key)
    ensures Find([], key) == None && [e] + [] == [e]
    ensures |rest| == 1 ==> [e] + rest == [e, rest[0]]
  {
  }

  /** What any id means, printed here or not, is decided by its integer `handle` if it has one, and
      otherwise by its integer `ordinal` and its string `name`. */
  lemma {:induction false} AnyIdResolves(objectId: Text, es: seq<Entry>, host: Host, n: int32)
    requires Parse(objectId, host) == Some(Object(es))
    ensures Resolve(objectId, host) == Handle(n) <==> Find(es, Ascii("handle")) == Some(Integer(n))
    ensures Resolve(objectId, host) == Locals(n) <==>
            && !IsInteger(Find(es, Ascii("handle"))) && Find(es, Ascii("ordinal")) == Some(Integer(n))
            && Find(es, Ascii("name")) == Some(Str(Ascii("locals")))
    ensures Resolve(objectId, host) == Globals(n) <==>
            && !IsInteger(Find(es, Ascii("handle"))) && Find(es, Ascii("ordinal")) == Some(Integer(n))
            && Find(es, Ascii("name")) == Some(Str(Ascii("globals")))
    ensures Resolve(objectId, host) != Target.Throws
    ensures ResolveCallFrame(objectId, host) == Some(n) <==> Find(es, Ascii("ordinal")) == Some(Integer(n))
  {
    NamesDiffer();
    hide Ascii, Find, Parse;
  }

  predicate IsInteger(v: Option<Value>) {
    v.Some? && v.value.Integer?
  }
}
