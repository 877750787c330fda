/** The escaper and `writeJSON`: what a value tree is printed as, and the loops that print it
    into a string builder. */
module Writer {
  import opened String16
  import opened Values

  const NULL_WORD: Text := [110, 117, 108, 108]
  const TRUE_WORD: Text := [116, 114, 117, 101]
  const FALSE_WORD: Text := [102, 97, 108, 115, 101]

  // ---------------------------------------------------------------- the printed form

  /** The letter after the backslash in the units that have a two-unit escape. */
  function EscapeLetter(c: UChar): Option<UChar> {
    if c == BACKSPACE then Some(98)
    else if c == FORMFEED then Some(102)
    else if c == NEWLINE then Some(110)
    else if c == RETURN then Some(114)
    else if c == TAB then Some(116)
    else if c == BACKSLASH then Some(BACKSLASH)
    else if c == QUOTE then Some(QUOTE)
    else None
  }

  function HexDigit(d: int): (c: UChar)
    requires 0 <= d < 16
  {
    if d < 10 then 48 + d else 55 + d
  }

  function HexEscape(c: UChar): Text {
    [BACKSLASH, 117, HexDigit(c / 0x1000), HexDigit(c / 0x100 % 16), HexDigit(c / 0x10 % 16), HexDigit(c % 16)]
  }

  function EscapeUnit(c: UChar): Text {
    var letter := EscapeLetter(c);
    if letter.Some? then [BACKSLASH, letter.value]
    else if c < 32 || c > 126 then HexEscape(c)
    else [c]
  }

  function Escape(s: Text): Text {
    if s == [] then [] else EscapeUnit(s[0]) + Escape(s[1..])
  }

  function Quoted(s: Text): Text {
    [QUOTE] + Escape(s) + [QUOTE]
  }

  function Render(v: Value, host: Host): Text
    decreases v, 0
  {
    match v
    case Null => NULL_WORD
    case Boolean(b) => if b then TRUE_WORD else FALSE_WORD
    case Integer(n) => Decimal(n)
    case Double(bits) => if IsFinite(bits) then host.fromDouble(bits) else NULL_WORD
    case Str(s) => Quoted(s)
    case Object(entries) => [LBRACE] + RenderEntries(entries, false, host) + [RBRACE]
    case Array(items) => [LBRACKET] + RenderItems(items, false, host) + [RBRACKET]
    case Serialized(text) => text
  }

  /** One item of a list; `more` says that an item was printed before it. */
  function RenderItem(item: Value, more: bool, host: Host): Text
    decreases item, 1
  {
    (if more then [COMMA] else []) + Render(item, host)
  }

  function RenderItems(items: seq<Value>, more: bool, host: Host): Text
    decreases items, 0
  {
    if items == [] then [] else RenderItem(items[0], more, host) + RenderItems(items[1..], true, host)
  }

  function RenderEntry(entry: Entry, more: bool, host: Host): Text
    decreases entry, 1
  {
    (if more then [COMMA] else []) + Quoted(entry.key) + [COLON] + Render(entry.value, host)
  }

  function RenderEntries(entries: seq<Entry>, more: bool, host: Host): Text
    decreases entries, 0
  {
    if entries == [] then [] else RenderEntry(entries[0], more, host) + RenderEntries(entries[1..], true, host)
  }

  // ---------------------------------------------------------------- the printing code

  class StringBuilder {
    var buffer: Text

    constructor ()
      ensures buffer == []
    {
      buffer := [];
    }

    method Append(c: UChar)
      modifies this
      ensures buffer == old(buffer) + [c]
    {
      buffer := buffer + [c];
    }

    method AppendText(t: Text)
      modifies this
      ensures buffer == old(buffer) + t
    {
      buffer := buffer + t;
    }
  }

  /** `number` after `i` four-bit shifts to the left in a 16-bit register. */
  function Shifted(number: UChar, i: nat): UChar
    requires i <= 4
  {
    if i == 0 then number
    else if i == 1 then number % 0x1000 * 0x10
    else if i == 2 then number % 0x100 * 0x100
    else if i == 3 then number % 0x10 * 0x1000
    else 0
  }

  lemma {:induction false} ShiftedParts(number: UChar, i: nat) returns (high: nat, low: nat)
    requires i < 4
    ensures Shifted(number, i) == high * 4096 + low && low < 4096 && high < 16
    ensures Shifted(number, i + 1) == low * 16
    ensures HexEscape(number)[2 + i] == HexDigit(high)
  {
    hide HexDigit;
    var n0, n1, n2, n3 := number % 16, number / 16 % 16, number / 256 % 16, number / 4096;
    Nibbles(number, n3, n2, n1, n0);
    high := if i == 0 then n3 else if i == 1 then n2 else if i == 2 then n1 else n0;
    low := if i == 0 then n2 * 256 + n1 * 16 + n0
    else if i == 1 then (n1 * 16 + n0) * 16
    else if i == 2 then n0 * 256 else 0;
  }

  lemma {:induction false} ShiftStep(number: UChar, i: nat)
    requires i < 4
    ensures Shifted(number, i) * 0x10 % 0x1_0000 == Shifted(number, i + 1)
    ensures HexDigit(Shifted(number, i) / 0x1000) == HexEscape(number)[2 + i]
  {
    hide Shifted, HexDigit, HexEscape;
    var high, low := ShiftedParts(number, i);
  }

  lemma {:induction false} Nibbles(number: UChar, n3: nat, n2: nat, n1: nat, n0: nat)
    requires n0 == number % 16 && n1 == number / 16 % 16 && n2 == number / 256 % 16 && n3 == number / 4096
    ensures number == n3 * 4096 + n2 * 256 + n1 * 16 + n0
    ensures number % 4096 == n2 * 256 + n1 * 16 + n0
    ensures number % 256 == n1 * 16 + n0
    ensures number / 256 == n3 * 16 + n2 && number / 16 == n3 * 256 + n2 * 16 + n1
  {
    assert number / 16 == number / 256 * 16 + n1;
    assert number / 256 == number / 4096 * 16 + n2;
  }

  method AppendUnsignedAsHex(number: UChar, dst: StringBuilder)
    modifies dst
    ensures dst.buffer == old(dst.buffer) + HexEscape(number)
  {
    dst.AppendText([BACKSLASH, 117]);
    var rest: UChar := number;
    for i := 0 to 4
      invariant rest == Shifted(number, i)
      invariant dst.buffer == old(dst.buffer) + HexEscape(number)[..2 + i]
    {
      ShiftStep(number, i);
      dst.Append(HexDigit(rest / 0x1000));
      rest := rest * 0x10 % 0x1_0000;
    }
  }

  method EscapeChar(c: UChar, dst: StringBuilder) returns (escaped: bool)
    modifies dst
    ensures escaped == EscapeLetter(c).Some?
    ensures dst.buffer == if escaped then old(dst.buffer) + EscapeUnit(c) else old(dst.buffer)
  {
    var letter := EscapeLetter(c);
    if letter.Some? {
      dst.AppendText([BACKSLASH, letter.value]);
    }
    return letter.Some?;
  }

  method EscapeStringForJSON(str: Text, dst: StringBuilder)
    modifies dst
    ensures dst.buffer == old(dst.buffer) + Escape(str)
  {
    for i := 0 to |str|
      invariant dst.buffer + Escape(str[i..]) == old(dst.buffer) + Escape(str)
    {
      var c := str[i];
      ghost var before := dst.buffer;
      var escaped := EscapeChar(c, dst);
      if !escaped {
        if c < 32 || c > 126 {
          AppendUnsignedAsHex(c, dst);
        } else {
          dst.Append(c);
        }
      }
      Moved(before, dst.buffer, EscapeUnit(c), Escape(str[i..]), Escape(str[i + 1..])) by {
        assert str[i..][1..] == str[i + 1..];
      }
    }
  }

  /** Appending the head of what is still to be printed leaves the total unchanged. */
  lemma {:induction false} Moved(before: Text, after: Text, head: Text, pending: Text, rest: Text)
    requires after == before + head
    requires pending == head + rest
    ensures before + pending == after + rest
  {
  }

  method AppendQuotedString(s: Text, dst: StringBuilder)
    modifies dst
    ensures dst.buffer == old(dst.buffer) + Quoted(s)
  {
    dst.Append(QUOTE);
    if s != [] {
      EscapeStringForJSON(s, dst);
    }
    dst.Append(QUOTE);
    Regroup(old(dst.buffer), [QUOTE], Escape(s), [QUOTE]);
  }

  lemma {:induction false} Regroup(a: Text, b: Text, c: Text, d: Text)
    ensures a + b + c + d == a + (b + c + d)
  {
  }

  method WriteJSON(v: Value, host: Host, output: StringBuilder)
    modifies output
    ensures output.buffer == old(output.buffer) + Render(v, host)
    decreases v, 0
  {
    match v {
      case Null => output.AppendText(NULL_WORD);
      case Boolean(b) => output.AppendText(if b then TRUE_WORD else FALSE_WORD);
      case Integer(n) => output.AppendText(Decimal(n));
      case Double(bits) =>
        if !IsFinite(bits) {
          output.AppendText(NULL_WORD);
        } else {
          output.AppendText(host.fromDouble(bits));
        }
      case Str(s) => AppendQuotedString(s, output);
      case Serialized(text) => output.AppendText(text);
      case Object(entries) => WriteDictionary(entries, host, output);
      case Array(items) => WriteList(items, host, output);
    }
  }

  method WriteDictionary(entries: seq<Entry>, host: Host, output: StringBuilder)
    modifies output
    ensures output.buffer == old(output.buffer) + [LBRACE] + RenderEntries(entries, false, host) + [RBRACE]
    decreases entries, 1
  {
    output.Append(LBRACE);
    for i := 0 to |entries|
      invariant output.buffer + RenderEntries(entries[i..], i > 0, host)
             == old(output.buffer) + [LBRACE] + RenderEntries(entries, false, host)
    {
      ghost var before := output.buffer;
      WriteEntry(entries[i], i > 0, host, output);
      EntryStep(entries, i, host);
      Moved(before, output.buffer, RenderEntry(entries[i], i > 0, host),
            RenderEntries(entries[i..], i > 0, host), RenderEntries(entries[i + 1..], true, host));
    }
    output.Append(RBRACE);
  }

  method WriteEntry(entry: Entry, more: bool, host: Host, output: StringBuilder)
    modifies output
    ensures output.buffer == old(output.buffer) + RenderEntry(entry, more, host)
    decreases entry
  {
    if more {
      output.Append(COMMA);
    }
    AppendQuotedString(entry.key, output);
    output.Append(COLON);
    WriteJSON(entry.value, host, output);
  }

  method WriteList(items: seq<Value>, host: Host, output: StringBuilder)
    modifies output
    ensures output.buffer == old(output.buffer) + [LBRACKET] + RenderItems(items, false, host) + [RBRACKET]
    decreases items, 1
  {
    output.Append(LBRACKET);
    var first := true;
    for i := 0 to |items|
      invariant first == (i == 0)
      invariant output.buffer + RenderItems(items[i..], i > 0, host)
             == old(output.buffer) + [LBRACKET] + RenderItems(items, false, host)
    {
      ghost var before := output.buffer;
      if !first {
        output.Append(COMMA);
      }
      WriteJSON(items[i], host, output);
      first := false;
      ItemStep(items, i, host);
      Moved(before, output.buffer, RenderItem(items[i], i > 0, host),
            RenderItems(items[i..], i > 0, host), RenderItems(items[i + 1..], true, host));
    }
    output.Append(RBRACKET);
  }

  lemma {:induction false} EntryStep(entries: seq<Entry>, i: nat, host: Host)
    requires i < |entries|
    ensures RenderEntries(entries[i..], i > 0, host)
         == RenderEntry(entries[i], i > 0, host) + RenderEntries(entries[i + 1..], true, host)
  {
  }

  lemma {:induction false} ItemStep(items: seq<Value>, i: nat, host: Host)
    requires i < |items|
    ensures RenderItems(items[i..], i > 0, host)
         == RenderItem(items[i], i > 0, host) + RenderItems(items[i + 1..], true, host)
  {
  }

  /** `Value::serialize`. */
  method Serialize(v: Value, host: Host) returns (r: Text)
    ensures r == Render(v, host)
  {
    var result := new StringBuilder();
    WriteJSON(v, host, result);
    r := result.buffer;
  }

  // ---------------------------------------------------------------- what is printed is plain ASCII

  predicate Printable(t: Text) {
    forall i :: 0 <= i < |t| ==> 32 <= t[i] <= 126
  }

  /** Every embedded text is printable: texts of finite doubles and already-serialized parts. */
  predicate PlainLeaves(v: Value, host: Host)
    decreases v, 0
  {
    match v
    case Double(bits) => IsFinite(bits) ==> Printable(host.fromDouble(bits))
    case Serialized(text) => Printable(text)
    case Object(entries) => PlainEntries(entries, host)
    case Array(items) => PlainItems(items, host)
    case _ => true
  }

  predicate PlainItems(items: seq<Value>, host: Host)
    decreases items, 0
  {
    items == [] || (PlainLeaves(items[0], host) && PlainItems(items[1..], host))
  }

  predicate PlainEntries(entries: seq<Entry>, host: Host)
    decreases entries, 0
  {
    entries == [] || (PlainLeaves(entries[0].value, host) && PlainEntries(entries[1..], host))
  }

  lemma {:induction false} EscapePrintable(s: Text)
    ensures Printable(Escape(s))
  {
    if s != [] {
      EscapePrintable(s[1..]);
    }
  }

  /** Whatever units the strings of a tree hold, everything emitted is in 32..126, so the
      later conversion to UTF-8 and the hand-off as a C string lose nothing. */
  lemma {:induction false} RenderPrintable(v: Value, host: Host)
    requires PlainLeaves(v, host)
    ensures Printable(Render(v, host))
    decreases v, 0
  {
    match v {
      case Integer(n) => DecimalUnits(n);
      case Str(s) => EscapePrintable(s);
      case Object(entries) => EntriesPrintable(entries, false, host);
      case Array(items) => ItemsPrintable(items, false, host);
      case _ =>
    }
  }

  lemma {:induction false} ItemsPrintable(items: seq<Value>, more: bool, host: Host)
    requires PlainItems(items, host)
    ensures Printable(RenderItems(items, more, host))
    decreases items, 0
  {
    if items != [] {
      RenderPrintable(items[0], host);
      ItemsPrintable(items[1..], true, host);
    }
  }

  lemma {:induction false} EntriesPrintable(entries: seq<Entry>, more: bool, host: Host)
    requires PlainEntries(entries, host)
    ensures Printable(RenderEntries(entries, more, host))
    decreases entries, 0
  {
    if entries != [] {
      EscapePrintable(entries[0].key);
      RenderPrintable(entries[0].value, host);
      EntriesPrintable(entries[1..], true, host);
    }
  }
}
