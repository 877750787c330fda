/** What the dispatcher sends: responses, error responses and notifications, and their text. */
module Responses {
  import opened String16
  import opened Values
  import opened Writer
  import opened Parser
  import opened RoundTrip
  import opened RuntimeText

  datatype ErrorCode = ParseError | InvalidRequest | MethodNotFound | InvalidParams | InternalError | ServerError

  function CodeNumber(c: ErrorCode): int32 {
    match c
    case ParseError => -32700
    case InvalidRequest => -32600
    case MethodNotFound => -32601
    case InvalidParams => -32602
    case InternalError => -32603
    case ServerError => -32000
  }

  /** `Internal` is `InternalResponse`, which is a notification if it has a name; `Failed` is
      `ProtocolError`. */
  datatype Outgoing =
    | Internal(callId: int32, notification: Text, params: Option<Value>)
    | Failed(id: Option<int32>, code: ErrorCode, message: Text, data: Text)

  function Response(callId: int32, result: Value): Outgoing {
    Internal(callId, [], Some(result))
  }

  function Params(o: Outgoing): Value
    requires o.Internal?
  {
    if o.params.Some? then o.params.value else Object([])
  }

  /** The dictionary that `InternalResponse::serialize` builds around `body`. */
  function Envelope(callId: int32, notification: Text, body: Value): Value {
    if notification != [] then Object([Entry(Ascii("method"), Str(notification)), Entry(Ascii("params"), body)])
    else Object([Entry(Ascii("id"), Integer(callId)), Entry(Ascii("result"), body)])
  }

  function ErrorEntries(code: ErrorCode, message: Text, data: Text): seq<Entry> {
    [Entry(Ascii("code"), Integer(CodeNumber(code))), Entry(Ascii("message"), Str(message))]
    + if data == [] then [] else [Entry(Ascii("data"), Str(data))]
  }

  function ErrorEnvelope(o: Outgoing): Value
    requires o.Failed?
  {
    Object([Entry(Ascii("error"), Object(ErrorEntries(o.code, o.message, o.data)))]
           + if o.id.None? then [] else [Entry(Ascii("id"), Integer(o.id.value))])
  }

  /** The tree whose text is sent: the parameters go in as text that is already serialized. */
  function Built(o: Outgoing, host: Host): Value {
    match o
    case Internal(callId, notification, _) => Envelope(callId, notification, Serialized(Render(Params(o), host)))
    case Failed(_, _, _, _) => ErrorEnvelope(o)
  }

  /** The tree that is meant. */
  function Meant(o: Outgoing): Value {
    match o
    case Internal(callId, notification, _) => Envelope(callId, notification, Params(o))
    case Failed(_, _, _, _) => ErrorEnvelope(o)
  }

  /** `serialize`. */
  function Sent(o: Outgoing, host: Host): Text {
    Render(Built(o, host), host)
  }

  lemma {:induction false} ConsParts(e: Entry, rest: seq<Entry>, host: Host)
    ensures EntriesHeight([e] + rest) == Max(1 + Height(e.value), EntriesHeight(rest))
    ensures Readable(e.value, host) && ReadableEntries(rest, host) ==> ReadableEntries([e] + rest, host)
    ensures PlainLeaves(e.value, host) && PlainEntries(rest, host) ==> PlainEntries([e] + rest, host)
  {
  }

  lemma {:induction false} PairParts(a: Entry, b: Entry, host: Host)
    ensures Height(Object([a, b])) == Max(1 + Height(a.value), 1 + Height(b.value))
    ensures a.key != b.key && Readable(a.value, host) && Readable(b.value, host) ==> Readable(Object([a, b]), host)
    ensures PlainLeaves(a.value, host) && PlainLeaves(b.value, host) ==> PlainLeaves(Object([a, b]), host)
  {
    ConsParts(a, [b], host);
    ConsParts(b, [], host);
    assert [a] + [b] == [a, b] && [b] + [] == [b];
  }

  lemma {:induction false} EnvelopeSpliced(callId: int32, notification: Text, body: Value, host: Host)
    ensures Spliced(Envelope(callId, notification, body),
                    Envelope(callId, notification, Serialized(Render(body, host))), host)
  {
    var v, w := Envelope(callId, notification, body).entries,
                Envelope(callId, notification, Serialized(Render(body, host))).entries;
    assert v[1..] == [v[1]] && w[1..] == [w[1]] && v[1..][1..] == [] && w[1..][1..] == [];
    assert SplicedEntries(v[1..][1..], w[1..][1..], host);
    assert SplicedEntry(v[1], w[1], host);
    assert SplicedEntries(v[1..], w[1..], host);
    assert SplicedEntry(v[0], w[0], host);
  }

  lemma {:induction false} EnvelopeReadable(callId: int32, notification: Text, body: Value, host: Host)
    requires Readable(body, host)
    ensures Readable(Envelope(callId, notification, body), host)
    ensures Height(Envelope(callId, notification, body)) == 1 + Height(body)
  {
    AsciiInjective("method", "params");
    var es := Envelope(callId, notification, body).entries;
    PairParts(es[0], es[1], host);
  }

  predicate IsScalar(v: Value) {
    v.Integer? || v.Str?
  }

  lemma {:induction false} ScalarEntries(es: seq<Entry>, host: Host)
    requires forall i :: 0 <= i < |es| ==> IsScalar(es[i].value)
    ensures ReadableEntries(es, host) && PlainEntries(es, host) && EntriesHeight(es) <= 1
  {
    if es != [] {
      ScalarEntries(es[1..], host);
      ConsParts(es[0], es[1..], host);
      assert [es[0]] + es[1..] == es;
    }
  }

  lemma {:induction false} ErrorReadable(o: Outgoing, host: Host)
    requires o.Failed?
    ensures Readable(ErrorEnvelope(o), host) && Height(ErrorEnvelope(o)) <= 2 && PlainLeaves(ErrorEnvelope(o), host)
  {
    var inner := ErrorEntries(o.code, o.message, o.data);
    AsciiInjective("code", "data");
    ScalarEntries(inner, host);
    var outer := ErrorEnvelope(o).entries;
    ScalarEntries(outer[1..], host);
    ConsParts(outer[0], outer[1..], host);
    assert [outer[0]] + outer[1..] == outer;
    assert Readable(outer[0].value, host);
  }

  /** The text of a response or notification is that of the value it stands for, and a client
      that parses it gets the call id or method and exactly the parameters, unless they are
      nested too deep to be read at all. */
  lemma {:induction false} ResponseParsesBack(o: Outgoing, host: Host)
    requires o.Internal? && Readable(Params(o), host)
    ensures Sent(o, host) == Render(Meant(o), host)
    ensures Parse(Sent(o, host), host) == if Height(Params(o)) < STACK_LIMIT then Some(Meant(o)) else None
  {
    EnvelopeSpliced(o.callId, o.notification, Params(o), host);
    SplicePrintsTheSame(Meant(o), Built(o, host), host);
    EnvelopeReadable(o.callId, o.notification, Params(o), host);
    PrintThenParse(Meant(o), host);
  }

  lemma {:induction false} ErrorParsesBack(o: Outgoing, host: Host)
    requires o.Failed?
    ensures Parse(Sent(o, host), host) == Some(Meant(o))
  {
    ErrorReadable(o, host);
    PrintThenParse(Meant(o), host);
  }

  /** Every unit sent is printable ASCII. */
  lemma {:induction false} SentPrintable(o: Outgoing, host: Host)
    requires o.Internal? ==> PlainLeaves(Params(o), host)
    ensures Printable(Sent(o, host))
  {
    if o.Internal? {
      RenderPrintable(Params(o), host);
      var es := Built(o, host).entries;
      PairParts(es[0], es[1], host);
    } else {
      ErrorReadable(o, host);
    }
    RenderPrintable(Built(o, host), host);
  }
}
