/** What a client gets for a message, as the JSON value of the reply: a reference that goes from
    the message, the configuration and the conduct of the backend straight to that value, and the
    proof that the text sent parses to it. */
module Replies {
  import opened String16
  import opened Values
  import opened ErrorSupport
  import opened Parser
  import opened Responses
  import opened RuntimeText
  import opened Dispatcher

  // ---------------------------------------------------------------- the reference

  function SuccessJson(id: int32, result: Value): Value {
    Object([Entry(Ascii("id"), Integer(id)), Entry(Ascii("result"), result)])
  }

  /** The error codes of section 5.1 of JSON-RPC 2.0, and one of the range left to servers. */
  function Number(code: ErrorCode): int32 {
    match code
    case ParseError => -32700
    case InvalidRequest => -32600
    case MethodNotFound => -32601
    case InvalidParams => -32602
    case InternalError => -32603
    case ServerError => -32000
  }

  function ErrorJson(id: Option<int32>, number: int32, message: Text, data: Text): Value {
    var code, text := Entry(Ascii("code"), Integer(number)), Entry(Ascii("message"), Str(message));
    var error := Entry(Ascii("error"), Object(if data == [] then [code, text]
                                              else [code, text, Entry(Ascii("data"), Str(data))]));
    Object(if id.None? then [error] else [error, Entry(Ascii("id"), Integer(id.value))])
  }

  function Expected(kind: ParamKind): string {
    match kind
    case AString => "string value expected"
    case AnInteger => "integer value expected"
    case ABoolean => "boolean value expected"
  }

  /** One line for each parameter that is missing or has the wrong type, in order. */
  ghost function Faults(params: seq<Param>, fields: seq<Entry>): seq<Text> {
    if params == [] then []
    else
      var p := params[0];
      (if Fits(p, fields) then [] else [Ascii(p.name) + Ascii(": ") + Ascii(Expected(p.kind))])
      + Faults(params[1..], fields)
  }

  function Listed(lines: seq<Text>): Text {
    if lines == [] then [] else lines[0] + (if |lines| == 1 then [] else Ascii("; ")) + Listed(lines[1..])
  }

  function Params(message: seq<Entry>): seq<Entry> {
    match Find(message, Ascii("params"))
    case Some(Object(entries)) => entries
    case _ => []
  }

  /** The backend answers with a result. */
  predicate Succeeds(h: Handler, c: Conduct, result: Value) {
    if h.asynchronous then c.steps != [] && c.steps[0] == SendSuccess(result)
    else !c.destroys && c.response == Success && result == c.result
  }

  /** The backend answers with an error of its own. */
  predicate Fails(h: Handler, c: Conduct, code: ErrorCode, message: Text) {
    if h.asynchronous then c.steps != [] && c.steps[0] == SendFailure(code, message)
    else !c.destroys && c.response == DispatchResponse.Error(code, message)
  }

  ghost predicate BackendReply(id: int32, h: Handler, c: Conduct, reply: Value) {
    || (exists result :: Succeeds(h, c, result) && reply == SuccessJson(id, result))
    || (exists code, text :: Fails(h, c, code, text) && reply == ErrorJson(Some(id), Number(code), text, []))
  }

  ghost predicate HandlerReply(id: int32, h: Handler, message: seq<Entry>, c: Conduct, reply: Value) {
    if Conforms(h.params, Params(message)) then BackendReply(id, h, c, reply)
    else reply == ErrorJson(Some(id), -32602, Ascii("Invalid parameters"), Listed(Faults(h.params, Params(message))))
  }

  function UnknownJson(id: int32, name: Text): Value {
    ErrorJson(Some(id), -32601, Ascii("'") + name + Ascii("' wasn't found"), [])
  }

  ghost predicate DomainReply(id: int32, name: Text, domain: Domain, message: seq<Entry>, c: Conduct, reply: Value) {
    if name in domain.methods then HandlerReply(id, domain.methods[name], message, c, reply)
    else !domain.fallThrough && reply == UnknownJson(id, name)
  }

  ghost predicate NamedReply(id: int32, name: Text, config: Config, message: seq<Entry>, c: Conduct, reply: Value) {
    if exists d :: InDomain(name, d, config) then
      exists d :: InDomain(name, d, config) && DomainReply(id, name, config.domains[d], message, c, reply)
    else !config.fallThrough && reply == UnknownJson(id, name)
  }

  /** `reply` is what the client is to get for the message, if it is to get anything. */
  ghost predicate Reply(parsed: Option<Value>, config: Config, c: Conduct, reply: Value) {
    match parsed
    case None => reply == ErrorJson(None, -32700, Ascii("Message must be a valid JSON"), [])
    case Some(Object(message)) =>
      (match Find(message, Ascii("id"))
       case Some(Integer(id)) =>
         (match Find(message, Ascii("method"))
          case Some(Str(asked)) =>
            var name := if asked in config.redirects then config.redirects[asked] else asked;
            NamedReply(id, name, config, message, c, reply)
          case _ => reply == ErrorJson(Some(id), -32600, Ascii("Message must have string 'method' property"), []))
       case _ => reply == ErrorJson(None, -32600, Ascii("Message must have integer 'id' property"), []))
    case Some(_) => reply == ErrorJson(None, -32600, Ascii("Message must be an object"), [])
  }

  // ---------------------------------------------------------------- what is sent is that

  /** Results that a client can read back. */
  ghost predicate ReadableConduct(c: Conduct, host: Host) {
    && Readable(c.result, host) && Height(c.result) < 1000
    && forall i :: 0 <= i < |c.steps| && c.steps[i].SendSuccess? ==>
                     Readable(c.steps[i].result, host) && Height(c.steps[i].result) < 1000
  }

  lemma {:induction false} ListedIsJoin(lines: seq<Text>)
    ensures Listed(lines) == Join(lines, Ascii("; "))
  {
    if |lines| == 1 {
      assert lines[1..] == [];
    } else if lines != [] {
      ListedIsJoin(lines[1..]);
    }
  }

  lemma {:induction false} ComplaintIsFault(p: Param, fields: seq<Entry>)
    ensures Complaint(p, fields) == if Fits(p, fields) then []
                                    else [Ascii(p.name) + Ascii(": ") + Ascii(Expected(p.kind))]
  {
    hide Ascii, Field;
    assert Join([Ascii(p.name)], [DOT]) == Ascii(p.name);
  }

  lemma {:induction false} ComplaintsCons(p: Param, rest: seq<Param>, fields: seq<Entry>)
    ensures Complaints([p] + rest, fields) == Complaint(p, fields) + Complaints(rest, fields)
  {
    hide Complaint;
    var all := [p] + rest;
    if rest == [] {
      assert all[..0] == [] && all[0] == p;
    } else {
      var n := |rest| - 1;
      ComplaintsCons(p, rest[..n], fields);
      assert all[..|all| - 1] == [p] + rest[..n];
    }
  }

  lemma {:induction false} ComplaintsAreFaults(params: seq<Param>, fields: seq<Entry>)
    ensures Complaints(params, fields) == Faults(params, fields)
  {
    hide Complaint, Fits;
    if params != [] {
      ComplaintsAreFaults(params[1..], fields);
      ComplaintsCons(params[0], params[1..], fields);
      ComplaintIsFault(params[0], fields);
      assert params == [params[0]] + params[1..];
    }
  }

  lemma {:induction false} FaultsIffMisfit(params: seq<Param>, fields: seq<Entry>)
    ensures Faults(params, fields) == [] <==> Conforms(params, fields)
    ensures Listed(Faults(params, fields)) == [] <==> Conforms(params, fields)
  {
    ComplaintsAreFaults(params, fields);
    ConformsIffNoComplaint(params, fields);
    hide Complaints, Conforms, Fits;
    FaultsAreTexts(params, fields);
  }

  lemma {:induction false} FaultsAreTexts(params: seq<Param>, fields: seq<Entry>)
    ensures forall i :: 0 <= i < |Faults(params, fields)| ==> Faults(params, fields)[i] != []
  {
    hide Fits;
    if params != [] {
      FaultsAreTexts(params[1..], fields);
    }
  }

  lemma {:induction false} ErrorJsonIs(o: Outgoing)
    requires o.Failed?
    ensures Meant(o) == ErrorJson(o.id, Number(o.code), o.message, o.data)
  {
    hide Ascii;
    var code, text := Entry(Ascii("code"), Integer(Number(o.code))), Entry(Ascii("message"), Str(o.message));
    assert ErrorEntries(o.code, o.message, o.data) ==
           if o.data == [] then [code, text] else [code, text, Entry(Ascii("data"), Str(o.data))];
  }

  lemma {:induction false} ErrorIs(id: Option<int32>, code: ErrorCode, message: Text, data: Text, host: Host)
    ensures Parse(Sent(Failed(id, code, message, data), host), host) ==
            Some(ErrorJson(id, Number(code), message, data))
  {
    hide Parse, Ascii, Sent;
    var o := Failed(id, code, message, data);
    ErrorParsesBack(o, host);
    ErrorJsonIs(o);
  }

  lemma {:induction false} SuccessIs(id: int32, result: Value, host: Host)
    requires Readable(result, host) && Height(result) < 1000
    ensures Parse(Sent(Response(id, result), host), host) == Some(SuccessJson(id, result))
  {
    hide Parse, Ascii;
    ResponseParsesBack(Response(id, result), host);
  }

  /** One reply, and what it parses to. */
  ghost predicate SendsOnly(sent: seq<Outgoing>, reply: Value, host: Host) {
    |sent| == 1 && Parse(Sent(sent[0], host), host) == Some(reply)
  }

  lemma {:induction false} ParamsAre(message: seq<Entry>)
    ensures ParamsObject(message) == Params(message)
  {
    hide Ascii;
  }

  lemma {:induction false} HandlerReplyIs(id: int32, h: Handler, message: seq<Entry>, c: Conduct, reply: Value,
                                          host: Host)
    requires ReadableConduct(c, host)
    ensures SendsOnly(HandlerReplies(id, h, message, c), reply, host) <==> HandlerReply(id, h, message, c, reply)
  {
    var fields := Params(message);
    ParamsAre(message);
    ComplaintsAreFaults(h.params, fields);
    FaultsIffMisfit(h.params, fields);
    ListedIsJoin(Faults(h.params, fields));
    hide Params, ParamsObject, ReadableConduct, BackendReply, AsyncReplies, ReplyOf, Complaints, Faults, Listed,
      Join, Conforms, Sent, Parse, Ascii, ErrorJson, SuccessJson;
    hide Readable, Height, Response;
    if !Conforms(h.params, fields) {
      ErrorIs(Some(id), InvalidParams, Ascii(INVALID_PARAMS), Listed(Faults(h.params, fields)), host);
      assert Number(InvalidParams) == -32602;
      assert HandlerReplies(id, h, message, c) ==
             [Failed(Some(id), InvalidParams, Ascii(INVALID_PARAMS), Listed(Faults(h.params, fields)))];
    } else {
      BackendReplyIs(id, h, c, reply, host);
    }
  }

  function Answer(id: int32, h: Handler, c: Conduct): seq<Outgoing> {
    if h.asynchronous then AsyncReplies(id, c.steps)
    else if c.destroys || c.response.FallThrough? then [] else [ReplyOf(id, c.response, c.result)]
  }

  lemma {:induction false} BackendReplyIs(id: int32, h: Handler, c: Conduct, reply: Value, host: Host)
    requires ReadableConduct(c, host)
    ensures SendsOnly(Answer(id, h, c), reply, host) <==> BackendReply(id, h, c, reply)
  {
    hide Sent, Parse, Ascii, ErrorJson, SuccessJson, Readable, Height, Number, Response;
    if h.asynchronous && c.steps != [] && c.steps[0].SendSuccess? {
      SuccessIs(id, c.steps[0].result, host);
      assert Succeeds(h, c, c.steps[0].result);
    } else if h.asynchronous && c.steps != [] && c.steps[0].SendFailure? {
      ErrorIs(Some(id), c.steps[0].code, c.steps[0].message, [], host);
      assert Fails(h, c, c.steps[0].code, c.steps[0].message);
    } else if !h.asynchronous && c.response.Success? && !c.destroys {
      SuccessIs(id, c.result, host);
      assert Succeeds(h, c, c.result);
    } else if !h.asynchronous && c.response.Error? && !c.destroys {
      ErrorIs(Some(id), c.response.code, c.response.message, [], host);
      assert Fails(h, c, c.response.code, c.response.message);
    }
  }

  lemma {:induction false} UnknownIs(id: int32, name: Text, reply: Value, host: Host)
    ensures SendsOnly([Failed(Some(id), MethodNotFound, NotFoundMessage(name), [])], reply, host) <==>
            reply == UnknownJson(id, name)
  {
    hide Sent, Parse, Ascii, ErrorJson;
    ErrorIs(Some(id), MethodNotFound, NotFoundMessage(name), [], host);
  }

  lemma {:induction false} MissingIs(id: int32, name: Text, fallThrough: bool, c: Conduct, reply: Value, host: Host)
    ensures SendsOnly(RequestReplies(Missing(id, name, fallThrough), c), reply, host) <==>
            !fallThrough && reply == UnknownJson(id, name)
  {
    hide Sent, Parse, UnknownJson, NotFoundMessage;
    UnknownIs(id, name, reply, host);
  }

  lemma {:induction false} DomainReplyIs(id: int32, name: Text, domain: Domain, message: seq<Entry>, c: Conduct,
                                         reply: Value, host: Host)
    requires ReadableConduct(c, host)
    ensures var r := if name in domain.methods then Call(id, domain.methods[name], message)
                     else Missing(id, name, domain.fallThrough);
            SendsOnly(RequestReplies(r, c), reply, host) <==> DomainReply(id, name, domain, message, c, reply)
  {
    hide SendsOnly, HandlerReplies, HandlerReply, UnknownJson, Missing, ReadableConduct;
    MissingIs(id, name, domain.fallThrough, c, reply, host);
    if name in domain.methods {
      HandlerReplyIs(id, domain.methods[name], message, c, reply, host);
    }
  }

  /** Only one domain can be meant. */
  lemma {:induction false} NamedReplyIn(id: int32, name: Text, config: Config, message: seq<Entry>, c: Conduct,
                                        reply: Value)
    ensures var dot := FindDot(name);
            NamedReply(id, name, config, message, c, reply) <==>
            if dot.Some? && name[..dot.value] in config.domains
            then DomainReply(id, name, config.domains[name[..dot.value]], message, c, reply)
            else !config.fallThrough && reply == UnknownJson(id, name)
  {
    forall d ensures InDomain(name, d, config) <==>
                     FindDot(name).Some? && d == name[..FindDot(name).value] && d in config.domains
    {
      DomainIsPrefix(name, d, config);
    }
    hide InDomain, DomainReply, UnknownJson;
  }

  lemma {:induction false} NamedReplyIs(id: int32, name: Text, config: Config, message: seq<Entry>, c: Conduct,
                                        reply: Value, host: Host)
    requires ReadableConduct(c, host)
    ensures SendsOnly(RequestReplies(Route(id, name, message, config), c), reply, host) <==>
            NamedReply(id, name, config, message, c, reply)
  {
    NamedReplyIn(id, name, config, message, c, reply);
    hide NamedReply, DomainReply, UnknownJson, SendsOnly, RequestReplies, Missing, ReadableConduct;
    var dot := FindDot(name);
    if dot.Some? && name[..dot.value] in config.domains {
      DomainReplyIs(id, name, config.domains[name[..dot.value]], message, c, reply, host);
    } else {
      MissingIs(id, name, config.fallThrough, c, reply, host);
    }
  }

  /** Over every message, configuration and conduct: something is sent exactly when the client is to
      get something, it is one text, and that text parses to what the client is to get. */
  lemma {:induction false} ClientGetsReply(parsed: Option<Value>, config: Config, c: Conduct, reply: Value, host: Host)
    requires ReadableConduct(c, host)
    ensures SendsOnly(Dispatcher.Replies(parsed, config, c), reply, host) <==> Reply(parsed, config, c, reply)
  {
    hide NamedReply, Route, Sent, Parse, ErrorJson, Ascii;
    ErrorIs(None, ParseError, Ascii(NOT_JSON), [], host);
    ErrorIs(None, InvalidRequest, Ascii(NOT_AN_OBJECT), [], host);
    ErrorIs(None, InvalidRequest, Ascii(NO_ID), [], host);
    if parsed.Some? && parsed.value.Object? {
      var message := parsed.value.entries;
      match (Find(message, Ascii("id")), Find(message, Ascii("method"))) {
        case (Some(Integer(id)), Some(Str(asked))) =>
          var name := if asked in config.redirects then config.redirects[asked] else asked;
          NamedReplyIs(id, name, config, message, c, reply, host);
        case (Some(Integer(id)), _) => ErrorIs(Some(id), InvalidRequest, Ascii(NO_METHOD), [], host);
        case _ =>
      }
    }
  }

  lemma {:induction false} SentIsReadable(parsed: Option<Value>, config: Config, c: Conduct, o: Outgoing, host: Host)
    requires ReadableConduct(c, host) && o in Dispatcher.Replies(parsed, config, c)
    ensures Parse(Sent(o, host), host).Some?
  {
    hide Sent, Parse, Ascii, Route, Field, Complaints, Join, Readable, Height;
    if o.Failed? {
      ErrorIs(o.id, o.code, o.message, o.data, host);
    } else {
      SuccessIs(o.callId, o.params.value, host);
    }
  }

  /** And nothing is sent exactly when the client is to get nothing. */
  lemma {:induction false} ClientGetsNothing(parsed: Option<Value>, config: Config, c: Conduct, host: Host)
    requires ReadableConduct(c, host)
    ensures Dispatcher.Replies(parsed, config, c) == [] <==> forall reply :: !Reply(parsed, config, c, reply)
  {
    forall reply
      ensures SendsOnly(Dispatcher.Replies(parsed, config, c), reply, host) <==> Reply(parsed, config, c, reply)
    {
      ClientGetsReply(parsed, config, c, reply, host);
    }
    hide Reply, Sent, Parse;
    if Dispatcher.Replies(parsed, config, c) != [] {
      ExactlyOneReply(parsed, config, c);
      var o := Dispatcher.Replies(parsed, config, c)[0];
      SentIsReadable(parsed, config, c, o, host);
      var reply := Parse(Sent(o, host), host).value;
      assert SendsOnly(Dispatcher.Replies(parsed, config, c), reply, host);
    }
  }

  /** A notification reaches the client under its name, with its parameters or with none. */
  lemma {:induction false} NotificationReaches(callId: int32, name: Text, params: Option<Value>, host: Host)
    requires name != [] && (params.Some? ==> Readable(params.value, host) && Height(params.value) < 1000)
    ensures Parse(Sent(Internal(callId, name, params), host), host) ==
            Some(Object([Entry(Ascii("method"), Str(name)),
                         Entry(Ascii("params"), if params.Some? then params.value else Object([]))]))
  {
    hide Sent, Parse, Ascii;
    ResponseParsesBack(Internal(callId, name, params), host);
  }

  /** The status of a dispatch goes with what was sent, unless the backend destroyed the dispatcher or may
      still answer through its callback. */
  lemma {:induction false} StatusGoesWithReply(parsed: Option<Value>, config: Config, c: Conduct)
    requires !c.destroys
    ensures var status, sent := RequestStatus(Read(parsed, config), c), Dispatcher.Replies(parsed, config, c);
            && (status == StatusFallThrough ==> sent == [])
            && (status == StatusSuccess ==> |sent| == 1 && sent[0].Internal?)
            && (status == StatusError ==> |sent| == 1 && sent[0].Failed?)
            && (|sent| == 1 && status != StatusAsync ==>
                  status == if sent[0].Failed? then StatusError else StatusSuccess)
  {
    hide Route, Complaints, Ascii, Join, Field;
  }
}
