/** The dispatcher: from a parsed message to the replies it gets, through weak pointers that
    outlive the dispatcher they point to. */
module Dispatcher {
  import opened String16
  import opened Values
  import opened ErrorSupport
  import opened Parser
  import opened Responses

  // ---------------------------------------------------------------- the heap of weak pointers

  class FrontendChannel {
    var sent: seq<Outgoing>

    constructor ()
      ensures sent == []
    {
      sent := [];
    }

    method Send(o: Outgoing)
      modifies this`sent
      ensures sent == old(sent) + [o]
    {
      sent := sent + [o];
    }
  }

  /** `get()` is the field itself. `deleted` marks an object whose destructor has run. */
  class WeakPtr {
    var dispatcher: DispatcherBase?
    ghost var deleted: bool

    constructor (d: DispatcherBase)
      ensures dispatcher == d && !deleted
    {
      dispatcher, deleted := d, false;
    }

    method Dispose()
      requires !deleted
      modifies this`dispatcher
      ensures dispatcher == null
    {
      dispatcher := null;
    }

    /** The destructor takes the pointer out of its dispatcher's set. */
    method Destruct()
      requires !deleted && (dispatcher != null ==> dispatcher.Valid() && this in dispatcher.made)
      modifies this`deleted, if dispatcher == null then {} else {dispatcher}
      ensures deleted && dispatcher == old(dispatcher)
      ensures dispatcher != null ==>
                && dispatcher.Valid() && dispatcher.weakPtrs == old(dispatcher.weakPtrs) - {this}
                && dispatcher.SameBut() && dispatcher.made == old(dispatcher.made)
    {
      if dispatcher != null {
        dispatcher.weakPtrs := dispatcher.weakPtrs - {this};
      }
      deleted := true;
    }
  }

  class DispatcherBase {
    var frontendChannel: FrontendChannel?
    var weakPtrs: set<WeakPtr>
    var lastCallbackId: nat
    var lastCallbackFallThrough: bool
    /** Every weak pointer to this dispatcher ever made. */
    ghost var made: set<WeakPtr>
    ghost var destroyed: bool

    /** `weakPtrs` is exactly the set of live weak pointers that still point here, and a
        destroyed dispatcher has none. */
    ghost predicate Valid()
      reads this, made
    {
      && weakPtrs <= made
      && (forall w :: w in made ==> w.dispatcher == null || w.dispatcher == this)
      && (forall w :: w in made ==> (w in weakPtrs <==> !w.deleted && w.dispatcher == this))
      && (destroyed ==> weakPtrs == {} && frontendChannel == null)
    }

    /** Everything but the set of weak pointers is as before. */
    twostate predicate SameBut()
      reads this
    {
      && frontendChannel == old(frontendChannel) && lastCallbackId == old(lastCallbackId)
      && lastCallbackFallThrough == old(lastCallbackFallThrough) && destroyed == old(destroyed)
    }

    constructor (channel: FrontendChannel)
      ensures Valid() && frontendChannel == channel && made == {} && !destroyed && lastCallbackId == 0 &&
              !lastCallbackFallThrough
    {
      frontendChannel := channel;
      weakPtrs, made, lastCallbackId, lastCallbackFallThrough, destroyed := {}, {}, 0, false, false;
    }

    /** `weakPtr()`. */
    method NewWeakPtr() returns (w: WeakPtr)
      requires Valid() && !destroyed
      modifies this`weakPtrs, this`made
      ensures Valid() && fresh(w) && w.dispatcher == this && !w.deleted
      ensures made == old(made) + {w} && weakPtrs == old(weakPtrs) + {w} && w !in old(made)
    {
      w := new WeakPtr(this);
      weakPtrs, made := weakPtrs + {w}, made + {w};
    }

    method ClearFrontend()
      requires Valid()
      modifies this`frontendChannel, this`weakPtrs, weakPtrs
      ensures Valid() && frontendChannel == null && weakPtrs == {}
      ensures forall w :: w in made ==> w.deleted == old(w.deleted) && (w.deleted || w.dispatcher == null)
    {
      frontendChannel := null;
      var todo := weakPtrs;
      while todo != {}
        invariant todo <= old(weakPtrs) && weakPtrs == old(weakPtrs) && frontendChannel == null
        invariant forall w :: w in made ==> w.deleted == old(w.deleted)
        invariant forall w :: w in made ==> w.dispatcher == null || w.dispatcher == this
        invariant forall w :: w in made && w !in todo && !w.deleted ==> w.dispatcher == null
      {
        var w :| w in todo;
        w.Dispose();
        todo := todo - {w};
      }
      assert forall w :: w in made ==> w !in todo;
      weakPtrs := {};
    }

    method Destruct()
      requires Valid() && !destroyed
      modifies this`frontendChannel, this`weakPtrs, this`destroyed, weakPtrs
      ensures Valid() && destroyed
      ensures forall w :: w in made ==> w.deleted == old(w.deleted) && (w.deleted || w.dispatcher == null)
    {
      ClearFrontend();
      destroyed := true;
    }

    method NextCallbackId() returns (id: nat)
      modifies this`lastCallbackId, this`lastCallbackFallThrough
      ensures id == lastCallbackId == old(lastCallbackId) + 1 && !lastCallbackFallThrough
    {
      lastCallbackFallThrough := false;
      lastCallbackId := lastCallbackId + 1;
      id := lastCallbackId;
    }

    method MarkFallThrough()
      modifies this`lastCallbackFallThrough
      ensures lastCallbackFallThrough
    {
      lastCallbackFallThrough := true;
    }

    method ReportProtocolError(callId: int32, code: ErrorCode, message: Text, data: Text)
      requires !destroyed
      modifies frontendChannel
      ensures frontendChannel != null ==>
                frontendChannel.sent == old(frontendChannel.sent) + [Failed(Some(callId), code, message, data)]
    {
      if frontendChannel != null {
        frontendChannel.Send(Failed(Some(callId), code, message, data));
      }
    }

    method SendResponse(callId: int32, response: DispatchResponse, result: Value)
      requires !destroyed && !response.FallThrough?
      modifies frontendChannel
      ensures frontendChannel != null ==>
                frontendChannel.sent == old(frontendChannel.sent) + [ReplyOf(callId, response, result)]
    {
      if frontendChannel == null {
        return;
      }
      if response.Error? {
        ReportProtocolError(callId, response.code, response.message, []);
        return;
      }
      frontendChannel.Send(Response(callId, result));
    }
  }

  datatype DispatchResponse = Success | Error(code: ErrorCode, message: Text) | FallThrough

  function ReplyOf(callId: int32, response: DispatchResponse, result: Value): Outgoing {
    if response.Error? then Failed(Some(callId), response.code, response.message, []) else Response(callId, result)
  }

  /** A pointer that is still set points to a live dispatcher. */
  lemma {:induction false} GetIsAlive(d: DispatcherBase, w: WeakPtr)
    requires d.Valid() && w in d.made && !w.deleted
    ensures w.dispatcher != null <==> w in d.weakPtrs
    ensures w.dispatcher != null ==> w.dispatcher == d && !d.destroyed
    ensures d.destroyed ==> w.dispatcher == null
  {
  }

  class Callback {
    var backendImpl: WeakPtr?
    const callId: int32
    const callbackId: nat
    /** How many responses this callback has sent. */
    ghost var sends: nat

    /** The weak pointer is owned by this callback, which gives it up when it has answered. */
    ghost predicate Valid(d: DispatcherBase)
      reads this, d, d.made
    {
      && d.Valid() && sends <= 1
      && (sends == 1 ==> backendImpl == null)
      && (backendImpl != null ==> backendImpl in d.made && !backendImpl.deleted)
    }

    constructor (w: WeakPtr, callId': int32, callbackId': nat)
      ensures backendImpl == w && callId == callId' && callbackId == callbackId' && sends == 0
    {
      backendImpl, callId, callbackId, sends := w, callId', callbackId', 0;
    }

    /** `m_backendImpl = nullptr`, which destroys the weak pointer. */
    method Release(ghost d: DispatcherBase)
      requires Valid(d) && backendImpl != null
      modifies this`backendImpl, backendImpl`deleted, d
      ensures Valid(d) && backendImpl == null && d.weakPtrs == old(d.weakPtrs) - {old(backendImpl)} && d.SameBut()
      ensures d.made == old(d.made) && old(backendImpl).deleted
    {
      GetIsAlive(d, backendImpl);
      backendImpl.Destruct();
      backendImpl := null;
    }

    ghost predicate Active()
      reads this, backendImpl
    {
      backendImpl != null && backendImpl.dispatcher != null
    }

    /** `sendIfActive`: sends unless an answer was already given or the dispatcher is gone. */
    method SendIfActive(ghost d: DispatcherBase, response: DispatchResponse, result: Value)
      requires Valid(d) && !response.FallThrough?
      modifies this`backendImpl, this`sends, backendImpl, d, d.frontendChannel
      ensures Valid(d) && d.SameBut() && d.made == old(d.made) && d.weakPtrs == old(d.weakPtrs) - {old(backendImpl)}
      ensures sends == if old(Active()) then old(sends) + 1 else old(sends)
      ensures old(Active()) ==> backendImpl == null && !d.destroyed
      ensures !old(Active()) ==> backendImpl == old(backendImpl)
      ensures d.frontendChannel != null ==>
                d.frontendChannel.sent == old(d.frontendChannel.sent) +
                if old(Active()) then [ReplyOf(callId, response, result)] else []
    {
      if backendImpl == null {
        return;
      }
      if backendImpl.dispatcher == null {
        return;
      }
      backendImpl.dispatcher.SendResponse(callId, response, result);
      Release(d);
      sends := sends + 1;
    }

    method FallThroughIfActive(ghost d: DispatcherBase)
      requires Valid(d)
      modifies this`backendImpl, backendImpl, d
      ensures Valid(d) && d.made == old(d.made) && d.weakPtrs == old(d.weakPtrs) - {old(backendImpl)}
      ensures d.frontendChannel == old(d.frontendChannel) && d.destroyed == old(d.destroyed) &&
              d.lastCallbackId == old(d.lastCallbackId)
      ensures d.lastCallbackFallThrough == (old(Active()) || old(d.lastCallbackFallThrough))
      ensures old(Active()) ==> backendImpl == null
      ensures !old(Active()) ==> backendImpl == old(backendImpl)
    {
      if backendImpl == null {
        return;
      }
      if backendImpl.dispatcher == null {
        return;
      }
      backendImpl.dispatcher.MarkFallThrough();
      Release(d);
    }
  }

  // ---------------------------------------------------------------- what a backend may do

  /** The steps of a backend that was handed a callback: answers, or the end of the dispatcher. */
  datatype BackendStep =
    | SendSuccess(result: Value)
    | SendFailure(code: ErrorCode, message: Text)
    | CallFallThrough
    | DestroyDispatcher

  /** The one reply, if any, that a backend's steps make. */
  function AsyncReplies(callId: int32, steps: seq<BackendStep>): seq<Outgoing> {
    if steps == [] then []
    else
      match steps[0]
      case SendSuccess(result) => [Response(callId, result)]
      case SendFailure(code, message) => [Failed(Some(callId), code, message, [])]
      case _ => []
  }

  /** Runs a backend's steps on a callback it holds: while the command is handled, or any time later
      if it kept the callback, when the dispatcher may be gone already. Whatever it does, and however
      often, at most one response goes out, and none once the callback has answered or the dispatcher
      is gone. */
  method RunBackend(callback: Callback, d: DispatcherBase, channel: FrontendChannel, alreadyGone: bool,
                    steps: seq<BackendStep>)
    requires callback.Valid(d) && (!d.destroyed ==> d.frontendChannel == channel) && (alreadyGone <==> d.destroyed)
    modifies callback, d, d.made, channel
    ensures callback.Valid(d) && d.made == old(d.made)
    ensures channel.sent == old(channel.sent) +
                            if old(callback.Active()) then AsyncReplies(callback.callId, steps) else []
    ensures callback.sends == old(callback.sends) +
                              if old(callback.Active()) then |AsyncReplies(callback.callId, steps)| else 0
    ensures callback.Active() <==> old(callback.Active()) && steps == []
    ensures d.destroyed <==> alreadyGone || DestroyDispatcher in steps
    ensures !d.destroyed ==> d.frontendChannel == channel
    ensures !d.destroyed ==>
              (d.lastCallbackFallThrough <==>
               old(d.lastCallbackFallThrough) || (old(callback.Active()) && steps != [] && steps[0] == CallFallThrough))
    ensures forall w :: w in d.made && w != old(callback.backendImpl) ==> w.deleted == old(w.deleted)
    ensures callback.backendImpl == null || callback.backendImpl == old(callback.backendImpl)
    ensures !d.destroyed ==> old(d.weakPtrs) - {old(callback.backendImpl)} <= d.weakPtrs
  {
    var gone := alreadyGone;
    ghost var active := callback.Active();
    for i := 0 to |steps|
      invariant callback.Valid(d) && d.made == old(d.made) && gone == d.destroyed
      invariant callback.backendImpl == null || callback.backendImpl == old(callback.backendImpl)
      invariant d.destroyed <==> alreadyGone || DestroyDispatcher in steps[..i]
      invariant d.frontendChannel == if d.destroyed then null else channel
      invariant callback.Active() <==> active && i == 0
      invariant !d.destroyed ==> old(d.weakPtrs) - {old(callback.backendImpl)} <= d.weakPtrs
      invariant channel.sent == old(channel.sent) + if active && i > 0 then AsyncReplies(callback.callId, steps) else []
      invariant callback.sends == old(callback.sends) +
                                  if active && i > 0 then |AsyncReplies(callback.callId, steps)| else 0
      invariant !d.destroyed ==>
          (d.lastCallbackFallThrough <==>
           old(d.lastCallbackFallThrough) || (active && i > 0 && steps[0] == CallFallThrough))
      invariant forall w :: w in d.made && w != old(callback.backendImpl) ==> w.deleted == old(w.deleted)
    {
      assert steps[..i + 1] == steps[..i] + [steps[i]];
      match steps[i] {
        case SendSuccess(result) => callback.SendIfActive(d, Success, result);
        case SendFailure(code, message) => callback.SendIfActive(d, Error(code, message), Object([]));
        case CallFallThrough => callback.FallThroughIfActive(d);
        case DestroyDispatcher =>
          if !gone {
            d.Destruct();
            gone := true;
          }
      }
    }
  }

  // ---------------------------------------------------------------- reading parameters

  datatype ParamKind = AString | AnInteger | ABoolean

  datatype Param = Param(name: string, kind: ParamKind, required: bool)

  /** What is wrong with a parameter, if anything. */
  function Complaint(p: Param, fields: seq<Entry>): seq<Text> {
    var found := Field(fields, p.name);
    if found.None? && !p.required then []
    else
      match p.kind
      case AString => if StringOf(found).Some? then [] else [Message([Ascii(p.name)], "string value expected")]
      case AnInteger => if IntOf(found).Some? then [] else [Message([Ascii(p.name)], "integer value expected")]
      case ABoolean => if BoolOf(found).Some? then [] else [Message([Ascii(p.name)], "boolean value expected")]
  }

  function Complaints(params: seq<Param>, fields: seq<Entry>): seq<Text> {
    if params == [] then [] else Complaints(params[..|params| - 1], fields) + Complaint(params[|params| - 1], fields)
  }

  /** A parameter that is there has its type, and a required one is there. */
  predicate Fits(p: Param, fields: seq<Entry>) {
    var found := Field(fields, p.name);
    if found.None? then !p.required
    else
      match p.kind
      case AString => found.value.Str?
      case AnInteger => found.value.Integer?
      case ABoolean => found.value.Boolean?
  }

  ghost predicate Conforms(params: seq<Param>, fields: seq<Entry>) {
    forall i :: 0 <= i < |params| ==> Fits(params[i], fields)
  }

  lemma {:induction false} FitsIffNoComplaint(p: Param, fields: seq<Entry>)
    ensures Complaint(p, fields) == [] <==> Fits(p, fields)
  {
  }

  /** Nothing is complained about exactly when the parameters are as declared. */
  lemma {:induction false} ConformsIffNoComplaint(params: seq<Param>, fields: seq<Entry>)
    ensures Complaints(params, fields) == [] <==> Conforms(params, fields)
  {
    hide Complaint, Fits;
    if params != [] {
      ConformsIffNoComplaint(params[..|params| - 1], fields);
      FitsIffNoComplaint(params[|params| - 1], fields);
    }
  }

  /** One parameter: its name is set only if it is there or required. */
  method ReadParam(p: Param, fields: seq<Entry>, errors: Errors)
    requires |errors.path| == 1
    modifies errors
    ensures |errors.path| == 1 && errors.errors == old(errors.errors) + Complaint(p, fields)
  {
    var found := Field(fields, p.name);
    if found.None? && !p.required {
      return;
    }
    match p.kind {
      case AString => var _ := ReadString(fields, p.name, errors);
      case AnInteger => var _ := ReadInt(fields, p.name, errors);
      case ABoolean => var _ := ReadBool(fields, p.name, errors);
    }
  }

  method ReadParams(params: seq<Param>, fields: seq<Entry>, errors: Errors)
    requires errors.path == [] && errors.errors == []
    modifies errors
    ensures errors.path == [] && errors.errors == Complaints(params, fields)
  {
    errors.Push();
    for i := 0 to |params|
      invariant |errors.path| == 1 && errors.errors == Complaints(params[..i], fields)
    {
      ReadParam(params[i], fields, errors);
      assert params[..i + 1][..i] == params[..i];
    }
    assert params[..|params|] == params;
    errors.Pop();
  }

  // ---------------------------------------------------------------- handlers

  datatype Handler = Handler(params: seq<Param>, asynchronous: bool)

  /** What the backend does for one request: for a plain method its answer, and whether the
      dispatcher is destroyed meanwhile; for an asynchronous one its steps. */
  datatype Conduct = Conduct(response: DispatchResponse, result: Value, destroys: bool, steps: seq<BackendStep>)

  datatype Status = StatusSuccess | StatusError | StatusFallThrough | StatusAsync

  const INVALID_PARAMS := "Invalid parameters"

  /** `DictionaryValue::cast` of the `params` of a message. */
  function ParamsObject(message: seq<Entry>): seq<Entry> {
    match Field(message, "params") case Some(Object(entries)) => entries case _ => []
  }

  function HandlerReplies(callId: int32, h: Handler, message: seq<Entry>, c: Conduct): seq<Outgoing> {
    var complaints := Complaints(h.params, ParamsObject(message));
    if complaints != [] then [Failed(Some(callId), InvalidParams, Ascii(INVALID_PARAMS), Join(complaints, Ascii("; ")))]
    else if h.asynchronous then AsyncReplies(callId, c.steps)
    else if c.destroys || c.response.FallThrough? then []
    else [ReplyOf(callId, c.response, c.result)]
  }

  function SyncStatus(response: DispatchResponse): Status {
    match response
    case Success => StatusSuccess
    case Error(_, _) => StatusError
    case FallThrough => StatusFallThrough
  }

  function AsyncStatus(steps: seq<BackendStep>): Status {
    if steps != [] && steps[0] == CallFallThrough && DestroyDispatcher !in steps then StatusFallThrough else StatusAsync
  }

  function HandlerStatus(h: Handler, message: seq<Entry>, c: Conduct): Status {
    if Complaints(h.params, ParamsObject(message)) != [] then StatusError
    else if h.asynchronous then AsyncStatus(c.steps)
    else SyncStatus(c.response)
  }

  method HandleSync(d: DispatcherBase, channel: FrontendChannel, callId: int32, c: Conduct) returns (status: Status)
    requires d.Valid() && !d.destroyed && d.frontendChannel == channel
    modifies d, d.made, channel
    ensures d.Valid() && old(d.made) <= d.made && fresh(d.made - old(d.made)) && d.destroyed == c.destroys
    ensures !c.destroys ==> d.frontendChannel == channel
    ensures channel.sent == old(channel.sent) +
                            if c.destroys || c.response.FallThrough? then []
                            else [ReplyOf(callId, c.response, c.result)]
    ensures !c.destroys && !c.response.FallThrough? ==> d.weakPtrs == old(d.weakPtrs)
    ensures status == SyncStatus(c.response)
  {
    var weak := d.NewWeakPtr();
    if c.destroys {
      d.Destruct();
    }
    if c.response.FallThrough? {
      weak.Destruct();
      return StatusFallThrough;
    }
    if weak.dispatcher != null {
      weak.dispatcher.SendResponse(callId, c.response, c.result);
    }
    weak.Destruct();
    status := if c.response.Error? then StatusError else StatusSuccess;
  }

  method HandleAsync(d: DispatcherBase, channel: FrontendChannel, callId: int32, c: Conduct)
    returns (status: Status, callback: Callback)
    requires d.Valid() && !d.destroyed && d.frontendChannel == channel
    modifies d, d.made, channel
    ensures d.Valid() && old(d.made) <= d.made && fresh(d.made - old(d.made)) &&
            (d.destroyed <==> DestroyDispatcher in c.steps)
    ensures !d.destroyed ==> d.frontendChannel == channel
    ensures fresh(callback) && callback.Valid(d) && callback.callId == callId
    ensures channel.sent == old(channel.sent) + AsyncReplies(callId, c.steps)
    ensures callback.sends == |AsyncReplies(callId, c.steps)| && (callback.Active() <==> c.steps == [])
    ensures status == AsyncStatus(c.steps)
  {
    var weak := d.NewWeakPtr();
    var mine := d.NewWeakPtr();
    var id := d.NextCallbackId();
    callback := new Callback(mine, callId, id);
    RunBackend(callback, d, channel, false, c.steps);
    var fellThrough := weak.dispatcher != null && weak.dispatcher.lastCallbackFallThrough;
    status := if fellThrough then StatusFallThrough else StatusAsync;
    weak.Destruct();
  }

  // ---------------------------------------------------------------- which request a message is

  datatype Domain = Domain(methods: map<Text, Handler>, fallThrough: bool)

  datatype Config = Config(fallThrough: bool, redirects: map<Text, Text>, domains: map<Text, Domain>)

  datatype Request =
    | Unparsable
    | NotAnObject
    | WithoutId
    | WithoutMethod(callId: int32)
    | NotFound(callId: int32, methodName: Text)
    | Skipped
    | Call(callId: int32, handler: Handler, message: seq<Entry>)

  /** `StringUtil::find(t, ".")`. */
  function FindDot(t: Text): (r: Option<nat>)
    ensures r.None? <==> DOT !in t
    ensures r.Some? ==> r.value < |t| && t[r.value] == DOT && DOT !in t[..r.value]
  {
    if t == [] then None
    else if t[0] == DOT then Some(0)
    else
      match FindDot(t[1..])
      case None => None
      case Some(n) => assert t[..n + 1] == [t[0]] + t[1..][..n]; Some(n + 1)
  }

  function Missing(callId: int32, methodName: Text, fallThrough: bool): Request {
    if fallThrough then Skipped else NotFound(callId, methodName)
  }

  function Route(callId: int32, methodName: Text, message: seq<Entry>, config: Config): Request {
    var dot := FindDot(methodName);
    if dot.None? || methodName[..dot.value] !in config.domains then Missing(callId, methodName, config.fallThrough)
    else
      var domain := config.domains[methodName[..dot.value]];
      if methodName !in domain.methods then Missing(callId, methodName, domain.fallThrough)
      else Call(callId, domain.methods[methodName], message)
  }

  function Read(parsed: Option<Value>, config: Config): Request {
    if parsed.None? then Unparsable
    else if !parsed.value.Object? then NotAnObject
    else
      var message := parsed.value.entries;
      var id, methodName := IntOf(Field(message, "id")), StringOf(Field(message, "method"));
      if id.None? then WithoutId
      else if methodName.None? then WithoutMethod(id.value)
      else
        var target := if methodName.value in config.redirects then config.redirects[methodName.value]
                      else methodName.value;
        Route(id.value, target, message, config)
  }

  const NOT_JSON := "Message must be a valid JSON"
  const NOT_AN_OBJECT := "Message must be an object"
  const NO_ID := "Message must have integer 'id' property"
  const NO_METHOD := "Message must have string 'method' property"

  function NotFoundMessage(methodName: Text): Text {
    Ascii("'") + methodName + Ascii("' wasn't found")
  }

  function RequestReplies(r: Request, c: Conduct): seq<Outgoing> {
    match r
    case Unparsable => [Failed(None, ParseError, Ascii(NOT_JSON), [])]
    case NotAnObject => [Failed(None, InvalidRequest, Ascii(NOT_AN_OBJECT), [])]
    case WithoutId => [Failed(None, InvalidRequest, Ascii(NO_ID), [])]
    case WithoutMethod(id) => [Failed(Some(id), InvalidRequest, Ascii(NO_METHOD), [])]
    case NotFound(id, methodName) => [Failed(Some(id), MethodNotFound, NotFoundMessage(methodName), [])]
    case Skipped => []
    case Call(id, handler, message) => HandlerReplies(id, handler, message, c)
  }

  /** The status that `dispatch` returns. */
  function RequestStatus(r: Request, c: Conduct): Status {
    match r
    case Skipped => StatusFallThrough
    case Call(_, handler, message) => HandlerStatus(handler, message, c)
    case _ => StatusError
  }

  /** What is sent for one message. */
  function Replies(parsed: Option<Value>, config: Config, c: Conduct): seq<Outgoing> {
    RequestReplies(Read(parsed, config), c)
  }

  // ---------------------------------------------------------------- the objects

  /** A domain's dispatcher: the base and its table of methods. */
  class DispatcherImpl {
    const base: DispatcherBase
    const dispatchMap: map<Text, Handler>
    const fallThroughForNotFound: bool

    constructor (base': DispatcherBase, dispatchMap': map<Text, Handler>, fallThrough: bool)
      ensures base == base' && dispatchMap == dispatchMap' && fallThroughForNotFound == fallThrough
    {
      base, dispatchMap, fallThroughForNotFound := base', dispatchMap', fallThrough;
    }

    /** Reads the parameters, then calls the backend or reports what is wrong with them. */
    method Handle(channel: FrontendChannel, callId: int32, h: Handler, message: seq<Entry>, c: Conduct)
      returns (status: Status)
      requires base.Valid() && !base.destroyed && base.frontendChannel == channel
      modifies base, base.made, channel
      ensures base.Valid() && old(base.made) <= base.made && fresh(base.made - old(base.made))
      ensures base.destroyed ==> c.destroys || DestroyDispatcher in c.steps
      ensures !base.destroyed ==> base.frontendChannel == channel
      ensures channel.sent == old(channel.sent) + HandlerReplies(callId, h, message, c)
      ensures status == HandlerStatus(h, message, c)
    {
      var errors := new Errors();
      ReadParams(h.params, ParamsObject(message), errors);
      if errors.HasErrors() {
        base.ReportProtocolError(callId, InvalidParams, Ascii(INVALID_PARAMS), Join(errors.errors, Ascii("; ")));
        return StatusError;
      }
      if h.asynchronous {
        var callback: Callback;
        status, callback := HandleAsync(base, channel, callId, c);
      } else {
        status := HandleSync(base, channel, callId, c);
      }
    }
  }

  class UberDispatcher {
    const frontendChannel: FrontendChannel
    var fallThroughForNotFound: bool
    var redirects: map<Text, Text>
    var dispatchers: map<Text, DispatcherImpl>

    ghost function Bases(): set<DispatcherBase>
      reads this
    {
      set name | name in dispatchers :: dispatchers[name].base
    }

    ghost function Pointers(): set<WeakPtr>
      reads this, Bases()
    {
      set d, w | d in Bases() && w in d.made :: w
    }

    ghost predicate Registered(d: DispatcherBase)
      reads d, d.made
    {
      d.Valid() && !d.destroyed && d.frontendChannel == frontendChannel
    }

    ghost predicate Apart(d: DispatcherBase, e: DispatcherBase)
      reads d, e
    {
      d != e && d.made !! e.made
    }

    /** Every registered dispatcher is alive and answers to this channel, and no two share anything. */
    ghost predicate Valid()
      reads this, Bases(), Pointers()
    {
      && (forall n :: n in dispatchers ==> Registered(dispatchers[n].base))
      && (forall m, n :: m in dispatchers && n in dispatchers && m != n ==>
                           Apart(dispatchers[m].base, dispatchers[n].base))
    }

    ghost function Configuration(): Config
      reads this
    {
      Config(fallThroughForNotFound, redirects,
             map name | name in dispatchers ::
               Domain(dispatchers[name].dispatchMap, dispatchers[name].fallThroughForNotFound))
    }

    constructor (channel: FrontendChannel)
      ensures Valid() && frontendChannel == channel && dispatchers == map[] && redirects == map[] &&
              !fallThroughForNotFound
    {
      frontendChannel := channel;
      fallThroughForNotFound, redirects, dispatchers := false, map[], map[];
    }

    /** The destruction of the dispatcher under `name`, if there is one; it is no longer registered. */
    method Unregister(name: Text)
      requires Valid()
      modifies this`dispatchers, Bases(), Pointers()
      ensures Valid() && dispatchers == old(dispatchers) - {name}
      ensures name in old(dispatchers) ==> var d := old(dispatchers)[name].base;
                                           d.destroyed && forall w :: w in d.made && !w.deleted ==> w.dispatcher == null
      ensures forall d :: d in old(Bases()) ==> d.made == old(d.made)
    {
      if name in dispatchers {
        var before := dispatchers[name].base;
        assert before in Bases();
        before.Destruct();
        dispatchers := dispatchers - {name};
      }
    }

    method Insert(name: Text, dispatcher: DispatcherImpl)
      requires Valid() && name !in dispatchers && Registered(dispatcher.base) && dispatcher.base.made == {}
      requires forall n :: n in dispatchers ==> dispatchers[n].base != dispatcher.base
      modifies this`dispatchers
      ensures Valid() && dispatchers == old(dispatchers)[name := dispatcher]
    {
      dispatchers := dispatchers[name := dispatcher];
    }

    /** `wire` and `registerBackend`: a new dispatcher takes the name. The one that had it is
        destroyed, and so none of its weak pointers is set any more. */
    method Wire(name: Text, methods: map<Text, Handler>)
      requires Valid()
      modifies this`dispatchers, Bases(), Pointers()
      ensures Valid() && dispatchers.Keys == old(dispatchers).Keys + {name}
      ensures forall n :: n in old(dispatchers) && n != name ==> dispatchers[n] == old(dispatchers)[n]
      ensures dispatchers[name].dispatchMap == methods &&
              dispatchers[name].fallThroughForNotFound == fallThroughForNotFound
      ensures name in old(dispatchers) ==> var d := old(dispatchers)[name].base;
                                           d.destroyed && forall w :: w in d.made && !w.deleted ==> w.dispatcher == null
    {
      Unregister(name);
      var base := new DispatcherBase(frontendChannel);
      var dispatcher := new DispatcherImpl(base, methods, fallThroughForNotFound);
      assert Valid();
      Insert(name, dispatcher);
    }

    /** Hands a request to a registered dispatcher; the others are not touched. */
    method Run(name: Text, callId: int32, h: Handler, message: seq<Entry>, c: Conduct) returns (status: Status)
      requires Valid() && name in dispatchers
      modifies frontendChannel, Bases(), Pointers()
      ensures frontendChannel.sent == old(frontendChannel.sent) + HandlerReplies(callId, h, message, c)
      ensures status == HandlerStatus(h, message, c)
      ensures !c.destroys && DestroyDispatcher !in c.steps ==> Valid()
    {
      var dispatcher := dispatchers[name];
      assert dispatcher.base in Bases();
      hide HandlerReplies, HandlerStatus;
      status := dispatcher.Handle(frontendChannel, callId, h, message, c);
    }

    /** The second half of `dispatch`, from the method's name on. */
    method Forward(callId: int32, methodName: Text, message: seq<Entry>, c: Conduct) returns (status: Status)
      requires Valid()
      modifies frontendChannel, Bases(), Pointers()
      ensures frontendChannel.sent == old(frontendChannel.sent) +
                                      RequestReplies(Route(callId, methodName, message, Configuration()), c)
      ensures status == RequestStatus(Route(callId, methodName, message, Configuration()), c)
      ensures !c.destroys && DestroyDispatcher !in c.steps ==> Valid()
    {
      hide HandlerReplies, HandlerStatus, NotFoundMessage;
      var dot := FindDot(methodName);
      if dot.None? || methodName[..dot.value] !in dispatchers {
        if fallThroughForNotFound {
          return StatusFallThrough;
        }
        frontendChannel.Send(Failed(Some(callId), MethodNotFound, NotFoundMessage(methodName), []));
        return StatusError;
      }
      var name := methodName[..dot.value];
      var dispatcher := dispatchers[name];
      assert dispatcher.base in Bases();
      if methodName !in dispatcher.dispatchMap {
        if dispatcher.fallThroughForNotFound {
          return StatusFallThrough;
        }
        dispatcher.base.ReportProtocolError(callId, MethodNotFound, NotFoundMessage(methodName), []);
        return StatusError;
      }
      status := Run(name, callId, dispatcher.dispatchMap[methodName], message, c);
    }

    /** `dispatch`: from the parsed message to the replies that are sent. */
    method Dispatch(parsed: Option<Value>, c: Conduct) returns (status: Status)
      requires Valid()
      modifies frontendChannel, Bases(), Pointers()
      ensures frontendChannel.sent == old(frontendChannel.sent) + Replies(parsed, Configuration(), c)
      ensures status == RequestStatus(Read(parsed, Configuration()), c)
      ensures !c.destroys && DestroyDispatcher !in c.steps ==> Valid()
    {
      hide HandlerReplies, HandlerStatus, NotFoundMessage, Route, Field;
      if parsed.None? {
        frontendChannel.Send(Failed(None, ParseError, Ascii(NOT_JSON), []));
        return StatusError;
      }
      if !parsed.value.Object? {
        frontendChannel.Send(Failed(None, InvalidRequest, Ascii(NOT_AN_OBJECT), []));
        return StatusError;
      }
      var message := parsed.value.entries;
      var callId := IntOf(Field(message, "id"));
      if callId.None? {
        frontendChannel.Send(Failed(None, InvalidRequest, Ascii(NO_ID), []));
        return StatusError;
      }
      var name := StringOf(Field(message, "method"));
      if name.None? {
        frontendChannel.Send(Failed(callId, InvalidRequest, Ascii(NO_METHOD), []));
        return StatusError;
      }
      var target := name.value;
      if target in redirects {
        target := redirects[target];
      }
      status := Forward(callId.value, target, message, c);
    }

    /** `HandleMessageReceived`: a text that is not JSON still gets its one reply. */
    method HandleMessageReceived(text: Text, host: Host, c: Conduct) returns (status: Status)
      requires Valid()
      modifies frontendChannel, Bases(), Pointers()
      ensures frontendChannel.sent == old(frontendChannel.sent) + Replies(Parse(text, host), Configuration(), c)
      ensures !c.destroys && DestroyDispatcher !in c.steps ==> Valid()
    {
      var parsed := ParseJSON(text, host);
      status := Dispatch(parsed, c);
    }
  }

  // ---------------------------------------------------------------- one reply for each message

  /** The integer id of a message, if it has one. */
  function RequestId(parsed: Option<Value>): Option<int32> {
    match parsed
    case Some(Object(message)) => IntOf(Field(message, "id"))
    case _ => None
  }

  function ReplyId(o: Outgoing): Option<int32> {
    match o
    case Internal(callId, notification, _) => if notification == [] then Some(callId) else None
    case Failed(id, _, _, _) => id
  }

  /** The backend answers: at once, or through its callback before anything else happens to it. */
  predicate Answers(h: Handler, c: Conduct) {
    if h.asynchronous then c.steps != [] && (c.steps[0].SendSuccess? || c.steps[0].SendFailure?)
    else !c.destroys && !c.response.FallThrough?
  }

  /** There is never more than one reply, and there is one unless the configuration passes
      unknown methods on or a backend that is called does not answer. The reply carries the
      integer id of the message exactly when the message has one. */
  lemma {:induction false} ExactlyOneReply(parsed: Option<Value>, config: Config, c: Conduct)
    ensures |Replies(parsed, config, c)| <= 1
    ensures var r := Read(parsed, config);
            |Replies(parsed, config, c)| == 1 <==>
            !r.Skipped? && (r.Call? && Conforms(r.handler.params, ParamsObject(r.message)) ==> Answers(r.handler, c))
    ensures forall i :: 0 <= i < |Replies(parsed, config, c)| ==>
                          ReplyId(Replies(parsed, config, c)[i]) == RequestId(parsed)
  {
    var r := Read(parsed, config);
    if r.Call? {
      ConformsIffNoComplaint(r.handler.params, ParamsObject(r.message));
    }
  }

  /** The method a message asks for, after redirection, if it has an integer id and a string method. */
  function Requested(parsed: Option<Value>, config: Config): Option<Text> {
    match parsed
    case Some(Object(message)) =>
      var name := StringOf(Field(message, "method"));
      if IntOf(Field(message, "id")).None? || name.None? then None
      else if name.value in config.redirects then Some(config.redirects[name.value])
      else name
    case _ => None
  }

  /** `name` is of the form `domain.…` with `domain` registered. */
  predicate InDomain(name: Text, domain: Text, config: Config) {
    domain in config.domains && DOT !in domain && domain + [DOT] <= name
  }

  /** The method is in no registered domain, or its domain does not have it, and what is
      responsible for it does not pass unknown methods on. */
  ghost predicate IsUnknown(name: Text, config: Config) {
    if exists d :: InDomain(name, d, config) then
      exists d :: InDomain(name, d, config) && name !in config.domains[d].methods && !config.domains[d].fallThrough
    else !config.fallThrough
  }

  ghost predicate HasMisfit(name: Text, config: Config, message: seq<Entry>) {
    exists d :: InDomain(name, d, config) && name in config.domains[d].methods
                && !Conforms(config.domains[d].methods[name].params, ParamsObject(message))
  }

  lemma {:induction false} FirstDot(domain: Text, name: Text)
    requires DOT !in domain && domain + [DOT] <= name
    ensures FindDot(name) == Some(|domain|)
  {
    assert name[|domain|] == (domain + [DOT])[|domain|];
    if domain != [] {
      assert name[0] == (domain + [DOT])[0] == domain[0];
      assert (domain + [DOT])[1..] == domain[1..] + [DOT];
      assert name[..|domain| + 1][1..] == name[1..][..|domain|];
      FirstDot(domain[1..], name[1..]);
    }
  }

  /** The domain of a name is what stands before its first dot. */
  lemma {:induction false} DomainIsPrefix(name: Text, domain: Text, config: Config)
    ensures InDomain(name, domain, config) <==>
            FindDot(name).Some? && domain == name[..FindDot(name).value] && domain in config.domains
  {
    if FindDot(name).Some? {
      assert name[..FindDot(name).value] + [DOT] == name[..FindDot(name).value + 1];
    }
    if InDomain(name, domain, config) {
      FirstDot(domain, name);
      assert name[..|domain|] == (domain + [DOT])[..|domain|] == domain;
    }
  }

  lemma {:induction false} RouteCalls(callId: int32, name: Text, message: seq<Entry>, config: Config)
    ensures var r := Route(callId, name, message, config);
            (r.Call? && r.message == message) || r.NotFound? || r.Skipped?
  {
  }

  /** How a name is routed, said of the name and the configuration alone. */
  lemma {:induction false} RouteMeans(callId: int32, name: Text, message: seq<Entry>, config: Config)
    ensures var r := Route(callId, name, message, config);
            && (r.NotFound? <==> IsUnknown(name, config))
            && (r.Call? && !Conforms(r.handler.params, ParamsObject(message)) <==> HasMisfit(name, config, message))
  {
    forall d ensures InDomain(name, d, config) <==>
                     FindDot(name).Some? && d == name[..FindDot(name).value] && d in config.domains
    {
      DomainIsPrefix(name, d, config);
    }
    hide InDomain, Conforms;
  }

  /** The errors that backends report of their own. */
  predicate OwnError(code: ErrorCode) {
    code == ServerError || code == InternalError
  }

  ghost predicate OwnErrorsOnly(c: Conduct) {
    && (c.response.Error? ==> OwnError(c.response.code))
    && (forall i :: 0 <= i < |c.steps| && c.steps[i].SendFailure? ==> OwnError(c.steps[i].code))
  }

  lemma {:induction false} CodeOfRequest(r: Request, c: Conduct, o: Outgoing)
    requires RequestReplies(r, c) == [o] && OwnErrorsOnly(c)
    ensures o.Failed? && o.code == ParseError <==> r.Unparsable?
    ensures o.Failed? && o.code == InvalidRequest <==> r.NotAnObject? || r.WithoutId? || r.WithoutMethod?
    ensures o.Failed? && o.code == MethodNotFound <==> r.NotFound?
    ensures o.Failed? && o.code == InvalidParams <==> r.Call? && !Conforms(r.handler.params, ParamsObject(r.message))
  {
    hide Complaints, Conforms, Ascii, Join;
    if r.Call? {
      ConformsIffNoComplaint(r.handler.params, ParamsObject(r.message));
    }
  }

  /** The codes of section 5.1 of JSON-RPC 2.0, for backends that report errors of their own
      with other codes. Which message gets which is said of the message and the configuration. */
  lemma {:induction false} ErrorCodes(parsed: Option<Value>, config: Config, c: Conduct, o: Outgoing)
    requires Replies(parsed, config, c) == [o] && OwnErrorsOnly(c)
    ensures o.Failed? && o.code == ParseError <==> parsed.None?
    ensures o.Failed? && o.code == InvalidRequest <==>
            parsed.Some? && (!parsed.value.Object? || RequestId(parsed).None?
                             || StringOf(Field(parsed.value.entries, "method")).None?)
    ensures o.Failed? && o.code == MethodNotFound <==>
            Requested(parsed, config).Some? && IsUnknown(Requested(parsed, config).value, config)
    ensures o.Failed? && o.code == InvalidParams <==>
            Requested(parsed, config).Some? && HasMisfit(Requested(parsed, config).value, config, parsed.value.entries)
  {
    CodeOfRequest(Read(parsed, config), c, o);
    hide RequestReplies, IsUnknown, HasMisfit, Conforms, Field, Route, OwnErrorsOnly;
    if Requested(parsed, config).Some? {
      RouteMeans(RequestId(parsed).value, Requested(parsed, config).value, parsed.value.entries, config);
      RouteCalls(RequestId(parsed).value, Requested(parsed, config).value, parsed.value.entries, config);
    }
  }
}
