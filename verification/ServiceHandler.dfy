/** The WebSocket front of the queue: one `ServiceHandler` is the only client of a protocol
    handler and drives it from the events of one connection at a time. */
module ServiceHandler {
  import opened CommandQueue
  import P = ProtocolHandler
  import opened String16

  /** What `m_hdl` refers to: nothing any more, a connection that is up, or one whose close
      event has been delivered but whose object still exists. */
  datatype Link = Expired | Up | Closed

  /** `errors` counts the calls to the protocol handler that `OnMessage`, `OnClose` and the
      destructor assert to succeed and that did not. */
  datatype Service = Service(connected: bool, link: Link, destroyed: bool, machine: State, errors: nat)

  const SERVICE_START := Service(false, Expired, false, INITIAL, 0)

  /** `Expire` is the connection object going away; nothing here forces a close event first. */
  datatype ServiceEvent =
    | Open(breakOnNextLine: bool)
    | Receive(text: Text)
    | Close
    | Expire
    | Destroy
    | Script(event: Event)

  datatype ServiceOutcome = Goes(service: Service) | Breaks | Cannot

  /** The answer of `Connect` to a new connection. */
  function Accepts(v: Service, breakOnNextLine: bool): bool {
    v.link == Expired && ConnectStep(v.machine, breakOnNextLine).Next?
  }

  function AfterOpen(v: Service, breakOnNextLine: bool): Service {
    if Accepts(v, breakOnNextLine) then
      v.(connected := true, link := Up, machine := ConnectStep(v.machine, breakOnNextLine).state)
    else v
  }

  /** Both `OnClose` and the destructor disconnect only if `m_connected`. */
  function Disconnected(v: Service): Service {
    if !v.connected then v
    else if DisconnectStep(v.machine).Next? then v.(connected := false, machine := DisconnectStep(v.machine).state)
    else v.(connected := false, errors := v.errors + 1)
  }

  function ServiceStep(v: Service, e: ServiceEvent, reentry: bool): ServiceOutcome {
    match e
    case Open(b) => if v.destroyed then Cannot else Goes(AfterOpen(v, b))
    case Receive(text) =>
      if v.destroyed || v.link != Up then Cannot else Goes(v.(machine := SendStep(v.machine, text)))
    case Close => if v.destroyed || v.link != Up then Cannot else Goes(Disconnected(v).(link := Closed))
    case Expire => Goes(v.(link := Expired))
    case Destroy => if v.destroyed then Cannot else Goes(Disconnected(v).(destroyed := true))
    case Script(event) =>
      if event.ClientConnect? || event.ClientDisconnect? || event.ClientSend? then Cannot
      else
        match Step(v.machine, event, reentry)
        case Next(m) => Goes(v.(machine := m))
        case Fatal => Breaks
        case _ => Cannot
  }

  function ServiceRun(events: seq<ServiceEvent>, reentry: bool): ServiceOutcome {
    if events == [] then Goes(SERVICE_START)
    else
      match ServiceRun(events[..|events| - 1], reentry)
      case Goes(v) => ServiceStep(v, events[|events| - 1], reentry)
      case o => o
  }

  // ---------------------------------------------------------------- the m_connected discipline

  /** `m_connected` is exactly "a callback is installed", it holds while a connection is up,
      and no asserted call has failed. */
  predicate Agreement(v: Service) {
    && v.connected == v.machine.core.installed
    && (v.link == Up && !v.destroyed ==> v.connected)
    && (v.link == Closed && !v.destroyed ==> !v.connected)
    && (v.destroyed ==> !v.connected)
    && v.errors == 0
  }

  lemma {:induction false} ScriptKeepsCallback(s: State, e: Event, reentry: bool)
    requires !e.ClientConnect? && !e.ClientDisconnect? && !e.ClientSend? && Step(s, e, reentry).Next?
    ensures Step(s, e, reentry).state.core.installed == s.core.installed
  {
  }

  lemma {:induction false} AgreementStep(v: Service, e: ServiceEvent, reentry: bool)
    requires Agreement(v) && ServiceStep(v, e, reentry).Goes?
    ensures Agreement(ServiceStep(v, e, reentry).service)
  {
    if e.Script? {
      ScriptKeepsCallback(v.machine, e.event, reentry);
    }
  }

  /** Over every run, with handlers free to re-enter: `m_connected` means that the callback is
      installed, no close-time or destructor-time disconnect ever fails, and a connection is
      accepted exactly when none is held and no earlier one vanished without a close event. */
  lemma {:induction false} ServiceAgrees(events: seq<ServiceEvent>, reentry: bool, breakOnNextLine: bool)
    requires ServiceRun(events, reentry).Goes?
    ensures var v := ServiceRun(events, reentry).service;
            && Agreement(v)
            && (Accepts(v, breakOnNextLine) <==> v.link == Expired && !v.connected)
  {
    if events != [] {
      var before := events[..|events| - 1];
      ServiceAgrees(before, reentry, breakOnNextLine);
      hide Agreement, ServiceStep;
      AgreementStep(ServiceRun(before, reentry).service, events[|events| - 1], reentry);
    }
  }

  /** Connections that come one after another, each closed before its object goes away. */
  ghost predicate ClosesFirst(events: seq<ServiceEvent>, reentry: bool) {
    forall n :: 0 <= n < |events| && events[n] == Expire && ServiceRun(events[..n], reentry).Goes? ==>
                  ServiceRun(events[..n], reentry).service.link != Up
  }

  lemma {:induction false} ClosedBeforeExpiry(events: seq<ServiceEvent>, reentry: bool)
    requires ServiceRun(events, reentry).Goes? && ClosesFirst(events, reentry)
    ensures var v := ServiceRun(events, reentry).service; v.destroyed || (v.connected <==> v.link == Up)
  {
    if events != [] {
      var n := |events| - 1;
      var before := events[..n];
      forall i | 0 <= i < n && before[i] == Expire && ServiceRun(before[..i], reentry).Goes?
        ensures ServiceRun(before[..i], reentry).service.link != Up
      {
        assert before[..i] == events[..i];
      }
      ClosedBeforeExpiry(before, reentry);
      ServiceAgrees(before, reentry, false);
      ServiceAgrees(events, reentry, false);
      assert events[n] == Expire ==> ServiceRun(events[..n], reentry).service.link != Up;
    }
  }

  /** When every connection is closed before its object goes away, a live service accepts a new
      connection exactly when it holds none. */
  lemma {:induction false} AcceptsWhenFree(events: seq<ServiceEvent>, reentry: bool, breakOnNextLine: bool)
    requires ServiceRun(events, reentry).Goes? && ClosesFirst(events, reentry) &&
             !ServiceRun(events, reentry).service.destroyed
    ensures var v := ServiceRun(events, reentry).service; Accepts(v, breakOnNextLine) <==> v.link == Expired
  {
    ServiceAgrees(events, reentry, breakOnNextLine);
    ClosedBeforeExpiry(events, reentry);
  }

  /** The connection object is gone and its close event never came. */
  predicate Vanished(v: Service) {
    v.link == Expired && v.connected && !v.destroyed
  }

  /** From then on, whatever happens, the service stays in that state and refuses every connection
      until it is destroyed. */
  lemma {:induction false} BlockedForGood(events: seq<ServiceEvent>, more: seq<ServiceEvent>, reentry: bool,
                                          breakOnNextLine: bool)
    requires ServiceRun(events, reentry).Goes? && Vanished(ServiceRun(events, reentry).service)
    requires ServiceRun(events + more, reentry).Goes?
    ensures var v := ServiceRun(events + more, reentry).service;
            v.destroyed || (Vanished(v) && !Accepts(v, breakOnNextLine))
  {
    ServiceAgrees(events + more, reentry, breakOnNextLine);
    if more == [] {
      assert events + more == events;
    } else {
      var less, e := more[..|more| - 1], more[|more| - 1];
      assert (events + more)[..|events + more| - 1] == events + less;
      BlockedForGood(events, less, reentry, breakOnNextLine);
      ServiceAgrees(events + less, reentry, breakOnNextLine);
      var v := ServiceRun(events + less, reentry).service;
      if e.Open? {
        ServiceAgrees(events + less, reentry, e.breakOnNextLine);
      }
    }
  }

  /** Opening a connection whose object then goes away unclosed is enough to get there. */
  lemma {:induction false} VanishedConnectionBlocks()
    ensures ServiceRun([Open(false), Expire], false).Goes?
    ensures var v := ServiceRun([Open(false), Expire], false).service; Vanished(v) && !Accepts(v, false)
  {
  }

  // ---------------------------------------------------------------- what is passed on

  /** What the service makes of its events, the queue apart. */
  datatype Front = Front(held: bool, breaks: bool, link: Link, gone: bool)

  function FrontStep(f: Front, e: ServiceEvent): Front {
    match e
    case Open(b) => if f.link == Expired && !f.held then f.(held := true, breaks := b, link := Up) else f
    case Close => f.(held := false, breaks := false, link := Closed)
    case Expire => f.(link := Expired)
    case Destroy => f.(held := false, breaks := false, gone := true)
    case _ => f
  }

  function FrontAfter(events: seq<ServiceEvent>): Front {
    if events == [] then Front(false, false, Expired, false)
    else FrontStep(FrontAfter(events[..|events| - 1]), events[|events| - 1])
  }

  /** What an event makes the service ask of the script thread. */
  function PassedOn(f: Front, e: ServiceEvent): seq<Command> {
    match e
    case Open(_) => if f.link == Expired && !f.held then [Command.Connect] else []
    case Receive(text) => [Message(text)]
    case Close => if f.held then [Command.Disconnect] else []
    case Destroy => if f.held then [Command.Disconnect] else []
    case _ => []
  }

  function AllPassedOn(events: seq<ServiceEvent>): seq<Command> {
    if events == [] then []
    else
      var n := |events| - 1;
      AllPassedOn(events[..n]) + PassedOn(FrontAfter(events[..n]), events[n])
  }

  function FrontOf(v: Service): Front {
    Front(v.connected, v.machine.core.breakOnNextLine, v.link, v.destroyed)
  }

  lemma {:induction false} PassedOnStep(v: Service, e: ServiceEvent, reentry: bool)
    requires Agreement(v) && ServiceStep(v, e, reentry).Goes?
    requires !v.connected ==> !v.machine.core.breakOnNextLine
    ensures var f, w := FrontOf(v), ServiceStep(v, e, reentry).service;
            && FrontOf(w) == FrontStep(f, e) && (!w.connected ==> !w.machine.core.breakOnNextLine)
            && w.machine.enqueued == v.machine.enqueued + PassedOn(f, e)
  {
    if e.Script? {
      WishStep(v.machine, e.event, reentry);
    }
  }

  /** Over every run, with re-entry or without: the script thread is asked for exactly one connect for
      each connection accepted, each message received, unchanged and in its place, and one disconnect
      for each connection given up. */
  lemma {:induction false} ReceivedIsPassedOn(events: seq<ServiceEvent>, reentry: bool)
    requires ServiceRun(events, reentry).Goes?
    ensures var v := ServiceRun(events, reentry).service;
            && v.machine.enqueued == AllPassedOn(events) && FrontOf(v) == FrontAfter(events)
            && (!v.connected ==> !v.machine.core.breakOnNextLine)
  {
    if events != [] {
      var n := |events| - 1;
      ReceivedIsPassedOn(events[..n], reentry);
      ServiceAgrees(events[..n], reentry, false);
      hide Agreement, ServiceStep;
      PassedOnStep(ServiceRun(events[..n], reentry).service, events[n], reentry);
    }
  }

  // ---------------------------------------------------------------- without re-entry

  lemma {:induction false} ServiceOrderedStep(v: Service, e: ServiceEvent)
    requires Agreement(v) && Ordered(v.machine, true) && Shape(v.machine)
    ensures ServiceStep(v, e, false) != Breaks
    ensures ServiceStep(v, e, false).Goes? ==>
              var m := ServiceStep(v, e, false).service.machine; Ordered(m, true) && Shape(m)
  {
    hide Ordered, Shape;
    match e {
      case Open(b) =>
        OrderedStep(v.machine, ClientConnect(b), true);
        if ConnectStep(v.machine, b).Next? {
          OrderedNext(v.machine, ClientConnect(b), true, ConnectStep(v.machine, b).state);
          ShapeStep(v.machine, ClientConnect(b), false);
        }
      case Receive(text) =>
        if v.link == Up && !v.destroyed {
          OrderedNext(v.machine, ClientSend(text), true, SendStep(v.machine, text));
          ShapeStep(v.machine, ClientSend(text), false);
        }
      case Close =>
        if DisconnectStep(v.machine).Next? {
          OrderedNext(v.machine, ClientDisconnect, true, DisconnectStep(v.machine).state);
          ShapeStep(v.machine, ClientDisconnect, false);
        }
      case Destroy =>
        if DisconnectStep(v.machine).Next? {
          OrderedNext(v.machine, ClientDisconnect, true, DisconnectStep(v.machine).state);
          ShapeStep(v.machine, ClientDisconnect, false);
        }
      case Expire =>
      case Script(event) =>
        if !event.ClientConnect? && !event.ClientDisconnect? && !event.ClientSend? {
          OrderedStep(v.machine, event, true);
          if Step(v.machine, event, false).Next? {
            OrderedNext(v.machine, event, true, Step(v.machine, event, false).state);
            ShapeStep(v.machine, event, false);
          }
        }
    }
  }

  /** Over every run without re-entry, no handler throws, and connects, messages and disconnects
      reach the script thread in an order in which each finds the connection in the right state. */
  lemma {:induction false} ServiceOrdered(events: seq<ServiceEvent>)
    ensures ServiceRun(events, false) != Breaks
    ensures ServiceRun(events, false).Goes? ==>
              var m := ServiceRun(events, false).service.machine; Ordered(m, true) && Shape(m)
  {
    if events == [] {
      OrderedAtStart(true);
    } else {
      var before := events[..|events| - 1];
      ServiceOrdered(before);
      if ServiceRun(before, false).Goes? {
        ServiceAgrees(before, false, false);
        hide Ordered, Shape, Agreement, ServiceStep;
        ServiceOrderedStep(ServiceRun(before, false).service, events[|events| - 1]);
      }
    }
  }

  /** So every message is handled while the agents of a connection exist. */
  lemma {:induction false} MessagesMeetAgents(events: seq<ServiceEvent>)
    requires ServiceRun(events, false).Goes?
    requires var m := ServiceRun(events, false).service.machine;
             Step(m, NextCommand, false) != NotNow && Top(m).batch[Top(m).next].Message?
    ensures ServiceRun(events, false).service.machine.core.connected
  {
    ServiceOrdered(events);
    HandleOrdered(ServiceRun(events, false).service.machine, true);
  }

  /** Once the script thread has caught up, both threads agree on whether anyone is connected. */
  lemma {:induction false} CaughtUp(events: seq<ServiceEvent>)
    requires ServiceRun(events, false).Goes? && Pending(ServiceRun(events, false).service.machine) == []
    ensures var v := ServiceRun(events, false).service; v.machine.core.connected == v.connected
  {
    ServiceOrdered(events);
    ServiceAgrees(events, false, false);
  }

  // ---------------------------------------------------------------- the object

  /** `ServiceHandler` and its protocol handler, which the script thread shares. */
  class ServiceHandler {
    var connected: bool
    var link: Link
    const protocolHandler: P.ProtocolHandler
    ghost var destroyed: bool
    ghost var errors: nat

    ghost function Model(): Service
      reads this, protocolHandler
    {
      Service(connected, link, destroyed, protocolHandler.machine, errors)
    }

    constructor (handler: P.ProtocolHandler)
      ensures protocolHandler == handler && !connected && link == Expired && !destroyed && errors == 0
    {
      protocolHandler := handler;
      connected, link, destroyed, errors := false, Expired, false, 0;
    }

    method Connect(breakOnNextLine: bool) returns (accepted: bool)
      requires protocolHandler.Valid() && !destroyed
      modifies this, protocolHandler
      ensures protocolHandler.Valid() && Goes(Model()) == ServiceStep(old(Model()), Open(breakOnNextLine), false)
      ensures accepted == Accepts(old(Model()), breakOnNextLine)
    {
      if link == Expired {
        var r := protocolHandler.Connect(true, breakOnNextLine);
        if r != P.Done {
          return false;
        }
        connected := true;
        link := Up;
        return true;
      }
      return false;
    }

    method OnMessage(text: Text)
      requires protocolHandler.Valid() && !destroyed && link == Up
      modifies protocolHandler
      ensures protocolHandler.Valid() && Goes(Model()) == ServiceStep(old(Model()), Receive(text), false)
    {
      protocolHandler.SendCommand(text);
    }

    method OnClose()
      requires protocolHandler.Valid() && !destroyed && link == Up
      modifies this, protocolHandler
      ensures protocolHandler.Valid() && Goes(Model()) == ServiceStep(old(Model()), Close, false)
    {
      if connected {
        var r := protocolHandler.Disconnect();
        if r != P.Done {
          errors := errors + 1;
        }
        connected := false;
      }
      link := Closed;
    }

    /** The destructor. */
    method Destruct()
      requires protocolHandler.Valid() && !destroyed
      modifies this, protocolHandler
      ensures protocolHandler.Valid() && Goes(Model()) == ServiceStep(old(Model()), Destroy, false)
    {
      if connected {
        var r := protocolHandler.Disconnect();
        if r != P.Done {
          errors := errors + 1;
        }
        connected := false;
      }
      destroyed := true;
    }
  }
}
