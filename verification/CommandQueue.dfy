/** The command queue shared by the service thread and the script thread, as a machine whose
    steps interleave freely. What each thread does under the lock, and each command it
    handles, is one step. */
module CommandQueue {
  import opened String16

  datatype Command = Connect | Disconnect | Message(text: Text)

  /** The fields of `ProtocolHandler` that the protocol is about. `installed` stands for a
      non-null response callback. */
  datatype Core = Core(installed: bool, breakOnNextLine: bool, queue: seq<Command>, connected: bool, waiting: bool)

  /** Where one activation of `ProcessCommandQueue` stands: about to take the lock, waiting on
      the condition variable, between commands of its batch, or inside a message handler. */
  datatype Phase = AtLock | Asleep(notified: bool) | Handling | InHandler

  /** One activation. `forDebugger` marks those made by `WaitForDebugger`, and `clearsAtEntry`
      how often the waiting flag had been cleared when it started. */
  datatype Frame = Frame(forDebugger: bool, phase: Phase, batch: seq<Command>, next: nat, clearsAtEntry: nat)

  /** `frames` is the script thread's stack of activations, innermost last; `enqueued`,
      `handled` and `clears` are history. */
  datatype State = State(core: Core, frames: seq<Frame>, enqueued: seq<Command>, handled: seq<Command>, clears: nat)

  const INITIAL := State(Core(false, false, [], false, false), [], [], [], 0)

  datatype Event =
    | ClientConnect(breakOnNextLine: bool)
    | ClientDisconnect
    | ClientSend(text: Text)
    | Enter(forDebugger: bool)
    | TakeLock
    | Wake(spurious: bool)
    | NextCommand
    | ClearWaiting
    | FinishMessage
    | LoopTest

  /** `Throws` is an exception to a caller that leaves the state alone; `Fatal` one out of
      `HandleConnect` or `HandleDisconnect`; `NotNow` an event that cannot happen in this state. */
  datatype Outcome = Next(state: State) | Throws | Fatal | NotNow

  // ---------------------------------------------------------------- steps of the fields

  function ConnectCore(c: Core, breakOnNextLine: bool): Core {
    c.(installed := true, breakOnNextLine := breakOnNextLine, queue := c.queue + [Connect])
  }

  function DisconnectCore(c: Core): Core {
    c.(installed := false, breakOnNextLine := false, queue := c.queue + [Disconnect])
  }

  function SendCore(c: Core, text: Text): Core {
    c.(queue := c.queue + [Message(text)])
  }

  // ---------------------------------------------------------------- steps of the machine

  function Top(s: State): Frame
    requires s.frames != []
  {
    s.frames[|s.frames| - 1]
  }

  function WithTop(s: State, f: Frame): State
    requires s.frames != []
  {
    s.(frames := s.frames[|s.frames| - 1 := f])
  }

  /** `m_commandWaiting.notify_all()`. */
  function Notified(f: Frame): Frame {
    if f.phase.Asleep? then f.(phase := Asleep(true)) else f
  }

  function Enqueued(s: State, core: Core, command: Command): State {
    var t := s.(core := core, enqueued := s.enqueued + [command]);
    if s.frames == [] then t else WithTop(t, Notified(Top(s)))
  }

  function ConnectStep(s: State, breakOnNextLine: bool): Outcome {
    if s.core.installed then Throws else Next(Enqueued(s, ConnectCore(s.core, breakOnNextLine), Connect))
  }

  function DisconnectStep(s: State): Outcome {
    if !s.core.installed then Throws else Next(Enqueued(s, DisconnectCore(s.core), Disconnect))
  }

  function SendStep(s: State, text: Text): State {
    Enqueued(s, SendCore(s.core, text), Message(text))
  }

  /** `std::swap(m_commandQueue, current)`. */
  function Swapped(s: State): State
    requires s.frames != []
  {
    WithTop(s.(core := s.core.(queue := [])), Top(s).(phase := Handling, batch := s.core.queue, next := 0))
  }

  function Cleared(s: State): State {
    s.(core := s.core.(waiting := false), clears := s.clears + 1)
  }

  function HandleNext(s: State): Outcome
    requires s.frames != [] && Top(s).next < |Top(s).batch|
  {
    var f := Top(s);
    var t := WithTop(s.(handled := s.handled + [f.batch[f.next]]), f.(next := f.next + 1));
    match f.batch[f.next]
    case Connect => if s.core.connected then Fatal else Next(t.(core := t.core.(connected := true)))
    case Disconnect => if !s.core.connected then Fatal else Next(Cleared(t.(core := t.core.(connected := false))))
    case Message(_) => Next(WithTop(t, Top(t).(phase := InHandler)))
  }

  /** One step. A handler may start another activation only if `reentry` is allowed. */
  function Step(s: State, e: Event, reentry: bool): Outcome {
    match e
    case ClientConnect(b) => ConnectStep(s, b)
    case ClientDisconnect => DisconnectStep(s)
    case ClientSend(text) => Next(SendStep(s, text))
    case Enter(forDebugger) =>
      if s.frames != [] && (!reentry || Top(s).phase != InHandler) then NotNow
      else
        var core := if forDebugger then s.core.(waiting := true) else s.core;
        Next(s.(core := core, frames := s.frames + [Frame(forDebugger, AtLock, [], 0, s.clears)]))
    case TakeLock =>
      if s.frames == [] || Top(s).phase != AtLock then NotNow
      else if s.core.waiting && s.core.queue == [] then Next(WithTop(s, Top(s).(phase := Asleep(false))))
      else Next(Swapped(s))
    case Wake(spurious) =>
      if s.frames == [] || !Top(s).phase.Asleep? || !(spurious || Top(s).phase.notified) then NotNow
      else Next(Swapped(s))
    case NextCommand =>
      if s.frames == [] || Top(s).phase != Handling || Top(s).next >= |Top(s).batch| then NotNow else HandleNext(s)
    case ClearWaiting =>
      if s.frames == [] || Top(s).phase != InHandler then NotNow else Next(Cleared(s))
    case FinishMessage =>
      if s.frames == [] || Top(s).phase != InHandler then NotNow else Next(WithTop(s, Top(s).(phase := Handling)))
    case LoopTest =>
      if s.frames == [] || Top(s).phase != Handling || Top(s).next < |Top(s).batch| then NotNow
      else if s.core.waiting || Top(s).batch != [] then
        Next(WithTop(s, Top(s).(phase := AtLock, batch := [], next := 0)))
      else Next(s.(frames := s.frames[..|s.frames| - 1]))
  }

  /** A whole run: a call that throws to its caller changes nothing and the run goes on. */
  function Run(s: State, events: seq<Event>, reentry: bool): Outcome {
    if events == [] then Next(s)
    else
      match Run(s, events[..|events| - 1], reentry)
      case Next(t) =>
        (match Step(t, events[|events| - 1], reentry)
         case Throws => Next(t)
         case o => o)
      case o => o
  }

  // ---------------------------------------------------------------- what is still to be handled

  function Rest(f: Frame): seq<Command> {
    if f.next <= |f.batch| then f.batch[f.next..] else []
  }

  /** The commands of all batches in flight, outermost activation first. */
  function InFlight(frames: seq<Frame>): seq<Command> {
    if frames == [] then [] else InFlight(frames[..|frames| - 1]) + Rest(frames[|frames| - 1])
  }

  // ---------------------------------------------------------------- invariants of every run

  predicate IsAsleep(s: State) {
    s.frames != [] && Top(s).phase.Asleep?
  }

  predicate FrameShape(f: Frame) {
    && f.next <= |f.batch|
    && (f.phase == AtLock || f.phase.Asleep? ==> f.batch == [])
  }

  /** Every activation but the innermost is inside a message handler. */
  ghost predicate Shape(s: State) {
    && (forall i :: 0 <= i < |s.frames| ==> FrameShape(s.frames[i]))
    && (forall i :: 0 <= i < |s.frames| - 1 ==> s.frames[i].phase == InHandler)
  }

  /** Commands are neither lost nor duplicated. */
  ghost predicate Conserved(s: State) {
    multiset(s.enqueued) == multiset(s.handled) + multiset(InFlight(s.frames)) + multiset(s.core.queue)
  }

  /** A thread that sleeps and has not been notified has nothing to do. */
  predicate NoLostWakeup(s: State) {
    IsAsleep(s) ==> s.core.waiting && (!Top(s).phase.notified ==> s.core.queue == [])
  }

  /** While `WaitForDebugger` is active, the flag is set or was cleared after it started. */
  ghost predicate WaitsForClear(s: State) {
    forall i :: 0 <= i < |s.frames| ==>
                  && s.frames[i].clearsAtEntry <= s.clears
                  && (s.frames[i].forDebugger && !s.core.waiting ==> s.frames[i].clearsAtEntry < s.clears)
  }

  ghost predicate Invariant(s: State) {
    Shape(s) && Conserved(s) && NoLostWakeup(s) && WaitsForClear(s)
  }

  lemma {:induction false} InFlightTop(s: State, f: Frame)
    requires s.frames != []
    ensures InFlight(WithTop(s, f).frames) == InFlight(s.frames[..|s.frames| - 1]) + Rest(f)
    ensures InFlight(s.frames) == InFlight(s.frames[..|s.frames| - 1]) + Rest(Top(s))
  {
  }

  /** Handling takes one command from the innermost batch. */
  lemma {:induction false} HandleTakesOne(f: Frame, g: Frame)
    requires f.next < |f.batch| && g.batch == f.batch && g.next == f.next + 1
    ensures Rest(f) == [f.batch[f.next]] + Rest(g)
  {
  }

  lemma {:induction false} ShapeTop(s: State)
    requires Shape(s) && s.frames != []
    ensures FrameShape(Top(s))
    ensures Top(s).phase == AtLock || Top(s).phase.Asleep? ==> Rest(Top(s)) == []
  {
  }

  lemma {:induction false} ShapeStep(s: State, e: Event, reentry: bool)
    requires Shape(s) && Step(s, e, reentry).Next?
    ensures Shape(Step(s, e, reentry).state)
  {
  }

  /** An enqueue puts one more command into the history and one more into the queue. */
  lemma {:induction false} EnqueueConserves(s: State, core: Core, command: Command)
    requires Conserved(s) && core.queue == s.core.queue + [command]
    ensures Conserved(Enqueued(s, core, command))
  {
    hide InFlight;
    if s.frames != [] {
      InFlightTop(s, Notified(Top(s)));
    }
  }

  lemma {:induction false} SameBag(e: seq<Command>, outer: seq<Command>, h: seq<Command>, r: seq<Command>,
                                   q: seq<Command>, h': seq<Command>, r': seq<Command>, q': seq<Command>)
    requires multiset(e) == multiset(h) + multiset(outer + r) + multiset(q)
    requires h' + r' + q' == h + r + q
    ensures multiset(e) == multiset(h') + multiset(outer + r') + multiset(q')
  {
    assert multiset(h' + r' + q') == multiset(h + r + q);
    assert multiset(h) + multiset(outer + r) + multiset(q) == multiset(outer) + multiset(h + r + q);
    assert multiset(h') + multiset(outer + r') + multiset(q') == multiset(outer) + multiset(h' + r' + q');
  }

  /** Any other change of the innermost activation. */
  lemma {:induction false} TopConserves(s: State, t: State, f: Frame)
    requires Conserved(s) && s.frames != [] && t.frames == WithTop(s, f).frames
    requires t.enqueued == s.enqueued
    requires t.handled + Rest(f) + t.core.queue == s.handled + Rest(Top(s)) + s.core.queue
    ensures Conserved(t)
  {
    hide InFlight, Rest;
    InFlightTop(s, f);
    SameBag(s.enqueued, InFlight(s.frames[..|s.frames| - 1]), s.handled, Rest(Top(s)), s.core.queue,
            t.handled, Rest(f), t.core.queue);
  }

  /** Starting an activation, or leaving one whose batch is used up. */
  lemma {:induction false} EnterLeaveConserves(inner: State, outer: State, f: Frame)
    requires inner.frames == outer.frames + [f] && Rest(f) == []
    requires inner.enqueued == outer.enqueued && inner.handled == outer.handled && inner.core.queue == outer.core.queue
    ensures Conserved(inner) <==> Conserved(outer)
  {
  }

  lemma {:induction false} HandleConserves(s: State)
    requires Conserved(s) && s.frames != [] && Top(s).next < |Top(s).batch| && HandleNext(s).Next?
    ensures Conserved(HandleNext(s).state)
  {
    hide InFlight, Conserved, Rest;
    var t := HandleNext(s).state;
    HandleTakesOne(Top(s), Top(t));
    Regroup(s.handled, Top(s).batch[Top(s).next], Rest(Top(t)));
    TopConserves(s, t, Top(t));
  }

  lemma {:induction false} Regroup(a: seq<Command>, c: Command, b: seq<Command>)
    ensures a + [c] + b == a + ([c] + b)
  {
  }

  lemma {:induction false} SwapConserves(s: State)
    requires Conserved(s) && s.frames != [] && Rest(Top(s)) == []
    ensures Conserved(Swapped(s))
  {
  }

  lemma {:induction false} LoopTestConserves(s: State, reentry: bool)
    requires Conserved(s) && Step(s, LoopTest, reentry).Next?
    ensures Conserved(Step(s, LoopTest, reentry).state)
  {
    var t := Step(s, LoopTest, reentry).state;
    hide InFlight, Conserved;
    if s.core.waiting || Top(s).batch != [] {
      TopConserves(s, t, Top(s).(phase := AtLock, batch := [], next := 0));
    } else {
      assert s.frames == t.frames + [Top(s)];
      EnterLeaveConserves(s, t, Top(s));
    }
  }

  lemma {:induction false} ClearedConserves(s: State)
    requires Conserved(s)
    ensures Conserved(Cleared(s))
  {
  }

  lemma {:induction false} PhaseConserves(s: State, phase: Phase)
    requires Conserved(s) && s.frames != []
    ensures Conserved(WithTop(s, Top(s).(phase := phase)))
  {
  }

  lemma {:induction false} LockConserves(s: State, e: Event, reentry: bool)
    requires Shape(s) && Conserved(s) && Step(s, e, reentry).Next? && (e.TakeLock? || e.Wake?)
    ensures Conserved(Step(s, e, reentry).state)
  {
    ShapeTop(s);
    hide Shape, FrameShape, Rest, InFlight, Conserved, Enqueued, Swapped, HandleNext, Cleared, WithTop;
    if e == TakeLock && s.core.waiting && s.core.queue == [] {
      PhaseConserves(s, Asleep(false));
    } else {
      SwapConserves(s);
    }
  }

  lemma {:induction false} ConservedStep(s: State, e: Event, reentry: bool)
    requires Shape(s) && Conserved(s) && Step(s, e, reentry).Next?
    ensures Conserved(Step(s, e, reentry).state)
  {
    hide Shape, InFlight, Conserved, Enqueued, Swapped, HandleNext, Cleared, WithTop;
    match e {
      case ClientConnect(b) => EnqueueConserves(s, ConnectCore(s.core, b), Connect);
      case ClientDisconnect => EnqueueConserves(s, DisconnectCore(s.core), Disconnect);
      case ClientSend(text) => EnqueueConserves(s, SendCore(s.core, text), Message(text));
      case Enter(forDebugger) =>
        EnterLeaveConserves(Step(s, e, reentry).state, s, Frame(forDebugger, AtLock, [], 0, s.clears));
      case NextCommand => HandleConserves(s);
      case LoopTest => LoopTestConserves(s, reentry);
      case TakeLock => LockConserves(s, e, reentry);
      case Wake(_) => LockConserves(s, e, reentry);
      case ClearWaiting => ClearedConserves(s);
      case FinishMessage => PhaseConserves(s, Handling);
    }
  }

  lemma {:induction false} SleepStep(s: State, e: Event, reentry: bool)
    requires Shape(s) && NoLostWakeup(s) && Step(s, e, reentry).Next?
    ensures NoLostWakeup(Step(s, e, reentry).state)
  {
  }

  lemma {:induction false} ClearStep(s: State, e: Event, reentry: bool)
    requires Shape(s) && WaitsForClear(s) && Step(s, e, reentry).Next?
    ensures WaitsForClear(Step(s, e, reentry).state)
  {
  }

  /** In every state that any interleaving reaches, with handlers free to start further
      activations: no command is lost or duplicated, no wake-up is lost, and every
      activation for the debugger is still waiting or was released after it started. */
  lemma {:induction false} RunInvariant(events: seq<Event>, reentry: bool)
    requires Run(INITIAL, events, reentry).Next?
    ensures Invariant(Run(INITIAL, events, reentry).state)
  {
    if events != [] {
      var before := events[..|events| - 1];
      RunInvariant(before, reentry);
      var s := Run(INITIAL, before, reentry).state;
      var e := events[|events| - 1];
      if Step(s, e, reentry).Next? {
        ShapeStep(s, e, reentry);
        ConservedStep(s, e, reentry);
        SleepStep(s, e, reentry);
        ClearStep(s, e, reentry);
      }
    }
  }

  /** An activation ends only with the flag clear and nothing in its last batch, and one made
      by `WaitForDebugger` only after some command handled since it started cleared the flag. */
  lemma {:induction false} ReturnsOnlyWhenReleased(events: seq<Event>, e: Event, reentry: bool)
    requires Run(INITIAL, events, reentry).Next?
    requires var s := Run(INITIAL, events, reentry).state;
             Step(s, e, reentry).Next? && |Step(s, e, reentry).state.frames| < |s.frames|
    ensures var s := Run(INITIAL, events, reentry).state;
            && !s.core.waiting && Top(s).batch == [] && Step(s, e, reentry).state.core == s.core
            && (Top(s).forDebugger ==> s.clears > Top(s).clearsAtEntry)
  {
    RunInvariant(events, reentry);
  }

  // ---------------------------------------------------------------- without re-entry

  /** The commands not yet handled, in the order in which they will be. */
  function Pending(s: State): seq<Command> {
    InFlight(s.frames) + s.core.queue
  }

  /** Whether the connection is up after `commands`, if none of them is out of place.
      With `strict`, a message is in place only while connected. */
  function Track(connected: bool, commands: seq<Command>, strict: bool): Option<bool>
    decreases commands
  {
    if commands == [] then Some(connected)
    else
      match commands[0]
      case Connect => if connected then None else Track(true, commands[1..], strict)
      case Disconnect => if connected then Track(false, commands[1..], strict) else None
      case Message(_) => if strict && !connected then None else Track(connected, commands[1..], strict)
  }

  lemma {:induction false} TrackConcat(connected: bool, a: seq<Command>, b: seq<Command>, strict: bool)
    ensures Track(connected, a + b, strict) ==
            match Track(connected, a, strict) case None => None case Some(c) => Track(c, b, strict)
    decreases a
  {
    if a == [] {
      assert a + b == b;
    } else {
      assert (a + b)[1..] == a[1..] + b;
      match a[0] {
        case Connect => if !connected { TrackConcat(true, a[1..], b, strict); }
        case Disconnect => if connected { TrackConcat(false, a[1..], b, strict); }
        case Message(_) => TrackConcat(connected, a[1..], b, strict);
      }
    }
  }

  /** Commands are handled in the order in which they were enqueued, and connects and
      disconnects alternate from the state of the script thread to that of the callback. */
  ghost predicate Ordered(s: State, strict: bool) {
    && |s.frames| <= 1
    && s.enqueued == s.handled + InFlight(s.frames) + s.core.queue
    && Track(s.core.connected, Pending(s), strict) == Some(s.core.installed)
  }

  lemma {:induction false} PendingIsRest(s: State)
    ensures s.handled + Pending(s) == s.handled + InFlight(s.frames) + s.core.queue
  {
  }

  predicate InPlace(s: State, e: Event, strict: bool) {
    strict && e.ClientSend? ==> s.core.installed
  }

  lemma {:induction false} OneFrame(s: State)
    requires |s.frames| <= 1
    ensures InFlight(s.frames) == if s.frames == [] then [] else Rest(s.frames[0])
  {
  }

  /** A command at the end of what is pending. */
  lemma {:induction false} EnqueueOrdered(s: State, core: Core, command: Command, strict: bool)
    requires Ordered(s, strict) && Shape(s) && core.queue == s.core.queue + [command] &&
             core.connected == s.core.connected
    requires TrackOne(s.core.installed, command, strict) == Some(core.installed)
    ensures Ordered(Enqueued(s, core, command), strict)
  {
    var t := Enqueued(s, core, command);
    assert InFlight(t.frames) == InFlight(s.frames) by {
      if s.frames != [] { InFlightTop(s, Notified(Top(s))); }
    }
    hide Track, TrackOne, InFlight;
    assert Pending(t) == Pending(s) + [command];
    TrackConcat(s.core.connected, Pending(s), [command], strict);
    TrackSingle(s.core.installed, command, strict);
    PendingIsRest(s);
    PendingIsRest(t);
    assert s.enqueued + [command] == s.handled + (Pending(s) + [command]);
  }

  /** `Track` over one command. */
  function TrackOne(connected: bool, command: Command, strict: bool): Option<bool> {
    match command
    case Connect => if connected then None else Some(true)
    case Disconnect => if connected then Some(false) else None
    case Message(_) => if strict && !connected then None else Some(connected)
  }

  lemma {:induction false} TrackSingle(connected: bool, command: Command, strict: bool)
    ensures Track(connected, [command], strict) == TrackOne(connected, command, strict)
  {
  }

  lemma {:induction false} TrackCons(connected: bool, command: Command, rest: seq<Command>, strict: bool)
    requires Track(connected, [command] + rest, strict).Some?
    ensures TrackOne(connected, command, strict).Some?
    ensures Track(connected, [command] + rest, strict) ==
            Track(TrackOne(connected, command, strict).value, rest, strict)
  {
  }

  /** The innermost batch gives up its first command, which is the first one pending. */
  lemma {:induction false} HandlePending(s: State, t: State)
    requires |s.frames| == 1 && Top(s).next < |Top(s).batch| && t.core.queue == s.core.queue
    requires t.frames != [] && t.frames == WithTop(s, Top(t)).frames
    requires Top(t).batch == Top(s).batch && Top(t).next == Top(s).next + 1
    ensures Pending(s) == [Top(s).batch[Top(s).next]] + Pending(t)
  {
    hide InFlight, Rest;
    OneFrame(s);
    OneFrame(t);
    HandleTakesOne(Top(s), Top(t));
    Regroup([], Top(s).batch[Top(s).next], Rest(Top(t)));
    var c := Top(s).batch[Top(s).next];
    assert [c] + Rest(Top(t)) + t.core.queue == [c] + (Rest(Top(t)) + t.core.queue);
  }

  lemma {:induction false} HandleOrdered(s: State, strict: bool)
    requires Ordered(s, strict) && Shape(s) && s.frames != [] && Top(s).phase == Handling &&
             Top(s).next < |Top(s).batch|
    ensures HandleNext(s).Next? && Ordered(HandleNext(s).state, strict)
    ensures strict && Top(s).batch[Top(s).next].Message? ==> s.core.connected
  {
    hide Pending, InFlight, Track;
    var f := Top(s);
    var command := f.batch[f.next];
    var moved := WithTop(s, f.(next := f.next + 1));
    HandlePending(s, moved);
    TrackCons(s.core.connected, command, Pending(moved), strict);
    var t := HandleNext(s).state;
    PendingUnchanged(moved, t);
    PendingIsRest(s);
    PendingIsRest(t);
    Regroup(s.handled, command, Pending(t));
  }

  lemma {:induction false} PendingUnchanged(s: State, t: State)
    requires |s.frames| <= 1 && |t.frames| <= 1
    requires (if s.frames == [] then [] else Rest(s.frames[0])) + s.core.queue
          == (if t.frames == [] then [] else Rest(t.frames[0])) + t.core.queue
    ensures Pending(s) == Pending(t)
  {
    OneFrame(s);
    OneFrame(t);
  }

  /** Every step of the script thread but handling a command leaves what is pending alone. */
  lemma {:induction false} QuietOrdered(s: State, e: Event, strict: bool)
    requires Ordered(s, strict) && Shape(s) && Step(s, e, false).Next?
    requires !e.ClientConnect? && !e.ClientDisconnect? && !e.ClientSend? && e != NextCommand
    ensures Ordered(Step(s, e, false).state, strict)
  {
    hide Track, InFlight, HandleNext, Enqueued;
    var t := Step(s, e, false).state;
    PendingUnchanged(s, t);
    PendingIsRest(s);
    PendingIsRest(t);
  }

  lemma {:induction false} OrderedStep(s: State, e: Event, strict: bool)
    requires Ordered(s, strict) && Shape(s) && InPlace(s, e, strict)
    ensures Step(s, e, false) != Fatal
  {
    hide Track, InFlight, Ordered, Shape, Enqueued, HandleNext;
    if e == NextCommand && Step(s, e, false) != NotNow {
      HandleOrdered(s, strict);
    }
  }

  lemma {:induction false} OrderedNext(s: State, e: Event, strict: bool, t: State)
    requires Ordered(s, strict) && Shape(s) && InPlace(s, e, strict) && Step(s, e, false) == Next(t)
    ensures Ordered(t, strict)
  {
    hide Track, InFlight, Ordered, Shape, Enqueued, HandleNext;
    match e {
      case ClientConnect(b) => EnqueueOrdered(s, ConnectCore(s.core, b), Connect, strict);
      case ClientDisconnect => EnqueueOrdered(s, DisconnectCore(s.core), Disconnect, strict);
      case ClientSend(text) => EnqueueOrdered(s, SendCore(s.core, text), Message(text), strict);
      case NextCommand => HandleOrdered(s, strict);
      case _ => QuietOrdered(s, e, strict);
    }
  }

  lemma {:induction false} OrderedAtStart(strict: bool)
    ensures Ordered(INITIAL, strict) && Shape(INITIAL)
  {
  }

  /** Without re-entry, over every interleaving of any clients: commands are handled in
      exactly the order in which they were enqueued, and neither `HandleConnect` nor
      `HandleDisconnect` ever throws. */
  lemma {:induction false} RunOrdered(events: seq<Event>)
    ensures Run(INITIAL, events, false) != Fatal
    ensures Run(INITIAL, events, false).Next? ==>
              Ordered(Run(INITIAL, events, false).state, false) && Shape(Run(INITIAL, events, false).state)
  {
    if events == [] {
      OrderedAtStart(false);
    } else {
      var before := events[..|events| - 1];
      RunOrdered(before);
      if Run(INITIAL, before, false).Next? {
        var s := Run(INITIAL, before, false).state;
        var e := events[|events| - 1];
        OrderedStep(s, e, false);
        if Step(s, e, false).Next? {
          OrderedNext(s, e, false, Step(s, e, false).state);
          ShapeStep(s, e, false);
        }
      }
    }
  }

  // ---------------------------------------------------------------- what the clients asked for

  /** Whether the last connect or disconnect among the calls was a connect. */
  function Installed(events: seq<Event>): bool {
    if events == [] then false
    else
      match events[|events| - 1]
      case ClientConnect(_) => true
      case ClientDisconnect => false
      case _ => Installed(events[..|events| - 1])
  }

  /** The flag of the last connect, as long as it is in force. */
  function BreakAsked(events: seq<Event>): bool {
    if events == [] then false
    else
      var before := events[..|events| - 1];
      match events[|events| - 1]
      case ClientConnect(b) => if Installed(before) then BreakAsked(before) else b
      case ClientDisconnect => false
      case _ => BreakAsked(before)
  }

  /** What a client call asks the script thread to do: a second connect in a row, or a second
      disconnect, is turned down. */
  function Wish(installed: bool, e: Event): seq<Command> {
    match e
    case ClientConnect(_) => if installed then [] else [Connect]
    case ClientDisconnect => if installed then [Disconnect] else []
    case ClientSend(text) => [Message(text)]
    case _ => []
  }

  function Wishes(events: seq<Event>): seq<Command> {
    if events == [] then []
    else
      var n := |events| - 1;
      Wishes(events[..n]) + Wish(Installed(events[..n]), events[n])
  }

  lemma {:induction false} WishStep(s: State, e: Event, reentry: bool)
    requires Step(s, e, reentry).Next?
    ensures Step(s, e, reentry).state.enqueued == s.enqueued + Wish(s.core.installed, e)
    ensures Step(s, e, reentry).state.core.installed ==
            if e.ClientConnect? then true else if e.ClientDisconnect? then false else s.core.installed
    ensures Step(s, e, reentry).state.core.breakOnNextLine ==
            match e case ClientConnect(b) => b case ClientDisconnect => false case _ => s.core.breakOnNextLine
  {
  }

  lemma {:induction false} WishDenied(s: State, e: Event, reentry: bool)
    requires Step(s, e, reentry).Throws?
    ensures Wish(s.core.installed, e) == []
    ensures (e.ClientConnect? && s.core.installed) || (e.ClientDisconnect? && !s.core.installed)
  {
  }

  /** Over every interleaving, with re-entry or without: what has been enqueued is exactly what the
      calls of the clients asked for, in their order. */
  lemma {:induction false} EnqueuedIsAsked(events: seq<Event>, reentry: bool)
    requires Run(INITIAL, events, reentry).Next?
    ensures Run(INITIAL, events, reentry).state.enqueued == Wishes(events)
    ensures Run(INITIAL, events, reentry).state.core.installed == Installed(events)
    ensures Run(INITIAL, events, reentry).state.core.breakOnNextLine == BreakAsked(events)
    ensures !Installed(events) ==> !BreakAsked(events)
  {
    if events != [] {
      var n := |events| - 1;
      EnqueuedIsAsked(events[..n], reentry);
      var s := Run(INITIAL, events[..n], reentry).state;
      if Step(s, events[n], reentry).Next? {
        WishStep(s, events[n], reentry);
      } else {
        WishDenied(s, events[n], reentry);
      }
      hide Step;
    }
  }

  /** So, without re-entry, what has been handled is a first part of what was asked for, and the rest
      is still to come. */
  lemma {:induction false} HandledAsAsked(events: seq<Event>)
    requires Run(INITIAL, events, false).Next?
    ensures var s := Run(INITIAL, events, false).state; Wishes(events) == s.handled + Pending(s)
  {
    EnqueuedIsAsked(events, false);
    RunOrdered(events);
    PendingIsRest(Run(INITIAL, events, false).state);
  }

  /** A message is being handled while the rest of its batch still holds a disconnect. */
  const MID_MESSAGE := State(Core(false, false, [], true, false),
                             [Frame(false, InHandler, [Connect, Message([]), Disconnect], 2, 0)],
                             [Connect, Message([]), Disconnect], [Connect, Message([])], 0)

  const FIRST_PART: seq<Event> :=
    [ClientConnect(false), ClientSend([]), ClientDisconnect, Enter(false), TakeLock, NextCommand, NextCommand]

  lemma {:induction false} RunExtend(s: State, events: seq<Event>, e: Event, reentry: bool)
    requires Run(s, events, reentry).Next?
    ensures Run(s, events + [e], reentry) ==
            match Step(Run(s, events, reentry).state, e, reentry)
            case Throws => Run(s, events, reentry)
            case o => o
  {
  }

  lemma {:induction false} ReachMidMessage()
    ensures Run(INITIAL, FIRST_PART, true) == Next(MID_MESSAGE)
  {
    var es := FIRST_PART;
    var s1 := Step(INITIAL, es[0], true).state;
    var s2 := Step(s1, es[1], true).state;
    var s3 := Step(s2, es[2], true).state;
    var s4 := Step(s3, es[3], true).state;
    var s5 := Step(s4, es[4], true).state;
    var s6 := Step(s5, es[5], true).state;
    var s7 := Step(s6, es[6], true).state;
    assert s7.enqueued == MID_MESSAGE.enqueued && s7.handled == MID_MESSAGE.handled && s7.core == MID_MESSAGE.core;
    assert s7.frames == MID_MESSAGE.frames;
    var states := [INITIAL, s1, s2, s3, s4, s5, s6, s7];
    hide Step;
    for i := 0 to 7
      invariant Run(INITIAL, es[..i], true) == Next(states[i])
    {
      RunExtend(INITIAL, es[..i], es[i], true);
      assert es[..i + 1] == es[..i] + [es[i]];
    }
    assert es[..7] == es;
  }

  /** If that handler starts another activation and a client connects again meanwhile, the
      connect is handled before the disconnect and throws: without re-entry is needed. */
  lemma {:induction false} ReentryCanBeFatal()
    ensures Run(INITIAL, FIRST_PART + [ClientConnect(false)] + [Enter(false)] + [TakeLock] + [NextCommand], true) ==
            Fatal
  {
    ReachMidMessage();
    var e1 := FIRST_PART + [ClientConnect(false)];
    var e2 := e1 + [Enter(false)];
    var e3 := e2 + [TakeLock];
    RunExtend(INITIAL, FIRST_PART, ClientConnect(false), true);
    RunExtend(INITIAL, e1, Enter(false), true);
    RunExtend(INITIAL, e2, TakeLock, true);
    RunExtend(INITIAL, e3, NextCommand, true);
  }
}
