/** Message handlers that start another activation of the queue. When that is safe, exactly: a
    nested call is harmless if nothing but messages is left in the batches under way, and
    otherwise some continuation makes a connect or disconnect handler throw. */
module Reentry {
  import opened CommandQueue
  import opened String16

  predicate MessagesOnly(commands: seq<Command>) {
    forall i :: 0 <= i < |commands| ==> commands[i].Message?
  }

  /** Every activation is started with nothing but messages left in the batches under way. */
  ghost predicate SafeEntries(events: seq<Event>) {
    forall n :: 0 <= n < |events| && events[n].Enter? && Run(INITIAL, events[..n], true).Next? ==>
                  MessagesOnly(InFlight(Run(INITIAL, events[..n], true).state.frames))
  }

  // ---------------------------------------------------------------- safe entries never throw

  function TopRest(s: State): seq<Command> {
    if s.frames == [] then [] else Rest(Top(s))
  }

  function OuterInFlight(s: State): seq<Command> {
    if s.frames == [] then [] else InFlight(s.frames[..|s.frames| - 1])
  }

  /** Only the innermost batch and the queue hold connects and disconnects, and those alternate. */
  ghost predicate Alternates(s: State) {
    && Shape(s) && MessagesOnly(OuterInFlight(s))
    && Track(s.core.connected, TopRest(s) + s.core.queue, false) == Some(s.core.installed)
  }

  lemma {:induction false} InFlightParts(s: State)
    ensures InFlight(s.frames) == OuterInFlight(s) + TopRest(s)
  {
    if s.frames != [] {
      InFlightTop(s, Top(s));
    }
  }

  lemma {:induction false} TrackMessages(connected: bool, messages: seq<Command>, rest: seq<Command>)
    requires MessagesOnly(messages)
    ensures Track(connected, messages + rest, false) == Track(connected, rest, false)
  {
    if messages == [] {
      assert messages + rest == rest;
    } else {
      assert (messages + rest)[1..] == messages[1..] + rest;
      TrackMessages(connected, messages[1..], rest);
    }
  }

  lemma {:induction false} EnqueueAlternates(s: State, core: Core, command: Command)
    requires Alternates(s) && core.queue == s.core.queue + [command] && core.connected == s.core.connected
    requires TrackOne(s.core.installed, command, false) == Some(core.installed)
    requires Shape(Enqueued(s, core, command))
    ensures Alternates(Enqueued(s, core, command))
  {
    var t := Enqueued(s, core, command);
    if s.frames != [] {
      assert t.frames[..|t.frames| - 1] == s.frames[..|s.frames| - 1];
    }
    assert TopRest(t) == TopRest(s);
    hide Track, TrackOne, InFlight, Shape, TopRest, Enqueued;
    assert TopRest(s) + core.queue == TopRest(s) + s.core.queue + [command];
    TrackConcat(s.core.connected, TopRest(s) + s.core.queue, [command], false);
    TrackSingle(s.core.installed, command, false);
  }

  /** A step that moves commands only between the innermost batch and the queue, or nowhere. */
  lemma {:induction false} QuietAlternates(s: State, t: State)
    requires Alternates(s) && Shape(t) && s.frames != [] && t.frames != []
    requires t.frames[..|t.frames| - 1] == s.frames[..|s.frames| - 1]
    requires Rest(Top(t)) + t.core.queue == Rest(Top(s)) + s.core.queue
    requires t.core.connected == s.core.connected && t.core.installed == s.core.installed
    ensures Alternates(t)
  {
    hide Track, InFlight, Shape, Rest;
  }

  lemma {:induction false} EnterAlternates(s: State, t: State, f: Frame)
    requires Alternates(s) && Shape(t) && t.frames == s.frames + [f] && Rest(f) == []
    requires MessagesOnly(InFlight(s.frames))
    requires t.core.queue == s.core.queue && t.core.connected == s.core.connected &&
             t.core.installed == s.core.installed
    ensures Alternates(t)
  {
    InFlightParts(s);
    assert t.frames[..|t.frames| - 1] == s.frames;
    assert MessagesOnly(TopRest(s)) by {
      forall i | 0 <= i < |TopRest(s)| ensures TopRest(s)[i].Message? {
        assert InFlight(s.frames)[|OuterInFlight(s)| + i] == TopRest(s)[i];
      }
    }
    TrackMessages(s.core.connected, TopRest(s), s.core.queue);
    assert TopRest(t) + t.core.queue == s.core.queue;
  }

  lemma {:induction false} LeaveAlternates(s: State, t: State)
    requires Alternates(s) && Shape(t) && s.frames != [] && t.frames == s.frames[..|s.frames| - 1] && Rest(Top(s)) == []
    requires t.core == s.core
    ensures Alternates(t)
  {
    InFlightParts(t);
    assert TopRest(s) + s.core.queue == s.core.queue;
    assert MessagesOnly(TopRest(t)) by {
      forall i | 0 <= i < |TopRest(t)| ensures TopRest(t)[i].Message? {
        assert InFlight(t.frames)[|OuterInFlight(t)| + i] == TopRest(t)[i];
      }
    }
    assert MessagesOnly(OuterInFlight(t)) by {
      forall i | 0 <= i < |OuterInFlight(t)| ensures OuterInFlight(t)[i].Message? {
        assert InFlight(t.frames)[i] == OuterInFlight(t)[i];
      }
    }
    TrackMessages(s.core.connected, TopRest(t), s.core.queue);
  }

  lemma {:induction false} HandleAlternates(s: State)
    requires Alternates(s) && s.frames != [] && Top(s).phase == Handling && Top(s).next < |Top(s).batch|
    ensures HandleNext(s).Next? && (Shape(HandleNext(s).state) ==> Alternates(HandleNext(s).state))
  {
    var f := Top(s);
    var command := f.batch[f.next];
    var g := f.(next := f.next + 1);
    HandleTakesOne(f, g);
    assert TopRest(s) + s.core.queue == [command] + (Rest(g) + s.core.queue);
    TrackCons(s.core.connected, command, Rest(g) + s.core.queue, false);
    var t := HandleNext(s).state;
    assert t.frames[..|t.frames| - 1] == s.frames[..|s.frames| - 1];
    assert Rest(Top(t)) == Rest(g);
  }

  lemma {:induction false} ClientAlternates(s: State, e: Event)
    requires Alternates(s) && Step(s, e, true).Next? && Shape(Step(s, e, true).state)
    requires e.ClientConnect? || e.ClientDisconnect? || e.ClientSend?
    ensures Alternates(Step(s, e, true).state)
  {
    hide Shape, Alternates, Enqueued, HandleNext;
    match e {
      case ClientConnect(b) => EnqueueAlternates(s, ConnectCore(s.core, b), Connect);
      case ClientDisconnect => EnqueueAlternates(s, DisconnectCore(s.core), Disconnect);
      case ClientSend(text) => EnqueueAlternates(s, SendCore(s.core, text), Message(text));
    }
  }

  lemma {:induction false} PhaseAlternates(s: State, phase: Phase)
    requires Alternates(s) && s.frames != [] && Shape(WithTop(s, Top(s).(phase := phase)))
    ensures Alternates(WithTop(s, Top(s).(phase := phase)))
  {
    hide Shape, Alternates;
    QuietAlternates(s, WithTop(s, Top(s).(phase := phase)));
  }

  lemma {:induction false} SwapAlternates(s: State)
    requires Alternates(s) && s.frames != [] && Rest(Top(s)) == [] && Shape(Swapped(s))
    ensures Alternates(Swapped(s))
  {
    hide Shape, Alternates;
    assert Rest(Top(Swapped(s))) + [] == [] + s.core.queue;
    QuietAlternates(s, Swapped(s));
  }

  lemma {:induction false} LockAlternates(s: State, e: Event)
    requires Alternates(s) && Step(s, e, true).Next? && Shape(Step(s, e, true).state) && (e.TakeLock? || e.Wake?)
    ensures Alternates(Step(s, e, true).state)
  {
    ShapeTop(s);
    hide Shape, FrameShape, Rest, Alternates, Enqueued, HandleNext, Swapped, WithTop;
    if e == TakeLock && s.core.waiting && s.core.queue == [] {
      PhaseAlternates(s, Asleep(false));
    } else {
      SwapAlternates(s);
    }
  }

  lemma {:induction false} LoopTestAlternates(s: State)
    requires Alternates(s) && Step(s, LoopTest, true).Next? && Shape(Step(s, LoopTest, true).state)
    ensures Alternates(Step(s, LoopTest, true).state)
  {
    var t := Step(s, LoopTest, true).state;
    var again := Top(s).(phase := AtLock, batch := [], next := 0);
    assert Rest(Top(s)) == [] && Rest(again) == [];
    hide Shape, Alternates, Enqueued, HandleNext, Swapped, Rest, InFlight;
    if s.core.waiting || Top(s).batch != [] {
      assert t == WithTop(s, again) && Top(t) == again;
      QuietAlternates(s, t);
    } else {
      LeaveAlternates(s, t);
    }
  }

  lemma {:induction false} AlternatesStep(s: State, e: Event)
    requires Alternates(s) && (e.Enter? ==> MessagesOnly(InFlight(s.frames)))
    ensures Step(s, e, true) != Fatal
    ensures Step(s, e, true).Next? ==> Alternates(Step(s, e, true).state)
  {
    if e == NextCommand {
      NextCommandAlternates(s);
    } else if Step(s, e, true).Next? {
      ShapeStep(s, e, true);
      hide Shape, Alternates, InFlight, Enqueued, HandleNext, Rest, WithTop, Swapped, ConnectStep, DisconnectStep,
        SendStep;
      match e {
        case Enter(forDebugger) => EnterFrameAlternates(s, e);
        case TakeLock => LockAlternates(s, e);
        case Wake(_) => LockAlternates(s, e);
        case ClearWaiting => ClearedAlternates(s);
        case FinishMessage => PhaseAlternates(s, Handling);
        case LoopTest => LoopTestAlternates(s);
        case _ => ClientAlternates(s, e);
      }
    }
  }

  lemma {:induction false} NextCommandAlternates(s: State)
    requires Alternates(s)
    ensures Step(s, NextCommand, true) != Fatal
    ensures Step(s, NextCommand, true).Next? ==> Alternates(Step(s, NextCommand, true).state)
  {
    hide Alternates, Shape, HandleNext;
    if Step(s, NextCommand, true) != NotNow {
      AlternatesShape(s);
      HandleAlternates(s);
      ShapeStep(s, NextCommand, true);
    }
  }

  lemma {:induction false} AlternatesShape(s: State)
    requires Alternates(s)
    ensures Shape(s)
  {
  }

  lemma {:induction false} ClearedAlternates(s: State)
    requires Alternates(s)
    ensures Alternates(Cleared(s))
  {
  }

  lemma {:induction false} EnterFrameAlternates(s: State, e: Event)
    requires Alternates(s) && e.Enter? && MessagesOnly(InFlight(s.frames))
    requires Step(s, e, true).Next? && Shape(Step(s, e, true).state)
    ensures Alternates(Step(s, e, true).state)
  {
    hide Shape, Alternates, InFlight;
    EnterAlternates(s, Step(s, e, true).state, Frame(e.forDebugger, AtLock, [], 0, s.clears));
  }

  /** Over every run in which handlers re-enter only with nothing but messages left in the
      batches under way, no connect or disconnect handler throws. */
  lemma {:induction false} SafeEntriesNeverFatal(events: seq<Event>)
    requires SafeEntries(events)
    ensures Run(INITIAL, events, true) != Fatal
    ensures Run(INITIAL, events, true).Next? ==> Alternates(Run(INITIAL, events, true).state)
  {
    if events == [] {
      OrderedAtStart(false);
    } else {
      var n := |events| - 1;
      var before := events[..n];
      assert SafeEntries(before) by {
        forall i | 0 <= i < n && before[i].Enter? && Run(INITIAL, before[..i], true).Next?
          ensures MessagesOnly(InFlight(Run(INITIAL, before[..i], true).state.frames))
        {
          assert before[..i] == events[..i];
        }
      }
      SafeEntriesNeverFatal(before);
      if Run(INITIAL, before, true).Next? {
        var s := Run(INITIAL, before, true).state;
        assert events[n].Enter? ==> MessagesOnly(InFlight(s.frames));
        hide Step, Alternates;
        AlternatesStep(s, events[n]);
      }
    }
  }

  // ---------------------------------------------------------------- an unsafe entry can go wrong

  predicate NoEntries(events: seq<Event>) {
    forall i :: 0 <= i < |events| ==> !events[i].Enter?
  }

  /** Without starting a further activation, `s` can lead to `t`, or to a handler that throws. */
  ghost predicate Reaches(s: State, t: State) {
    exists es :: NoEntries(es) && Run(s, es, true) == Next(t)
  }

  ghost predicate CanFail(s: State) {
    exists es :: NoEntries(es) && Run(s, es, true) == Fatal
  }

  lemma {:induction false} RunConcat(s: State, a: seq<Event>, b: seq<Event>)
    requires Run(s, a, true).Next?
    ensures Run(s, a + b, true) == Run(Run(s, a, true).state, b, true)
  {
    if b == [] {
      assert a + b == a;
    } else {
      assert (a + b)[..|a + b| - 1] == a + b[..|b| - 1];
      RunConcat(s, a, b[..|b| - 1]);
    }
  }

  lemma {:induction false} ReachesTrans(s: State, t: State, u: State)
    requires Reaches(s, t) && Reaches(t, u)
    ensures Reaches(s, u)
  {
    var a :| NoEntries(a) && Run(s, a, true) == Next(t);
    var b :| NoEntries(b) && Run(t, b, true) == Next(u);
    RunConcat(s, a, b);
    assert NoEntries(a + b);
  }

  lemma {:induction false} ReachesFailure(s: State, t: State)
    requires Reaches(s, t) && CanFail(t)
    ensures CanFail(s)
  {
    var a :| NoEntries(a) && Run(s, a, true) == Next(t);
    var b :| NoEntries(b) && Run(t, b, true) == Fatal;
    RunConcat(s, a, b);
    assert NoEntries(a + b);
  }

  lemma {:induction false} OneStep(s: State, e: Event)
    requires !e.Enter?
    ensures Step(s, e, true).Next? ==> Reaches(s, Step(s, e, true).state)
    ensures Step(s, e, true) == Fatal ==> CanFail(s)
  {
    assert [e][..0] == [];
    assert NoEntries([e]);
    assert Run(s, [e][..0], true) == Next(s);
    assert Run(s, [e], true) == match Step(s, e, true) case Throws => Next(s) case o => o;
  }

  /** One more step on the way. */
  lemma {:induction false} StepOn(s: State, t: State, e: Event)
    requires Reaches(s, t) && !e.Enter?
    ensures Step(t, e, true).Next? ==> Reaches(s, Step(t, e, true).state)
    ensures Step(t, e, true) == Fatal ==> CanFail(s)
  {
    hide Step, Reaches, CanFail;
    OneStep(t, e);
    if Step(t, e, true).Next? {
      ReachesTrans(s, t, Step(t, e, true).state);
    } else if Step(t, e, true) == Fatal {
      ReachesFailure(s, t);
    }
  }

  lemma {:induction false} Here(s: State)
    ensures Reaches(s, s)
  {
    assert NoEntries([]) && Run(s, [], true) == Next(s);
  }

  /** The innermost activation is somewhere in its loop; everything outside it is as in `s`. */
  predicate SameOutside(s: State, t: State) {
    && |t.frames| == |s.frames| > 0 && t.frames[..|t.frames| - 1] == s.frames[..|s.frames| - 1]
    && t.core.installed == s.core.installed
  }

  /** The batch is used up, and the queue is empty if it was. */
  predicate UsedUp(s: State, t: State) {
    && SameOutside(s, t) && Top(t).phase == Handling && Top(t).batch == Top(s).batch && Top(t).next == |Top(t).batch|
    && t.core.queue == s.core.queue && (t.core.waiting ==> s.core.waiting)
  }

  /** Handles one command; a message clears the waiting flag. */
  lemma {:induction false} HandleOne(s: State) returns (t: State)
    requires s.frames != [] && Top(s).phase == Handling && Top(s).next < |Top(s).batch|
    ensures CanFail(s) || (Reaches(s, t) && SameOutside(s, t) && Top(t) == Top(s).(next := Top(s).next + 1)
                           && t.core.queue == s.core.queue
                           && t.core.waiting == (s.core.waiting && Top(s).batch[Top(s).next].Connect?)
                           && (Top(s).batch[Top(s).next].Message? ==> t.core.connected == s.core.connected))
  {
    hide Reaches, CanFail;
    OneStep(s, NextCommand);
    t := s;
    if HandleNext(s).Next? {
      t := HandleNext(s).state;
      if Top(s).batch[Top(s).next].Message? {
        var u := Cleared(t);
        StepOn(s, t, ClearWaiting);
        StepOn(s, u, FinishMessage);
        t := WithTop(u, Top(u).(phase := Handling));
      }
    }
  }

  predicate HasMessage(commands: seq<Command>) {
    exists i :: 0 <= i < |commands| && commands[i].Message?
  }

  lemma {:induction false} DrainBatch(s: State) returns (t: State)
    requires s.frames != [] && Top(s).phase == Handling && Top(s).next <= |Top(s).batch|
    ensures CanFail(s) || (Reaches(s, t) && UsedUp(s, t) && (HasMessage(Rest(Top(s))) ==> !t.core.waiting))
    decreases |Top(s).batch| - Top(s).next
  {
    hide Reaches, CanFail;
    if Top(s).next == |Top(s).batch| {
      Here(s);
      t := s;
    } else {
      var u := HandleOne(s);
      t := u;
      if !CanFail(s) {
        HandleTakesOne(Top(s), Top(u));
        t := DrainBatch(u);
        if CanFail(u) {
          ReachesFailure(s, u);
        } else {
          ReachesTrans(s, u, t);
        }
      }
    }
  }

  /** Between rounds, with nothing queued and nobody waiting. */
  predicate Idle(s: State) {
    && s.frames != [] && Top(s).phase == AtLock && Top(s).batch == [] && Top(s).next == 0
    && s.core.queue == [] && !s.core.waiting
  }

  /** At the end of a batch that was not empty, with nothing queued and nobody waiting. */
  predicate BatchDone(s: State) {
    && s.frames != [] && Top(s).phase == Handling && Top(s).batch != [] && Top(s).next == |Top(s).batch|
    && s.core.queue == [] && !s.core.waiting
  }

  /** A client sends a message and everything queued is handled. */
  lemma {:induction false} FlushQueue(s: State) returns (t: State)
    requires s.frames != [] && Top(s).phase == AtLock && Top(s).batch == [] && Top(s).next == 0
    ensures CanFail(s) || (Reaches(s, t) && SameOutside(s, t) && BatchDone(t))
  {
    hide Reaches, CanFail;
    var a := SendStep(s, []);
    OneStep(s, ClientSend([]));
    assert Top(a) == Top(s);
    var b := Swapped(a);
    StepOn(s, a, TakeLock);
    assert Rest(Top(b)) == s.core.queue + [Message([])];
    assert Rest(Top(b))[|s.core.queue|].Message?;
    t := DrainBatch(b);
    if CanFail(b) {
      ReachesFailure(s, b);
    } else {
      ReachesTrans(s, b, t);
    }
  }

  /** The command that a client can always enqueue to change the connection. */
  function Toggle(s: State): Event {
    if s.core.installed then ClientDisconnect else ClientConnect(false)
  }

  lemma {:induction false} HandleToggle(s: State) returns (t: State)
    requires Idle(s)
    ensures CanFail(s) || (Reaches(s, t) && |s.frames| == |t.frames| &&
                           t.frames[..|t.frames| - 1] == s.frames[..|s.frames| - 1]
                           && BatchDone(t) && t.core.connected == !s.core.connected)
  {
    hide Reaches, CanFail;
    var command := if s.core.installed then Disconnect else Connect;
    var a := Step(s, Toggle(s), true).state;
    OneStep(s, Toggle(s));
    assert a.core.queue == [command] && Top(a) == Top(s);
    var b := Swapped(a);
    StepOn(s, a, TakeLock);
    StepOn(s, b, NextCommand);
    t := s;
    if HandleNext(b).Next? {
      t := HandleNext(b).state;
    }
  }

  /** Brings the connection to the wanted state and the activation to its lock. */
  lemma {:induction false} Steer(s: State, connected: bool) returns (t: State)
    requires BatchDone(s)
    ensures CanFail(s) || (Reaches(s, t) && |s.frames| == |t.frames| &&
                           t.frames[..|t.frames| - 1] == s.frames[..|s.frames| - 1]
                           && Idle(t) && t.core.connected == connected)
  {
    hide Reaches, CanFail;
    t := Step(s, LoopTest, true).state;
    OneStep(s, LoopTest);
    if s.core.connected != connected {
      var a := t;
      var b := HandleToggle(a);
      if CanFail(a) {
        ReachesFailure(s, a);
      } else {
        ReachesTrans(s, a, b);
        StepOn(s, b, LoopTest);
        t := Step(b, LoopTest, true).state;
      }
    }
  }

  /** Leaves an idle activation that another one is waiting for. */
  lemma {:induction false} Return(s: State) returns (t: State)
    requires Idle(s) && Shape(s) && |s.frames| > 1
    ensures Reaches(s, t) && t.core == s.core && |t.frames| == |s.frames| - 1 && Shape(t)
    ensures t.frames == s.frames[..|s.frames| - 1][|s.frames| - 2 := s.frames[|s.frames| - 2].(phase := Handling)]
  {
    hide Reaches;
    var a := Swapped(s);
    OneStep(s, TakeLock);
    assert a.core == s.core;
    var b := a.(frames := a.frames[..|a.frames| - 1]);
    StepOn(s, a, LoopTest);
    assert b.frames == s.frames[..|s.frames| - 1];
    assert Top(b) == s.frames[|s.frames| - 2] && Top(b).phase == InHandler;
    StepOn(s, b, FinishMessage);
    t := WithTop(b, Top(b).(phase := Handling));
  }

  /** The first connect or disconnect. */
  function FirstChange(commands: seq<Command>): Option<Command> {
    if commands == [] then None
    else if commands[0].Message? then FirstChange(commands[1..])
    else Some(commands[0])
  }

  /** The first connect or disconnect that the activations will come to, innermost first. */
  function NextChange(frames: seq<Frame>): Option<Command> {
    if frames == [] then None
    else
      var n := |frames| - 1;
      if FirstChange(Rest(frames[n])).Some? then FirstChange(Rest(frames[n])) else NextChange(frames[..n])
  }

  lemma {:induction false} FirstChangeExists(commands: seq<Command>)
    ensures FirstChange(commands).None? <==> MessagesOnly(commands)
    ensures FirstChange(commands).Some? ==> !FirstChange(commands).value.Message?
  {
    if commands != [] {
      FirstChangeExists(commands[1..]);
      assert commands == [commands[0]] + commands[1..];
    }
  }

  lemma {:induction false} NextChangeExists(frames: seq<Frame>)
    ensures NextChange(frames).None? <==> MessagesOnly(InFlight(frames))
    ensures NextChange(frames).Some? ==> !NextChange(frames).value.Message?
  {
    if frames != [] {
      var n := |frames| - 1;
      NextChangeExists(frames[..n]);
      FirstChangeExists(Rest(frames[n]));
      var a, b := InFlight(frames[..n]), Rest(frames[n]);
      assert InFlight(frames) == a + b;
      assert forall i :: 0 <= i < |a| ==> (a + b)[i] == a[i];
      assert forall i :: 0 <= i < |b| ==> (a + b)[|a| + i] == b[i];
    }
  }

  /** The state in which a command is out of place. */
  predicate OutOfPlace(s: State, change: Option<Command>) {
    change.Some? && !change.value.Message? && s.core.connected == change.value.Connect?
  }

  lemma {:induction false} SameNextChange(a: seq<Frame>, b: seq<Frame>)
    requires |a| == |b| > 0 && a[..|a| - 1] == b[..|b| - 1]
    requires FirstChange(Rest(a[|a| - 1])) == FirstChange(Rest(b[|b| - 1]))
    ensures NextChange(a) == NextChange(b)
  {
  }

  lemma {:induction false} PopNextChange(frames: seq<Frame>)
    requires frames != [] && Rest(frames[|frames| - 1]) == []
    ensures NextChange(frames) == NextChange(frames[..|frames| - 1])
  {
  }

  lemma {:induction false} ShapeOfTop(s: State, t: State)
    requires Shape(s) && |t.frames| == |s.frames| > 0 && FrameShape(Top(t))
    requires t.frames[..|t.frames| - 1] == s.frames[..|s.frames| - 1]
    ensures Shape(t)
  {
    forall i | 0 <= i < |s.frames| - 1 ensures t.frames[i] == s.frames[i] {
      assert t.frames[..|t.frames| - 1][i] == s.frames[..|s.frames| - 1][i];
    }
  }

  lemma {:induction false} ShapeOfPush(s: State, t: State)
    requires Shape(s) && s.frames != [] && Top(s).phase == InHandler
    requires |t.frames| == |s.frames| + 1 && t.frames[..|s.frames|] == s.frames && FrameShape(Top(t))
    ensures Shape(t)
  {
    forall i | 0 <= i < |s.frames| ensures t.frames[i] == s.frames[i] {
      assert t.frames[..|s.frames|][i] == t.frames[i];
    }
  }

  lemma {:induction false} SameRest(f: Frame, g: Frame)
    requires f.batch == g.batch && f.next == g.next
    ensures Rest(f) == Rest(g)
  {
  }

  lemma {:induction false} FirstChangeSkips(m: Command, commands: seq<Command>)
    requires m.Message?
    ensures FirstChange([m] + commands) == FirstChange(commands)
  {
    assert ([m] + commands)[1..] == commands;
  }

  /** A message in between changes nothing that matters. */
  lemma {:induction false} PassMessage(s: State) returns (t: State)
    requires Shape(s) && s.frames != [] && Top(s).phase == Handling && s.core.queue == [] && !s.core.waiting
    requires Top(s).next < |Top(s).batch| && Top(s).batch[Top(s).next].Message?
    ensures Reaches(s, t) && t.core == s.core && Shape(t) && |t.frames| == |s.frames|
    ensures Top(t) == Top(s).(next := Top(s).next + 1) && NextChange(t.frames) == NextChange(s.frames)
  {
    hide Reaches, NextChange, FirstChange, Rest, Shape, InFlight;
    OneStep(s, NextCommand);
    var a := HandleNext(s).state;
    StepOn(s, a, FinishMessage);
    t := WithTop(a, Top(a).(phase := Handling));
    assert t.frames[..|t.frames| - 1] == s.frames[..|s.frames| - 1];
    ShapeOfTop(s, t);
    HandleTakesOne(Top(s), Top(t));
    FirstChangeSkips(Top(s).batch[Top(s).next], Rest(Top(t)));
    SameNextChange(s.frames, t.frames);
  }

  /** A batch that is used up and was not empty is followed by one more, empty round. */
  lemma {:induction false} ExtraRound(s: State) returns (t: State)
    requires Shape(s) && BatchDone(s) && |s.frames| > 1
    ensures Reaches(s, t) && t.core == s.core && |t.frames| == |s.frames| - 1 && Shape(t)
    ensures t.frames == s.frames[..|s.frames| - 1][|s.frames| - 2 := s.frames[|s.frames| - 2].(phase := Handling)]
  {
    OneStep(s, LoopTest);
    ShapeStep(s, LoopTest, true);
    var a := Step(s, LoopTest, true).state;
    assert Idle(a) && a.core == s.core;
    hide Reaches, Shape, Step;
    t := Return(a);
    ReachesTrans(s, a, t);
    assert a.frames[..|s.frames| - 1] == s.frames[..|s.frames| - 1];
    assert a.frames[|s.frames| - 2] == s.frames[|s.frames| - 2];
  }

  lemma {:induction false} LastRound(s: State) returns (t: State)
    requires Shape(s) && |s.frames| > 1 && Top(s).phase == Handling && Top(s).batch == [] && Top(s).next == 0 &&
             !s.core.waiting
    ensures Reaches(s, t) && t.core == s.core && |t.frames| == |s.frames| - 1 && Shape(t)
    ensures t.frames == s.frames[..|s.frames| - 1][|s.frames| - 2 := s.frames[|s.frames| - 2].(phase := Handling)]
  {
    hide Reaches;
    OneStep(s, LoopTest);
    var a := Step(s, LoopTest, true).state;
    assert a.frames == s.frames[..|s.frames| - 1] && Top(a).phase == InHandler;
    StepOn(s, a, FinishMessage);
    t := WithTop(a, Top(a).(phase := Handling));
  }

  /** An activation whose batch is used up makes way for the one outside it. */
  lemma {:induction false} PassFrame(s: State) returns (t: State)
    requires Shape(s) && |s.frames| > 1 && Top(s).phase == Handling && s.core.queue == [] && !s.core.waiting
    requires Top(s).next == |Top(s).batch|
    ensures Reaches(s, t) && t.core == s.core && Shape(t) && |t.frames| == |s.frames| - 1 && Top(t).phase == Handling
    ensures NextChange(t.frames) == NextChange(s.frames)
  {
    assert Rest(Top(s)) == [];
    PopNextChange(s.frames);
    hide Reaches, Shape, NextChange, FirstChange, Rest, InFlight, Step;
    if Top(s).batch != [] {
      t := ExtraRound(s);
    } else {
      t := LastRound(s);
    }
    SameRest(s.frames[|s.frames| - 2], Top(t));
    SameNextChange(s.frames[..|s.frames| - 1], t.frames);
  }

  /** Once the connection is in the wrong state for the next connect or disconnect under way, the
      activations come to it and its handler throws. */
  lemma {:induction false} Unwind(s: State)
    requires Shape(s) && s.frames != [] && Top(s).phase == Handling && s.core.queue == [] && !s.core.waiting
    requires OutOfPlace(s, NextChange(s.frames))
    ensures CanFail(s)
    decreases |s.frames|, |Top(s).batch| - Top(s).next
  {
    hide Reaches, CanFail;
    ShapeTop(s);
    var f := Top(s);
    if f.next == |f.batch| {
      assert Rest(f) == [];
      assert s.frames[..|s.frames| - 1] != [];
      var t := PassFrame(s);
      Unwind(t);
      ReachesFailure(s, t);
    } else if f.batch[f.next].Message? {
      var t := PassMessage(s);
      Unwind(t);
      ReachesFailure(s, t);
    } else {
      assert Rest(f)[0] == f.batch[f.next];
      OneStep(s, NextCommand);
    }
  }

  // ---------------------------------------------------------------- exactly when a nested call is safe

  /** A handler that starts another activation while a connect or disconnect is left in a batch
      under way can come to grief: some continuation, without any further nesting, makes a connect
      or disconnect handler throw. */
  lemma {:induction false} UnsafeEntryCanFail(s: State, forDebugger: bool)
    requires Shape(s) && s.frames != [] && Top(s).phase == InHandler && !MessagesOnly(InFlight(s.frames))
    ensures Step(s, Enter(forDebugger), true).Next? && CanFail(Step(s, Enter(forDebugger), true).state)
  {
    hide Reaches, CanFail, InFlight;
    var a := Step(s, Enter(forDebugger), true).state;
    assert a.frames[..|s.frames|] == s.frames;
    NextChangeExists(s.frames);
    var change := NextChange(s.frames).value;
    var b := FlushQueue(a);
    if !CanFail(a) {
      var c := Steer(b, change.Connect?);
      if CanFail(b) {
        ReachesFailure(a, b);
      } else {
        ReachesTrans(a, b, c);
        FinishNested(s, a, c, change);
      }
    }
  }

  lemma {:induction false} FinishNested(s: State, a: State, c: State, change: Command)
    requires Shape(s) && s.frames != [] && Top(s).phase == InHandler && NextChange(s.frames) == Some(change) &&
             !change.Message?
    requires Reaches(a, c) && Idle(c) && |c.frames| == |s.frames| + 1 && c.frames[..|s.frames|] == s.frames
    requires c.core.connected == change.Connect?
    ensures CanFail(a)
  {
    hide Reaches, CanFail, Shape, InFlight, NextChange, FirstChange, Rest;
    ShapeOfPush(s, c);
    assert c.frames[|s.frames| - 1] == c.frames[..|s.frames|][|s.frames| - 1];
    var d := Return(c);
    ReachesTrans(a, c, d);
    assert d.frames == s.frames[|s.frames| - 1 := Top(s).(phase := Handling)];
    SameRest(Top(s), Top(d));
    SameNextChange(s.frames, d.frames);
    Unwind(d);
    ReachesFailure(a, d);
  }

  lemma {:induction false} EntriesBefore(events: seq<Event>, e: Event, more: seq<Event>)
    requires SafeEntries(events) && NoEntries(more)
    requires e.Enter? && Run(INITIAL, events, true).Next? ==>
               MessagesOnly(InFlight(Run(INITIAL, events, true).state.frames))
    ensures SafeEntries(events + [e] + more)
  {
    var all := events + [e] + more;
    forall n | 0 <= n < |all| && all[n].Enter? && Run(INITIAL, all[..n], true).Next?
      ensures MessagesOnly(InFlight(Run(INITIAL, all[..n], true).state.frames))
    {
      if n < |events| {
        assert all[..n] == events[..n] && all[n] == events[n];
      } else {
        assert n == |events|;
        assert all[..n] == events;
      }
    }
  }

  /** The exact condition. After a run whose entries were safe, a handler may start another
      activation without any risk of a throw, whatever follows, exactly when nothing but messages
      is left in the batches under way. */
  lemma {:induction false} EntrySafeIff(events: seq<Event>, forDebugger: bool)
    requires SafeEntries(events) && Run(INITIAL, events, true).Next?
    requires var s := Run(INITIAL, events, true).state; s.frames != [] && Top(s).phase == InHandler
    ensures MessagesOnly(InFlight(Run(INITIAL, events, true).state.frames)) <==>
            forall more :: NoEntries(more) ==> Run(INITIAL, events + [Enter(forDebugger)] + more, true) != Fatal
  {
    var s := Run(INITIAL, events, true).state;
    if MessagesOnly(InFlight(s.frames)) {
      forall more | NoEntries(more) ensures Run(INITIAL, events + [Enter(forDebugger)] + more, true) != Fatal {
        EntriesBefore(events, Enter(forDebugger), more);
        SafeEntriesNeverFatal(events + [Enter(forDebugger)] + more);
      }
    } else {
      SafeEntriesNeverFatal(events);
      AlternatesShape(s);
      UnsafeEntryCanFail(s, forDebugger);
      var a := Step(s, Enter(forDebugger), true).state;
      var more :| NoEntries(more) && Run(a, more, true) == Fatal;
      hide Alternates, InFlight, Step;
      RunExtend(INITIAL, events, Enter(forDebugger), true);
      RunConcat(INITIAL, events + [Enter(forDebugger)], more);
    }
  }
}
