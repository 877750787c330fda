/** The protocol handler as an object: its fields, the calls that any thread may make, and the
    loop in which the script thread empties the queue. Every state of the object is a state
    that the machine of `CommandQueue` reaches, so the results about all runs hold of it. */
module ProtocolHandler {
  import opened CommandQueue
  import opened String16

  datatype CallResult = Done | InvalidArgument | RuntimeError

  datatype ClientCall = CallConnect(callbackGiven: bool, breakOnNextLine: bool) | CallDisconnect | CallSend(text: Text)

  /** What happens on other threads while the script thread does not hold the lock: some calls,
      or a wake-up of the condition variable without any. */
  datatype Turn = Calls(calls: seq<ClientCall>) | SpuriousWake

  datatype DrainResult = Returned | StillAsleep

  /** An upper bound on what `turns` can still bring about. */
  function Work(turns: seq<Turn>): nat {
    if turns == [] then 0
    else (if turns[0].Calls? then |turns[0].calls| else 0) + 1 + Work(turns[1..])
  }

  /** What a call is in the history of the machine. */
  function CallEvents(call: ClientCall): seq<Event> {
    match call
    case CallConnect(given, b) => if given then [ClientConnect(b)] else []
    case CallDisconnect => [ClientDisconnect]
    case CallSend(text) => [ClientSend(text)]
  }

  function AllCallEvents(calls: seq<ClientCall>): seq<Event> {
    if calls == [] then [] else AllCallEvents(calls[..|calls| - 1]) + CallEvents(calls[|calls| - 1])
  }

  lemma {:induction false} OneMoreCall(h: seq<Event>, calls: seq<ClientCall>, i: nat)
    requires i < |calls|
    ensures h + AllCallEvents(calls[..i]) + CallEvents(calls[i]) == h + AllCallEvents(calls[..i + 1])
  {
    hide CallEvents;
    assert calls[..i + 1][..i] == calls[..i];
  }

  /** What other threads leave alone. */
  ghost predicate OthersKeep(s: State, t: State) {
    && t.core.connected == s.core.connected && t.core.waiting == s.core.waiting
    && t.handled == s.handled && t.clears == s.clears
    && |s.frames| == |t.frames|
    && (s.frames == t.frames || (s.frames != [] && t.frames == WithTop(s, Notified(Top(s))).frames))
  }

  lemma {:induction false} OthersKeepTrans(s: State, t: State, u: State)
    requires OthersKeep(s, t) && OthersKeep(t, u)
    ensures OthersKeep(s, u)
  {
  }

  class ProtocolHandler {
    var installed: bool
    var breakOnNextLine: bool
    var commandQueue: seq<Command>
    var isConnected: bool
    var waitingForDebugger: bool
    /** Whether `m_commandWaiting` was notified since the script thread last began to wait. */
    var notified: bool
    ghost var machine: State
    ghost var history: seq<Event>

    ghost predicate Valid()
      reads this
    {
      && Run(INITIAL, history, false) == Next(machine)
      && machine.core == Core(installed, breakOnNextLine, commandQueue, isConnected, waitingForDebugger)
      && (IsAsleep(machine) ==> notified == Top(machine).phase.notified)
    }

    constructor ()
      ensures Valid() && machine == INITIAL && history == []
    {
      installed, breakOnNextLine, isConnected, waitingForDebugger, notified := false, false, false, false, false;
      commandQueue := [];
      machine, history := INITIAL, [];
    }

    /** Records that `e` has just happened. */
    ghost method Advance(e: Event)
      requires Run(INITIAL, history, false) == Next(machine)
      requires Step(machine, e, false).Next? || Step(machine, e, false).Throws?
      modifies this`machine, this`history
      ensures Run(INITIAL, history, false) == Next(machine)
      ensures history == old(history) + [e]
      ensures machine == if Step(old(machine), e, false).Next? then Step(old(machine), e, false).state else old(machine)
    {
      hide Step;
      RunExtend(INITIAL, history, e, false);
      history := history + [e];
      if Step(machine, e, false).Next? {
        machine := Step(machine, e, false).state;
      }
    }

    method EnqueueCommand(command: Command)
      modifies this`commandQueue, this`notified
      ensures commandQueue == old(commandQueue) + [command] && notified
    {
      commandQueue := commandQueue + [command];
      notified := true;
    }

    method Connect(callbackGiven: bool, breakOnNextLine': bool) returns (r: CallResult)
      requires Valid()
      modifies this
      ensures Valid()
      ensures !callbackGiven <==> r == InvalidArgument
      ensures callbackGiven ==> (r == Done <==> !old(installed))
      ensures r == Done ==> ConnectStep(old(machine), breakOnNextLine') == Next(machine)
      ensures r != Done ==> machine == old(machine)
      ensures history == old(history) + if callbackGiven then [ClientConnect(breakOnNextLine')] else []
      ensures r == Done ==> installed && breakOnNextLine == breakOnNextLine'
      ensures commandQueue == old(commandQueue) + if r == Done then [Command.Connect] else []
    {
      if !callbackGiven {
        return InvalidArgument;
      }
      Advance(ClientConnect(breakOnNextLine'));
      if installed {
        return RuntimeError;
      }
      installed := true;
      breakOnNextLine := breakOnNextLine';
      EnqueueCommand(Command.Connect);
      return Done;
    }

    method Disconnect() returns (r: CallResult)
      requires Valid()
      modifies this
      ensures Valid()
      ensures r != InvalidArgument && (r == Done <==> old(installed))
      ensures r == Done ==> DisconnectStep(old(machine)) == Next(machine)
      ensures r != Done ==> machine == old(machine)
      ensures history == old(history) + [ClientDisconnect]
      ensures !installed && (r == Done ==> !breakOnNextLine)
      ensures commandQueue == old(commandQueue) + if r == Done then [Command.Disconnect] else []
    {
      Advance(ClientDisconnect);
      if !installed {
        return RuntimeError;
      }
      installed := false;
      breakOnNextLine := false;
      EnqueueCommand(Command.Disconnect);
      return Done;
    }

    method SendCommand(text: Text)
      requires Valid()
      modifies this
      ensures Valid() && machine == SendStep(old(machine), text)
      ensures history == old(history) + [ClientSend(text)]
      ensures commandQueue == old(commandQueue) + [Message(text)]
    {
      Advance(ClientSend(text));
      EnqueueCommand(Message(text));
    }

    method RunIfWaitingForDebugger()
      modifies this`waitingForDebugger
      ensures !waitingForDebugger
    {
      waitingForDebugger := false;
    }

    /** The answer is false where the C++ function throws. */
    method HandleConnect() returns (ok: bool)
      modifies this`isConnected
      ensures ok <==> !old(isConnected)
      ensures isConnected
    {
      if isConnected {
        return false;
      }
      isConnected := true;
      return true;
    }

    method HandleDisconnect() returns (ok: bool)
      modifies this`isConnected, this`waitingForDebugger
      ensures ok <==> old(isConnected)
      ensures !isConnected && waitingForDebugger == (!ok && old(waitingForDebugger))
    {
      if !isConnected {
        return false;
      }
      RunIfWaitingForDebugger();
      isConnected := false;
      return true;
    }

    /** One call made by another thread. */
    method Perform(call: ClientCall)
      requires Valid()
      modifies this
      ensures Valid() && OthersKeep(old(machine), machine) && history == old(history) + CallEvents(call)
      ensures |commandQueue| <= |old(commandQueue)| + 1
    {
      match call {
        case CallConnect(given, b) => var _ := Connect(given, b);
        case CallDisconnect => var _ := Disconnect();
        case CallSend(text) => SendCommand(text);
      }
    }

    /** Other threads get a turn. */
    method LetOthersRun(turns: seq<Turn>) returns (rest: seq<Turn>, spurious: bool)
      requires Valid()
      modifies this
      ensures Valid() && OthersKeep(old(machine), machine) && old(history) <= history
      ensures Work(rest) + |commandQueue| <= Work(turns) + |old(commandQueue)|
      ensures turns != [] ==> Work(rest) + |commandQueue| < Work(turns) + |old(commandQueue)|
      ensures rest == (if turns == [] then [] else turns[1..]) && (spurious <==> turns != [] && turns[0].SpuriousWake?)
      ensures history == old(history) + if turns != [] && turns[0].Calls? then AllCallEvents(turns[0].calls) else []
    {
      if turns == [] {
        return [], false;
      }
      rest, spurious := turns[1..], turns[0].SpuriousWake?;
      if turns[0].Calls? {
        var calls := turns[0].calls;
        hide CallEvents, OthersKeep, Run;
        for i := 0 to |calls|
          invariant Valid() && OthersKeep(old(machine), machine)
          invariant history == old(history) + AllCallEvents(calls[..i])
          invariant |commandQueue| <= |old(commandQueue)| + i
        {
          ghost var before := machine;
          Perform(calls[i]);
          OneMoreCall(old(history), calls, i);
          OthersKeepTrans(old(machine), before, machine);
        }
        assert calls[..|calls|] == calls;
      }
    }

    /** A message handler's effect on the queue: it may call `RunIfWaitingForDebugger`. */
    method HandleMessageReceived(text: Text, releases: Text -> bool)
      requires Valid() && machine.frames != [] && Top(machine).phase == InHandler
      modifies this
      ensures Valid() && commandQueue == old(commandQueue) && old(history) <= history
      ensures machine.frames == WithTop(old(machine), Top(old(machine)).(phase := Handling)).frames
      ensures machine.handled == old(machine.handled) && isConnected == old(isConnected)
      ensures waitingForDebugger == (old(waitingForDebugger) && !releases(text))
    {
      hide Run, AllCallEvents;
      if releases(text) {
        RunIfWaitingForDebugger();
        Advance(ClearWaiting);
      }
      Advance(FinishMessage);
    }

    /** Handles one command of the current batch. `releases` says which messages make their
        handler call `RunIfWaitingForDebugger`. Nothing throws. */
    method HandleCommand(command: Command, releases: Text -> bool)
      requires Valid() && machine.frames != [] && Top(machine).phase == Handling
      requires Top(machine).next < |Top(machine).batch| && command == Top(machine).batch[Top(machine).next]
      modifies this
      ensures Valid() && commandQueue == old(commandQueue) && old(history) <= history
      ensures machine.frames == WithTop(old(machine), Top(old(machine)).(next := Top(old(machine)).next + 1)).frames
      ensures machine.handled == old(machine.handled) + [command]
      ensures isConnected == if command.Message? then old(isConnected) else command.Connect?
      ensures waitingForDebugger == match command
                                    case Connect => old(waitingForDebugger)
                                    case Disconnect => false
                                    case Message(text) => old(waitingForDebugger) && !releases(text)
    {
      RunOrdered(history);
      HandleOrdered(machine, false);
      hide Ordered, Shape, Run;
      Advance(NextCommand);
      match command {
        case Connect =>
          var ok := HandleConnect();
          assert ok;
        case Disconnect =>
          var ok := HandleDisconnect();
          assert ok;
        case Message(text) =>
          HandleMessageReceived(text, releases);
      }
    }

    /** `m_commandWaiting.wait(lock)`, with the queue empty and the flag set. Other threads run
        until one notifies or the wait wakes up by itself. */
    method Sleep(turns: seq<Turn>, ghost frame: Frame) returns (rest: seq<Turn>, woken: bool)
      requires Valid() && machine.frames == [frame.(phase := AtLock)] && waitingForDebugger && commandQueue == []
      modifies this
      ensures Valid() && old(history) <= history && waitingForDebugger
      ensures machine.frames == [frame.(phase := Asleep(notified))]
      ensures woken ==> Work(rest) + |commandQueue| < Work(turns)
      ensures !woken ==> rest == [] && !notified
    {
      hide Run, AllCallEvents;
      Advance(TakeLock);
      notified := false;
      rest, woken := turns, false;
      while !woken && rest != []
        invariant Valid() && old(history) <= history && waitingForDebugger
        invariant machine.frames == [frame.(phase := Asleep(notified))]
        invariant if woken then Work(rest) + |commandQueue| < Work(turns)
                  else !notified && Work(rest) + |commandQueue| <= Work(turns)
        decreases !woken, Work(rest) + |commandQueue|
      {
        var spurious: bool;
        rest, spurious := LetOthersRun(rest);
        woken := notified || spurious;
      }
    }

    /** The locked part of one round: waits if told to and swaps the queue out. */
    method TakeBatch(turns: seq<Turn>, ghost frame: Frame) returns (rest: seq<Turn>, taken: bool, current: seq<Command>)
      requires Valid() && machine.frames == [frame] && frame.phase == AtLock && frame.batch == [] && frame.next == 0
      modifies this
      ensures Valid() && old(history) <= history
      ensures taken ==> machine.frames == [frame.(phase := Handling, batch := current, next := 0)] && commandQueue == []
      ensures !taken ==> rest == [] && IsAsleep(machine) && !notified && waitingForDebugger
      ensures waitingForDebugger == old(waitingForDebugger)
      ensures taken ==> Work(rest) + |current| <= Work(turns) + |old(commandQueue)|
      ensures taken && current == [] && waitingForDebugger ==> Work(rest) < Work(turns) + |old(commandQueue)|
    {
      hide Run, AllCallEvents;
      var spurious: bool;
      rest, spurious := LetOthersRun(turns);
      if waitingForDebugger && commandQueue == [] {
        rest, taken := Sleep(rest, frame);
        if !taken {
          return rest, false, [];
        }
        Advance(Wake(true));
      } else {
        Advance(TakeLock);
      }
      taken, current, commandQueue := true, commandQueue, [];
    }

    /** The test at the end of a round. */
    ghost method EndRound(frame: Frame, current: seq<Command>)
      requires Valid() && machine.frames == [frame.(phase := Handling, batch := current, next := |current|)]
      requires frame.phase == AtLock && frame.batch == [] && frame.next == 0
      modifies this`machine, this`history
      ensures Valid() && old(history) <= history
      ensures machine.frames == if waitingForDebugger || current != [] then [frame] else []
      ensures machine.frames == [] && frame.forDebugger ==> machine.clears > frame.clearsAtEntry
    {
      RunInvariant(history, false);
      hide Run, Shape, Conserved;
      Advance(LoopTest);
    }

    /** The loop of `ProcessCommandQueue`, entered with the innermost activation before its lock.
        It stops early only if it sleeps and nothing will ever wake it. */
    method Drain(turns: seq<Turn>, releases: Text -> bool) returns (rest: seq<Turn>, outcome: DrainResult)
      requires Valid() && |machine.frames| == 1 && Top(machine).phase == AtLock && Top(machine).batch == [] &&
               Top(machine).next == 0
      modifies this
      ensures Valid() && old(history) <= history
      ensures outcome == Returned ==> machine.frames == [] && !waitingForDebugger
      ensures outcome == StillAsleep ==> rest == [] && IsAsleep(machine) && !notified && waitingForDebugger
      ensures !old(waitingForDebugger) ==> outcome == Returned
      ensures outcome == Returned && Top(old(machine)).forDebugger ==> machine.clears > Top(old(machine)).clearsAtEntry
    {
      hide Run, AllCallEvents;
      ghost var frame := Top(machine);
      rest := turns;
      var again := true;
      while again
        invariant Valid() && old(history) <= history
        invariant machine.frames == if again then [frame] else []
        invariant !again ==> !waitingForDebugger
        invariant waitingForDebugger ==> old(waitingForDebugger)
        invariant !again && frame.forDebugger ==> machine.clears > frame.clearsAtEntry
        decreases again, Work(rest) + |commandQueue|
      {
        var taken, current;
        rest, taken, current := TakeBatch(rest, frame);
        if !taken {
          return rest, StillAsleep;
        }
        rest := HandleBatch(current, releases, rest, frame);
        EndRound(frame, current);
        again := waitingForDebugger || current != [];
      }
      outcome := Returned;
    }

    method HandleBatch(current: seq<Command>, releases: Text -> bool, turns: seq<Turn>, ghost frame: Frame)
      returns (rest: seq<Turn>)
      requires Valid() && machine.frames == [frame.(phase := Handling, batch := current, next := 0)]
      modifies this
      ensures Valid() && old(history) <= history
      ensures machine.frames == [frame.(phase := Handling, batch := current, next := |current|)]
      ensures Work(rest) + |commandQueue| <= Work(turns) + |old(commandQueue)|
      ensures waitingForDebugger ==> old(waitingForDebugger)
      ensures current == [] ==> waitingForDebugger == old(waitingForDebugger)
    {
      hide Run, AllCallEvents;
      rest := turns;
      var spurious: bool;
      for i := 0 to |current|
        invariant Valid() && old(history) <= history
        invariant machine.frames == [frame.(phase := Handling, batch := current, next := i)]
        invariant waitingForDebugger ==> old(waitingForDebugger)
        invariant i == 0 ==> waitingForDebugger == old(waitingForDebugger)
        invariant Work(rest) + |commandQueue| <= Work(turns) + |old(commandQueue)|
      {
        rest, spurious := LetOthersRun(rest);
        HandleCommand(current[i], releases);
      }
      rest, spurious := LetOthersRun(rest);
    }

    lemma {:induction false} HandledInOrder()
      requires Valid() && machine.frames == []
      ensures machine.enqueued == machine.handled + commandQueue
    {
      RunOrdered(history);
      hide Run, AllCallEvents;
      assert [] + commandQueue == commandQueue;
    }

    /** Returns with the flag clear and everything handled, in order, that was enqueued before
        its last look at the queue; or, only if the flag was set, sleeps on an empty queue for good. */
    method ProcessCommandQueue(turns: seq<Turn>, releases: Text -> bool) returns (outcome: DrainResult)
      requires Valid() && machine.frames == []
      modifies this
      ensures Valid() && old(history) <= history
      ensures !old(waitingForDebugger) ==> outcome == Returned
      ensures outcome == Returned ==> machine.frames == [] && !waitingForDebugger
      ensures outcome == Returned ==> machine.enqueued == machine.handled + commandQueue
      ensures outcome == StillAsleep ==> IsAsleep(machine) && commandQueue == [] && waitingForDebugger
    {
      Advance(Enter(false));
      var rest;
      rest, outcome := Drain(turns, releases);
      if outcome == Returned {
        HandledInOrder();
      } else {
        RunInvariant(history, false);
      }
    }

    /** Returns only after a command handled since the call has cleared the flag. */
    method WaitForDebugger(turns: seq<Turn>, releases: Text -> bool) returns (outcome: DrainResult)
      requires Valid() && machine.frames == []
      modifies this
      ensures Valid() && old(history) <= history
      ensures outcome == Returned ==> machine.frames == [] && !waitingForDebugger &&
                                      machine.clears > old(machine.clears)
      ensures outcome == Returned ==> machine.enqueued == machine.handled + commandQueue
      ensures outcome == StillAsleep ==> IsAsleep(machine) && commandQueue == [] && waitingForDebugger
    {
      waitingForDebugger := true;
      Advance(Enter(true));
      var rest;
      rest, outcome := Drain(turns, releases);
      if outcome == Returned {
        HandledInOrder();
      } else {
        RunInvariant(history, false);
      }
    }
  }
}
