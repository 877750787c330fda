/** Which agent the debugger's callbacks point to while agents come and go. The break callback
    that disabling leaves behind is never called, because of the enabled flag alone. */
module AgentLifetime {
  import opened String16
  import opened Breakpoints
  import opened DebuggerAgent

  // ---------------------------------------------------------------- as a machine

  datatype Agent = Agent(number: nat, enabled: bool)

  /** Agents are numbered in the order in which they are made. */
  datatype Life = Life(enabled: bool, source: Option<nat>, breaks: Option<nat>, agent: Option<Agent>, born: nat)

  const UNBORN := Life(false, None, None, None, 0)

  datatype LifeEvent = Connected | Disconnected | AgentEnable | AgentDisable | SourceEvent | BreakEvent

  function AfterDisable(l: Life): Life {
    match l.agent
    case Some(Agent(n, true)) => l.(enabled := false, source := None, agent := Some(Agent(n, false)))
    case _ => l
  }

  function LifeStep(l: Life, e: LifeEvent): Life {
    match e
    case Connected => if l.agent.Some? then l else l.(agent := Some(Agent(l.born, false)), born := l.born + 1)
    case Disconnected => AfterDisable(l).(agent := None)
    case AgentEnable =>
      (match l.agent
       case Some(Agent(n, false)) =>
         l.(enabled := true, source := Some(n), breaks := Some(n), agent := Some(Agent(n, true)))
       case _ => l)
    case AgentDisable => AfterDisable(l)
    case _ => l
  }

  function LifeRun(events: seq<LifeEvent>): Life {
    if events == [] then UNBORN else LifeStep(LifeRun(events[..|events| - 1]), events[|events| - 1])
  }

  /** The agent that an engine event is handed to. */
  function Receiver(l: Life, e: LifeEvent): Option<nat> {
    match e
    case SourceEvent => if l.enabled then l.source else None
    case BreakEvent => if l.enabled then l.breaks else None
    case _ => None
  }

  ghost predicate CallbacksLive(l: Life) {
    && (l.enabled <==> l.agent.Some? && l.agent.value.enabled)
    && (l.enabled ==> l.source == l.breaks == Some(l.agent.value.number))
    && (!l.enabled ==> l.source == None)
  }

  /** Over every run, each engine event reaches exactly the live, enabled agent, if there is one. */
  lemma {:induction false} NoStaleCallback(events: seq<LifeEvent>, e: LifeEvent)
    ensures CallbacksLive(LifeRun(events))
    ensures e == SourceEvent || e == BreakEvent ==>
              Receiver(LifeRun(events), e) ==
              match LifeRun(events).agent
              case Some(Agent(n, true)) => Some(n)
              case _ => None
  {
    if events != [] {
      NoStaleCallback(events[..|events| - 1], e);
    }
  }

  /** Without the flag it would be: disabling leaves the break callback as it was, so after a
      disconnect it points to an agent that no longer exists. */
  lemma {:induction false} BreakCallbackDangles(events: seq<LifeEvent>)
    requires LifeRun(events).enabled
    ensures var l := LifeRun(events + [Disconnected]);
            l.breaks == LifeRun(events).breaks && l.breaks.Some? && l.agent == None
  {
    assert (events + [Disconnected])[..|events|] == events;
    NoStaleCallback(events, BreakEvent);
  }

  // ---------------------------------------------------------------- as objects

  datatype Message =
    | EnableMessage(scripts: seq<Script>)
    | DisableMessage
    | PauseMessage
    | ByUrlMessage(line: int32, url: Option<Text>, urlRegex: Option<Text>, column: Option<int32>,
                   condition: Option<Text>)
    | AtLocationMessage(scriptId: Text, lineNumber: int32, columnNumber: Option<int32>, cond: Option<Text>)
    | RemoveMessage(key: Text)

  /** A connect carries the flag that asks for a break on the next line, as it stands when the connect
      is handled. */
  datatype Command = Connect(breakOnNextLine: bool) | Disconnect | Deliver(message: Message)

  datatype DebugEvent =
    | Compiled(script: Script, success: bool)
    | Hit(id: BreakpointId)
    | AsyncBreak(hit: BreakpointId)

  function HitOf(event: DebugEvent): BreakpointId
    requires !event.Compiled?
  {
    if event.Hit? then event.id else event.hit
  }

  predicate Named(scripts: seq<Script>) {
    forall i :: 0 <= i < |scripts| ==> scripts[i].scriptId != []
  }

  predicate WellNamed(commands: seq<Command>) {
    forall i :: 0 <= i < |commands| && commands[i].Deliver? && commands[i].message.EnableMessage? ==>
                  Named(commands[i].message.scripts)
  }

  /** What a command means for the lifetime of agents. */
  function Effect(c: Command): seq<LifeEvent> {
    match c
    case Connect(_) => [Connected]
    case Disconnect => [Disconnected]
    case Deliver(EnableMessage(_)) => [AgentEnable]
    case Deliver(DisableMessage) => [AgentDisable]
    case Deliver(_) => []
  }

  function Effects(commands: seq<Command>): seq<LifeEvent> {
    if commands == [] then [] else Effects(commands[..|commands| - 1]) + Effect(commands[|commands| - 1])
  }

  lemma {:induction false} OneMoreCommand(h: seq<LifeEvent>, commands: seq<Command>, i: nat)
    requires i < |commands| && WellNamed(commands)
    ensures WellNamed([commands[i]])
    ensures h + Effects(commands[..i]) + Effect(commands[i]) == h + Effects(commands[..i + 1])
  {
    hide Effect;
    assert commands[..i + 1][..i] == commands[..i];
  }

  // ---------------------------------------------------------------- what commands and events come to

  /** The state of a session: its agents, the maps of the one that is there, the engine's breakpoints,
      and whether a pause was asked for. */
  datatype Snapshot = Snapshot(life: Life, agent: Option<Registry>, engine: set<BreakpointId>, pauseAsked: bool)

  /** A message does to the agent's registry what it asks for. */
  ghost predicate Obeys(r: Registry, m: Message, regex: Regex, reply: Reply, r': Registry) {
    match m
    case EnableMessage(scripts) =>
      if r.enabled then r' == r else r'.enabled && (reply == Threw || Loads(r.(enabled := true), scripts, regex, r'))
    case DisableMessage => r' == Disabled(r)
    case PauseMessage => r' == r
    case ByUrlMessage(line, url, urlRegex, column, condition) =>
      Step(r, SetBreakpointByUrl(line, url, urlRegex, column, condition), regex, reply, r')
    case AtLocationMessage(scriptId, line, column, condition) =>
      Step(r, SetBreakpoint(scriptId, line, column, condition), regex, reply, r')
    case RemoveMessage(key) => Step(r, RemoveBreakpoint(key), regex, reply, r')
  }

  /** Without an agent, a message does nothing. */
  ghost predicate Delivers(s: Snapshot, m: Message, regex: Regex, s': Snapshot) {
    if s.agent.None? then s'.agent == None && s'.engine == s.engine && s'.pauseAsked == s.pauseAsked
    else
      && s'.agent.Some? && s'.engine == s'.agent.value.engine
      && s'.pauseAsked == (s.pauseAsked || m.PauseMessage?)
      && exists reply :: Obeys(s.agent.value, m, regex, reply, s'.agent.value)
  }

  /** One command: a connect makes an agent that knows nothing, and a disconnect destroys the agent. */
  ghost predicate Handles(s: Snapshot, c: Command, regex: Regex, s': Snapshot) {
    match c
    case Connect(breakOnNextLine) =>
      && s'.life == LifeStep(s.life, Connected) && s'.engine == s.engine
      && s'.agent == (if s.agent.None? then Some(Registry(false, map[], map[], s.engine, map[])) else s.agent)
      && s'.pauseAsked == (s.pauseAsked || (s.agent.None? && breakOnNextLine))
    case Disconnect =>
      && s'.life == LifeStep(s.life, Disconnected) && s'.agent == None && s'.pauseAsked == s.pauseAsked
      && s'.engine == if s.agent.Some? then Disabled(s.agent.value).engine else s.engine
    case Deliver(m) =>
      && s'.life == (if m.EnableMessage? then LifeStep(s.life, AgentEnable)
                     else if m.DisableMessage? then LifeStep(s.life, AgentDisable) else s.life)
      && Delivers(s, m, regex, s')
  }

  ghost predicate HandlesLast(m: Snapshot, commands: seq<Command>, regex: Regex, s': Snapshot) {
    commands != [] && Handles(m, commands[|commands| - 1], regex, s')
  }

  /** All the commands, one after the other. */
  ghost predicate HandlesAll(s: Snapshot, commands: seq<Command>, regex: Regex, s': Snapshot) {
    if commands == [] then s' == s
    else exists m: Snapshot :: HandlesAll(s, commands[..|commands| - 1], regex, m) &&
                               HandlesLast(m, commands, regex, s')
  }

  lemma {:induction false} HandlesOneMore(s: Snapshot, commands: seq<Command>, i: nat, regex: Regex, m: Snapshot,
                                          s': Snapshot)
    requires i < |commands| && HandlesAll(s, commands[..i], regex, m) && Handles(m, commands[i], regex, s')
    ensures HandlesAll(s, commands[..i + 1], regex, s')
  {
    hide Handles;
    assert commands[..i + 1][..i] == commands[..i];
    assert HandlesLast(m, commands[..i + 1], regex, s');
  }

  /** The agent that is there and enabled. */
  function LiveAgent(l: Life): Option<nat> {
    match l.agent
    case Some(Agent(n, true)) => Some(n)
    case _ => None
  }

  /** A break: the live, enabled agent is asked, unless a pause is under way. If it does not skip the
      pause, the commands that come in meanwhile are handled; otherwise nothing happens. */
  ghost predicate Breaks(s: Snapshot, id: BreakpointId, evaluate: Text -> Evaluation, whilePaused: seq<Command>,
                         regex: Regex, nested: bool, reached: Option<nat>, s': Snapshot)
  {
    && reached == (if nested then None else LiveAgent(s.life))
    && if reached.Some? && s.agent.Some? && Pauses(s.agent.value.breakpoints, false, id, evaluate)
       then HandlesAll(s, whilePaused, regex, s') else s' == s
  }

  /** The client is told of the pause if it is not skipped. */
  ghost predicate Tells(s: Snapshot, id: BreakpointId, evaluate: Text -> Evaluation, who: DebuggerImpl?,
                        said: seq<Notification>)
    reads who
    requires s.agent.Some?
  {
    && who != null
    && (if Pauses(s.agent.value.breakpoints, false, id, evaluate) then said + [Paused] <= who.sent
        else who.sent == said)
  }

  /** A script event is worked through, or left where an engine call threw. */
  ghost predicate Sources(r: Registry, script: Script, regex: Regex, r': Registry) {
    SourceStep(r, script, regex, r') || exists done, stuck :: StoppedAt(r, script, regex, done, stuck, r')
  }

  /** The owner of the agent: the part of the protocol handler that makes and destroys it. */
  class Session {
    const debugger: Debugger
    var agent: DebuggerImpl?
    ghost var born: nat
    ghost var history: seq<LifeEvent>

    constructor (debugger': Debugger)
      requires !debugger'.isEnabled && debugger'.sourceCallback == null && debugger'.breakCallback == null
      ensures Valid() && debugger == debugger' && agent == null && history == []
    {
      debugger := debugger';
      agent := null;
      born, history := 0, [];
    }

    ghost function Number(a: DebuggerImpl?): Option<nat> {
      if a == null then None else Some(a.number)
    }

    ghost function Current(): Life
      reads this, debugger, agent
    {
      Life(debugger.isEnabled, Number(debugger.sourceCallback), Number(debugger.breakCallback),
           if agent == null then None else Some(Agent(agent.number, agent.isEnabled)), born)
    }

    ghost function Now(): Snapshot
      reads this, debugger, debugger.engine, agent
      requires agent != null ==> agent.debugger == debugger
    {
      Snapshot(Current(), if agent == null then None else Some(agent.Model()), debugger.engine.ids,
               debugger.shouldPauseOnNextStatement)
    }

    /** What the agent that was there has told the client stands. */
    twostate predicate Keeps(a: DebuggerImpl?)
      reads a
    {
      a != null ==> old(a.sent) <= a.sent
    }

    /** The enabled flag is that of a live agent, and then both callbacks are that agent. */
    ghost predicate Valid()
      reads this, debugger, debugger.engine, agent
    {
      && Current() == LifeRun(history)
      && (agent != null ==>
            agent.debugger == debugger && !agent.destroyed && agent.Valid() && !agent.shouldSkipAllPauses)
      && (debugger.isEnabled <==> agent != null && agent.isEnabled)
      && (debugger.isEnabled ==> debugger.sourceCallback == agent && debugger.breakCallback == agent)
    }

    ghost method Record(e: LifeEvent)
      modifies this`history
      ensures history == old(history) + [e] && LifeRun(history) == LifeStep(LifeRun(old(history)), e)
    {
      history := history + [e];
      assert history[..|history| - 1] == old(history);
    }

    method HandleConnect(breakOnNextLine: bool)
      requires Valid()
      modifies this, debugger
      ensures Valid() && history == old(history) + [Connected]
      ensures Handles(old(Now()), Connect(breakOnNextLine), debugger.engine.regex, Now())
      ensures agent != null && (old(agent) != null ==> agent == old(agent)) && (old(agent) == null ==> fresh(agent))
      ensures debugger.isRunningNestedMessageLoop == old(debugger.isRunningNestedMessageLoop)
      ensures debugger.isPaused == old(debugger.isPaused)
    {
      Record(Connected);
      if agent == null {
        agent := new DebuggerImpl(debugger, born);
        if breakOnNextLine {
          debugger.shouldPauseOnNextStatement := true;
        }
        born := born + 1;
      }
    }

    method HandleDisconnect()
      requires Valid()
      modifies this, debugger, debugger.engine, agent
      ensures Valid() && history == old(history) + [Disconnected]
      ensures Handles(old(Now()), Disconnect, debugger.engine.regex, Now())
      ensures agent == null && !debugger.isEnabled && (old(agent) != null ==> old(agent).destroyed)
      ensures debugger.FlagsKept() && Keeps(old(agent))
    {
      Record(Disconnected);
      if agent != null {
        agent.Destruct();
        agent := null;
      }
    }

    /** A message for the debugger agent; nothing is done without one. */
    method HandleMessage(m: Message)
      requires Valid() && (m.EnableMessage? ==> Named(m.scripts))
      modifies this`history, debugger, debugger.engine, agent
      ensures Valid() && history == old(history) + Effect(Deliver(m))
      ensures Handles(old(Now()), Deliver(m), debugger.engine.regex, Now())
      ensures debugger.isRunningNestedMessageLoop == old(debugger.isRunningNestedMessageLoop)
      ensures debugger.isPaused == old(debugger.isPaused) && Keeps(agent)
    {
      hide Step, Loads, PlacesDistinct, LedTo, Answered, LifeRun;
      if m.EnableMessage? || m.DisableMessage? {
        Record(Effect(Deliver(m))[0]);
      }
      if agent == null {
        return;
      }
      var reply: Reply := Success;
      match m {
        case EnableMessage(scripts) =>
          var threw := agent.Enable(scripts);
          reply := if threw then Threw else Success;
        case DisableMessage =>
          agent.Disable();
        case PauseMessage =>
          debugger.shouldPauseOnNextStatement := true;
        case ByUrlMessage(line, url, urlRegex, column, condition) =>
          reply := agent.SetBreakpointByUrl(line, url, urlRegex, column, condition);
        case AtLocationMessage(scriptId, line, column, condition) =>
          reply := agent.SetBreakpoint(scriptId, line, column, condition);
        case RemoveMessage(key) =>
          reply := agent.RemoveBreakpoint(key);
      }
      assert Obeys(old(agent.Model()), m, debugger.engine.regex, reply, agent.Model());
    }

    method HandleCommand(command: Command)
      requires Valid() && WellNamed([command])
      modifies this, debugger, debugger.engine, agent
      ensures Valid() && history == old(history) + Effect(command)
      ensures Handles(old(Now()), command, debugger.engine.regex, Now())
      ensures agent == null || agent == old(agent) || fresh(agent)
      ensures debugger.isRunningNestedMessageLoop == old(debugger.isRunningNestedMessageLoop)
      ensures debugger.isPaused == old(debugger.isPaused) && Keeps(old(agent))
    {
      hide Handles;
      match command {
        case Connect(b) => HandleConnect(b);
        case Disconnect => HandleDisconnect();
        case Deliver(m) => assert [command][0] == command; HandleMessage(m);
      }
    }

    /** What the queue holds when the script thread drains it. */
    method Process(commands: seq<Command>)
      requires Valid() && WellNamed(commands)
      modifies this, debugger, debugger.engine, agent
      ensures Valid() && history == old(history) + Effects(commands)
      ensures HandlesAll(old(Now()), commands, debugger.engine.regex, Now())
      ensures agent == null || agent == old(agent) || fresh(agent)
      ensures debugger.isRunningNestedMessageLoop == old(debugger.isRunningNestedMessageLoop)
      ensures debugger.isPaused == old(debugger.isPaused) && Keeps(old(agent))
    {
      for i := 0 to |commands|
        invariant Valid() && history == old(history) + Effects(commands[..i])
        invariant HandlesAll(old(Now()), commands[..i], debugger.engine.regex, Now())
        invariant agent == null || agent == old(agent) || fresh(agent)
        invariant debugger.isRunningNestedMessageLoop == old(debugger.isRunningNestedMessageLoop)
        invariant debugger.isPaused == old(debugger.isPaused) && Keeps(old(agent))
      {
        hide LifeRun, Effect, Effects, WellNamed, Handles, HandlesAll, Valid;
        OneMoreCommand(old(history), commands, i);
        ghost var m := Now();
        HandleCommand(commands[i]);
        HandlesOneMore(old(Now()), commands, i, debugger.engine.regex, m, Now());
      }
      assert commands[..|commands|] == commands;
    }

    /** An event of the engine. Commands are handled first, and again while paused, so the agent may be
        gone at any of these points. `before` and `mid` are the history and the state when the event
        itself is looked at, `reached` is the agent, if any, whose callback is called, and `who` that
        agent with what it had `said`. */
    method HandleDebugEvent(event: DebugEvent, evaluate: Text -> Evaluation, queued: seq<Command>,
                            whilePaused: seq<Command>)
      returns (ghost before: seq<LifeEvent>, ghost mid: Snapshot, ghost reached: Option<nat>,
               ghost who: DebuggerImpl?, ghost said: seq<Notification>)
      requires Valid() && WellNamed(queued) && WellNamed(whilePaused) &&
               (event.Compiled? ==> event.script.scriptId != [])
      modifies this, debugger, debugger.engine, agent
      ensures Valid() && before == old(history) + Effects(queued) && mid.life == LifeRun(before)
      ensures HandlesAll(old(Now()), queued, debugger.engine.regex, mid)
      ensures reached.Some? ==> who != null && who.number == reached.value && mid.agent.Some?
      ensures event.Compiled? ==> reached == LiveAgent(mid.life) && history == before
      ensures event.Compiled? && reached.None? ==> Now() == mid
      ensures event.Compiled? && reached.Some? ==>
                && Now().agent.Some? && |said| < |who.sent| &&
                   who.sent[|said|] == ScriptEvent(event.script, event.success)
                && Sources(mid.agent.value, event.script, debugger.engine.regex, Now().agent.value)
      ensures event.Hit? ==>
                && Breaks(mid, event.id, evaluate, whilePaused, debugger.engine.regex,
                          old(debugger.isRunningNestedMessageLoop), reached, Now())
                && (reached.Some? ==> Tells(mid, event.id, evaluate, who, said))
      ensures !event.Compiled? ==>
                history == before + if reached.Some? &&
                                       Pauses(mid.agent.value.breakpoints, false, HitOf(event), evaluate)
                then Effects(whilePaused) else []
      ensures event.AsyncBreak? && !(mid.life.enabled && mid.pauseAsked) ==> reached.None? && Now() == mid
      ensures event.AsyncBreak? && mid.life.enabled && mid.pauseAsked ==>
                && Breaks(mid.(pauseAsked := false), event.hit, evaluate, whilePaused, debugger.engine.regex,
                          old(debugger.isRunningNestedMessageLoop), reached, Now())
                && (reached.Some? ==> Tells(mid, event.hit, evaluate, who, said))
    {
      hide LifeRun, Effects, PlacesDistinct, LedTo, SourceStep, Announces, TellsAll, StoppedAt, HandlesAll, Answered,
        Pauses, Asks, AsksUntil;
      Process(queued);
      before, mid, reached, who, said := history, Now(), None, agent, if agent == null then [] else agent.sent;
      if !debugger.isEnabled {
        return;
      }
      match event {
        case Compiled(script, success) =>
          if debugger.sourceCallback != null {
            reached := Some(debugger.sourceCallback.number);
            ghost var told, done, stuck;
            var threw;
            threw, told, done, stuck := debugger.sourceCallback.HandleSourceEvent(script, success);
            AnnouncesMore(said, who.sent, ScriptEvent(script, success), told, who.breakpointMap);
          }
        case Hit(id) =>
          ghost var flags;
          reached, flags := HandleBreak(id, evaluate, whilePaused);
        case AsyncBreak(id) =>
          if debugger.shouldPauseOnNextStatement {
            debugger.shouldPauseOnNextStatement := false;
            ghost var flags;
            reached, flags := HandleBreak(id, evaluate, whilePaused);
          }
      }
    }

    /** `HandleBreak`: pauses are not nested, both flags are set while the commands that come in are
        handled (`flags`), and they are as before once it returns. */
    method HandleBreak(id: BreakpointId, evaluate: Text -> Evaluation, whilePaused: seq<Command>)
      returns (ghost reached: Option<nat>, ghost flags: (bool, bool))
      requires Valid() && debugger.isEnabled && WellNamed(whilePaused)
      modifies this, debugger, debugger.engine, agent
      ensures Valid()
      ensures agent == null || agent == old(agent) || fresh(agent)
      ensures debugger.isRunningNestedMessageLoop == old(debugger.isRunningNestedMessageLoop)
      ensures !old(debugger.isRunningNestedMessageLoop) ==> !debugger.isPaused
      ensures reached.Some? && Pauses(old(agent.breakpointMap), false, id, evaluate) ==> flags == (true, true)
      ensures Breaks(old(Now()), id, evaluate, whilePaused, debugger.engine.regex,
                     old(debugger.isRunningNestedMessageLoop), reached, Now())
      ensures reached.Some? ==>
                old(agent) != null && old(agent).number == reached.value &&
                Tells(old(Now()), id, evaluate, old(agent), old(agent.sent))
      ensures history == old(history) + if reached.Some? && Pauses(old(agent.breakpointMap), false, id, evaluate)
                         then Effects(whilePaused) else []
    {
      reached, flags := None, (false, false);
      if debugger.isRunningNestedMessageLoop {
        return;
      }
      if debugger.breakCallback != null {
        debugger.isPaused := true;
        reached := Some(debugger.breakCallback.number);
        var request := debugger.breakCallback.HandleBreakEvent(id, evaluate);
        if request == NoSkip {
          debugger.isRunningNestedMessageLoop := true;
          flags := (debugger.isPaused, debugger.isRunningNestedMessageLoop);
          Process(whilePaused);
          debugger.isRunningNestedMessageLoop := false;
        }
        debugger.isPaused := false;
      }
    }
  }
}
