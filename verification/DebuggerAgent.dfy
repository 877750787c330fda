/** The debugger and its agent as objects: the loops over the two hash maps, the engine they
    drive, and the callbacks that the engine's events arrive through. */
module DebuggerAgent {
  import opened String16
  import opened Names
  import opened Breakpoints

  /** A request to the engine for a breakpoint, and what the engine said. */
  datatype EngineRequest = EngineRequest(scriptId: Text, line: int32, column: int32, answer: Answer)

  /** The request that an entry with this script and place stands for. */
  function RequestOf(b: Breakpoint): EngineRequest {
    EngineRequest(b.scriptId, b.line, b.column, Placed(b.actual))
  }

  /** Where each placed entry is, is what the engine said when asked for its script, line and column. */
  ghost predicate Answered(breakpoints: map<Text, Breakpoint>, log: seq<EngineRequest>) {
    forall k :: k in breakpoints && breakpoints[k].actual != NOWHERE ==>
                  IsScriptLoaded(breakpoints[k]) && RequestOf(breakpoints[k]) in log
  }

  /** The script engine. Whatever its `answers` would say, a breakpoint is either refused or
      placed at a proper position under an id not in use. */
  class Engine {
    var ids: set<BreakpointId>
    var calls: nat
    const answers: nat -> Answer
    const regex: Regex
    /** Everything it was asked, in order. */
    ghost var log: seq<EngineRequest>

    constructor (answers': nat -> Answer, regex': Regex)
      ensures ids == {} && regex == regex' && log == []
    {
      ids, calls, answers, regex, log := {}, 0, answers', regex', [];
    }

    method SetBreakpoint(scriptId: Text, line: int32, column: int32) returns (a: Answer)
      modifies this
      ensures a.Placed? ==> Proper(a.place) && a.place.id !in old(ids) && ids == old(ids) + {a.place.id}
      ensures a.Refused? ==> ids == old(ids)
      ensures log == old(log) + [EngineRequest(scriptId, line, column, a)]
    {
      a, calls := answers(calls), calls + 1;
      if a.Placed? {
        if !Proper(a.place) || a.place.id in ids {
          a := Refused;
        } else {
          ids := ids + {a.place.id};
        }
      }
      log := log + [EngineRequest(scriptId, line, column, a)];
    }

    method RemoveBreakpoint(id: BreakpointId) returns (ok: bool)
      modifies this`ids
      ensures ok <==> id in old(ids)
      ensures ids == old(ids) - {id}
    {
      ok, ids := id in ids, ids - {id};
    }

    /** The ids in some order. */
    method GetBreakpoints() returns (list: seq<BreakpointId>)
      ensures forall x :: x in list <==> x in ids
      ensures forall i, j :: 0 <= i < j < |list| ==> list[i] != list[j]
    {
      list := [];
      var todo := ids;
      while todo != {}
        invariant todo <= ids
        invariant forall x :: x in list <==> x in ids - todo
        invariant forall i, j :: 0 <= i < j < |list| ==> list[i] != list[j]
      {
        var x :| x in todo;
        assert x !in list;
        list, todo := list + [x], todo - {x};
      }
    }
  }

  class Debugger {
    const engine: Engine
    var isEnabled: bool
    var isPaused: bool
    var isRunningNestedMessageLoop: bool
    var shouldPauseOnNextStatement: bool
    var sourceCallback: DebuggerImpl?
    var breakCallback: DebuggerImpl?

    constructor (engine': Engine)
      ensures engine == engine' && !isEnabled && sourceCallback == null && breakCallback == null
      ensures !isPaused && !isRunningNestedMessageLoop && !shouldPauseOnNextStatement
    {
      engine := engine';
      isEnabled, isPaused, isRunningNestedMessageLoop, shouldPauseOnNextStatement := false, false, false, false;
      sourceCallback, breakCallback := null, null;
    }

    twostate predicate FlagsKept()
      reads this
    {
      && isPaused == old(isPaused) && isRunningNestedMessageLoop == old(isRunningNestedMessageLoop)
      && shouldPauseOnNextStatement == old(shouldPauseOnNextStatement)
    }

    method Enable()
      modifies this`isEnabled
      ensures isEnabled
    {
      if isEnabled {
        return;
      }
      isEnabled := true;
    }

    /** Removes every breakpoint of the engine, but only if the debugger was enabled. */
    method Disable()
      modifies this`isEnabled, engine
      ensures !isEnabled && engine.ids == if old(isEnabled) then {} else old(engine.ids)
      ensures engine.log == old(engine.log)
    {
      if !isEnabled {
        return;
      }
      isEnabled := false;
      ClearBreakpoints();
    }

    method ClearBreakpoints()
      modifies engine
      ensures engine.ids == {} && engine.log == old(engine.log)
    {
      var list := engine.GetBreakpoints();
      for i := 0 to |list|
        invariant forall x :: x in engine.ids <==> x in list[i..]
        invariant engine.log == old(engine.log)
      {
        assert list[i..] == [list[i]] + list[i + 1..];
        var ok := engine.RemoveBreakpoint(list[i]);
        assert ok;
      }
    }

    /** `SetBreakpoint` and the resolution it reports; nothing where the engine's refusal throws. */
    method SetBreakpoint(b: Breakpoint) returns (placed: Option<Breakpoint>)
      modifies engine
      ensures placed.None? ==> engine.ids == old(engine.ids)
      ensures placed.Some? ==>
                && placed.value == b.(actual := placed.value.actual)
                && Proper(placed.value.actual) && placed.value.actual.id !in old(engine.ids)
                && engine.ids == old(engine.ids) + {placed.value.actual.id}
      ensures engine.log == old(engine.log) +
                            [EngineRequest(b.scriptId, b.line, b.column, if placed.None? then Refused
                                           else Placed(placed.value.actual))]
    {
      var a := engine.SetBreakpoint(b.scriptId, b.line, b.column);
      placed := match a case Refused => None case Placed(place) => Some(b.(actual := place));
    }
  }

  datatype Notification =
    | ScriptParsed(scriptId: Text, url: Text)
    | ScriptFailedToParse(scriptId: Text, url: Text)
    | BreakpointResolved(key: Text, location: Location)
    | Paused

  datatype SkipPauseRequest = NoSkip | Continue

  /** What evaluating a condition on the top frame comes to. */
  datatype Evaluation = Throws | Fails | Gives(truth: bool)

  /** A pause reported with breakpoint `id` is not skipped: unless the client asked for none at all, only
      a stored breakpoint of that id can prevent it, by a condition that is there and neither throws nor
      is true. */
  ghost predicate Pauses(breakpoints: map<Text, Breakpoint>, skipAll: bool, id: BreakpointId,
                         evaluate: Text -> Evaluation)
  {
    && !skipAll
    && forall k :: k in breakpoints && id.number >= 0 && breakpoints[k].actual.id == id ==>
                     || breakpoints[k].condition == []
                     || evaluate(breakpoints[k].condition) in {Evaluation.Throws, Gives(true)}
  }

  function ScriptEvent(script: Script, success: bool): Notification {
    if success then ScriptParsed(script.scriptId, script.url) else ScriptFailedToParse(script.scriptId, script.url)
  }

  /** `r'` is `r` after the scripts in turn. */
  ghost predicate Loads(r: Registry, scripts: seq<Script>, regex: Regex, r': Registry) {
    if scripts == [] then r' == r
    else exists m: Registry :: Loads(r, scripts[..|scripts| - 1], regex, m) && LastLoads(m, scripts, regex, r')
  }

  lemma {:induction false} ScriptAdded(r: Registry, script: Script, regex: Regex, r': Registry)
    requires SourceStep(r, script, regex, r')
    ensures r'.scripts == AddScript(r.scripts, script)
  {
  }

  lemma {:induction false} LoadsOneMore(r: Registry, scripts: seq<Script>, i: nat, regex: Regex, m: Registry,
                                        r': Registry)
    requires i < |scripts| && Loads(r, scripts[..i], regex, m) && SourceStep(m, scripts[i], regex, r')
    ensures Loads(r, scripts[..i + 1], regex, r')
  {
    hide SourceStep;
    assert scripts[..i + 1][..i] == scripts[..i];
    assert LastLoads(m, scripts[..i + 1], regex, r');
  }

  /** Equal ids mean equal scripts, among these and those already known. */
  ghost predicate Coherent(known: map<Text, Script>, scripts: seq<Script>) {
    && (forall i :: 0 <= i < |scripts| ==> Consistent(known, scripts[i]))
    && (forall i, j :: 0 <= i < j < |scripts| && scripts[i].scriptId == scripts[j].scriptId ==>
                         scripts[i] == scripts[j])
  }

  lemma {:induction false} CoherentNext(known: map<Text, Script>, scripts: seq<Script>, i: nat)
    requires i < |scripts| && Coherent(known, scripts[i..])
    ensures Consistent(known, scripts[i]) && Coherent(AddScript(known, scripts[i]), scripts[i + 1..])
  {
    var rest, next := scripts[i..], scripts[i + 1..];
    assert rest[0] == scripts[i];
    assert forall k :: 0 <= k < |next| ==> next[k] == rest[k + 1];
  }

  ghost predicate LastLoads(m: Registry, scripts: seq<Script>, regex: Regex, r': Registry) {
    scripts != [] && SourceStep(m, scripts[|scripts| - 1], regex, r')
  }

  /** `after` adds to `before` one event for the script and then one `BreakpointResolved` for each
      of the entries in `told`, with where it is. */
  ghost predicate Announces(before: seq<Notification>, after: seq<Notification>, script: Notification, told: seq<Text>,
                            breakpoints: map<Text, Breakpoint>)
  {
    && |after| == |before| + 1 + |told| && after[..|before|] == before && after[|before|] == script
    && forall i :: 0 <= i < |told| ==>
                     told[i] in breakpoints &&
                     var b := breakpoints[told[i]];
                     after[|before| + 1 + i] ==
                     BreakpointResolved(told[i], Location(b.scriptId, b.actual.line, b.actual.column))
  }

  lemma {:induction false} AnnouncesMore(before: seq<Notification>, after: seq<Notification>, script: Notification,
                                         told: seq<Text>, breakpoints: map<Text, Breakpoint>)
    requires Announces(before, after, script, told, breakpoints)
    ensures before <= after && |before| < |after| && after[|before|] == script
  {
  }

  /** `after` adds to `before` one request for each of the entries in `told`, at its script, line and
      column, with the place it now has as the answer. */
  ghost predicate Asks(before: seq<EngineRequest>, after: seq<EngineRequest>, told: seq<Text>,
                       breakpoints: map<Text, Breakpoint>)
  {
    && |after| == |before| + |told| && after[..|before|] == before
    && forall i :: 0 <= i < |told| ==> told[i] in breakpoints && after[|before| + i] == RequestOf(breakpoints[told[i]])
  }

  lemma {:induction false} AskNothing(log: seq<EngineRequest>, breakpoints: map<Text, Breakpoint>)
    ensures Asks(log, log, [], breakpoints)
  {
  }

  lemma {:induction false} AskOne(before: seq<EngineRequest>, after: seq<EngineRequest>, told: seq<Text>,
                                  breakpoints: map<Text, Breakpoint>, key: Text, b: Breakpoint)
    requires Asks(before, after, told, breakpoints) && key !in told
    ensures Asks(before, after + [RequestOf(b)], told + [key], breakpoints[key := b])
  {
  }

  /** The same for an entry at which an engine call threw. */
  ghost predicate AsksUntil(before: seq<EngineRequest>, after: seq<EngineRequest>, told: seq<Text>,
                            breakpoints: map<Text, Breakpoint>, stuck: Text)
  {
    && stuck in breakpoints && |after| > 0 && Asks(before, after[..|after| - 1], told, breakpoints)
    && after[|after| - 1] ==
       EngineRequest(breakpoints[stuck].scriptId, breakpoints[stuck].line, breakpoints[stuck].column, Refused)
  }

  lemma {:induction false} AskAndStop(before: seq<EngineRequest>, after: seq<EngineRequest>, told: seq<Text>,
                                      r: Registry,
                                      key: Text, script: Script)
    requires key in r.breakpoints && Asks(before, after, told, r.breakpoints) && key !in told
    ensures var b := r.breakpoints[key];
            AsksUntil(before, after + [EngineRequest(script.scriptId, b.line, b.column, Refused)], told,
                      Stuck(r, key, script).breakpoints, key)
  {
  }

  lemma {:induction false} WalkedAnswered(r: Registry, script: Script, regex: Regex, done: set<Text>, told: seq<Text>,
                                          r': Registry, log: seq<EngineRequest>, log': seq<EngineRequest>)
    requires Walked(r, script, regex, done, r') && TellsAll(told, r, done, script, regex)
    requires Asks(log, log', told, r'.breakpoints) && Answered(r.breakpoints, log) && script.scriptId != []
    ensures Answered(r'.breakpoints, log')
  {
    hide Wants, RequestOf, AddScript;
    forall k | k in r'.breakpoints && r'.breakpoints[k].actual != NOWHERE
      ensures IsScriptLoaded(r'.breakpoints[k]) && RequestOf(r'.breakpoints[k]) in log'
    {
      if k in told {
        var i :| 0 <= i < |told| && told[i] == k;
        assert log'[|log| + i] == RequestOf(r'.breakpoints[k]);
      } else {
        assert r'.breakpoints[k] == r.breakpoints[k];
        assert forall q :: q in log ==> q in log' by { assert log == log'[..|log|]; }
      }
    }
  }

  lemma {:induction false} StoppedAnswered(r: Registry, script: Script, regex: Regex, done: set<Text>, stuck: Text,
                                           told: seq<Text>, r': Registry, log: seq<EngineRequest>,
                                           log': seq<EngineRequest>)
    requires StoppedAt(r, script, regex, done, stuck, r') && TellsAll(told, r, done, script, regex)
    requires AsksUntil(log, log', told, r'.breakpoints, stuck) && Answered(r.breakpoints, log)
    requires script.scriptId != []
    ensures Answered(r'.breakpoints, log')
  {
    hide Wants, Walked, TellsAll, Answered, RequestOf;
    var m: Registry :| Walked(r, script, regex, done, m) && stuck in m.breakpoints && r' == Stuck(m, stuck, script);
    NotTold(told, r, done, script, regex, stuck);
    WaitingIsNowhere(r, script, regex, done, m, stuck, log);
    var less := log'[..|log'| - 1];
    assert Asks(log, less, told, m.breakpoints);
    WalkedAnswered(r, script, regex, done, told, m, log, less);
    StuckAnswered(m, stuck, script, less, log');
  }

  lemma {:induction false} WaitingIsNowhere(r: Registry, script: Script, regex: Regex, done: set<Text>, m: Registry,
                                            key: Text, log: seq<EngineRequest>)
    requires Walked(r, script, regex, done, m) && key in r.breakpoints && key !in done
    requires Wants(r.breakpoints[key], script, regex) && Answered(r.breakpoints, log)
    ensures key in m.breakpoints && m.breakpoints[key].actual == NOWHERE
  {
    hide RequestOf, IsScriptMatch;
    UntouchedEntry(r, script, regex, done, m, key);
  }

  lemma {:induction false} NotTold(told: seq<Text>, r: Registry, done: set<Text>, script: Script, regex: Regex,
                                   key: Text)
    requires TellsAll(told, r, done, script, regex) && key !in done
    ensures key !in told
  {
  }

  lemma {:induction false} StuckAnswered(r: Registry, stuck: Text, script: Script, log: seq<EngineRequest>,
                                         log': seq<EngineRequest>)
    requires stuck in r.breakpoints && Answered(r.breakpoints, log) && log <= log'
    requires r.breakpoints[stuck].actual == NOWHERE
    ensures Answered(Stuck(r, stuck, script).breakpoints, log')
  {
  }

  /** What a walk that has done `done` has told the client and asked the engine so far. */
  ghost predicate Progress(before: Registry, script: Script, regex: Regex, done: set<Text>, told: seq<Text>,
                           r: Registry,
                           said: seq<Notification>, sent: seq<Notification>, first: Notification,
                           asked: seq<EngineRequest>, log: seq<EngineRequest>)
  {
    && TellsAll(told, before, done, script, regex)
    && Announces(said, sent, first, told, r.breakpoints)
    && Asks(asked, log, told, r.breakpoints)
  }

  lemma {:induction false} ProgressParts(before: Registry, script: Script, regex: Regex, done: set<Text>,
                                         told: seq<Text>,
                                         r: Registry, said: seq<Notification>, sent: seq<Notification>,
                                         first: Notification, asked: seq<EngineRequest>, log: seq<EngineRequest>)
    requires Progress(before, script, regex, done, told, r, said, sent, first, asked, log)
    ensures TellsAll(told, before, done, script, regex)
    ensures Announces(said, sent, first, told, r.breakpoints) && Asks(asked, log, told, r.breakpoints)
  {
  }

  lemma {:induction false} ProgressStart(before: Registry, script: Script, regex: Regex, said: seq<Notification>,
                                         first: Notification, asked: seq<EngineRequest>)
    ensures Progress(before, script, regex, {}, [], before, said, said + [first], first, asked, asked)
    ensures Progress(before, script, regex, {}, [], before.(scripts := AddScript(before.scripts, script)),
                     said, said + [first], first, asked, asked)
  {
    FirstAnnouncement(said, first, before, script, regex);
    AskNothing(asked, before.breakpoints);
  }

  lemma {:induction false} ProgressSkipped(before: Registry, script: Script, regex: Regex, done: set<Text>,
                                           told: seq<Text>, r: Registry, said: seq<Notification>,
                                           sent: seq<Notification>, first: Notification,
                                           asked: seq<EngineRequest>, log: seq<EngineRequest>, k: Text)
    requires Progress(before, script, regex, done, told, r, said, sent, first, asked, log)
    requires k in before.breakpoints && k !in done && !Wants(before.breakpoints[k], script, regex)
    ensures Progress(before, script, regex, done + {k}, told, r, said, sent, first, asked, log)
  {
    hide Announces, Asks, TellsAll, Wants;
    TellOne(told, before, done, script, regex, k);
  }

  lemma {:induction false} ProgressPlaced(before: Registry, script: Script, regex: Regex, done: set<Text>,
                                          told: seq<Text>, r: Registry, said: seq<Notification>,
                                          sent: seq<Notification>, first: Notification,
                                          asked: seq<EngineRequest>, log: seq<EngineRequest>, k: Text, place: Place)
    requires Progress(before, script, regex, done, told, r, said, sent, first, asked, log)
    requires k in before.breakpoints && k !in done && Wants(before.breakpoints[k], script, regex)
    requires k in r.breakpoints && k in r.reports
    ensures var r' := PlaceEntry(r, k, script, place);
            Progress(before, script, regex, done + {k}, told + [k], r', said,
                     sent + [BreakpointResolved(k, GetActualLocation(r'.breakpoints[k]))], first,
                     asked, log + [RequestOf(r'.breakpoints[k])])
  {
    hide Announces, Asks, TellsAll, Wants;
    TellOne(told, before, done, script, regex, k);
    AfterPlacing(r, k, script, place);
    var b := PlaceEntry(r, k, script, place).breakpoints[k];
    AnnounceOne(said, sent, first, told, r.breakpoints, k, b);
    AskOne(asked, log, told, r.breakpoints, k, b);
  }

  lemma {:induction false} ProgressStopped(before: Registry, script: Script, regex: Regex, done: set<Text>,
                                           told: seq<Text>, r: Registry, said: seq<Notification>,
                                           sent: seq<Notification>, first: Notification,
                                           asked: seq<EngineRequest>, log: seq<EngineRequest>, k: Text)
    requires Progress(before, script, regex, done, told, r, said, sent, first, asked, log)
    requires k in before.breakpoints && k !in done && k in r.breakpoints
    ensures TellsAll(told, before, done, script, regex)
    ensures var r', b := Stuck(r, k, script), r.breakpoints[k];
            && Announces(said, sent, first, told, r'.breakpoints)
            && AsksUntil(asked, log + [EngineRequest(script.scriptId, b.line, b.column, Refused)], told,
                         r'.breakpoints, k)
  {
    hide Announces, Asks, TellsAll, Wants, AsksUntil;
    TellOne(told, before, done, script, regex, k);
    StillAnnounced(said, sent, first, told, r, k, script);
    AskAndStop(asked, log, told, r, k, script);
  }

  /** What `setBreakpointByUrl` asks the engine: nothing if the breakpoint is there already or no script
      matches, and otherwise one place, in a script that matches, at the line and column wanted. */
  ghost predicate UrlAsks(b: Breakpoint, scripts: map<Text, Script>, regex: Regex, reply: Reply,
                          breakpoints: map<Text, Breakpoint>, before: seq<EngineRequest>, after: seq<EngineRequest>)
  {
    match reply
    case Stored(key, locations) =>
      && key in breakpoints && breakpoints[key].line == b.line && breakpoints[key].column == b.column
      && after == before + if locations == [] then [] else [RequestOf(breakpoints[key])]
    case Error(EngineError) =>
      exists id :: id in scripts && IsScriptMatch(b, scripts[id], regex) &&
                   after == before + [EngineRequest(scripts[id].scriptId, b.line, b.column, Refused)]
    case _ => after == before
  }

  lemma {:induction false} UrlAnswered(r: Registry, b: Breakpoint, regex: Regex, reply: Reply, r': Registry,
                                       before: seq<EngineRequest>, after: seq<EngineRequest>)
    requires ByUrlStep(r, b, regex, reply, r') && UrlAsks(b, r.scripts, regex, reply, r'.breakpoints, before, after)
    requires Answered(r.breakpoints, before) && b.actual == NOWHERE
    requires forall id :: id in r.scripts ==> r.scripts[id].scriptId != []
    ensures Answered(r'.breakpoints, after)
  {
    hide Key, IsScriptMatch, RequestOf;
    AnsweredOn(r.breakpoints, before, r'.breakpoints, after);
  }

  /** More requests, and entries placed or left as they were, keep every place an answer. */
  lemma {:induction false} AnsweredOn(breakpoints: map<Text, Breakpoint>, log: seq<EngineRequest>,
                                      breakpoints': map<Text, Breakpoint>, log': seq<EngineRequest>)
    requires Answered(breakpoints, log) && log <= log'
    requires forall k :: k in breakpoints' ==>
                           || (k in breakpoints && breakpoints'[k] == breakpoints[k])
                           || breakpoints'[k].actual == NOWHERE
                           || (IsScriptLoaded(breakpoints'[k]) && RequestOf(breakpoints'[k]) in log')
    ensures Answered(breakpoints', log')
  {
  }

  /** `told` names exactly the entries of `done` that waited for the script, each once. */
  ghost predicate TellsAll(told: seq<Text>, r: Registry, done: set<Text>, script: Script, regex: Regex) {
    && (forall i, j :: 0 <= i < j < |told| ==> told[i] != told[j])
    && (forall k :: k in told <==> k in done && k in r.breakpoints && Wants(r.breakpoints[k], script, regex))
  }

  lemma {:induction false} AnnounceOne(before: seq<Notification>, after: seq<Notification>, first: Notification,
                                       told: seq<Text>,
                                       breakpoints: map<Text, Breakpoint>, key: Text, b: Breakpoint)
    requires Announces(before, after, first, told, breakpoints) && key !in told
    ensures Announces(before, after + [BreakpointResolved(key, GetActualLocation(b))], first,
                      told + [key], breakpoints[key := b])
  {
  }

  lemma {:induction false} FirstAnnouncement(before: seq<Notification>, first: Notification, r: Registry,
                                             script: Script, regex: Regex)
    ensures Announces(before, before + [first], first, [], r.breakpoints) && TellsAll([], r, {}, script, regex)
  {
  }

  /** A walk that got through `done` and at which an engine call then threw, at `stuck`. */
  ghost predicate StoppedAt(r: Registry, script: Script, regex: Regex, done: set<Text>, stuck: Text, r': Registry) {
    && stuck in r.breakpoints && stuck !in done && Wants(r.breakpoints[stuck], script, regex)
    && exists m: Registry :: Walked(r, script, regex, done, m) && stuck in m.breakpoints &&
                             r' == Stuck(m, stuck, script)
  }

  lemma {:induction false} StopHere(r: Registry, script: Script, regex: Regex, done: set<Text>, m: Registry, k: Text)
    requires Walked(r, script, regex, done, m) && k in r.breakpoints && k !in done &&
             Wants(r.breakpoints[k], script, regex)
    requires k in m.breakpoints
    ensures StoppedAt(r, script, regex, done, k, Stuck(m, k, script))
  {
    hide Walked, Wants, Stuck;
  }

  lemma {:induction false} StoppedKeepsPlaces(r: Registry, script: Script, regex: Regex, done: set<Text>,
                                              stuck: Text, r': Registry)
    requires StoppedAt(r, script, regex, done, stuck, r') && PlacesDistinct(r)
    ensures PlacesDistinct(r')
  {
    hide Walked, Wants, Stuck, PlacesDistinct;
    var m: Registry :| Walked(r, script, regex, done, m) && stuck in m.breakpoints && r' == Stuck(m, stuck, script);
    WalkedKeepsPlaces(r, script, regex, done, m);
    StuckKeepsPlaces(m, stuck, script);
  }

  lemma {:induction false} StillAnnounced(before: seq<Notification>, after: seq<Notification>, first: Notification,
                                          told: seq<Text>,
                                          m: Registry, key: Text, script: Script)
    requires key in m.breakpoints && Announces(before, after, first, told, m.breakpoints) && key !in told
    ensures Announces(before, after, first, told, Stuck(m, key, script).breakpoints)
  {
  }

  lemma {:induction false} AfterPlacing(r: Registry, key: Text, script: Script, place: Place)
    requires key in r.breakpoints && key in r.reports
    ensures PlaceEntry(r, key, script, place).breakpoints ==
            r.breakpoints[key := Loaded(r.breakpoints[key], script, place)]
  {
  }

  lemma {:induction false} TellOne(told: seq<Text>, r: Registry, done: set<Text>, script: Script, regex: Regex,
                                   key: Text)
    requires TellsAll(told, r, done, script, regex) && key !in done && key in r.breakpoints
    ensures key !in told
    ensures TellsAll(if Wants(r.breakpoints[key], script, regex) then told + [key] else told,
                     r, done + {key}, script, regex)
  {
    hide Wants;
    if Wants(r.breakpoints[key], script, regex) {
      var more := told + [key];
      assert forall k :: k in more <==> k in told || k == key;
    }
  }

  /** A walk over `all` that has done `done` and still has `todo` to do. */
  ghost predicate Split(done: set<Text>, todo: set<Text>, all: set<Text>) {
    done !! todo && done + todo == all
  }

  lemma {:induction false} MoveOne(done: set<Text>, todo: set<Text>, all: set<Text>, k: Text)
    requires Split(done, todo, all) && k in todo
    ensures Split(done + {k}, todo - {k}, all) && k !in done && k in all
  {
  }

  lemma {:induction false} AllMoved(done: set<Text>, todo: set<Text>, all: set<Text>)
    requires Split(done, todo, all) && todo == {}
    ensures done == all
  {
  }

  class DebuggerImpl {
    const debugger: Debugger
    var isEnabled: bool
    var shouldSkipAllPauses: bool
    var scriptMap: map<Text, Script>
    var breakpointMap: map<Text, Breakpoint>
    var sent: seq<Notification>
    ghost var reports: map<Text, nat>
    ghost var destroyed: bool
    ghost const number: nat
    /** The run so far, while `exact`: the engine held no breakpoint when the agent was made, has not
        thrown out of a script event, and has not given one id to two scripts. */
    ghost var past: Past
    ghost var exact: bool

    constructor (debugger': Debugger, ghost number': nat)
      ensures number == number' && debugger == debugger' && !isEnabled && !destroyed
      ensures scriptMap == map[] && breakpointMap == map[] && reports == map[] && sent == []
      ensures Valid() && (exact <==> debugger'.engine.ids == {}) && !shouldSkipAllPauses
    {
      debugger, number := debugger', number';
      past, exact := NO_PAST, debugger'.engine.ids == {};
      isEnabled, shouldSkipAllPauses, destroyed := false, false, false;
      scriptMap, breakpointMap, reports, sent := map[], map[], map[], [];
    }

    ghost function Model(): Registry
      reads this, debugger.engine
    {
      Registry(isEnabled, scriptMap, breakpointMap, debugger.engine.ids, reports)
    }

    ghost predicate Shape()
      reads this
    {
      reports.Keys == breakpointMap.Keys && forall id :: id in scriptMap ==> scriptMap[id].scriptId != []
    }

    /** Placed entries never share an id and are where the engine said, and the state is one that a run
        of the registry reaches, so all that is proved of runs holds of it. */
    ghost predicate Valid()
      reads this, debugger.engine
    {
      && Shape() && PlacesDistinct(Model()) && Answered(breakpointMap, debugger.engine.log)
      && (exact ==> LedTo(past, debugger.engine.regex, Model()))
    }

    /** Records a step that has just been taken from `before`. */
    ghost method Note(action: Action, reply: Reply, before: Registry)
      requires Shape() && Answered(breakpointMap, debugger.engine.log)
      requires PlacesDistinct(before) && (exact ==> LedTo(past, debugger.engine.regex, before))
      requires Step(before, action, debugger.engine.regex, reply, Model())
      modifies this`past
      ensures Valid() && exact == old(exact)
    {
      hide Step, LedTo, PlacesDistinct, Answered;
      StepKeepsPlaces(before, action, debugger.engine.regex, reply, Model());
      if exact {
        LedOn(past, debugger.engine.regex, before, action, reply, Model());
      }
      past := Extended(past, action, reply, Model());
    }

    /** While `exact`, maps, engine and client agree. */
    lemma {:induction false} Agrees()
      requires Valid() && exact
      ensures Agreement(Model(), debugger.engine.regex)
    {
      LedToAgrees(past, debugger.engine.regex, Model());
    }

    /** `TryLoadScript`. */
    method TryLoadScript(b: Breakpoint, script: Script) returns (loaded: bool, b': Breakpoint)
      ensures loaded == Wants(b, script, debugger.engine.regex)
      ensures b' == if loaded then b.(scriptId := script.scriptId) else b
    {
      if IsScriptLoaded(b) {
        return false, b;
      }
      if !IsScriptMatch(b, script, debugger.engine.regex) {
        return false, b;
      }
      return true, b.(scriptId := script.scriptId);
    }

    /** `TryResolveBreakpoint`, for the arguments on which it does not throw; nothing where the
        engine's refusal throws. */
    method TryResolveBreakpoint(b: Breakpoint) returns (placed: Option<Breakpoint>)
      requires IsScriptLoaded(b)
      modifies debugger.engine
      ensures placed.None? ==> debugger.engine.ids == old(debugger.engine.ids)
      ensures placed.Some? ==>
                && placed.value == b.(actual := placed.value.actual) && IsResolved(placed.value)
                && Proper(placed.value.actual) && placed.value.actual.id !in old(debugger.engine.ids)
                && debugger.engine.ids == old(debugger.engine.ids) + {placed.value.actual.id}
      ensures debugger.engine.log == old(debugger.engine.log) +
                                     [EngineRequest(b.scriptId, b.line, b.column, if placed.None? then Refused
                                                    else Placed(placed.value.actual))]
    {
      placed := debugger.SetBreakpoint(b);
    }

    /** The body of the walk over the breakpoints, for one entry. */
    method TryEntry(key: Text, script: Script) returns (threw: bool)
      requires Shape() && key in breakpointMap && script.scriptId != []
      modifies this`sent, this`breakpointMap, this`reports, debugger.engine
      ensures Shape() && key in breakpointMap
      ensures var b := old(breakpointMap[key]);
              debugger.engine.log == old(debugger.engine.log) +
              if !Wants(b, script, debugger.engine.regex) then []
              else if threw then [EngineRequest(script.scriptId, b.line, b.column, Refused)]
              else [RequestOf(breakpointMap[key])]
      ensures threw ==> Wants(old(breakpointMap[key]), script, debugger.engine.regex) && sent == old(sent)
      ensures threw ==> key in old(Model()).breakpoints && Model() == Stuck(old(Model()), key, script)
      ensures !threw && !Wants(old(breakpointMap[key]), script, debugger.engine.regex) ==> Model() == old(Model())
      ensures !threw && !Wants(old(breakpointMap[key]), script, debugger.engine.regex) ==> sent == old(sent)
      ensures !threw && Wants(old(breakpointMap[key]), script, debugger.engine.regex) ==>
                && key in breakpointMap && NewPlace(old(Model()), breakpointMap[key].actual)
                && sent == old(sent) + [BreakpointResolved(key, GetActualLocation(breakpointMap[key]))]
                && Model() == PlaceEntry(old(Model()), key, script, breakpointMap[key].actual)
    {
      var loaded, b := TryLoadScript(breakpointMap[key], script);
      if loaded {
        breakpointMap := breakpointMap[key := b];
        var placed := TryResolveBreakpoint(b);
        if placed.None? {
          return true;
        }
        breakpointMap := breakpointMap[key := placed.value];
        sent := sent + [BreakpointResolved(key, GetActualLocation(placed.value))];
        reports := reports[key := reports[key] + 1];
        assert breakpointMap == old(breakpointMap)[key := Loaded(old(breakpointMap[key]), script, placed.value.actual)];
      }
      threw := false;
    }

    /** One round of the walk, for an entry that it has not been to. */
    method WalkOne(script: Script, k: Text, ghost before: Registry, ghost first: Notification,
                   ghost said: seq<Notification>, ghost asked: seq<EngineRequest>, ghost done: set<Text>,
                   ghost told: seq<Text>)
      returns (threw: bool, ghost told': seq<Text>)
      requires Shape() && script.scriptId != [] && k in before.breakpoints && k !in done
      requires Walked(before, script, debugger.engine.regex, done, Model())
      requires Progress(before, script, debugger.engine.regex, done, told, Model(), said, sent, first, asked,
                        debugger.engine.log)
      modifies this`sent, this`breakpointMap, this`reports, debugger.engine
      ensures Shape()
      ensures !threw ==>
                && Walked(before, script, debugger.engine.regex, done + {k}, Model())
                && Progress(before, script, debugger.engine.regex, done + {k}, told', Model(), said, sent, first, asked,
                            debugger.engine.log)
      ensures threw ==>
                && told' == told && StoppedAt(before, script, debugger.engine.regex, done, k, Model())
                && TellsAll(told, before, done, script, debugger.engine.regex)
                && Announces(said, sent, first, told, breakpointMap)
                && AsksUntil(asked, debugger.engine.log, told, breakpointMap, k)
    {
      hide Walked, Wants, Proper, NewPlace, Stuck, Progress, PlaceEntry, Announces, TellsAll, AsksUntil, StoppedAt;
      ghost var regex, model, sent0, log0 := debugger.engine.regex, Model(), sent, debugger.engine.log;
      UntouchedEntry(before, script, regex, done, model, k);
      told' := told;
      threw := TryEntry(k, script);
      if threw {
        StopHere(before, script, regex, done, model, k);
        ProgressStopped(before, script, regex, done, told, model, said, sent, first, asked, log0, k);
      } else if Wants(before.breakpoints[k], script, regex) {
        ProgressPlaced(before, script, regex, done, told, model, said, sent0, first, asked, log0, k,
                       breakpointMap[k].actual);
        assert Model() == PlaceEntry(model, k, script, breakpointMap[k].actual);
        told' := told + [k];
        WalkPlaces(before, script, regex, done, model, k, breakpointMap[k].actual);
      } else {
        assert debugger.engine.log == log0;
        ProgressSkipped(before, script, regex, done, told, model, said, sent0, first, asked, log0, k);
        WalkOver(before, script, regex, done, model, k);
      }
    }

    /** The work of `HandleSourceEvent`: the client is told of the script, it is recorded, and the
        breakpoints are walked over. `done` is what the walk got through, and `stuck` the entry at
        which an engine call threw, if one did. */
    method WalkEntries(script: Script, success: bool)
      returns (threw: bool, ghost told: seq<Text>, ghost done: set<Text>, ghost stuck: Text)
      requires Shape() && script.scriptId != []
      modifies this`sent, this`scriptMap, this`breakpointMap, this`reports, debugger.engine
      ensures Shape() && scriptMap == AddScript(old(scriptMap), script)
      ensures !threw ==> Asks(old(debugger.engine.log), debugger.engine.log, told, breakpointMap)
      ensures threw ==> AsksUntil(old(debugger.engine.log), debugger.engine.log, told, breakpointMap, stuck)
      ensures TellsAll(told, old(Model()), done, script, debugger.engine.regex)
      ensures Announces(old(sent), sent, ScriptEvent(script, success), told, breakpointMap)
      ensures !threw ==> done == old(breakpointMap).Keys &&
                         SourceStep(old(Model()), script, debugger.engine.regex, Model())
      ensures threw ==> StoppedAt(old(Model()), script, debugger.engine.regex, done, stuck, Model())
    {
      told, stuck := [], [];
      sent := sent + [ScriptEvent(script, success)];
      scriptMap := AddScript(scriptMap, script);
      ghost var first := ScriptEvent(script, success);
      ghost var regex, before, said, asked := debugger.engine.regex, old(Model()), old(sent), debugger.engine.log;
      var todo := breakpointMap.Keys;
      WalkStart(before, script, regex);
      assert Split({}, todo, before.breakpoints.Keys);
      done := {};
      ProgressStart(before, script, regex, said, first, asked);
      hide Walked, AddScript, Split, Announces, TellsAll, Asks, AsksUntil, Progress, StoppedAt;
      while todo != {}
        invariant Shape() && scriptMap == AddScript(old(scriptMap), script)
        invariant Split(done, todo, before.breakpoints.Keys)
        invariant Walked(before, script, regex, done, Model())
        invariant Progress(before, script, regex, done, told, Model(), said, sent, first, asked, debugger.engine.log)
      {
        var k :| k in todo;
        MoveOne(done, todo, before.breakpoints.Keys, k);
        threw, told := WalkOne(script, k, before, first, said, asked, done, told);
        if threw {
          stuck := k;
          return;
        }
        todo, done := todo - {k}, done + {k};
      }
      AllMoved(done, todo, before.breakpoints.Keys);
      ProgressParts(before, script, regex, done, told, Model(), said, sent, first, asked, debugger.engine.log);
      threw := false;
    }

    /** A script event. If no engine call throws, every breakpoint that waited for the script is placed
        and announced. If one throws, that is so of the entries the walk got through; the one it
        threw at keeps the script without a place, and the rest are as they were. */
    method HandleSourceEvent(script: Script, success: bool)
      returns (threw: bool, ghost told: seq<Text>, ghost done: set<Text>, ghost stuck: Text)
      requires Valid() && !destroyed && isEnabled && script.scriptId != []
      modifies this`sent, this`scriptMap, this`breakpointMap, this`reports, this`past, this`exact, debugger.engine
      ensures Valid() && exact == (old(exact) && !threw && Consistent(old(scriptMap), script))
      ensures scriptMap == if script.scriptId in old(scriptMap) then old(scriptMap)
                           else old(scriptMap)[script.scriptId := script]
      ensures (old(exact) && !threw && (script.scriptId in old(scriptMap) ==>
                                          old(scriptMap)[script.scriptId] == script))
              ==> exact
      ensures TellsAll(told, old(Model()), done, script, debugger.engine.regex)
      ensures var first := if success then ScriptParsed(script.scriptId, script.url)
                           else ScriptFailedToParse(script.scriptId, script.url);
              Announces(old(sent), sent, first, told, breakpointMap)
      ensures !threw ==> done == old(breakpointMap).Keys &&
                         SourceStep(old(Model()), script, debugger.engine.regex, Model())
      ensures threw ==> StoppedAt(old(Model()), script, debugger.engine.regex, done, stuck, Model())
      ensures !threw ==> Asks(old(debugger.engine.log), debugger.engine.log, told, breakpointMap)
      ensures threw ==> AsksUntil(old(debugger.engine.log), debugger.engine.log, told, breakpointMap, stuck)
    {
      hide Walked, Wants, Announces, TellsAll, PlacesDistinct, LedTo, Answered, Asks, AsksUntil;
      threw, told, done, stuck := WalkEntries(script, success);
      ghost var regex, log := debugger.engine.regex, old(debugger.engine.log);
      if threw {
        StoppedAnswered(old(Model()), script, regex, done, stuck, told, Model(), log, debugger.engine.log);
      } else {
        WalkedAnswered(old(Model()), script, regex, done, told, Model(), log, debugger.engine.log);
      }
      if !threw && Consistent(old(scriptMap), script) {
        Note(ScriptLoaded(script), Success, old(Model()));
      } else if threw {
        exact := false;
        StoppedKeepsPlaces(old(Model()), script, debugger.engine.regex, done, stuck, Model());
      } else {
        exact := false;
        WalkedKeepsPlaces(old(Model()), script, debugger.engine.regex, done, Model());
      }
    }

    /** The next script that the engine already has. */
    method LoadOne(scripts: seq<Script>, i: nat, ghost before: Registry) returns (threw: bool)
      requires Valid() && !destroyed && isEnabled && i < |scripts| && scripts[i].scriptId != []
      requires Loads(before, scripts[..i], debugger.engine.regex, Model())
      modifies this`sent, this`scriptMap, this`breakpointMap, this`reports, this`past, this`exact, debugger.engine
      ensures Valid()
      ensures !threw ==> Loads(before, scripts[..i + 1], debugger.engine.regex, Model())
      ensures !threw && Coherent(old(scriptMap), scripts[i..]) ==>
                exact == old(exact) && Coherent(scriptMap, scripts[i + 1..])
      ensures old(sent) <= sent
    {
      hide Valid, Shape, SourceStep, Announces, TellsAll, Coherent, Consistent, StoppedAt, AddScript, Loads;
      if Coherent(scriptMap, scripts[i..]) {
        CoherentNext(scriptMap, scripts, i);
      }
      ghost var m := Model();
      ghost var told, done, stuck;
      threw, told, done, stuck := HandleSourceEvent(scripts[i], true);
      AnnouncesMore(old(sent), sent, ScriptEvent(scripts[i], true), told, breakpointMap);
      if !threw {
        LoadsOneMore(before, scripts, i, debugger.engine.regex, m, Model());
        ScriptAdded(m, scripts[i], debugger.engine.regex, Model());
      }
    }

    /** Treats scripts that the engine already has as if they had just been loaded. */
    method LoadAll(scripts: seq<Script>) returns (threw: bool)
      requires Valid() && !destroyed && isEnabled && forall i :: 0 <= i < |scripts| ==> scripts[i].scriptId != []
      modifies this`sent, this`scriptMap, this`breakpointMap, this`reports, this`past, this`exact, debugger.engine
      ensures Valid()
      ensures !threw ==> Loads(old(Model()), scripts, debugger.engine.regex, Model())
      ensures !threw && Coherent(old(scriptMap), scripts) ==> exact == old(exact)
      ensures old(sent) <= sent
    {
      hide Valid, Coherent;
      assert scripts[0..] == scripts;
      for i := 0 to |scripts|
        invariant Valid() && Loads(old(Model()), scripts[..i], debugger.engine.regex, Model())
        invariant Coherent(old(scriptMap), scripts) ==> exact == old(exact) && Coherent(scriptMap, scripts[i..])
        invariant old(sent) <= sent
      {
        threw := LoadOne(scripts, i, old(Model()));
        if threw {
          return;
        }
      }
      assert scripts[..|scripts|] == scripts;
      threw := false;
    }

    /** Turns the agent and the debugger on, points both callbacks here, and loads the scripts that
        the engine already has. */
    method Enable(scripts: seq<Script>) returns (threw: bool)
      requires Valid() && !destroyed && forall i :: 0 <= i < |scripts| ==> scripts[i].scriptId != []
      requires isEnabled ==> debugger.isEnabled
      modifies this`isEnabled, this`sent, this`scriptMap, this`breakpointMap, this`reports, this`past, this`exact
      modifies debugger, debugger.engine
      ensures Valid() && isEnabled && debugger.isEnabled
      ensures old(isEnabled) ==> !threw && Model() == old(Model()) && unchanged(debugger)
      ensures !old(isEnabled) ==> debugger.sourceCallback == this && debugger.breakCallback == this
      ensures !old(isEnabled) && !threw ==>
                Loads(old(Model()).(enabled := true), scripts, debugger.engine.regex,
                      Model())
      ensures !threw && Coherent(old(scriptMap), scripts) ==> exact == old(exact)
      ensures old(sent) <= sent && debugger.FlagsKept()
    {
      if isEnabled {
        return false;
      }
      isEnabled := true;
      debugger.Enable();
      debugger.sourceCallback := this;
      debugger.breakCallback := this;
      Note(Action.Enable, Success, old(Model()));
      hide Loads, PlacesDistinct, LedTo, Coherent;
      threw := LoadAll(scripts);
    }

    /** `disable`. */
    method Disable()
      requires Valid() && !destroyed && (isEnabled ==> debugger.isEnabled)
      modifies this`isEnabled, this`shouldSkipAllPauses, this`scriptMap, this`breakpointMap, this`reports, this`past
      modifies debugger, debugger.engine
      ensures Valid() && Model() == Disabled(old(Model())) && debugger.engine.log == old(debugger.engine.log)
      ensures !old(isEnabled) ==> unchanged(debugger)
      ensures old(isEnabled) ==> !debugger.isEnabled && debugger.sourceCallback == null
      ensures debugger.breakCallback == old(debugger.breakCallback)
      ensures old(isEnabled) ==> breakpointMap == map[] && scriptMap == map[] && debugger.engine.ids == {}
      ensures !isEnabled && (old(isEnabled) ==> !shouldSkipAllPauses)
      ensures !old(isEnabled) ==> shouldSkipAllPauses == old(shouldSkipAllPauses)
      ensures debugger.FlagsKept()
    {
      if !isEnabled {
        return;
      }
      isEnabled := false;
      debugger.Disable();
      debugger.sourceCallback := null;
      breakpointMap, reports := map[], map[];
      scriptMap := map[];
      shouldSkipAllPauses := false;
      Note(Action.Disable, Success, old(Model()));
    }

    /** The destructor. */
    method Destruct()
      requires Valid() && !destroyed && (isEnabled ==> debugger.isEnabled)
      modifies this`isEnabled, this`shouldSkipAllPauses, this`scriptMap, this`breakpointMap, this`reports,
               this`destroyed
      modifies this`past
      modifies debugger, debugger.engine
      ensures destroyed && Model() == Disabled(old(Model())) && debugger.engine.log == old(debugger.engine.log)
      ensures !old(isEnabled) ==> unchanged(debugger)
      ensures old(isEnabled) ==> !debugger.isEnabled && debugger.sourceCallback == null
      ensures debugger.breakCallback == old(debugger.breakCallback) && debugger.FlagsKept()
    {
      Disable();
      destroyed := true;
    }

    /** `setBreakpointByUrl` after its arguments are read. */
    method StoreByUrl(breakpoint: Breakpoint) returns (reply: Reply)
      requires Shape() && !IsScriptLoaded(breakpoint)
      modifies this`breakpointMap, this`reports, debugger.engine
      ensures Shape() && ByUrlStep(old(Model()), breakpoint, debugger.engine.regex, reply, Model())
      ensures UrlAsks(breakpoint, old(scriptMap), debugger.engine.regex, reply, breakpointMap, old(debugger.engine.log),
                      debugger.engine.log)
    {
      var key := Key(breakpoint);
      if key in breakpointMap {
        return Error(Exists);
      }
      var b, locations := breakpoint, [];
      var todo := scriptMap.Keys;
      ghost var from: Text := [];
      while todo != {}
        invariant todo <= scriptMap.Keys && unchanged(this)
        invariant IsScriptLoaded(b) ==>
                    && from in scriptMap && IsScriptMatch(breakpoint, scriptMap[from], debugger.engine.regex)
                    && NewPlace(old(Model()), b.actual) && b == Loaded(breakpoint, scriptMap[from], b.actual)
                    && locations == [GetActualLocation(b)]
                    && debugger.engine.ids == old(debugger.engine.ids) + {b.actual.id}
                    && debugger.engine.log == old(debugger.engine.log) + [RequestOf(b)]
        invariant !IsScriptLoaded(b) ==>
                    && b == breakpoint && locations == [] && debugger.engine.ids == old(debugger.engine.ids)
                    && debugger.engine.log == old(debugger.engine.log)
                    && forall id :: id in scriptMap && id !in todo ==>
                                      !IsScriptMatch(breakpoint, scriptMap[id], debugger.engine.regex)
      {
        var id :| id in todo;
        todo := todo - {id};
        var loaded, b' := TryLoadScript(b, scriptMap[id]);
        if loaded {
          var placed := TryResolveBreakpoint(b');
          if placed.None? {
            return Error(EngineError);
          }
          b, locations, from := placed.value, locations + [GetActualLocation(placed.value)], id;
        }
      }
      breakpointMap := breakpointMap[key := b];
      reports := reports[key := |locations|];
      return Stored(key, locations);
    }

    method SetBreakpointByUrl(line: int32, url: Option<Text>, urlRegex: Option<Text>, column: Option<int32>,
                              condition: Option<Text>)
      returns (reply: Reply)
      requires Valid() && !destroyed
      modifies this`breakpointMap, this`reports, this`past, debugger.engine
      ensures Valid()
      ensures Step(old(Model()), Action.SetBreakpointByUrl(line, url, urlRegex, column, condition),
                   debugger.engine.regex, reply, Model())
      ensures match ReadArguments(line, url, urlRegex, column, condition)
              case BadArguments(_) => debugger.engine.log == old(debugger.engine.log)
              case GoodArguments(b) => UrlAsks(b, old(scriptMap), debugger.engine.regex, reply, breakpointMap,
                                               old(debugger.engine.log), debugger.engine.log)
    {
      hide PlacesDistinct, LedTo, Answered;
      var query, queryType;
      if url.Some? {
        query, queryType := url.value, Url;
      } else if urlRegex.Some? {
        query, queryType := urlRegex.value, UrlRegex;
      } else {
        return Error(UrlRequired);
      }
      var c := FromMaybe(column, 0);
      if c < 0 {
        return Error(InvalidColumn);
      }
      var b := MakeBreakpoint(query, queryType, line, c, FromMaybe(condition, []));
      reply := StoreByUrl(b);
      hide ByUrlStep, UrlAsks, Key;
      UrlAnswered(old(Model()), b, debugger.engine.regex, reply, Model(), old(debugger.engine.log),
                  debugger.engine.log);
      Note(Action.SetBreakpointByUrl(line, url, urlRegex, column, condition), reply, old(Model()));
    }

    method SetBreakpoint(scriptId: Text, line: int32, column: Option<int32>, condition: Option<Text>)
      returns (reply: Reply)
      requires Valid() && !destroyed
      modifies this`breakpointMap, this`reports, this`past, debugger.engine
      ensures Valid()
      ensures Step(old(Model()), Action.SetBreakpoint(scriptId, line, column, condition), debugger.engine.regex,
                   reply, Model())
      ensures reply.Stored? ==>
                && reply.key in breakpointMap && breakpointMap[reply.key].scriptId == scriptId
                && breakpointMap[reply.key].line == line && breakpointMap[reply.key].column == FromMaybe(column, 0)
                && debugger.engine.log == old(debugger.engine.log) + [RequestOf(breakpointMap[reply.key])]
      ensures reply == Threw && scriptId != [] ==>
                debugger.engine.log == old(debugger.engine.log) +
                [EngineRequest(scriptId, line, FromMaybe(column, 0), Refused)]
      ensures reply.Error? || (reply == Threw && scriptId == []) ==> debugger.engine.log == old(debugger.engine.log)
    {
      hide PlacesDistinct, LedTo, Answered;
      var b := MakeBreakpoint(scriptId, ScriptId, line, FromMaybe(column, 0), FromMaybe(condition, []));
      var key := Key(b);
      if key in breakpointMap {
        return Error(Exists);
      }
      if !IsScriptLoaded(b) {
        return Threw;
      }
      var placed := TryResolveBreakpoint(b);
      if placed.None? {
        AnsweredOn(breakpointMap, old(debugger.engine.log), breakpointMap, debugger.engine.log);
        assert Model() == old(Model());
        return Threw;
      }
      breakpointMap := breakpointMap[key := placed.value];
      reports := reports[key := 1];
      reply := Stored(key, [GetActualLocation(placed.value)]);
      AnsweredOn(old(breakpointMap), old(debugger.engine.log), breakpointMap, debugger.engine.log);
      Note(Action.SetBreakpoint(scriptId, line, column, condition), reply, old(Model()));
    }

    method RemoveBreakpoint(key: Text) returns (reply: Reply)
      requires Valid() && !destroyed
      modifies this`breakpointMap, this`reports, this`past, debugger.engine
      ensures Valid()
      ensures Step(old(Model()), Action.RemoveBreakpoint(key), debugger.engine.regex, reply, Model())
      ensures debugger.engine.log == old(debugger.engine.log)
    {
      hide PlacesDistinct, LedTo, Answered;
      if key !in breakpointMap {
        return Error(NotFound);
      }
      var ok := debugger.engine.RemoveBreakpoint(breakpointMap[key].actual.id);
      if !ok {
        assert Model() == old(Model());
        return Threw;
      }
      breakpointMap := breakpointMap - {key};
      reports := reports - {key};
      reply := Success;
      AnsweredOn(old(breakpointMap), old(debugger.engine.log), breakpointMap, debugger.engine.log);
      Note(Action.RemoveBreakpoint(key), reply, old(Model()));
    }

    /** Decides whether a hit pauses: by the condition of the breakpoint that was hit, whichever
        way the map is walked. */
    method EvaluateConditionOnBreakpoint(id: BreakpointId, evaluate: Text -> Evaluation)
      returns (request: SkipPauseRequest)
      requires Valid()
      ensures request == NoSkip <==> Pauses(breakpointMap, false, id, evaluate)
    {
      if id.number < 0 {
        return NoSkip;
      }
      var todo := breakpointMap.Keys;
      var found: Option<Breakpoint> := None;
      while todo != {} && found.None?
        invariant todo <= breakpointMap.Keys
        invariant found.None? ==> forall k :: k in breakpointMap && k !in todo ==> breakpointMap[k].actual.id != id
        invariant found.Some? ==> exists k :: k in breakpointMap && breakpointMap[k].actual.id == id &&
                                              found.value == breakpointMap[k]
      {
        var k :| k in todo;
        todo := todo - {k};
        if breakpointMap[k].actual.id == id {
          found := Some(breakpointMap[k]);
        }
      }
      OnlyOneHit(Model(), id);
      if found.None? {
        return NoSkip;
      }
      var condition := found.value.condition;
      if condition != [] {
        var outcome := evaluate(condition);
        if outcome.Throws? || outcome == Gives(true) {
          return NoSkip;
        }
        return Continue;
      }
      return NoSkip;
    }

    method HandleBreakEvent(id: BreakpointId, evaluate: Text -> Evaluation) returns (request: SkipPauseRequest)
      requires Valid() && !destroyed
      modifies this`sent
      ensures Valid()
      ensures sent == old(sent) + if request == NoSkip then [Paused] else []
      ensures request == NoSkip <==> Pauses(breakpointMap, shouldSkipAllPauses, id, evaluate)
    {
      hide PlacesDistinct, LedTo;
      if shouldSkipAllPauses {
        return Continue;
      }
      request := EvaluateConditionOnBreakpoint(id, evaluate);
      if request != NoSkip {
        return;
      }
      sent := sent + [Paused];
    }
  }

  /** Two entries under one non-negative id are one entry, and it is in the engine. */
  lemma {:induction false} OnlyOneHit(r: Registry, id: BreakpointId)
    requires PlacesDistinct(r) && id.number >= 0
    ensures forall k, l :: k in r.breakpoints && l in r.breakpoints ==>
                             r.breakpoints[k].actual.id == id == r.breakpoints[l].actual.id ==> k == l
    ensures forall k :: k in r.breakpoints && r.breakpoints[k].actual.id == id ==> id in r.engine
  {
  }
}
