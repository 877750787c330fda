/** The breakpoint registry of one debugger agent: its two maps, the engine's set of
    breakpoint ids, and what the client has been told, under every order of requests and
    script loads. The order in which the hash maps are walked is left open. */
module Breakpoints {
  import opened String16
  import opened Names

  datatype Script = Script(scriptId: Text, url: Text)

  /** The engine's name for a breakpoint. */
  datatype BreakpointId = BreakpointId(number: int)

  /** What the engine says about a breakpoint. */
  datatype Place = Place(id: BreakpointId, line: int, column: int)

  datatype Answer = Refused | Placed(place: Place)

  datatype Breakpoint = Breakpoint(
    query: Text, queryType: QueryType, line: int32, column: int32, condition: Text,
    scriptId: Text, actual: Place)

  const NOWHERE := Place(BreakpointId(-1), -1, -1)

  datatype Location = Location(scriptId: Text, line: int, column: int)

  /** `GetActualLocation` of a resolved breakpoint. */
  function GetActualLocation(b: Breakpoint): Location {
    Location(b.scriptId, b.actual.line, b.actual.column)
  }

  /** `regex(pattern, url)`: the engine's regular expressions. */
  type Regex = (Text, Text) -> bool

  /** `Maybe::fromMaybe`. */
  function FromMaybe<T>(m: Option<T>, default: T): T {
    if m.Some? then m.value else default
  }

  function MakeBreakpoint(query: Text, queryType: QueryType, line: int32, column: int32, condition: Text): Breakpoint {
    Breakpoint(query, queryType, line, column, condition, if queryType == ScriptId then query else [], NOWHERE)
  }

  function Key(b: Breakpoint): Text {
    GenerateKey(b.queryType, b.query, b.line, b.column)
  }

  predicate IsScriptLoaded(b: Breakpoint) {
    b.scriptId != []
  }

  predicate IsResolved(b: Breakpoint) {
    b.actual.line >= 0 && b.actual.column >= 0
  }

  predicate IsScriptMatch(b: Breakpoint, script: Script, regex: Regex) {
    match b.queryType
    case ScriptId => script.scriptId == b.query
    case Url => script.url == b.query
    case UrlRegex => regex(b.query, script.url)
  }

  /** `TryLoadScript` succeeds. */
  predicate Wants(b: Breakpoint, script: Script, regex: Regex) {
    !IsScriptLoaded(b) && IsScriptMatch(b, script, regex)
  }

  /** The positions the engine gives are assumed to be non-negative. */
  predicate Proper(place: Place) {
    place.id.number >= 0 && place.line >= 0 && place.column >= 0
  }

  /** `reports` counts, for each stored breakpoint, the locations the client was given for it,
      in a response or by an event, since it was stored. */
  datatype Registry = Registry(
    enabled: bool, scripts: map<Text, Script>, breakpoints: map<Text, Breakpoint>,
    engine: set<BreakpointId>, reports: map<Text, nat>)

  const FRESH := Registry(false, map[], map[], {}, map[])

  datatype ErrorKind = UrlRequired | InvalidColumn | Exists | NotFound | CouldNotResolve | EngineError

  /** `Threw` is an exception that leaves the handler. */
  datatype Reply = Success | Stored(key: Text, locations: seq<Location>) | Error(kind: ErrorKind) | Threw

  datatype Action =
    | Enable
    | Disable
    | SetBreakpointByUrl(line: int32, url: Option<Text>, urlRegex: Option<Text>, columnNumber: Option<int32>,
                         condition: Option<Text>)
    | SetBreakpoint(scriptId: Text, lineNumber: int32, column: Option<int32>, cond: Option<Text>)
    | RemoveBreakpoint(key: Text)
    | ScriptLoaded(script: Script)

  // ---------------------------------------------------------------- steps

  function AddScript(scripts: map<Text, Script>, script: Script): map<Text, Script> {
    if script.scriptId in scripts then scripts else scripts[script.scriptId := script]
  }

  /** Script ids are not empty, and equal ids mean equal scripts. */
  predicate Consistent(scripts: map<Text, Script>, script: Script) {
    script.scriptId != [] && (script.scriptId in scripts ==> scripts[script.scriptId] == script)
  }

  function Loaded(b: Breakpoint, script: Script, place: Place): Breakpoint {
    b.(scriptId := script.scriptId, actual := place)
  }

  /** What one script event does to the entry under one key. */
  predicate EntryStep(b: Breakpoint, n: nat, script: Script, regex: Regex, b': Breakpoint, n': nat) {
    if Wants(b, script, regex)
    then Proper(b'.actual) && b' == Loaded(b, script, b'.actual) && n' == n + 1
    else b' == b && n' == n
  }

  /** `HandleSourceEvent` with the entries in `done` walked over and no engine call having
      thrown. Every breakpoint placed gets a fresh id. */
  ghost predicate Walked(r: Registry, script: Script, regex: Regex, done: set<Text>, r': Registry) {
    && r'.enabled == r.enabled
    && r'.scripts == AddScript(r.scripts, script)
    && r'.breakpoints.Keys == r.breakpoints.Keys == r.reports.Keys == r'.reports.Keys
    && done <= r.breakpoints.Keys
    && (forall k :: k in done ==>
                      EntryStep(r.breakpoints[k], r.reports[k], script, regex, r'.breakpoints[k], r'.reports[k]))
    && (forall k :: k in r.breakpoints && k !in done ==>
                      r'.breakpoints[k] == r.breakpoints[k] && r'.reports[k] == r.reports[k])
    && (forall k :: k in done && Wants(r.breakpoints[k], script, regex) ==> r'.breakpoints[k].actual.id !in r.engine)
    && (forall k, l :: k in done && l in done && k != l ==>
                         Wants(r.breakpoints[k], script, regex) ==> Wants(r.breakpoints[l], script, regex) ==>
                             r'.breakpoints[k].actual.id != r'.breakpoints[l].actual.id)
    && r'.engine == r.engine + set k | k in done && Wants(r.breakpoints[k], script, regex) ::
                      r'.breakpoints[k].actual.id
  }

  /** All of `HandleSourceEvent`. */
  ghost predicate SourceStep(r: Registry, script: Script, regex: Regex, r': Registry) {
    Walked(r, script, regex, r.breakpoints.Keys, r')
  }

  lemma {:induction false} WalkStart(r: Registry, script: Script, regex: Regex)
    requires r.breakpoints.Keys == r.reports.Keys
    ensures Walked(r, script, regex, {}, r.(scripts := AddScript(r.scripts, script)))
  {
  }

  lemma {:induction false} UntouchedEntry(r: Registry, script: Script, regex: Regex, done: set<Text>, r': Registry,
                                          key: Text)
    requires Walked(r, script, regex, done, r') && key in r.breakpoints && key !in done
    ensures r'.breakpoints.Keys == r.breakpoints.Keys && r'.breakpoints[key] == r.breakpoints[key]
  {
  }

  lemma {:induction false} WalkOver(r: Registry, script: Script, regex: Regex, done: set<Text>, r': Registry, key: Text)
    requires Walked(r, script, regex, done, r') && key in r.breakpoints && key !in done
    requires !Wants(r.breakpoints[key], script, regex)
    ensures Walked(r, script, regex, done + {key}, r')
  {
  }

  /** The entry after the engine has placed it. */
  function PlaceEntry(r: Registry, key: Text, script: Script, place: Place): Registry
    requires key in r.breakpoints && key in r.reports
  {
    r.(breakpoints := r.breakpoints[key := Loaded(r.breakpoints[key], script, place)],
    engine := r.engine + {place.id}, reports := r.reports[key := r.reports[key] + 1])
  }

  lemma {:induction false} WalkPlaces(r: Registry, script: Script, regex: Regex, done: set<Text>, r': Registry,
                                      key: Text, place: Place)
    requires Walked(r, script, regex, done, r') && key in r.breakpoints && key !in done
    requires Wants(r.breakpoints[key], script, regex) && NewPlace(r', place)
    ensures Walked(r, script, regex, done + {key}, PlaceEntry(r', key, script, place))
  {
    hide Wants, AddScript, Proper;
    var r'' := PlaceEntry(r', key, script, place);
    forall k | k in done && Wants(r.breakpoints[k], script, regex)
      ensures r'.breakpoints[k].actual.id in r'.engine && r''.breakpoints[k] == r'.breakpoints[k]
    {
    }
    forall k | k in done + {key}
      ensures EntryStep(r.breakpoints[k], r.reports[k], script, regex, r''.breakpoints[k], r''.reports[k])
    {
    }
    PlacedIds(r, script, regex, done, r', key, place);
  }

  lemma {:induction false} PlacedIds(r: Registry, script: Script, regex: Regex, done: set<Text>, r': Registry,
                                     key: Text, place: Place)
    requires Walked(r, script, regex, done, r') && key in r.breakpoints && key !in done &&
             Wants(r.breakpoints[key], script, regex)
    ensures var r'' := PlaceEntry(r', key, script, place);
            r''.engine == r.engine + set k | k in done + {key} && Wants(r.breakpoints[k], script, regex) ::
              r''.breakpoints[k].actual.id
  {
  }

  predicate NewPlace(r: Registry, place: Place) {
    Proper(place) && place.id !in r.engine
  }

  /** The entry is stored with what the engine said and the client is told. */
  function StoreAt(r: Registry, b: Breakpoint): Registry {
    r.(breakpoints := r.breakpoints[Key(b) := b], engine := r.engine + {b.actual.id}, reports := r.reports[Key(b) := 1])
  }

  function StorePending(r: Registry, b: Breakpoint): Registry {
    r.(breakpoints := r.breakpoints[Key(b) := b], reports := r.reports[Key(b) := 0])
  }

  /** `setBreakpointByUrl` once its arguments are read: the first matching script the walk meets
      is the one loaded. */
  ghost predicate ByUrlStep(r: Registry, b: Breakpoint, regex: Regex, reply: Reply, r': Registry) {
    if Key(b) in r.breakpoints then reply == Error(Exists) && r' == r
    else if forall id :: id in r.scripts ==> !IsScriptMatch(b, r.scripts[id], regex) then
      reply == Stored(Key(b), []) && r' == StorePending(r, b)
    else
      || (reply == Error(EngineError) && r' == r)
      || (exists id, place: Place ::
            && id in r.scripts && IsScriptMatch(b, r.scripts[id], regex) && NewPlace(r, place)
            && reply == Stored(Key(b), [GetActualLocation(Loaded(b, r.scripts[id], place))])
            && r' == StoreAt(r, Loaded(b, r.scripts[id], place)))
  }

  /** `setBreakpoint`: the engine's refusal leaves the handler as an exception. */
  ghost predicate AtLocationStep(r: Registry, b: Breakpoint, reply: Reply, r': Registry) {
    if Key(b) in r.breakpoints then reply == Error(Exists) && r' == r
    else
      || (reply == Threw && r' == r)
      || (exists place: Place ::
            && IsScriptLoaded(b) && NewPlace(r, place)
            && reply == Stored(Key(b), [GetActualLocation(b.(actual := place))]) &&
               r' == StoreAt(r, b.(actual := place)))
  }

  function Removed(r: Registry, key: Text): Registry
    requires key in r.breakpoints
  {
    var id := r.breakpoints[key].actual.id;
    r.(breakpoints := r.breakpoints - {key}, engine := r.engine - {id}, reports := r.reports - {key})
  }

  /** The engine knows exactly the ids in its set. */
  predicate RemoveStep(r: Registry, key: Text, reply: Reply, r': Registry) {
    if key !in r.breakpoints then reply == Error(NotFound) && r' == r
    else if r.breakpoints[key].actual.id in r.engine then reply == Success && r' == Removed(r, key)
    else reply == Threw && r' == r
  }

  function Disabled(r: Registry): Registry {
    if r.enabled then FRESH else r
  }

  datatype UrlArguments = BadArguments(kind: ErrorKind) | GoodArguments(breakpoint: Breakpoint)

  /** How `setBreakpointByUrl` reads its arguments: a URL wins over a regular expression. */
  function ReadArguments(line: int32, url: Option<Text>, urlRegex: Option<Text>, column: Option<int32>,
                         condition: Option<Text>): UrlArguments {
    var c: int32 := FromMaybe(column, 0);
    if url.None? && urlRegex.None? then BadArguments(UrlRequired)
    else if c < 0 then BadArguments(InvalidColumn)
    else if url.Some? then GoodArguments(MakeBreakpoint(url.value, Url, line, c, FromMaybe(condition, [])))
    else GoodArguments(MakeBreakpoint(urlRegex.value, UrlRegex, line, c, FromMaybe(condition, [])))
  }

  ghost predicate Step(r: Registry, a: Action, regex: Regex, reply: Reply, r': Registry) {
    match a
    case Enable => reply == Success && r' == r.(enabled := true)
    case Disable => reply == Success && r' == Disabled(r)
    case SetBreakpointByUrl(line, url, urlRegex, column, condition) =>
      (match ReadArguments(line, url, urlRegex, column, condition)
       case BadArguments(kind) => reply == Error(kind) && r' == r
       case GoodArguments(b) => ByUrlStep(r, b, regex, reply, r'))
    case SetBreakpoint(scriptId, line, column, condition) =>
      AtLocationStep(r, MakeBreakpoint(scriptId, ScriptId, line, FromMaybe(column, 0), FromMaybe(condition, [])),
                     reply, r')
    case RemoveBreakpoint(key) => RemoveStep(r, key, reply, r')
    case ScriptLoaded(script) =>
      r.enabled && Consistent(r.scripts, script) && reply == Success && SourceStep(r, script, regex, r')
  }

  // ---------------------------------------------------------------- what every state keeps

  ghost predicate KeysAgree(r: Registry) {
    forall k :: k in r.breakpoints ==> k == Key(r.breakpoints[k])
  }

  ghost predicate ScriptsAgree(r: Registry) {
    && (!r.enabled ==> r.scripts == map[])
    && (forall id :: id in r.scripts ==> id == r.scripts[id].scriptId && id != [])
  }

  ghost predicate SomeMatch(b: Breakpoint, scripts: map<Text, Script>, regex: Regex) {
    exists id :: id in scripts && IsScriptMatch(b, scripts[id], regex)
  }

  /** Loaded by its own script id, or by a known script that matches. */
  predicate LoadAgrees(b: Breakpoint, loads: bool) {
    IsScriptLoaded(b) == (b.queryType == ScriptId || loads)
  }

  /** Loaded, resolved and placed are the same, and the client was told exactly then, once. */
  predicate ReportAgrees(b: Breakpoint, n: nat) {
    && IsResolved(b) == IsScriptLoaded(b)
    && (if IsResolved(b) then Proper(b.actual) else b.actual == NOWHERE)
    && n == if IsResolved(b) then 1 else 0
  }

  /** A URL or regular-expression breakpoint is loaded exactly when a known script matches. */
  ghost predicate LoadsAgree(r: Registry, regex: Regex) {
    forall k :: k in r.breakpoints ==> LoadAgrees(r.breakpoints[k], SomeMatch(r.breakpoints[k], r.scripts, regex))
  }

  ghost predicate ReportsAgree(r: Registry) {
    && r.reports.Keys == r.breakpoints.Keys
    && (forall k :: k in r.breakpoints ==> ReportAgrees(r.breakpoints[k], r.reports[k]))
  }

  function EngineIds(breakpoints: map<Text, Breakpoint>): set<BreakpointId> {
    set k | k in breakpoints && IsResolved(breakpoints[k]) :: breakpoints[k].actual.id
  }

  /** The engine's breakpoints are those of the resolved entries, one each. */
  ghost predicate EngineAgrees(r: Registry) {
    && r.engine == EngineIds(r.breakpoints)
    && (forall k, l :: k in r.breakpoints && l in r.breakpoints && k != l ==>
                         IsResolved(r.breakpoints[k]) ==> IsResolved(r.breakpoints[l]) ==>
                             r.breakpoints[k].actual.id != r.breakpoints[l].actual.id)
  }

  ghost predicate Agreement(r: Registry, regex: Regex) {
    KeysAgree(r) && ScriptsAgree(r) && LoadsAgree(r, regex) && ReportsAgree(r) && EngineAgrees(r)
  }

  // ---------------------------------------------------------------- every step keeps it

  lemma {:induction false} SourceKeepsKeys(r: Registry, script: Script, regex: Regex, r': Registry)
    requires SourceStep(r, script, regex, r') && KeysAgree(r)
    ensures KeysAgree(r')
  {
  }

  lemma {:induction false} SourceKeepsLoads(r: Registry, script: Script, regex: Regex, r': Registry)
    requires SourceStep(r, script, regex, r') && Consistent(r.scripts, script) && LoadsAgree(r, regex)
    ensures LoadsAgree(r', regex)
  {
    assert script.scriptId in r'.scripts && r'.scripts[script.scriptId] == script;
    forall k | k in r'.breakpoints
      ensures LoadAgrees(r'.breakpoints[k], SomeMatch(r'.breakpoints[k], r'.scripts, regex))
    {
      var b, b' := r.breakpoints[k], r'.breakpoints[k];
      assert EntryStep(b, r.reports[k], script, regex, b', r'.reports[k]);
      if SomeMatch(b, r.scripts, regex) {
        var id :| id in r.scripts && IsScriptMatch(b, r.scripts[id], regex);
        assert id in r'.scripts && IsScriptMatch(b', r'.scripts[id], regex);
      } else if SomeMatch(b', r'.scripts, regex) {
        var id :| id in r'.scripts && IsScriptMatch(b', r'.scripts[id], regex);
        assert id == script.scriptId;
      }
    }
  }

  lemma {:induction false} SourceKeepsReports(r: Registry, script: Script, regex: Regex, r': Registry)
    requires SourceStep(r, script, regex, r') && Consistent(r.scripts, script) && ReportsAgree(r)
    ensures ReportsAgree(r')
  {
  }

  lemma {:induction false} SourceKeepsEngine(r: Registry, script: Script, regex: Regex, r': Registry)
    requires SourceStep(r, script, regex, r') && Consistent(r.scripts, script) && EngineAgrees(r) && ReportsAgree(r)
    ensures EngineAgrees(r')
  {
    forall k | k in r.breakpoints
      ensures IsResolved(r'.breakpoints[k]) <==> IsResolved(r.breakpoints[k]) || Wants(r.breakpoints[k], script, regex)
      ensures !Wants(r.breakpoints[k], script, regex) ==> r'.breakpoints[k] == r.breakpoints[k]
    {
      assert EntryStep(r.breakpoints[k], r.reports[k], script, regex, r'.breakpoints[k], r'.reports[k]);
    }
    hide EntryStep, Wants, IsResolved;
    forall x ensures x in r'.engine <==> x in EngineIds(r'.breakpoints) {
      if x in r.engine {
        var k :| k in r.breakpoints && IsResolved(r.breakpoints[k]) && r.breakpoints[k].actual.id == x;
        assert !Wants(r.breakpoints[k], script, regex) by { ResolvedWantsNothing(r, k, script, regex); }
        assert r'.breakpoints[k].actual.id == x;
      }
    }
  }

  lemma {:induction false} ResolvedWantsNothing(r: Registry, k: Text, script: Script, regex: Regex)
    requires ReportsAgree(r) && k in r.breakpoints && IsResolved(r.breakpoints[k])
    ensures !Wants(r.breakpoints[k], script, regex)
  {
  }

  /** Storing an entry that the engine has placed. */
  lemma {:induction false} StoreAtEngine(r: Registry, b: Breakpoint)
    requires EngineAgrees(r) && Key(b) !in r.breakpoints && IsResolved(b) && b.actual.id !in r.engine
    ensures EngineAgrees(StoreAt(r, b))
  {
    var r' := StoreAt(r, b);
    hide Key;
    forall x ensures x in r'.engine <==> x in EngineIds(r'.breakpoints) {
      if x == b.actual.id {
        assert IsResolved(r'.breakpoints[Key(b)]);
      } else if x in r.engine {
        var k :| k in r.breakpoints && IsResolved(r.breakpoints[k]) && r.breakpoints[k].actual.id == x;
        assert r'.breakpoints[k] == r.breakpoints[k];
      }
    }
    forall k | k in r.breakpoints && IsResolved(r.breakpoints[k])
      ensures r.breakpoints[k].actual.id != b.actual.id
    {
      assert r.breakpoints[k].actual.id in EngineIds(r.breakpoints);
    }
  }

  /** All but the engine's side of storing an entry. */
  lemma {:induction false} StoreKeeps(r: Registry, b: Breakpoint, r': Registry, regex: Regex)
    requires KeysAgree(r) && ScriptsAgree(r) && LoadsAgree(r, regex) && ReportsAgree(r)
    requires LoadAgrees(b, SomeMatch(b, r.scripts, regex))
    requires r'.breakpoints == r.breakpoints[Key(b) := b] && r'.scripts == r.scripts && r'.enabled == r.enabled
    requires r'.reports == r.reports[Key(b) := if IsResolved(b) then 1 else 0] &&
             ReportAgrees(b, if IsResolved(b) then 1 else 0)
    ensures KeysAgree(r') && ScriptsAgree(r') && LoadsAgree(r', regex) && ReportsAgree(r')
  {
    hide GenerateKey, SomeMatch, IsResolved, IsScriptLoaded, Proper, IsScriptMatch;
  }

  lemma {:induction false} StoreAtKeeps(r: Registry, b: Breakpoint, regex: Regex)
    requires Agreement(r, regex) && Key(b) !in r.breakpoints && IsScriptLoaded(b) && NewPlace(r, b.actual)
    requires b.queryType == ScriptId || SomeMatch(b, r.scripts, regex)
    ensures Agreement(StoreAt(r, b), regex)
  {
    hide Key, SomeMatch, EngineAgrees, KeysAgree, ScriptsAgree, LoadsAgree, ReportsAgree;
    StoreAtEngine(r, b);
    StoreKeeps(r, b, StoreAt(r, b), regex);
  }

  lemma {:induction false} StorePendingEngine(r: Registry, b: Breakpoint)
    requires EngineAgrees(r) && Key(b) !in r.breakpoints && !IsResolved(b)
    ensures EngineAgrees(StorePending(r, b))
  {
    var r' := StorePending(r, b);
    hide Key;
    forall x ensures x in EngineIds(r'.breakpoints) <==> x in EngineIds(r.breakpoints) {
      if x in EngineIds(r.breakpoints) {
        var k :| k in r.breakpoints && IsResolved(r.breakpoints[k]) && r.breakpoints[k].actual.id == x;
        assert r'.breakpoints[k] == r.breakpoints[k];
      }
    }
  }

  lemma {:induction false} StorePendingKeeps(r: Registry, b: Breakpoint, regex: Regex)
    requires Agreement(r, regex) && Key(b) !in r.breakpoints && !IsScriptLoaded(b) && b.actual == NOWHERE
    requires b.queryType != ScriptId && !SomeMatch(b, r.scripts, regex)
    ensures Agreement(StorePending(r, b), regex)
  {
    hide Key, SomeMatch, EngineAgrees, KeysAgree, ScriptsAgree, LoadsAgree, ReportsAgree;
    StorePendingEngine(r, b);
    StoreKeeps(r, b, StorePending(r, b), regex);
  }

  lemma {:induction false} RemovedEngine(r: Registry, key: Text)
    requires EngineAgrees(r) && key in r.breakpoints && IsResolved(r.breakpoints[key])
    ensures EngineAgrees(Removed(r, key))
  {
    var r' := Removed(r, key);
    forall x ensures x in r'.engine <==> x in EngineIds(r'.breakpoints) {
      if x in r'.engine {
        var k :| k in r.breakpoints && IsResolved(r.breakpoints[k]) && r.breakpoints[k].actual.id == x;
        assert k in r'.breakpoints;
      }
    }
  }

  lemma {:induction false} RemovedKeeps(r: Registry, key: Text, regex: Regex)
    requires Agreement(r, regex) && key in r.breakpoints && IsResolved(r.breakpoints[key])
    ensures Agreement(Removed(r, key), regex)
  {
    RemovedEngine(r, key);
    hide Key, IsScriptMatch, EngineAgrees, SomeMatch;
  }

  /** A stored breakpoint can be removed exactly when it is resolved. */
  lemma {:induction false} RemovableIffResolved(r: Registry, key: Text, regex: Regex)
    requires Agreement(r, regex) && key in r.breakpoints
    ensures r.breakpoints[key].actual.id in r.engine <==> IsResolved(r.breakpoints[key])
  {
  }

  lemma {:induction false} FreshAgrees(regex: Regex)
    ensures Agreement(FRESH, regex)
  {
  }

  lemma {:induction false} ByUrlKeeps(r: Registry, b: Breakpoint, regex: Regex, reply: Reply, r': Registry)
    requires Agreement(r, regex) && ByUrlStep(r, b, regex, reply, r')
    requires b.queryType != ScriptId && !IsScriptLoaded(b) && b.actual == NOWHERE
    ensures Agreement(r', regex)
  {
    hide Agreement;
    if r' == r {
    } else if r' == StorePending(r, b) && reply == Stored(Key(b), []) {
      StorePendingKeeps(r, b, regex);
    } else {
      var id, place: Place :| id in r.scripts && IsScriptMatch(b, r.scripts[id], regex) && NewPlace(r, place)
                              && r' == StoreAt(r, Loaded(b, r.scripts[id], place));
      LoadedFits(r, b, id, place, regex);
      StoreAtKeeps(r, Loaded(b, r.scripts[id], place), regex);
    }
  }

  lemma {:induction false} LoadedFits(r: Registry, b: Breakpoint, id: Text, place: Place, regex: Regex)
    requires Agreement(r, regex) && id in r.scripts && IsScriptMatch(b, r.scripts[id], regex)
    ensures var c := Loaded(b, r.scripts[id], place);
            IsScriptLoaded(c) && SomeMatch(c, r.scripts, regex) && Key(c) == Key(b)
  {
  }

  lemma {:induction false} AtLocationKeeps(r: Registry, b: Breakpoint, regex: Regex, reply: Reply, r': Registry)
    requires Agreement(r, regex) && AtLocationStep(r, b, reply, r') && b.queryType == ScriptId
    ensures Agreement(r', regex)
  {
    hide Agreement;
    if r' != r {
      var place: Place :| IsScriptLoaded(b) && NewPlace(r, place) && r' == StoreAt(r, b.(actual := place));
      assert Key(b.(actual := place)) == Key(b);
      StoreAtKeeps(r, b.(actual := place), regex);
    }
  }

  lemma {:induction false} SourceKeeps(r: Registry, script: Script, regex: Regex, r': Registry)
    requires Agreement(r, regex) && r.enabled && Consistent(r.scripts, script) && SourceStep(r, script, regex, r')
    ensures Agreement(r', regex)
  {
    SourceKeepsKeys(r, script, regex, r');
    SourceKeepsLoads(r, script, regex, r');
    SourceKeepsReports(r, script, regex, r');
    SourceKeepsEngine(r, script, regex, r');
    hide KeysAgree, LoadsAgree, ReportsAgree, EngineAgrees;
  }

  lemma {:induction false} StepKeepsAgreement(r: Registry, a: Action, regex: Regex, reply: Reply, r': Registry)
    requires Agreement(r, regex) && Step(r, a, regex, reply, r')
    ensures Agreement(r', regex)
  {
    match a {
      case Enable =>
      case Disable =>
        FreshAgrees(regex);
      case SetBreakpointByUrl(line, url, urlRegex, column, condition) =>
        var args := ReadArguments(line, url, urlRegex, column, condition);
        if args.GoodArguments? {
          ByUrlKeeps(r, args.breakpoint, regex, reply, r');
        }
      case SetBreakpoint(scriptId, line, column, condition) =>
        var b := MakeBreakpoint(scriptId, ScriptId, line, FromMaybe(column, 0), FromMaybe(condition, []));
        AtLocationKeeps(r, b, regex, reply, r');
      case RemoveBreakpoint(key) =>
        if r' != r {
          RemovableIffResolved(r, key, regex);
          RemovedKeeps(r, key, regex);
        }
      case ScriptLoaded(script) =>
        SourceKeeps(r, script, regex, r');
    }
  }

  // ---------------------------------------------------------------- runs

  /** `states` is a run of one agent over `actions`, with `replies` as the answers. */
  ghost predicate Behavior(states: seq<Registry>, actions: seq<Action>, replies: seq<Reply>, regex: Regex) {
    && |states| == |actions| + 1 && |replies| == |actions| && states[0] == FRESH
    && forall i :: 0 <= i < |actions| ==> Step(states[i], actions[i], regex, replies[i], states[i + 1])
  }

  lemma {:induction false} BehaviorStep(states: seq<Registry>, actions: seq<Action>, replies: seq<Reply>,
                                        regex: Regex, n: nat)
    requires Behavior(states, actions, replies, regex) && n < |actions|
    ensures Step(states[n], actions[n], regex, replies[n], states[n + 1])
  {
  }

  /** In every state of every run: each key is its breakpoint's, a URL or regular-expression
      breakpoint is loaded exactly when a known script matches it, loaded breakpoints and no
      others were reported, once, and the engine's set is that of the resolved entries. */
  lemma {:induction false} AlwaysAgrees(states: seq<Registry>, actions: seq<Action>, replies: seq<Reply>,
                                        regex: Regex, n: nat)
    requires Behavior(states, actions, replies, regex) && n < |states|
    ensures Agreement(states[n], regex)
  {
    hide Step, Agreement;
    if n == 0 {
      FreshAgrees(regex);
    } else {
      AlwaysAgrees(states, actions, replies, regex, n - 1);
      BehaviorStep(states, actions, replies, regex, n - 1);
      StepKeepsAgreement(states[n - 1], actions[n - 1], regex, replies[n - 1], states[n]);
    }
  }

  /** One step never moves a loaded breakpoint. */
  lemma {:induction false} StepKeepsLoaded(r: Registry, a: Action, regex: Regex, reply: Reply, r': Registry, key: Text)
    requires Step(r, a, regex, reply, r')
    requires key in r.breakpoints && key in r'.breakpoints && IsScriptLoaded(r.breakpoints[key])
    ensures r'.breakpoints[key] == r.breakpoints[key]
  {
  }

  /** While an entry stays in the map, its script and position never change once set. */
  lemma {:induction false} LoadedForGood(states: seq<Registry>, actions: seq<Action>, replies: seq<Reply>, regex: Regex,
                                         i: nat, j: nat, key: Text)
    requires Behavior(states, actions, replies, regex) && i <= j < |states|
    requires forall n :: i <= n <= j ==> key in states[n].breakpoints
    requires IsScriptLoaded(states[i].breakpoints[key])
    ensures states[j].breakpoints[key] == states[i].breakpoints[key]
    decreases j
  {
    hide Step, IsScriptLoaded;
    if i < j {
      LoadedForGood(states, actions, replies, regex, i, j - 1, key);
      BehaviorStep(states, actions, replies, regex, j - 1);
      hide Behavior;
      StepKeepsLoaded(states[j - 1], actions[j - 1], regex, replies[j - 1], states[j], key);
    }
  }

  /** A request that is refused changes neither side. */
  lemma {:induction false} RefusedChangesNothing(r: Registry, a: Action, regex: Regex, reply: Reply, r': Registry)
    requires Step(r, a, regex, reply, r') && (reply.Error? || reply.Threw?)
    ensures r' == r
  {
  }

  /** A removal of a stored breakpoint throws exactly when the breakpoint is not resolved, and
      otherwise takes it, and it alone, from both sides. */
  lemma {:induction false} RemoveTakesOne(r: Registry, key: Text, regex: Regex, reply: Reply, r': Registry)
    requires Agreement(r, regex) && key in r.breakpoints && Step(r, RemoveBreakpoint(key), regex, reply, r')
    ensures reply == if IsResolved(r.breakpoints[key]) then Success else Threw
    ensures reply == Success ==>
              && r'.breakpoints.Keys == r.breakpoints.Keys - {key}
              && (forall k :: k in r'.breakpoints ==> r'.breakpoints[k] == r.breakpoints[k])
              && r.engine == r'.engine + {r.breakpoints[key].actual.id} && r.breakpoints[key].actual.id !in r'.engine
  {
    RemovableIffResolved(r, key, regex);
    hide Agreement;
  }

  /** Destroying an agent disables it, which leaves nothing in the engine exactly when the agent
      is enabled or has placed nothing. */
  lemma {:induction false} DestroyedLeavesNothing(r: Registry, regex: Regex)
    requires Agreement(r, regex)
    ensures Disabled(r).engine == {} <==>
            r.enabled || (forall k :: k in r.breakpoints ==> !IsResolved(r.breakpoints[k]))
  {
    if k :| k in r.breakpoints && IsResolved(r.breakpoints[k]) {
      assert r.breakpoints[k].actual.id in EngineIds(r.breakpoints);
    } else {
      assert EngineIds(r.breakpoints) == {};
    }
  }

  // ---------------------------------------------------------------- what holds whatever the engine does

  /** Every entry that was placed has an id of the engine, and no two have the same. This needs no
      assumption about scripts, earlier agents or engine calls that throw. */
  ghost predicate PlacesDistinct(r: Registry) {
    && (forall k :: k in r.breakpoints ==>
                      r.breakpoints[k].actual == NOWHERE ||
                      (Proper(r.breakpoints[k].actual) && r.breakpoints[k].actual.id in r.engine))
    && (forall k, l :: k in r.breakpoints && l in r.breakpoints && k != l ==>
                         r.breakpoints[k].actual.id == r.breakpoints[l].actual.id ==>
                           r.breakpoints[k].actual == NOWHERE)
  }

  lemma {:induction false} WalkedKeepsPlaces(r: Registry, script: Script, regex: Regex, done: set<Text>, r': Registry)
    requires Walked(r, script, regex, done, r') && PlacesDistinct(r)
    ensures PlacesDistinct(r')
  {
    forall k | k in r.breakpoints
      ensures r'.breakpoints[k] == r.breakpoints[k] ||
              (k in done && Wants(r.breakpoints[k], script, regex) && Proper(r'.breakpoints[k].actual)
               && r'.breakpoints[k].actual.id in r'.engine && r'.breakpoints[k].actual.id !in r.engine)
    {
      if k in done {
        assert EntryStep(r.breakpoints[k], r.reports[k], script, regex, r'.breakpoints[k], r'.reports[k]);
      }
    }
    hide Wants, EntryStep, AddScript;
  }

  /** What an engine call that throws leaves behind: the entry under `key` has its script but no place. */
  function Stuck(r: Registry, key: Text, script: Script): Registry
    requires key in r.breakpoints
  {
    r.(breakpoints := r.breakpoints[key := r.breakpoints[key].(scriptId := script.scriptId)])
  }

  lemma {:induction false} StuckKeepsPlaces(r: Registry, key: Text, script: Script)
    requires key in r.breakpoints && PlacesDistinct(r)
    ensures PlacesDistinct(Stuck(r, key, script))
  {
  }

  lemma {:induction false} StoredKeepsPlaces(r: Registry, b: Breakpoint)
    requires PlacesDistinct(r) && Key(b) !in r.breakpoints
    ensures NewPlace(r, b.actual) ==> PlacesDistinct(StoreAt(r, b))
    ensures b.actual == NOWHERE ==> PlacesDistinct(StorePending(r, b))
  {
    hide Key;
  }

  lemma {:induction false} StepKeepsPlaces(r: Registry, a: Action, regex: Regex, reply: Reply, r': Registry)
    requires Step(r, a, regex, reply, r') && PlacesDistinct(r)
    ensures PlacesDistinct(r')
  {
    hide GenerateKey, IsScriptMatch, PlacesDistinct;
    match a {
      case Enable => SamePlaces(r, r');
      case Disable => NoPlaces();
      case SetBreakpointByUrl(line, url, urlRegex, column, condition) =>
        var args := ReadArguments(line, url, urlRegex, column, condition);
        if args.GoodArguments? {
          ByUrlKeepsPlaces(r, args.breakpoint, regex, reply, r');
        }
      case SetBreakpoint(scriptId, line, column, condition) =>
        var b := MakeBreakpoint(scriptId, ScriptId, line, FromMaybe(column, 0), FromMaybe(condition, []));
        if r' != r {
          var place: Place :| IsScriptLoaded(b) && NewPlace(r, place) && r' == StoreAt(r, b.(actual := place));
          StoredKeepsPlaces(r, b.(actual := place));
        }
      case RemoveBreakpoint(key) =>
        if r' != r {
          RemovedKeepsPlaces(r, key);
        }
      case ScriptLoaded(script) =>
        WalkedKeepsPlaces(r, script, regex, r.breakpoints.Keys, r');
    }
  }

  lemma {:induction false} SamePlaces(r: Registry, r': Registry)
    requires PlacesDistinct(r) && r'.breakpoints == r.breakpoints && r'.engine == r.engine
    ensures PlacesDistinct(r')
  {
  }

  lemma {:induction false} NoPlaces()
    ensures PlacesDistinct(FRESH)
  {
  }

  lemma {:induction false} RemovedKeepsPlaces(r: Registry, key: Text)
    requires PlacesDistinct(r) && key in r.breakpoints
    ensures PlacesDistinct(Removed(r, key))
  {
  }

  lemma {:induction false} ByUrlKeepsPlaces(r: Registry, b: Breakpoint, regex: Regex, reply: Reply, r': Registry)
    requires PlacesDistinct(r) && ByUrlStep(r, b, regex, reply, r') && b.actual == NOWHERE
    ensures PlacesDistinct(r')
  {
    hide PlacesDistinct, Key, IsScriptMatch;
    if r' == r {
    } else if r' == StorePending(r, b) {
      StoredKeepsPlaces(r, b);
    } else {
      var id, place: Place :| id in r.scripts && IsScriptMatch(b, r.scripts[id], regex) && NewPlace(r, place)
                              && r' == StoreAt(r, Loaded(b, r.scripts[id], place));
      SameKey(b, r.scripts[id], place);
      StoredKeepsPlaces(r, Loaded(b, r.scripts[id], place));
    }
  }

  lemma {:induction false} SameKey(b: Breakpoint, script: Script, place: Place)
    ensures Key(Loaded(b, script, place)) == Key(b)
  {
  }

  // ---------------------------------------------------------------- a run as it unfolds

  /** The run of an agent so far. */
  datatype Past = Past(states: seq<Registry>, actions: seq<Action>, replies: seq<Reply>)

  const NO_PAST := Past([FRESH], [], [])

  /** `past` is a run that has led to `r`. */
  ghost predicate LedTo(past: Past, regex: Regex, r: Registry) {
    Behavior(past.states, past.actions, past.replies, regex) && past.states[|past.actions|] == r
  }

  function Extended(past: Past, a: Action, reply: Reply, r: Registry): Past {
    Past(past.states + [r], past.actions + [a], past.replies + [reply])
  }

  lemma {:induction false} LedOn(past: Past, regex: Regex, r: Registry, a: Action, reply: Reply, r': Registry)
    requires LedTo(past, regex, r) && Step(r, a, regex, reply, r')
    ensures LedTo(Extended(past, a, reply, r'), regex, r')
  {
    hide Step;
    var more := Extended(past, a, reply, r');
    forall i | 0 <= i < |more.actions|
      ensures Step(more.states[i], more.actions[i], regex, more.replies[i], more.states[i + 1])
    {
      if i < |past.actions| {
        BehaviorStep(past.states, past.actions, past.replies, regex, i);
      }
    }
  }

  lemma {:induction false} LedToAgrees(past: Past, regex: Regex, r: Registry)
    requires LedTo(past, regex, r)
    ensures Agreement(r, regex)
  {
    AlwaysAgrees(past.states, past.actions, past.replies, regex, |past.actions|);
  }

  /** A run that gets there: a breakpoint on a URL that no script has is stored, and removing it throws. */
  lemma {:induction false} RemovingPendingThrows(regex: Regex)
    ensures var b := MakeBreakpoint([97], Url, 0, 0, []);
            var stored := StorePending(FRESH, b);
            Behavior([FRESH, stored, stored],
                     [SetBreakpointByUrl(0, Some([97]), None, None, None), RemoveBreakpoint(Key(b))],
                     [Stored(Key(b), []), Threw], regex)
  {
  }

  /** A run that leaves a breakpoint behind: an agent that was never enabled places one and is destroyed. */
  lemma {:induction false} NeverEnabledLeavesOne(regex: Regex)
    ensures var b := MakeBreakpoint([49], ScriptId, 0, 0, []).(actual := Place(BreakpointId(0), 0, 0));
            var stored := StoreAt(FRESH, b);
            && Behavior([FRESH, stored, stored], [SetBreakpoint([49], 0, None, None), Disable],
                        [Stored(Key(b), [GetActualLocation(b)]), Success], regex)
            && Disabled(stored).engine == {BreakpointId(0)}
  {
    var b := MakeBreakpoint([49], ScriptId, 0, 0, []);
    assert NewPlace(FRESH, Place(BreakpointId(0), 0, 0));
  }

  // ---------------------------------------------------------------- what a request comes to, argument by argument

  /** The script is one that the URL, or else the regular expression, asks for. */
  predicate UrlFits(url: Option<Text>, urlRegex: Option<Text>, script: Script, regex: Regex) {
    match url
    case Some(u) => script.url == u
    case None => urlRegex.Some? && regex(urlRegex.value, script.url)
  }

  ghost predicate SomeUrlFits(url: Option<Text>, urlRegex: Option<Text>, scripts: map<Text, Script>, regex: Regex) {
    exists id :: id in scripts && UrlFits(url, urlRegex, scripts[id], regex)
  }

  /** A stored breakpoint has the line, the column and the condition that were asked for, and the client
      is told where the engine put it, if it is placed at all. */
  ghost predicate StoredAs(r: Registry, line: int32, column: Option<int32>, condition: Option<Text>, reply: Reply,
                           r': Registry)
    requires reply.Stored?
  {
    && reply.key !in r.breakpoints && reply.key in r'.breakpoints
    && r'.breakpoints == r.breakpoints[reply.key := r'.breakpoints[reply.key]] && r'.scripts == r.scripts
    && var b := r'.breakpoints[reply.key];
    && b.line == line && b.column == (match column case Some(c) => c case None => 0)
    && b.condition == (match condition case Some(t) => t case None => [])
    && reply.locations ==
       if b.scriptId == [] then [] else [Location(b.scriptId, b.actual.line, b.actual.column)]
  }

  /** The first check that fails decides the error of `setBreakpointByUrl`. */
  lemma {:induction false} UrlErrors(r: Registry, line: int32, url: Option<Text>, urlRegex: Option<Text>,
                                     column: Option<int32>, condition: Option<Text>, regex: Regex, reply: Reply,
                                     r': Registry)
    requires Step(r, SetBreakpointByUrl(line, url, urlRegex, column, condition), regex, reply, r')
    ensures reply == Error(UrlRequired) <==> url.None? && urlRegex.None?
    ensures reply == Error(InvalidColumn) <==> (url.Some? || urlRegex.Some?) && column.Some? && column.value < 0
    ensures reply == Error(Exists) <==>
            && (url.Some? || urlRegex.Some?) && (column.Some? ==> column.value >= 0)
            && var c := if column.Some? then column.value else 0;
            && (if url.Some? then GenerateKey(Url, url.value, line, c)
                else GenerateKey(UrlRegex, urlRegex.value, line, c)) in r.breakpoints
    ensures reply.Stored? || reply.Error?
  {
    hide GenerateKey, IsScriptMatch;
  }

  lemma {:induction false} MatchFits(url: Option<Text>, urlRegex: Option<Text>, b: Breakpoint,
                                     scripts: map<Text, Script>, regex: Regex)
    requires if url.Some? then b.queryType == Url && b.query == url.value
             else urlRegex.Some? && b.queryType == UrlRegex && b.query == urlRegex.value
    ensures forall id :: id in scripts ==> (IsScriptMatch(b, scripts[id], regex) <==>
                                            UrlFits(url, urlRegex, scripts[id], regex))
  {
  }

  lemma {:induction false} StoredStep(r: Registry, b: Breakpoint, regex: Regex, reply: Reply, r': Registry)
    requires ByUrlStep(r, b, regex, reply, r') && ScriptsAgree(r) && reply.Stored? && b.scriptId == []
    ensures reply.key !in r.breakpoints && reply.key in r'.breakpoints && r'.scripts == r.scripts
    ensures r'.breakpoints == r.breakpoints[reply.key := r'.breakpoints[reply.key]]
    ensures var b' := r'.breakpoints[reply.key];
            && b' == b.(scriptId := b'.scriptId, actual := b'.actual)
            && reply.locations ==
               (if b'.scriptId == [] then [] else [Location(b'.scriptId, b'.actual.line, b'.actual.column)])
            && (b'.scriptId != [] <==> SomeMatch(b, r.scripts, regex))
            && (b'.scriptId != [] ==>
                  exists id :: id in r.scripts && r.scripts[id].scriptId == b'.scriptId &&
                               IsScriptMatch(b, r.scripts[id], regex))
  {
    hide GenerateKey, IsScriptMatch;
  }

  /** What `setBreakpointByUrl` stores is what was asked for, in a script that fits if there is one. */
  lemma {:induction false} StoredByUrl(r: Registry, line: int32, url: Option<Text>, urlRegex: Option<Text>,
                                       column: Option<int32>, condition: Option<Text>, regex: Regex, reply: Reply,
                                       r': Registry)
    requires Step(r, SetBreakpointByUrl(line, url, urlRegex, column, condition), regex, reply, r')
    requires ScriptsAgree(r) && reply.Stored?
    ensures StoredAs(r, line, column, condition, reply, r')
    ensures var b := r'.breakpoints[reply.key];
            && (if url.Some? then b.queryType == Url && b.query == url.value
                else urlRegex.Some? && b.queryType == UrlRegex && b.query == urlRegex.value)
            && (b.scriptId != [] <==> SomeUrlFits(url, urlRegex, r.scripts, regex))
            && (b.scriptId != [] ==>
                  exists id :: id in r.scripts && r.scripts[id].scriptId == b.scriptId &&
                               UrlFits(url, urlRegex, r.scripts[id], regex))
  {
    var b := ReadArguments(line, url, urlRegex, column, condition).breakpoint;
    StoredStep(r, b, regex, reply, r');
    hide GenerateKey;
    MatchFits(url, urlRegex, ReadArguments(line, url, urlRegex, column, condition).breakpoint, r.scripts, regex);
    hide IsScriptMatch, UrlFits, ByUrlStep;
  }

  /** `setBreakpoint`, argument by argument. */
  lemma {:induction false} StoredAtLocation(r: Registry, scriptId: Text, line: int32, column: Option<int32>,
                                            condition: Option<Text>, regex: Regex, reply: Reply, r': Registry)
    requires Step(r, SetBreakpoint(scriptId, line, column, condition), regex, reply, r')
    ensures reply == Threw || reply == Error(Exists) || reply.Stored?
    ensures reply == Error(Exists) <==>
            GenerateKey(ScriptId, scriptId, line, if column.Some? then column.value else 0) in r.breakpoints
    ensures reply.Stored? ==>
              && StoredAs(r, line, column, condition, reply, r') && scriptId != []
              && r'.breakpoints[reply.key].queryType == ScriptId
              && r'.breakpoints[reply.key].query == r'.breakpoints[reply.key].scriptId == scriptId
  {
    hide GenerateKey;
  }

  /** `removeBreakpoint` complains of a key exactly when nothing is stored under it. */
  lemma {:induction false} RemoveReplies(r: Registry, key: Text, regex: Regex, reply: Reply, r': Registry)
    requires Step(r, RemoveBreakpoint(key), regex, reply, r')
    ensures reply == Error(NotFound) <==> key !in r.breakpoints
    ensures reply == Success || reply == Threw || reply == Error(NotFound)
    ensures reply == Success ==> r'.breakpoints == r.breakpoints - {key} && r'.scripts == r.scripts
  {
  }

  /** A script event gives its script to exactly the waiting breakpoints that ask for its URL, literally
      or by a pattern, and to no other. */
  lemma {:induction false} WaitingGetScript(r: Registry, script: Script, regex: Regex, r': Registry, key: Text)
    requires SourceStep(r, script, regex, r') && key in r.breakpoints && script.scriptId != []
    requires r.breakpoints[key].queryType != ScriptId
    ensures key in r'.breakpoints && r'.breakpoints.Keys == r.breakpoints.Keys
    ensures var b, b' := r.breakpoints[key], r'.breakpoints[key];
            var fits := if b.queryType == Url then script.url == b.query else regex(b.query, script.url);
            && (b.scriptId == [] && fits ==> b'.scriptId == script.scriptId && Proper(b'.actual))
            && (b.scriptId != [] || !fits ==> b' == b)
            && b'.line == b.line && b'.column == b.column && b'.condition == b.condition && b'.query == b.query
  {
    hide AddScript;
  }
}
