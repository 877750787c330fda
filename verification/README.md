# ChakraCore debugger protocol: model and proofs

ChakraCore's debugger talks to a client, such as an IDE, in JSON-RPC messages over a WebSocket.
A service thread receives the messages and queues them; the script thread takes them from the
queue whenever the script engine gives it a chance, parses them, dispatches them to agents and
sends replies. This project models that path in Dafny and proves what it is meant to guarantee.

## What is modelled

- **JSON text** (`String16`, `Values`, `Writer`, `Lexer`, `Lexical`, `Layout`, `Parser`, `Syntax`,
  `RoundTrip`, `Language`, `Dictionary`). The value tree, the escaper and printer, the pointer-based
  tokenizer, the recursive parser and the ordered dictionary. The loops are methods proved
  against short recursive functions; what the tokens and the language are is said once more,
  independently, as grammars, and the parser is shown to accept exactly that grammar. What
  each text means is said once more without any of that code (`Language`). Printer and parser
  undo each other on all trees up to the depth limit.
- **Typed values and ids** (`ErrorSupport`, `RuntimeTypes`, `Wire`, `RuntimeText`, `Names`,
  `FrameIds`). The mutually recursive conversions of the Runtime domain with their shared error
  path, which tree stands for which record, and the keys and ids that the debugger prints and
  later reads back, also those it prints without escaping.
- **The command queue** (`CommandQueue`, `Reentry`, `ProtocolHandler`, `ServiceHandler`). A machine
  whose steps are what either thread does under the lock, a sleep, a wake-up and the handling of
  one command; results hold for every interleaving, and those about throwing handlers say exactly
  when a handler may start a nested activation. The handler and its drain loop are also objects
  with fields, and each state of the object is a state of the machine.
- **Breakpoints and agents** (`Breakpoints`, `DebuggerAgent`, `AgentLifetime`). The two maps of an
  agent, the engine's own set of breakpoints and the callbacks, under every order of requests,
  script loads, connects and disconnects, what the engine is asked and what it answered, and what
  each event of the engine comes to. The order in which a hash map is walked is left open.
- **Dispatch** (`Dispatcher`, `Responses`, `Replies`). From a parsed message to its replies,
  through weak pointers and callbacks on the heap, the text of what is sent, and what the client
  reads there.

## What the proofs assume

- Doubles are opaque. How the C++ streams print and read them is a parameter (`Host`), and the
  round trips say exactly which doubles they need to read back as themselves. Plain int32
  literals are read exactly.
- The script engine, regular expressions and condition evaluation are parameters. The engine
  gives proper positions and ids that are not in use, or refuses. Script ids are not empty. That
  equal ids mean equal scripts is needed for the results about loaded breakpoints, and not for
  which breakpoint was hit.
- Exact order of handling is for handlers that do not re-enter the queue. Conservation and wake-ups
  hold with re-entry as well. No connect or disconnect handler throws as long as handlers re-enter
  only while nothing but messages is left in the batches under way, and `EntrySafeIff` shows that
  this is the exact condition.
- Every thread step that the code makes under the lock is one step of the machine; the flag that
  only the script thread touches is set in the step that starts the activation.

## Where the code does not do what one would expect

- The last unit of `null`, `true` and `false` is not looked at (`AnyFourthUnitMakesNull`), so the
  accepted language is the grammar of `Syntax` and not that of RFC 4627.
- Numbers may be followed at once by another token, vertical tabs and comments count as space,
  and an unfinished line comment is accepted at the end. Strings may hold raw control units and
  the escape of the vertical tab; one with a two-digit hexadecimal escape is scanned and then
  makes the whole text fail.
- A handler that starts a nested activation with a connect or disconnect left in its batch can make
  a later handler throw (`UnsafeEntryCanFail`; `ReentryCanBeFatal` is such a run).
- A connection that vanishes without a close event leaves the service refusing all later ones until
  it is destroyed (`BlockedForGood`; `VanishedConnectionBlocks` is such a run).
- A scope id is accepted as a call-frame id (`IdsResolve`).
- A frame-property id does not survive a quote or a backslash in the name (`NameSurvivesIff`); the
  names it is printed with, `locals` and `globals`, have none.
- Removing a breakpoint that is not resolved throws out of the handler (`RemoveTakesOne`;
  `RemovingPendingThrows` is such a run).
- Destroying an agent that was never enabled leaves its breakpoints in the engine
  (`DestroyedLeavesNothing`; `NeverEnabledLeavesOne` is such a run).
- Disabling leaves the break callback set (`BreakCallbackDangles`).

## Model

| member | source | states |
|---|---|---|
| Language.ParserIsLanguage | lib/Debugger.Protocol/Generated/protocol/Protocol.cpp:1081-1416 | for every text and value: the parser returns the value exactly when the text stands for it, said without the scanner or the decoder: the text is a layout of a tree of at most 1000 levels whose strings, numbers and constants are written as section 2 of RFC 4627 has it, with the deviations listed above, and whose repeated keys merge |
| Language.ScalarIff | lib/Debugger.Protocol/Generated/protocol/Protocol.cpp:977-1079 | what a valid string, number or constant token means is exactly what its text stands for: digits in their places, escapes by a table, constants by all their letters but the last |
| Language.DecodeIffWrites | lib/Debugger.Protocol/Generated/protocol/Protocol.cpp:1214-1267 | a string body is accepted and decodes to a text exactly when it writes that text, unit by unit: plainly, by one of nine short escapes, or by four hexadecimal digits of either case |
| Language.AnyCaseHex | lib/Debugger.Protocol/Generated/protocol/Protocol.cpp:1201-1211 | for every four hexadecimal digits, in any mixture of cases, the quoted escape parses to the one unit whose sixteens they give |
| Language.ShortEscapes | lib/Debugger.Protocol/Generated/protocol/Protocol.cpp:1224-1254 | each of the nine two-unit escapes parses to its unit, also the slash and the vertical tab, which the printer never writes |
| Language.NestedLists | lib/Debugger.Protocol/Generated/protocol/Protocol.cpp:1286-1290 | brackets within brackets are read up to the 1001st pair and rejected beyond it |
| Language.MarksAndSpaces | lib/Debugger.Protocol/Generated/protocol/Protocol.cpp:1120-1136 | the six marks, the two forms of comment and the six units that count as space, in so many letters |
| Language.PrinterWrites | lib/Debugger.Protocol/Generated/protocol/Protocol.cpp:101-143 | which units are printed as they are, which by which short escape, and the rest by four capital hexadecimal digits with the unit's value |
| Language.FiniteBelowInfinity | lib/Debugger.Protocol/Generated/protocol/Protocol.cpp:228-233 | which doubles are printed as null: those whose bits, the sign apart, are those of infinity or above |
| RoundTrip.ParserIsGrammar | lib/Debugger.Protocol/Generated/protocol/Protocol.cpp:1081-1416 | for every text and value: the parser returns the value exactly when the text is some layout (any gaps of whitespace and comments) of a token tree at most 1000 levels deep that means the value |
| RoundTrip.LayoutRoundTrip | lib/Debugger.Protocol/Generated/protocol/Protocol.cpp:1081-1416 | a well-formed tree, printed and with any whitespace or closed comments put between, before and after its tokens, parses back to itself, keys in order, exactly when no node is deeper than 1000 and every double reads back as itself; a deeper tree gives null |
| RoundTrip.PrintThenParse | lib/Debugger.Protocol/Generated/protocol/Protocol.cpp:183-261 | the same for what `serialize` returns, with no gaps |
| RoundTrip.ParseLayout | lib/Debugger.Protocol/Generated/protocol/Protocol.cpp:1287-1416 | what stands between the tokens never matters: every layout of one tree parses to the same result |
| RoundTrip.AnyFourthUnitMakesNull | lib/Debugger.Protocol/Generated/protocol/Protocol.cpp:948-956 | the deviation of the constants: `nul` followed by any unit at all parses to null |
| RoundTrip.MeaningOfPrinted | lib/Debugger.Protocol/Generated/protocol/Protocol.cpp:407-454 | the printed tokens of a well-formed tree mean that tree exactly when its doubles read back as themselves |
| RoundTrip.RepeatedKeysMerge | lib/Debugger.Protocol/Generated/protocol/Protocol.cpp:1356-1396 | for every text of an object that parses, whatever its keys: the result has each key once, in the order of the first occurrences, with the value listed last for it |
| Parser.CollectMerges | lib/Debugger.Protocol/Generated/protocol/Protocol.cpp:1356-1396 | setting any list of members one by one gives each key once, in first-occurrence order, with its last value, and nothing else |
| RoundTrip.ParsedIsWellFormed | lib/Debugger.Protocol/Generated/protocol/Protocol.cpp:1286-1416 | every tree the parser returns has distinct keys in its objects at all levels, and is within the depth limit |
| RoundTrip.SplicePrintsTheSame | lib/Debugger.Protocol/Generated/protocol/Protocol.cpp:268-278 | a tree with parts embedded as already-serialized text prints the same text as the tree itself |
| Writer.RenderPrintable | lib/Debugger.Protocol/Generated/protocol/Protocol.cpp:101-143 | whatever units the strings hold, every unit printed is in 32..126 |
| Writer.EscapeStringForJSON | lib/Debugger.Protocol/Generated/protocol/Protocol.cpp:129-143 | the escaping loop appends the escaped form of the string, which `EscapeRoundTrip` shows decodes back to it |
| Writer.AppendUnsignedAsHex | lib/Debugger.Protocol/Generated/protocol/Protocol.cpp:117-127 | the shift-and-mask loop over a 16-bit number appends the hexadecimal escape that `EscapeRoundTrip` reads back |
| Writer.AppendQuotedString | lib/Debugger.Protocol/StringUtil.cpp:73-85 | a string is appended as a quoted, escaped literal, also when it is empty |
| Writer.WriteJSON | lib/Debugger.Protocol/Generated/protocol/Protocol.cpp:172-176 | writing a tree appends its printed form and changes nothing else in the buffer |
| Writer.Serialize | lib/Debugger.Protocol/Generated/protocol/Protocol.cpp:183-189 | a fresh buffer ends up holding exactly the printed form |
| Lexical.EscapeRoundTrip | lib/Debugger.Protocol/Generated/protocol/Protocol.cpp:1214-1267 | for every sequence of 16-bit units, the escaped form is a valid string body and decodes back to the sequence |
| Lexical.ScanStringSound | lib/Debugger.Protocol/Generated/protocol/Protocol.cpp:1041-1079 | what the string scanner accepts is a well-formed string body up to its quote |
| Lexical.ScanStringComplete | lib/Debugger.Protocol/Generated/protocol/Protocol.cpp:1041-1079 | every well-formed string body followed by a quote is scanned up to that quote |
| Lexical.DecodeFailsOnlyOnHexPair | lib/Debugger.Protocol/Generated/protocol/Protocol.cpp:1214-1267 | on a body the scanner accepts, decoding fails exactly when the body has a two-digit hexadecimal escape |
| Lexical.ScanNumberSound | lib/Debugger.Protocol/Generated/protocol/Protocol.cpp:977-1025 | every span the number scanner accepts is in the grammar of section 2.4 of RFC 4627, and no digit follows it |
| Lexical.ScanNumberComplete | lib/Debugger.Protocol/Generated/protocol/Protocol.cpp:977-1025 | every grammar span that is not followed by a digit, a dot or an exponent mark is accepted whole |
| Lexical.SkipSpaceSound | lib/Debugger.Protocol/Generated/protocol/Protocol.cpp:1120-1136 | what is skipped is a sequence of spaces and closed comments, possibly followed at the end of the input by one unfinished line comment |
| Lexical.ScanTokenComplete | lib/Debugger.Protocol/Generated/protocol/Protocol.cpp:1138-1199 | every valid token is recognized whole at the front of any text that does not continue it |
| Lexer.ParseNumberToken | lib/Debugger.Protocol/Generated/protocol/Protocol.cpp:977-1025 | the pointer code for numbers finds exactly the end that the number grammar gives, without leaving the span |
| Lexer.ParseStringToken | lib/Debugger.Protocol/Generated/protocol/Protocol.cpp:1041-1079 | the pointer code for strings stops just after the closing quote, or fails, as the string grammar says |
| Lexer.DecodeString | lib/Debugger.Protocol/Generated/protocol/Protocol.cpp:1214-1284 | on a body the scanner accepted, the decoding loop reads only inside the span and gives its decoded units, which `DecodeIffWrites` says independently, or fails on a two-digit hexadecimal escape |
| Lexer.ParseConstToken | lib/Debugger.Protocol/Generated/protocol/Protocol.cpp:948-956 | the constant loop, which advances both pointers on a mismatch, accepts exactly the spans that agree on all units but the last |
| Lexer.SkipCommentAt | lib/Debugger.Protocol/Generated/protocol/Protocol.cpp:1081-1118 | the comment loop ends just after the newline, at the end of the input, or just after the closing mark, and fails on an unclosed block |
| Lexer.SkipWhitespaceAndComments | lib/Debugger.Protocol/Generated/protocol/Protocol.cpp:1120-1136 | the skipping loop ends where the declarative skip does |
| Lexer.ParseToken | lib/Debugger.Protocol/Generated/protocol/Protocol.cpp:1138-1199 | one token and its ends, as the declarative scan of the rest of the text gives them |
| Layout.LexWeave | lib/Debugger.Protocol/Generated/protocol/Protocol.cpp:1081-1199 | tokens with any gaps between them are read back as exactly those tokens |
| Layout.LexSound | lib/Debugger.Protocol/Generated/protocol/Protocol.cpp:1081-1199 | every text that lexes cleanly is some weaving of its tokens with gaps |
| Syntax.ParseComplete | lib/Debugger.Protocol/Generated/protocol/Protocol.cpp:1287-1405 | the spelling of every tree within the depth limit parses to the meaning of the tree, and a deeper one to nothing |
| Syntax.ParseSound | lib/Debugger.Protocol/Generated/protocol/Protocol.cpp:1287-1405 | whatever the parser accepts is the spelling of a valid tree within the depth limit, followed by the rest |
| Parser.BuildValue | lib/Debugger.Protocol/Generated/protocol/Protocol.cpp:1286-1405 | the recursive code on positions agrees with parsing the tokens ahead, returns the position after the value and any space, consumes at least one unit and stays inside the text |
| Parser.BuildArray | lib/Debugger.Protocol/Generated/protocol/Protocol.cpp:1328-1355 | the array loop gathers the items the token parser gives, and ends after the bracket; each round consumes input |
| Parser.BuildObject | lib/Debugger.Protocol/Generated/protocol/Protocol.cpp:1356-1396 | the object loop sets the members the token parser gives, one by one (`CollectMerges` says what comes of repeated keys), and ends after the brace; each round consumes input |
| Parser.ParseJSON | lib/Debugger.Protocol/StringUtil.cpp:97-105 | the entry point returns exactly the parse of the whole text, and nothing on an empty one |
| Values.DictionaryHistory | lib/Debugger.Protocol/Generated/protocol/Protocol.h:270-282 | after any history of set and remove: a key is there exactly when the last operation on it was a set, with that value, and keys are distinct and in the order in which they last became present |
| Values.FindAfterSet | lib/Debugger.Protocol/Generated/protocol/Protocol.cpp:366-372 | after a set, the key has the new value and every other key what it had |
| Values.KeysAfterSet | lib/Debugger.Protocol/Generated/protocol/Protocol.h:270-282 | a set leaves the order of keys alone, except that a new key comes last |
| Values.FindAfterRemove | lib/Debugger.Protocol/Generated/protocol/Protocol.cpp:401-405 | after a remove, the key is gone and every other key has what it had |
| Dictionary.DictionaryValue.Set | lib/Debugger.Protocol/Generated/protocol/Protocol.h:270-282 | the map and the order vector stay in agreement, and the entries change as the ordered-list set does |
| Dictionary.DictionaryValue.Remove | lib/Debugger.Protocol/Generated/protocol/Protocol.cpp:401-405 | the map and the order vector stay in agreement, and exactly the one entry disappears |
| Dictionary.DictionaryValue.Get | lib/Debugger.Protocol/Generated/protocol/Protocol.cpp:366-372 | the hash lookup finds what the ordered entries hold |
| Dictionary.DictionaryValue.At | lib/Debugger.Protocol/Generated/protocol/Protocol.cpp:374-378 | the entry at an index of the order vector |
| Dictionary.DictionaryValue.WriteJSON | lib/Debugger.Protocol/Generated/protocol/Protocol.cpp:407-420 | the two-field dictionary prints its entries in order |
| Dictionary.DictionaryValue.CloneDictionary | lib/Debugger.Protocol/Generated/protocol/Protocol.cpp:422-432 | a clone is a new dictionary with equal entries in the same order |
| Dictionary.CloneIsEqual | lib/Debugger.Protocol/Generated/protocol/Protocol.cpp:456-462 | a cloned tree is structurally equal to the original |
| Names.GenerateKeyInjective | lib/Debugger.ProtocolHandler/DebuggerBreakpoint.cpp:87-93 | equal breakpoint keys mean equal type, query, line and column, whatever colons the query holds |
| Names.KeyReads | lib/Debugger.ProtocolHandler/DebuggerBreakpoint.cpp:87-93 | a key reads from both ends: the kind of query is the digit before the first colon, the column what follows the last, the line what stands between that and the colon before it, and the query the middle |
| Names.AnyIdResolves | lib/Debugger.ProtocolHandler/RuntimeImpl.cpp:104-141 | what any object id means, printed by the debugger or not, by its integer `handle`, or else by its integer `ordinal` and its string `name` |
| Names.IdsResolve | lib/Debugger.ProtocolHandler/RuntimeImpl.cpp:104-141 | every printed object, scope and call-frame id leads back to the handle or frame it was printed for, for every int; ids with a handle and ids with an ordinal are never confused, and a scope id given as a call-frame id means its frame |
| Names.IdsArePrinted | lib/Debugger.ProtocolHandler/DebuggerCallFrame.cpp:120-128 | the concatenated ids are the serialized dictionaries, for a frame property if its name needs no escaping |
| FrameIds.NameSurvivesIff | lib/Debugger.ProtocolHandler/DebuggerCallFrame.cpp:125-128 | for every ordinal and every name: the frame-property id, which is put together without escaping, parses back to its ordinal and name exactly when the name has neither a quote nor a backslash |
| String16.DecimalRoundTrip | lib/Debugger.Protocol/String16.cpp:78-83 | the decimal text of every int reads back as that int |
| RuntimeTypes.RemoteObjectRoundTrip | lib/Debugger.Protocol/Generated/protocol/Runtime.cpp:50-136 | a remote object, with everything nested in it, converts to a tree and back to itself |
| RuntimeTypes.ObjectPreviewRoundTrip | lib/Debugger.Protocol/Generated/protocol/Runtime.cpp:224-283 | the mutually recursive previews convert to trees and back to themselves, to any depth |
| RuntimeTypes.PropertyPreviewRoundTrip | lib/Debugger.Protocol/Generated/protocol/Runtime.cpp:305-360 | a property preview with its nested object preview converts to a tree and back to itself |
| RuntimeTypes.EntryPreviewRoundTrip | lib/Debugger.Protocol/Generated/protocol/Runtime.cpp:362-399 | an entry preview with its nested key and value converts to a tree and back to itself |
| RuntimeTypes.StackTraceRoundTrip | lib/Debugger.Protocol/Generated/protocol/Runtime.cpp:752-796 | a stack trace converts to a tree and back to itself, however long its chain of parents |
| Wire.RemoteObjectIff | lib/Debugger.Protocol/Generated/protocol/Runtime.cpp:50-107 | for every tree and remote object: the tree converts to the object exactly when it stands for it, field by field under the protocol's names, nested previews included |
| Wire.ObjectPreviewIff | lib/Debugger.Protocol/Generated/protocol/Runtime.cpp:224-262 | the same for object previews, through properties and entries to any depth |
| Wire.StackTraceIff | lib/Debugger.Protocol/Generated/protocol/Runtime.cpp:752-781 | the same for stack traces, with their call frames and parents |
| Wire.RemoteObjectStands | lib/Debugger.Protocol/Generated/protocol/Runtime.cpp:109-136 | the tree a remote object converts to stands for it, field by field |
| Wire.ObjectPreviewStands | lib/Debugger.Protocol/Generated/protocol/Runtime.cpp:264-283 | the same for object previews |
| Wire.StackTraceStands | lib/Debugger.Protocol/Generated/protocol/Runtime.cpp:783-796 | the same for stack traces |
| RuntimeTypes.RemoteObjectFromValue | lib/Debugger.Protocol/Generated/protocol/Runtime.cpp:50-107 | for every value and any errors already recorded: the error path is as before, an error is added exactly when the value does not convert, and there is a result exactly when no error has been recorded; a value that is no object gets the one error that says so; in an object, every error added is under the name of a field that does not convert, and every such field has one |
| RuntimeTypes.ObjectPreviewFromValue | lib/Debugger.Protocol/Generated/protocol/Runtime.cpp:224-262 | the same for object previews, through the mutual recursion |
| RuntimeTypes.PropertyPreviewFromValue | lib/Debugger.Protocol/Generated/protocol/Runtime.cpp:305-340 | the same for property previews |
| RuntimeTypes.EntryPreviewFromValue | lib/Debugger.Protocol/Generated/protocol/Runtime.cpp:362-384 | the same for entry previews |
| RuntimeTypes.CustomPreviewFromValue | lib/Debugger.Protocol/Generated/protocol/Runtime.cpp:154-185 | the same for custom previews |
| RuntimeTypes.PropertyPreviewsFromValue | lib/Debugger.Protocol/Generated/protocol/Protocol.h:640-660 | the same for arrays of property previews; every error added inside an array is under the index of an item that does not convert, and every such item has one |
| RuntimeTypes.EntryPreviewsFromValue | lib/Debugger.Protocol/Generated/protocol/Protocol.h:640-660 | the same for arrays of entry previews |
| RuntimeTypes.CallFramesFromValue | lib/Debugger.Protocol/Generated/protocol/Protocol.h:640-660 | the same for arrays of call frames |
| ErrorSupport.ItemErrorsOn | lib/Debugger.Protocol/Generated/protocol/Protocol.h:640-660 | the errors of one more item, recorded under its index, keep the correspondence between errors and failing items |
| RuntimeTypes.StackTraceFromValue | lib/Debugger.Protocol/Generated/protocol/Runtime.cpp:752-781 | the same for stack traces, through the chain of parents |
| RuntimeText.RemoteObjectOverText | lib/Debugger.Protocol/Generated/protocol/Runtime.cpp:138-152 | a remote object printed as text and read again is the same remote object, if its tree is within the depth the parser accepts |
| RuntimeText.StackTraceOverText | lib/Debugger.Protocol/Generated/protocol/Runtime.cpp:752-796 | the same for stack traces |
| ErrorSupport.BuildFinds | lib/Debugger.Protocol/Generated/protocol/Protocol.cpp:309-312 | each field of a dictionary built by successive sets is read back under its name, present or absent |
| ErrorSupport.BlamedOn | lib/Debugger.Protocol/Generated/protocol/Protocol.cpp:32-64 | the errors of further fields keep the correspondence between errors and faulty fields |
| ErrorSupport.MessageStarts | lib/Debugger.Protocol/Generated/protocol/Protocol.cpp:53-64 | the text of an error starts with the names of the path in order, with dots between them |
| ErrorSupport.Errors.AddError | lib/Debugger.Protocol/Generated/protocol/Protocol.cpp:53-64 | an error is recorded under the dotted path |
| ErrorSupport.Errors.SetName | lib/Debugger.Protocol/Generated/protocol/Protocol.cpp:32-36 | only the last name of a non-empty path is replaced |
| CommandQueue.RunInvariant | lib/Debugger.ProtocolHandler/ProtocolHandler.cpp:212-261 | over every interleaving, with handlers free to re-enter: commands enqueued are exactly those handled, in flight and queued; a sleeping thread that was not notified has an empty queue; an activation for the debugger is still waiting or was released after it began |
| CommandQueue.ReturnsOnlyWhenReleased | lib/Debugger.ProtocolHandler/ProtocolHandler.cpp:133-142 | an activation ends only with the flag clear and an empty last batch, and one of `WaitForDebugger` only after a command handled since it began cleared the flag |
| CommandQueue.RunOrdered | lib/Debugger.ProtocolHandler/ProtocolHandler.cpp:51-97 | over every interleaving without re-entry: commands are handled in exact enqueue order, pending connects and disconnects alternate from the script thread's state to that of the callback, and no connect or disconnect handler throws |
| CommandQueue.EnqueuedIsAsked | lib/Debugger.ProtocolHandler/ProtocolHandler.cpp:51-131 | over every interleaving, with re-entry or without: what has been enqueued is exactly what the client calls asked for, in their order, each message with its text, a call that was turned down leaving nothing; said of the calls alone |
| CommandQueue.HandledAsAsked | lib/Debugger.ProtocolHandler/ProtocolHandler.cpp:212-261 | over every interleaving without re-entry: what has been handled is a first part of what was asked for, and the rest is in the batch and the queue, in order |
| Reentry.SafeEntriesNeverFatal | lib/Debugger.ProtocolHandler/ProtocolHandler.cpp:212-261 | over every interleaving with re-entry: if handlers re-enter only while nothing but messages is left in the batches under way, no connect or disconnect handler throws, and pending connects and disconnects still alternate |
| Reentry.UnsafeEntryCanFail | lib/Debugger.ProtocolHandler/ProtocolHandler.cpp:212-261 | in any well-shaped state, if a handler re-enters while a connect or disconnect is left in a batch under way, some continuation without further re-entry makes a connect or disconnect handler throw |
| Reentry.EntrySafeIff | lib/Debugger.ProtocolHandler/ProtocolHandler.cpp:212-261 | the exact condition: after any run of safe entries, a handler may re-enter with no throw in any continuation exactly when nothing but messages is left in the batches under way |
| CommandQueue.ReentryCanBeFatal | lib/Debugger.ProtocolHandler/ProtocolHandler.cpp:271-312 | one such run in full: a handler re-enters with a disconnect left in its batch, a client reconnects, and the connect handler throws |
| CommandQueue.TrackConcat | lib/Debugger.ProtocolHandler/ProtocolHandler.cpp:257-261 | whether a list of connects and disconnects alternates can be told piece by piece |
| ProtocolHandler.ProtocolHandler.Connect | lib/Debugger.ProtocolHandler/ProtocolHandler.cpp:51-77 | refuses a missing callback or a second one without changing anything; otherwise installs it with its flag and puts one connect at the end of the queue, as one step of the machine |
| ProtocolHandler.ProtocolHandler.Disconnect | lib/Debugger.ProtocolHandler/ProtocolHandler.cpp:79-97 | refuses when no callback is installed; otherwise removes it and puts one disconnect at the end of the queue |
| ProtocolHandler.ProtocolHandler.SendCommand | lib/Debugger.ProtocolHandler/ProtocolHandler.cpp:99-131 | puts the message with its text at the end of the queue and nothing else, as one step of the machine |
| ProtocolHandler.ProtocolHandler.HandleCommand | lib/Debugger.ProtocolHandler/ProtocolHandler.cpp:234-253 | in every reachable state the next command of the batch is handled without a throw and leaves the connection as the command says |
| ProtocolHandler.ProtocolHandler.Sleep | lib/Debugger.ProtocolHandler/ProtocolHandler.cpp:226-229 | waits with the flag set and the queue empty until notified or woken by itself; it stays asleep only if nothing is ever going to happen |
| ProtocolHandler.ProtocolHandler.TakeBatch | lib/Debugger.ProtocolHandler/ProtocolHandler.cpp:223-232 | swaps the whole queue out under the lock, or sleeps |
| ProtocolHandler.ProtocolHandler.ProcessCommandQueue | lib/Debugger.ProtocolHandler/ProtocolHandler.cpp:212-255 | the loop is a run of the machine; it returns with the flag clear and everything handled, in order, that was enqueued before its last look, and always returns if the flag was clear |
| ProtocolHandler.ProtocolHandler.WaitForDebugger | lib/Debugger.ProtocolHandler/ProtocolHandler.cpp:133-137 | returns only after a command handled since the call has cleared the flag |
| ServiceHandler.ServiceAgrees | lib/Debugger.Service/ServiceHandler.cpp:61-133 | over every run: `m_connected` is exactly that a callback is installed, no asserted disconnect ever fails, and a connection is accepted exactly when none is held and none vanished before |
| ServiceHandler.ReceivedIsPassedOn | lib/Debugger.Service/ServiceHandler.cpp:35-133 | over every run, with re-entry or without: the script thread is asked for one connect for each connection accepted, each message received, unchanged and in its place, and one disconnect for each connection given up; said of the events alone |
| ServiceHandler.AcceptsWhenFree | lib/Debugger.Service/ServiceHandler.cpp:61-85 | when every connection is closed before its object goes away, a live service accepts a connection exactly when it holds none |
| ServiceHandler.BlockedForGood | lib/Debugger.Service/ServiceHandler.cpp:61-85 | once a connection has gone away without a close event, then after every continuation the service has been destroyed, or it is still in that state and refuses the next connection |
| ServiceHandler.VanishedConnectionBlocks | lib/Debugger.Service/ServiceHandler.cpp:61-85 | a run of two events reaches that state |
| ServiceHandler.ServiceOrdered | lib/Debugger.Service/ServiceHandler.cpp:61-133 | with the service as sole client and no re-entry, no handler throws and every command finds the connection in the right state |
| ServiceHandler.MessagesMeetAgents | lib/Debugger.Service/ServiceHandler.cpp:114-120 | every message is handled while the agents of a connection exist |
| ServiceHandler.CaughtUp | lib/Debugger.Service/ServiceHandler.cpp:122-133 | once nothing is pending, both threads agree on whether anyone is connected |
| ServiceHandler.ServiceHandler.Connect | lib/Debugger.Service/ServiceHandler.cpp:61-85 | the object takes the step of the service machine and answers as the machine accepts |
| ServiceHandler.ServiceHandler.OnMessage | lib/Debugger.Service/ServiceHandler.cpp:114-120 | the object takes the receive step of the service machine |
| ServiceHandler.ServiceHandler.OnClose | lib/Debugger.Service/ServiceHandler.cpp:122-133 | the object takes the close step of the service machine |
| ServiceHandler.ServiceHandler.Destruct | lib/Debugger.Service/ServiceHandler.cpp:35-59 | the object takes the destroy step of the service machine |
| Breakpoints.AlwaysAgrees | lib/Debugger.ProtocolHandler/DebuggerImpl.cpp:104-224 | in every state of every run of one agent: each key is its breakpoint's; a URL or regular-expression breakpoint is loaded exactly when a known script matches; loaded, resolved and reported once are the same; the engine's ids are those of the resolved entries, one each |
| Breakpoints.UrlErrors | lib/Debugger.ProtocolHandler/DebuggerImpl.cpp:104-150 | which requests for a URL breakpoint get which error, each as an if-and-only-if over the arguments and the stored keys |
| Breakpoints.StoredByUrl | lib/Debugger.ProtocolHandler/DebuggerImpl.cpp:104-180 | what is stored has the query, line, column and condition asked for; it gets a script exactly if a known one has the URL, or fits the pattern, and one that does; the client is told the script, line and column at which the engine put it |
| Breakpoints.StoredAtLocation | lib/Debugger.ProtocolHandler/DebuggerImpl.cpp:182-211 | the same for a breakpoint in a given script |
| Breakpoints.RemoveReplies | lib/Debugger.ProtocolHandler/DebuggerImpl.cpp:213-224 | a removal complains of a key exactly when nothing is stored under it, and a success takes that entry from the map |
| Breakpoints.WaitingGetScript | lib/Debugger.ProtocolHandler/DebuggerImpl.cpp:457-470 | a script event gives its script to exactly the waiting breakpoints that ask for its URL, literally or by a pattern, and leaves every other entry as it was |
| Breakpoints.LoadedForGood | lib/Debugger.ProtocolHandler/DebuggerBreakpoint.cpp:124-148 | while an entry stays in the map, its script and position never change once set |
| Breakpoints.RefusedChangesNothing | lib/Debugger.ProtocolHandler/DebuggerImpl.cpp:139-180 | a request answered by an error or an exception changes neither the maps nor the engine |
| Breakpoints.RemoveTakesOne | lib/Debugger.ProtocolHandler/DebuggerImpl.cpp:213-224 | removing a stored breakpoint throws exactly when it is not resolved, and otherwise takes it, and it alone, from both sides |
| Breakpoints.DestroyedLeavesNothing | lib/Debugger.ProtocolHandler/DebuggerImpl.cpp:51-54 | destroying an agent leaves nothing in the engine exactly when it is enabled or has placed nothing |
| Breakpoints.RemovingPendingThrows | lib/Debugger.ProtocolHandler/DebuggerImpl.cpp:213-224 | a run in which removing a stored breakpoint that waits for its script throws |
| Breakpoints.NeverEnabledLeavesOne | lib/Debugger.ProtocolHandler/DebuggerImpl.cpp:77-92 | a run in which an agent that was never enabled places a breakpoint and leaves it in the engine |
| Breakpoints.SourceKeepsLoads | lib/Debugger.ProtocolHandler/DebuggerImpl.cpp:457-470 | a script event keeps every breakpoint loaded exactly when a known script matches it |
| Breakpoints.SourceKeepsEngine | lib/Debugger.ProtocolHandler/DebuggerImpl.cpp:457-470 | a script event keeps the engine's set equal to the ids of the resolved entries |
| Breakpoints.StoreAtKeeps | lib/Debugger.ProtocolHandler/DebuggerImpl.cpp:155-180 | storing a placed breakpoint keeps every agreement |
| DebuggerAgent.DebuggerImpl.HandleSourceEvent | lib/Debugger.ProtocolHandler/DebuggerImpl.cpp:413-471 | the walk over the hash map, in any order, loads and places every waiting breakpoint that matches, under fresh ids, and leaves the others alone; the client gets one event for the script and then exactly one for each breakpoint placed, with where it is; if an engine call throws, that holds of the entries walked so far, the one it threw at keeps the script without a place, and the rest are as they were; the engine is asked for exactly these entries, each at its script, line and column, and each is where the engine said |
| DebuggerAgent.DebuggerImpl.StoreByUrl | lib/Debugger.ProtocolHandler/DebuggerImpl.cpp:139-180 | the walk over the scripts, in any order, loads the first match and tries no other; the engine is asked once, for a script that matches, at the line and column wanted, and the entry is where it said; an engine refusal leaves both sides as they were |
| DebuggerAgent.DebuggerImpl.SetBreakpointByUrl | lib/Debugger.ProtocolHandler/DebuggerImpl.cpp:104-180 | reads its arguments, a URL winning over a pattern, with the error replies of the code, and then acts as the registry step says and asks the engine as `StoreByUrl` does |
| DebuggerAgent.DebuggerImpl.SetBreakpoint | lib/Debugger.ProtocolHandler/DebuggerImpl.cpp:182-211 | places the breakpoint at once where the engine says when asked for the given script, line and column; an existing key is an error, an engine refusal or an empty script id an exception |
| DebuggerAgent.DebuggerImpl.RemoveBreakpoint | lib/Debugger.ProtocolHandler/DebuggerImpl.cpp:213-224 | removes from engine and map as the registry step says |
| DebuggerAgent.DebuggerImpl.Enable | lib/Debugger.ProtocolHandler/DebuggerImpl.cpp:56-75 | turns agent and debugger on, points both callbacks to the agent and treats the engine's scripts as just loaded, in order; a second call does nothing |
| DebuggerAgent.DebuggerImpl.Disable | lib/Debugger.ProtocolHandler/DebuggerImpl.cpp:77-92 | empties both maps and the engine of an enabled agent and clears the source callback, but not the break callback; does nothing to one that is not enabled |
| DebuggerAgent.DebuggerImpl.EvaluateConditionOnBreakpoint | lib/Debugger.ProtocolHandler/DebuggerImpl.cpp:473-525 | the walk over the map, in any order, in every state of the agent, does not skip the pause exactly if no stored breakpoint of that id has a condition that is there and neither throws nor is true |
| DebuggerAgent.DebuggerImpl.HandleBreakEvent | lib/Debugger.ProtocolHandler/DebuggerImpl.cpp:527-560 | the client is told of a pause exactly when it is not skipped, and it is skipped exactly if all pauses are or the condition of the breakpoint that was hit says so |
| DebuggerAgent.Debugger.ClearBreakpoints | lib/Debugger.ProtocolHandler/Debugger.cpp:311-328 | the loop over the engine's list removes every breakpoint, and no removal fails |
| DebuggerAgent.Debugger.Disable | lib/Debugger.ProtocolHandler/Debugger.cpp:65-74 | the engine is emptied only if the debugger was enabled |
| DebuggerAgent.DebuggerImpl.Agrees | lib/Debugger.ProtocolHandler/DebuggerImpl.cpp:104-224 | an agent that never saw an engine call throw or two scripts under one id is in a state of some run of the registry, so everything in `AlwaysAgrees` holds of its maps and engine |
| DebuggerAgent.OnlyOneHit | lib/Debugger.ProtocolHandler/DebuggerImpl.cpp:480-490 | in every state in which placed entries share no id, which every agent keeps, also after a throw and for inconsistent scripts, at most one stored breakpoint has a given non-negative id, and that id is in the engine |
| AgentLifetime.NoStaleCallback | lib/Debugger.ProtocolHandler/Debugger.cpp:230-309 | over every run of connects, disconnects, enables and disables, an engine event reaches exactly the live, enabled agent, if there is one |
| AgentLifetime.BreakCallbackDangles | lib/Debugger.ProtocolHandler/DebuggerImpl.cpp:77-92 | after a disconnect the break callback still points to the agent that is gone, so the enabled flag alone protects it |
| AgentLifetime.Session.HandleDebugEvent | lib/Debugger.ProtocolHandler/Debugger.cpp:230-264 | the queued commands are handled first; then a script event is worked through by exactly the live, enabled agent, a hit is taken to it exactly unless a pause is under way, and so is an asynchronous break exactly if a pause was asked for, which uses the request up; if the agent does not skip the pause, the client is told and the commands that come in while paused are handled, and otherwise nothing else happens |
| AgentLifetime.Session.HandleBreak | lib/Debugger.ProtocolHandler/Debugger.cpp:275-309 | the same for a break by itself; pauses are not nested, and the flags are restored even if the agent is destroyed while paused |
| AgentLifetime.Session.HandleMessage | lib/Debugger.ProtocolHandler/DebuggerImpl.cpp:56-224 | each message does to the agent that is there exactly the registry step it asks for, or records that a pause was asked for, and nothing without an agent |
| AgentLifetime.Session.Process | lib/Debugger.ProtocolHandler/ProtocolHandler.cpp:234-253 | a drained batch of commands changes agents, registry, engine and the request for a pause command by command, in order |
| AgentLifetime.Session.HandleDisconnect | lib/Debugger.ProtocolHandler/ProtocolHandler.cpp:298-312 | the agent is destroyed and the debugger is off |
| Dispatcher.ExactlyOneReply | lib/Debugger.Protocol/Generated/protocol/Protocol.cpp:771-823 | never more than one reply to a message; exactly one unless unknown methods are passed on or a called backend does not answer; the reply carries the integer id exactly when the message has one |
| Replies.ClientGetsReply | lib/Debugger.Protocol/Generated/protocol/Protocol.cpp:771-823 | for every message, configuration and conduct of the backend: what is sent is one text that parses to a given value exactly when that value is what the client is to get: an object with the message's id and the backend's result, the backend's own error, or the error for the message with its number, text and list of faulty parameters; said of message, configuration and conduct alone, for results that can be read back |
| Replies.ClientGetsNothing | lib/Debugger.Protocol/Generated/protocol/Protocol.cpp:771-823 | and nothing is sent exactly when the client is to get nothing |
| Replies.StatusGoesWithReply | lib/Debugger.Protocol/Generated/protocol/Protocol.cpp:771-823 | the status returned goes with what was sent |
| Dispatcher.ErrorCodes | lib/Debugger.Protocol/Generated/protocol/Protocol.cpp:771-823 | which messages get which code of section 5.1 of JSON-RPC 2.0, each as an if-and-only-if over the message and the configuration: -32700 if it is not JSON; -32600 if it is no object with an integer id and a string method; -32601 if the redirected name has no dot or no domain and unknown names are not passed on, or its domain lacks it and does not pass it on; -32602 if the method is there and a parameter is missing or of the wrong type |
| Dispatcher.ConformsIffNoComplaint | lib/Debugger.Protocol/Generated/protocol/Debugger.cpp:839-875 | parameters are complained about exactly when a required one is missing or one has the wrong type |
| Dispatcher.ReadParams | lib/Debugger.Protocol/Generated/protocol/Debugger.cpp:839-875 | the error support ends with exactly those complaints, each under the parameter's name, and with its path as before |
| Dispatcher.HandleSync | lib/Debugger.Protocol/Generated/protocol/Debugger.cpp:880-892 | one reply through the weak pointer, none if the dispatcher was destroyed by the backend or the backend fell through |
| Dispatcher.HandleAsync | lib/Debugger.Protocol/Generated/protocol/Runtime.cpp:1318-1322 | the callback's replies are those of the backend's first act, the callback stays usable exactly if there was none, and the status tells whether it fell through |
| Dispatcher.RunBackend | lib/Debugger.Protocol/Generated/protocol/Protocol.cpp:614-628 | whatever a backend does with a callback it holds, during the command or any time later, and however often, at most one response goes out, and none after an answer or once the dispatcher is gone |
| Dispatcher.GetIsAlive | lib/Debugger.Protocol/Generated/protocol/Protocol.h:805-821 | a weak pointer that is still set points to a live dispatcher and is in its set, and only then |
| Dispatcher.DispatcherBase.NewWeakPtr | lib/Debugger.Protocol/Generated/protocol/Protocol.cpp:744-749 | a new weak pointer is set, live and in the set |
| Dispatcher.DispatcherBase.ClearFrontend | lib/Debugger.Protocol/Generated/protocol/Protocol.cpp:736-742 | every weak pointer that is still live is disposed |
| Dispatcher.DispatcherBase.Destruct | lib/Debugger.Protocol/Generated/protocol/Protocol.cpp:635-638 | destroying the dispatcher disposes every live weak pointer to it |
| Dispatcher.WeakPtr.Destruct | lib/Debugger.Protocol/Generated/protocol/Protocol.cpp:596-600 | a weak pointer that goes away leaves the set of its dispatcher, and only it does |
| Dispatcher.Callback.SendIfActive | lib/Debugger.Protocol/Generated/protocol/Protocol.cpp:614-620 | sends one response if no answer was given and the dispatcher is alive, and gives up the weak pointer |
| Dispatcher.UberDispatcher.Dispatch | lib/Debugger.Protocol/Generated/protocol/Protocol.cpp:771-823 | sends exactly the replies that belong to the message, which `ClientGetsReply` says in terms of the client, and keeps every registered dispatcher usable |
| Dispatcher.UberDispatcher.HandleMessageReceived | lib/Debugger.ProtocolHandler/ProtocolHandler.cpp:314-318 | the same from the text of a message, including one that is not JSON |
| Dispatcher.UberDispatcher.Wire | lib/Debugger.Protocol/Generated/protocol/Debugger.cpp:1383-1388 | a new dispatcher takes the name; one that had it is destroyed, so none of its weak pointers is set any more, and the others are untouched |
| Dispatcher.UberDispatcher.Forward | lib/Debugger.Protocol/Generated/protocol/Protocol.cpp:803-822 | from the redirected method name to the domain and its dispatcher, with the two ways of not finding one |
| Dispatcher.DispatcherImpl.Handle | lib/Debugger.Protocol/Generated/protocol/Debugger.cpp:754-766 | parameters are read first, and a complaint is the one reply; otherwise the backend's replies are |
| Dispatcher.FindDot | lib/Debugger.Protocol/Generated/protocol/Protocol.cpp:807-814 | the first dot of the method name, if there is one |
| Responses.ResponseParsesBack | lib/Debugger.Protocol/Generated/protocol/Protocol.cpp:862-874 | the text of a response or notification, whose parameters go in already serialized, is that of the value it stands for, and parses back to it unless it is nested too deep |
| Replies.NotificationReaches | lib/Debugger.Protocol/Generated/protocol/Protocol.cpp:862-874 | a notification reaches the client as an object with its name and its parameters, or empty ones |
| Responses.ErrorParsesBack | lib/Debugger.Protocol/Generated/protocol/Protocol.cpp:687-699 | the text of an error response parses back to its code, message, data and id |
| Responses.SentPrintable | lib/Debugger.ProtocolHandler/ProtocolHandler.cpp:193-206 | every unit of an outgoing text is in 32..126, so the hand-off as a C string loses nothing |

## Left out

- Double printing and reading, and number literals outside int32: default-precision streams and an out-of-range cast; a parameter here.
- The instantiation of the templates for 8-bit characters: the same code on narrower units.
- The end-of-span test after a backslash in `decodeString`: it cannot fire on a body the scanner accepted.
- UTF-8 conversion and the Windows text API: text is a sequence of 16-bit units throughout.
- WebSocket and HTTP plumbing and the listening thread: only the open, message, close and expiry events that reach the service handler are kept.
- The engine's own calls for scripts, stacks and properties: their results are parameters. A script id that is no decimal number counts as refused by the engine.
- Exceptions out of message handlers: they drop the rest of a batch and the reply, and end a run of the model.
- ProtocolHandler.ProtocolHandler.HandleMessageReceived: models only a handler's effect on the waiting flag, because dispatching is the subject of `Dispatcher` and breakpoints that of `DebuggerAgent`.
- The command-queue callback and debug output: they do not touch the queue.
- Messages for an agent that no longer exists: ignored in `AgentLifetime`; `MessagesMeetAgents` shows that the service sends none.
- DebuggerAgent.DebuggerImpl.HandleBreakEvent: does not build the call frames it sends, because they are read from the engine.
- The arguments of the script events sent to the client, beyond id and URL: copied from the engine.
- Dispatcher.ReadParams: parameters are strings, integers and booleans in a table; structured parameters such as locations follow the conversions of `RuntimeTypes` and are not repeated for every type.
- The tables of methods of the generated dispatchers: any table is allowed.
- Dispatcher.HandleAsync: while a command is handled, its backend acts on that command's callback; one kept from an earlier command is used between commands (`RunBackend`).
- Stepping, exception settings, script source, console, schema and profiler requests, and the methods that only report that they are not implemented: thin.
- Generated builders, enum strings, context scopes, reference counts and the C interface: thin.
