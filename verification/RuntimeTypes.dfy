/** The mutually recursive protocol types of the Runtime domain and their conversions to and
    from value trees. `Decode…` says which trees convert and to what; the `…FromValue` methods
    are the conversion code, which fills a result and reports into shared errors. */
module RuntimeTypes {
  import opened String16
  import opened Values
  import opened Dictionary
  import opened ErrorSupport

  datatype CustomPreview = CustomPreview(
    header: Text, hasBody: bool, formatterObjectId: Text, bindRemoteObjectFunctionId: Text,
    configObjectId: Option<Text>)

  datatype ObjectPreview = ObjectPreview(
    kind: Text, subtype: Option<Text>, description: Option<Text>, overflow: bool,
    properties: seq<PropertyPreview>, entries: MaybeEntries)

  /** `Maybe<Array<EntryPreview>>`. */
  datatype MaybeEntries = NoEntries | Entries(items: seq<EntryPreview>)

  datatype PropertyPreview = PropertyPreview(
    name: Text, kind: Text, value: Option<Text>, valuePreview: Option<ObjectPreview>, subtype: Option<Text>)

  datatype EntryPreview = EntryPreview(key: Option<ObjectPreview>, value: ObjectPreview)

  datatype RemoteObject = RemoteObject(
    kind: Text, subtype: Option<Text>, className: Option<Text>, value: Option<Value>, unserializableValue: Option<Text>,
    description: Option<Text>, objectId: Option<Text>, preview: Option<ObjectPreview>,
    customPreview: Option<CustomPreview>)

  datatype CallFrame = CallFrame(functionName: Text, scriptId: Text, url: Text, lineNumber: int32, columnNumber: int32)

  datatype StackTrace = StackTrace(description: Option<Text>, callFrames: seq<CallFrame>, parent: Option<StackTrace>)

  // ---------------------------------------------------------------- to values

  function TextField(name: string, s: Text): NamedField {
    NamedField(name, Some(Str(s)))
  }

  function MaybeTextField(name: string, s: Option<Text>): NamedField {
    NamedField(name, if s.Some? then Some(Str(s.value)) else None)
  }

  function CustomPreviewFields(x: CustomPreview): seq<NamedField> {
    [TextField("header", x.header),
     NamedField("hasBody", Some(Boolean(x.hasBody))),
     TextField("formatterObjectId", x.formatterObjectId),
     TextField("bindRemoteObjectFunctionId", x.bindRemoteObjectFunctionId),
     MaybeTextField("configObjectId", x.configObjectId)]
  }

  function CustomPreviewValue(x: CustomPreview): Value {
    Object(Build(CustomPreviewFields(x)))
  }

  function ObjectPreviewFields(x: ObjectPreview): seq<NamedField>
    decreases x, 0
  {
    [TextField("type", x.kind),
     MaybeTextField("subtype", x.subtype),
     MaybeTextField("description", x.description),
     NamedField("overflow", Some(Boolean(x.overflow))),
     NamedField("properties", Some(Array(PropertyValues(x.properties)))),
     NamedField("entries", if x.entries.Entries? then Some(Array(EntryValues(x.entries.items))) else None)]
  }

  function ObjectPreviewValue(x: ObjectPreview): Value
    decreases x, 1
  {
    Object(Build(ObjectPreviewFields(x)))
  }

  function PropertyPreviewFields(x: PropertyPreview): seq<NamedField>
    decreases x, 0
  {
    [TextField("name", x.name),
     TextField("type", x.kind),
     MaybeTextField("value", x.value),
     NamedField("valuePreview", if x.valuePreview.Some? then Some(ObjectPreviewValue(x.valuePreview.value)) else None),
     MaybeTextField("subtype", x.subtype)]
  }

  function PropertyPreviewValue(x: PropertyPreview): Value
    decreases x, 1
  {
    Object(Build(PropertyPreviewFields(x)))
  }

  function PropertyValues(xs: seq<PropertyPreview>): seq<Value>
    decreases xs, 0
  {
    if xs == [] then [] else [PropertyPreviewValue(xs[0])] + PropertyValues(xs[1..])
  }

  function EntryPreviewFields(x: EntryPreview): seq<NamedField>
    decreases x, 0
  {
    [NamedField("key", if x.key.Some? then Some(ObjectPreviewValue(x.key.value)) else None),
     NamedField("value", Some(ObjectPreviewValue(x.value)))]
  }

  function EntryPreviewValue(x: EntryPreview): Value
    decreases x, 1
  {
    Object(Build(EntryPreviewFields(x)))
  }

  function EntryValues(xs: seq<EntryPreview>): seq<Value>
    decreases xs, 0
  {
    if xs == [] then [] else [EntryPreviewValue(xs[0])] + EntryValues(xs[1..])
  }

  function RemoteObjectFields(x: RemoteObject): seq<NamedField> {
    [TextField("type", x.kind),
     MaybeTextField("subtype", x.subtype),
     MaybeTextField("className", x.className),
     NamedField("value", if x.value.Some? then Some(Clone(x.value.value)) else None),
     MaybeTextField("unserializableValue", x.unserializableValue),
     MaybeTextField("description", x.description),
     MaybeTextField("objectId", x.objectId),
     NamedField("preview", if x.preview.Some? then Some(ObjectPreviewValue(x.preview.value)) else None),
     NamedField("customPreview", if x.customPreview.Some? then Some(CustomPreviewValue(x.customPreview.value))
                else None)]
  }

  function RemoteObjectValue(x: RemoteObject): Value {
    Object(Build(RemoteObjectFields(x)))
  }

  function CallFrameFields(x: CallFrame): seq<NamedField> {
    [TextField("functionName", x.functionName),
     TextField("scriptId", x.scriptId),
     TextField("url", x.url),
     NamedField("lineNumber", Some(Integer(x.lineNumber))),
     NamedField("columnNumber", Some(Integer(x.columnNumber)))]
  }

  function CallFrameValue(x: CallFrame): Value {
    Object(Build(CallFrameFields(x)))
  }

  function CallFrameValues(xs: seq<CallFrame>): seq<Value> {
    if xs == [] then [] else [CallFrameValue(xs[0])] + CallFrameValues(xs[1..])
  }

  function StackTraceFields(x: StackTrace): seq<NamedField>
    decreases x, 0
  {
    [MaybeTextField("description", x.description),
     NamedField("callFrames", Some(Array(CallFrameValues(x.callFrames)))),
     NamedField("parent", if x.parent.Some? then Some(StackTraceValue(x.parent.value)) else None)]
  }

  function StackTraceValue(x: StackTrace): Value
    decreases x, 1
  {
    Object(Build(StackTraceFields(x)))
  }

  // ---------------------------------------------------------------- which values convert, and to what

  /** The size that goes down from a value to its parts; a missing value is the smallest. */
  function Rank(v: Option<Value>): nat {
    match v case None => 0 case Some(x) => 1 + Height(x)
  }

  function DecodeCustomPreview(v: Option<Value>): Option<CustomPreview> {
    match v
    case Some(Object(es)) =>
      var header, hasBody := StringOf(Field(es, "header")), BoolOf(Field(es, "hasBody"));
      var formatter := StringOf(Field(es, "formatterObjectId"));
      var bind := StringOf(Field(es, "bindRemoteObjectFunctionId"));
      var config := MaybeString(es, "configObjectId");
      if header.Some? && hasBody.Some? && formatter.Some? && bind.Some? && config.Some?
      then Some(CustomPreview(header.value, hasBody.value, formatter.value, bind.value, config.value)) else None
    case _ => None
  }

  function DecodeObjectPreview(v: Option<Value>): Option<ObjectPreview>
    decreases Rank(v), 2, 0
  {
    match v
    case Some(Object(es)) =>
      var kind, subtype := StringOf(Field(es, "type")), MaybeString(es, "subtype");
      var description, overflow := MaybeString(es, "description"), BoolOf(Field(es, "overflow"));
      var properties := DecodeProperties(Field(es, "properties"));
      var entries := Optional(Field(es, "entries"), DecodeEntries(Field(es, "entries")));
      if kind.Some? && subtype.Some? && description.Some? && overflow.Some? && properties.Some? && entries.Some?
      then Some(ObjectPreview(kind.value, subtype.value, description.value, overflow.value, properties.value,
                              if entries.value.Some? then Entries(entries.value.value) else NoEntries))
      else None
    case _ => None
  }

  function DecodePropertyPreview(v: Option<Value>): Option<PropertyPreview>
    decreases Rank(v), 2, 0
  {
    match v
    case Some(Object(es)) =>
      var name, kind, value := StringOf(Field(es, "name")), StringOf(Field(es, "type")), MaybeString(es, "value");
      var preview := Optional(Field(es, "valuePreview"), DecodeObjectPreview(Field(es, "valuePreview")));
      var subtype := MaybeString(es, "subtype");
      if name.Some? && kind.Some? && value.Some? && preview.Some? && subtype.Some?
      then Some(PropertyPreview(name.value, kind.value, value.value, preview.value, subtype.value)) else None
    case _ => None
  }

  function DecodeProperties(v: Option<Value>): Option<seq<PropertyPreview>>
    decreases Rank(v), 1, 0
  {
    match v case Some(Array(items)) => DecodePropertyItems(items) case _ => None
  }

  function DecodePropertyItems(items: seq<Value>): Option<seq<PropertyPreview>>
    decreases 1 + ItemsHeight(items), 0, |items|
  {
    if items == [] then Some([])
    else
      var x, rest := DecodePropertyPreview(Some(items[0])), DecodePropertyItems(items[1..]);
      if x.None? || rest.None? then None else Some([x.value] + rest.value)
  }

  function DecodeEntryPreview(v: Option<Value>): Option<EntryPreview>
    decreases Rank(v), 2, 0
  {
    match v
    case Some(Object(es)) =>
      var key := Optional(Field(es, "key"), DecodeObjectPreview(Field(es, "key")));
      var value := DecodeObjectPreview(Field(es, "value"));
      if key.Some? && value.Some? then Some(EntryPreview(key.value, value.value)) else None
    case _ => None
  }

  function DecodeEntries(v: Option<Value>): Option<seq<EntryPreview>>
    decreases Rank(v), 1, 0
  {
    match v case Some(Array(items)) => DecodeEntryItems(items) case _ => None
  }

  function DecodeEntryItems(items: seq<Value>): Option<seq<EntryPreview>>
    decreases 1 + ItemsHeight(items), 0, |items|
  {
    if items == [] then Some([])
    else
      var x, rest := DecodeEntryPreview(Some(items[0])), DecodeEntryItems(items[1..]);
      if x.None? || rest.None? then None else Some([x.value] + rest.value)
  }

  function DecodeRemoteObject(v: Option<Value>): Option<RemoteObject> {
    match v
    case Some(Object(es)) =>
      var kind, subtype, className := StringOf(Field(es, "type")), MaybeString(es, "subtype"),
                                      MaybeString(es, "className");
      var value := if Field(es, "value").Some? then Some(Clone(Field(es, "value").value)) else None;
      var unserializable, description := MaybeString(es, "unserializableValue"), MaybeString(es, "description");
      var objectId := MaybeString(es, "objectId");
      var preview := Optional(Field(es, "preview"), DecodeObjectPreview(Field(es, "preview")));
      var customPreview := Optional(Field(es, "customPreview"), DecodeCustomPreview(Field(es, "customPreview")));
      if kind.Some? && subtype.Some? && className.Some? && unserializable.Some? && description.Some?
         && objectId.Some? && preview.Some? && customPreview.Some?
      then Some(RemoteObject(kind.value, subtype.value, className.value, value, unserializable.value,
                             description.value, objectId.value, preview.value, customPreview.value))
      else None
    case _ => None
  }

  function DecodeCallFrame(v: Option<Value>): Option<CallFrame> {
    match v
    case Some(Object(es)) =>
      var functionName, scriptId, url := StringOf(Field(es, "functionName")), StringOf(Field(es, "scriptId")),
                                         StringOf(Field(es, "url"));
      var line, column := IntOf(Field(es, "lineNumber")), IntOf(Field(es, "columnNumber"));
      if functionName.Some? && scriptId.Some? && url.Some? && line.Some? && column.Some?
      then Some(CallFrame(functionName.value, scriptId.value, url.value, line.value, column.value)) else None
    case _ => None
  }

  function DecodeCallFrames(v: Option<Value>): Option<seq<CallFrame>> {
    match v case Some(Array(items)) => DecodeCallFrameItems(items) case _ => None
  }

  function DecodeCallFrameItems(items: seq<Value>): Option<seq<CallFrame>> {
    if items == [] then Some([])
    else
      var x, rest := DecodeCallFrame(Some(items[0])), DecodeCallFrameItems(items[1..]);
      if x.None? || rest.None? then None else Some([x.value] + rest.value)
  }

  function DecodeStackTrace(v: Option<Value>): Option<StackTrace>
    decreases Rank(v)
  {
    match v
    case Some(Object(es)) =>
      var description, frames := MaybeString(es, "description"), DecodeCallFrames(Field(es, "callFrames"));
      var parent := Optional(Field(es, "parent"), DecodeStackTrace(Field(es, "parent")));
      if description.Some? && frames.Some? && parent.Some?
      then Some(StackTrace(description.value, frames.value, parent.value)) else None
    case _ => None
  }

  // ---------------------------------------------------------------- round trips

  lemma {:induction false} ObjectPreviewNames(x: ObjectPreview)
    ensures DistinctNames(ObjectPreviewFields(x))
  {
    assert Ascii("subtype")[0] != Ascii("entries")[0];
  }

  lemma {:induction false} PropertyPreviewNames(x: PropertyPreview)
    ensures DistinctNames(PropertyPreviewFields(x))
  {
    assert Ascii("name")[0] != Ascii("type")[0];
  }

  lemma {:induction false} EntryPreviewNames(x: EntryPreview)
    ensures DistinctNames(EntryPreviewFields(x))
  {
  }

  lemma {:induction false} CustomPreviewNames(x: CustomPreview)
    ensures DistinctNames(CustomPreviewFields(x))
  {
  }

  lemma {:induction false} RemoteObjectNames(x: RemoteObject)
    ensures DistinctNames(RemoteObjectFields(x))
  {
    assert Ascii("subtype")[0] != Ascii("preview")[0];
  }

  lemma {:induction false} CallFrameNames(x: CallFrame)
    ensures DistinctNames(CallFrameFields(x))
  {
    assert Ascii("functionName")[0] != Ascii("columnNumber")[0];
  }

  lemma {:induction false} StackTraceNames(x: StackTrace)
    ensures DistinctNames(StackTraceFields(x))
  {
  }

  /** All fields of a built dictionary, read back. */
  lemma {:induction false} BuiltFields(fields: seq<NamedField>)
    requires DistinctNames(fields)
    ensures forall i :: 0 <= i < |fields| ==> Field(Build(fields), fields[i].name) == fields[i].value
  {
    forall i | 0 <= i < |fields| ensures Field(Build(fields), fields[i].name) == fields[i].value {
      FieldOfBuilt(fields, i);
    }
  }

  lemma {:induction false} CustomPreviewRoundTrip(x: CustomPreview)
    ensures DecodeCustomPreview(Some(CustomPreviewValue(x))) == Some(x)
  {
    var fields := CustomPreviewFields(x);
    CustomPreviewNames(x);
    BuiltFields(fields);
    hide Build, Field, DistinctNames;
    assert fields[0].name == "header" && fields[1].name == "hasBody" && fields[2].name == "formatterObjectId";
    assert fields[3].name == "bindRemoteObjectFunctionId" && fields[4].name == "configObjectId";
  }

  lemma {:induction false} ObjectPreviewRoundTrip(x: ObjectPreview)
    ensures DecodeObjectPreview(Some(ObjectPreviewValue(x))) == Some(x)
    decreases x, 1
  {
    var fields := ObjectPreviewFields(x);
    ObjectPreviewNames(x);
    BuiltFields(fields);
    PropertiesRoundTrip(x.properties);
    if x.entries.Entries? {
      EntriesRoundTrip(x.entries.items);
    }
    hide Build, Field, DistinctNames;
    assert fields[0].name == "type" && fields[1].name == "subtype" && fields[2].name == "description";
    assert fields[3].name == "overflow" && fields[4].name == "properties" && fields[5].name == "entries";
  }

  lemma {:induction false} PropertyPreviewRoundTrip(x: PropertyPreview)
    ensures DecodePropertyPreview(Some(PropertyPreviewValue(x))) == Some(x)
    decreases x, 1
  {
    var fields := PropertyPreviewFields(x);
    PropertyPreviewNames(x);
    BuiltFields(fields);
    if x.valuePreview.Some? {
      ObjectPreviewRoundTrip(x.valuePreview.value);
    }
    hide Build, Field, DistinctNames;
    assert fields[0].name == "name" && fields[1].name == "type" && fields[2].name == "value";
    assert fields[3].name == "valuePreview" && fields[4].name == "subtype";
  }

  lemma {:induction false} PropertiesRoundTrip(xs: seq<PropertyPreview>)
    ensures DecodePropertyItems(PropertyValues(xs)) == Some(xs)
    decreases xs, 0
  {
    if xs != [] {
      PropertyPreviewRoundTrip(xs[0]);
      PropertiesRoundTrip(xs[1..]);
      assert xs == [xs[0]] + xs[1..];
      assert PropertyValues(xs)[1..] == PropertyValues(xs[1..]);
    }
  }

  lemma {:induction false} EntryPreviewRoundTrip(x: EntryPreview)
    ensures DecodeEntryPreview(Some(EntryPreviewValue(x))) == Some(x)
    decreases x, 1
  {
    var fields := EntryPreviewFields(x);
    EntryPreviewNames(x);
    BuiltFields(fields);
    if x.key.Some? {
      ObjectPreviewRoundTrip(x.key.value);
    }
    ObjectPreviewRoundTrip(x.value);
    hide Build, Field, DistinctNames;
    assert fields[0].name == "key" && fields[1].name == "value";
  }

  lemma {:induction false} EntriesRoundTrip(xs: seq<EntryPreview>)
    ensures DecodeEntryItems(EntryValues(xs)) == Some(xs)
    decreases xs, 0
  {
    if xs != [] {
      EntryPreviewRoundTrip(xs[0]);
      EntriesRoundTrip(xs[1..]);
      assert xs == [xs[0]] + xs[1..];
      assert EntryValues(xs)[1..] == EntryValues(xs[1..]);
    }
  }

  /** A remote object survives the trip through a value tree; a value it carries has to be a
      well-formed tree, as every tree the library builds is. */
  lemma {:induction false} RemoteObjectRoundTrip(x: RemoteObject)
    requires x.value.Some? ==> WellFormed(x.value.value)
    ensures DecodeRemoteObject(Some(RemoteObjectValue(x))) == Some(x)
  {
    var fields := RemoteObjectFields(x);
    RemoteObjectNames(x);
    BuiltFields(fields);
    if x.value.Some? {
      CloneIsEqual(x.value.value);
    }
    if x.preview.Some? {
      ObjectPreviewRoundTrip(x.preview.value);
    }
    if x.customPreview.Some? {
      CustomPreviewRoundTrip(x.customPreview.value);
    }
    hide Build, Field, DistinctNames, DecodeObjectPreview, DecodeCustomPreview, ObjectPreviewValue,
      CustomPreviewValue, Clone, RemoteObjectFields;
    RemoteObjectFieldsAre(x);
    RemoteObjectFromFields(Build(fields), x);
  }

  lemma {:induction false} RemoteObjectFieldsAre(x: RemoteObject)
    ensures var fields := RemoteObjectFields(x);
            && |fields| == 9 && fields[0] == TextField("type", x.kind)
            && fields[1] == MaybeTextField("subtype", x.subtype)
            && fields[2] == MaybeTextField("className", x.className) && fields[3].name == "value"
            && fields[3].value == (if x.value.Some? then Some(Clone(x.value.value)) else None)
            && fields[4] == MaybeTextField("unserializableValue", x.unserializableValue)
            && fields[5] == MaybeTextField("description", x.description)
            && fields[6] == MaybeTextField("objectId", x.objectId)
            && fields[7].name == "preview" && fields[8].name == "customPreview"
            && fields[7].value == (if x.preview.Some? then Some(ObjectPreviewValue(x.preview.value)) else None)
            && fields[8].value ==
               (if x.customPreview.Some? then Some(CustomPreviewValue(x.customPreview.value)) else None)
  {
  }

  lemma {:induction false} RemoteObjectFromFields(es: seq<Entry>, x: RemoteObject)
    requires Field(es, "type") == Some(Str(x.kind)) && MaybeString(es, "subtype") == Some(x.subtype)
    requires MaybeString(es, "className") == Some(x.className)
    requires (if Field(es, "value").Some? then Some(Clone(Field(es, "value").value)) else None) == x.value
    requires MaybeString(es, "unserializableValue") == Some(x.unserializableValue)
    requires MaybeString(es, "description") == Some(x.description) && MaybeString(es, "objectId") == Some(x.objectId)
    requires Optional(Field(es, "preview"), DecodeObjectPreview(Field(es, "preview"))) == Some(x.preview)
    requires Optional(Field(es, "customPreview"), DecodeCustomPreview(Field(es, "customPreview"))) ==
             Some(x.customPreview)
    ensures DecodeRemoteObject(Some(Object(es))) == Some(x)
  {
  }

  lemma {:induction false} CallFrameRoundTrip(x: CallFrame)
    ensures DecodeCallFrame(Some(CallFrameValue(x))) == Some(x)
  {
    var fields := CallFrameFields(x);
    CallFrameNames(x);
    BuiltFields(fields);
    hide Build, Field, DistinctNames;
    assert fields[0].name == "functionName" && fields[1].name == "scriptId" && fields[2].name == "url";
    assert fields[3].name == "lineNumber" && fields[4].name == "columnNumber";
  }

  lemma {:induction false} CallFramesRoundTrip(xs: seq<CallFrame>)
    ensures DecodeCallFrameItems(CallFrameValues(xs)) == Some(xs)
  {
    if xs != [] {
      CallFrameRoundTrip(xs[0]);
      CallFramesRoundTrip(xs[1..]);
      assert xs == [xs[0]] + xs[1..];
      assert CallFrameValues(xs)[1..] == CallFrameValues(xs[1..]);
    }
  }

  /** So does a stack trace, however long its chain of parents. */
  lemma {:induction false} StackTraceRoundTrip(x: StackTrace)
    ensures DecodeStackTrace(Some(StackTraceValue(x))) == Some(x)
    decreases x
  {
    var fields := StackTraceFields(x);
    StackTraceNames(x);
    BuiltFields(fields);
    CallFramesRoundTrip(x.callFrames);
    if x.parent.Some? {
      StackTraceRoundTrip(x.parent.value);
    }
    StackTraceValueIs(x);
    hide Build, Field, DistinctNames, CallFrameValues, DecodeCallFrameItems, DecodeStackTrace, StackTraceValue,
      StackTraceFields;
    StackTraceFieldsAre(x);
    StackTraceFromFields(Build(fields), x);
  }

  lemma {:induction false} StackTraceValueIs(x: StackTrace)
    ensures StackTraceValue(x) == Object(Build(StackTraceFields(x)))
  {
  }

  lemma {:induction false} StackTraceFieldsAre(x: StackTrace)
    ensures var fields := StackTraceFields(x);
            && |fields| == 3 && fields[0] == MaybeTextField("description", x.description)
            && fields[1] == NamedField("callFrames", Some(Array(CallFrameValues(x.callFrames))))
            && fields[2].name == "parent"
            && fields[2].value == (if x.parent.Some? then Some(StackTraceValue(x.parent.value)) else None)
  {
  }

  lemma {:induction false} StackTraceFromFields(es: seq<Entry>, x: StackTrace)
    requires MaybeString(es, "description") == Some(x.description)
    requires DecodeCallFrames(Field(es, "callFrames")) == Some(x.callFrames)
    requires Optional(Field(es, "parent"), DecodeStackTrace(Field(es, "parent"))) == Some(x.parent)
    ensures DecodeStackTrace(Some(Object(es))) == Some(x)
  {
  }

  // ---------------------------------------------------------------- the conversion code

  /** What a conversion leaves behind: the path as it was; an error exactly when the value
      does not convert; and a result exactly when no error has been recorded at all. */
  predicate Converted<T(==)>(before: seq<Text>, after: seq<Text>, decoded: Option<T>, result: Option<T>) {
    Logged(before, after, decoded.Some?) && result == if after == [] then decoded else None
  }

  lemma {:induction false} CustomPreviewNeedsObject(v: Option<Value>)
    requires v.None? || !v.value.Object?
    ensures DecodeCustomPreview(v).None?
  {
  }

  /** The names of the fields that do not convert. */
  function FaultyCustomPreview(es: seq<Entry>): set<Text> {
    NotText(es, "header") + NotFlag(es, "hasBody") + NotText(es, "formatterObjectId") +
    NotText(es, "bindRemoteObjectFunctionId") + NotMaybeText(es, "configObjectId")
  }

  lemma {:induction false} FaultyCustomPreviewDecides(es: seq<Entry>)
    ensures FaultyCustomPreview(es) == {} <==> DecodeCustomPreview(Some(Object(es))).Some?
  {
    hide Field, StringOf, BoolOf, IntOf, MaybeString, Optional, Ascii;
  }

  /** The fields, one after the other. */
  method CustomPreviewFromEntries(es: seq<Entry>, errors: Errors) returns (result: Option<CustomPreview>)
    requires errors.path != []
    modifies errors
    ensures SameObject(old(errors.path), errors.path)
    ensures Blamed(Init(old(errors.path)), FaultyCustomPreview(es), old(errors.errors), errors.errors)
    ensures errors.errors == [] ==> result.Some? && result == DecodeCustomPreview(Some(Object(es)))
  {
    hide Blamed, Field, NotText, NotFlag, NotNumber, NotMaybeText, NotMaybe, NotGood, StringOf, BoolOf, IntOf,
      MaybeString, Optional, Ascii, Renamed;
    ghost var path, start := Init(errors.path), errors.errors;
    var header := ReadString(es, "header", errors);
    ghost var faulty, log := NotText(es, "header"), errors.errors;
    var hasBody := ReadBool(es, "hasBody", errors);
    BlamedOn(path, faulty, NotFlag(es, "hasBody"), start, log, errors.errors);
    faulty, log := faulty + NotFlag(es, "hasBody"), errors.errors;
    var formatterObjectId := ReadString(es, "formatterObjectId", errors);
    BlamedOn(path, faulty, NotText(es, "formatterObjectId"), start, log, errors.errors);
    faulty, log := faulty + NotText(es, "formatterObjectId"), errors.errors;
    var bindRemoteObjectFunctionId := ReadString(es, "bindRemoteObjectFunctionId", errors);
    BlamedOn(path, faulty, NotText(es, "bindRemoteObjectFunctionId"), start, log, errors.errors);
    faulty, log := faulty + NotText(es, "bindRemoteObjectFunctionId"), errors.errors;
    var configObjectId := ReadMaybeString(es, "configObjectId", errors);
    BlamedOn(path, faulty, NotMaybeText(es, "configObjectId"), start, log, errors.errors);
    if errors.HasErrors() {
      return None;
    }
    return Some(CustomPreview(header, hasBody, formatterObjectId, bindRemoteObjectFunctionId, configObjectId));
  }

  method CustomPreviewFromValue(value: Option<Value>, errors: Errors) returns (result: Option<CustomPreview>)
    modifies errors
    ensures errors.path == old(errors.path)
    ensures Converted(old(errors.errors), errors.errors, DecodeCustomPreview(value), result)
    ensures Located(old(errors.path), old(errors.errors), errors.errors)
    ensures if value.Some? && value.value.Object?
            then Blamed(old(errors.path), FaultyCustomPreview(value.value.entries), old(errors.errors), errors.errors)
            else errors.errors == old(errors.errors) + [Message(old(errors.path), "object expected")]
  {
    hide Located, Blamed, FaultyCustomPreview, DecodeCustomPreview, Message;
    if value.None? || !value.value.Object? {
      CustomPreviewNeedsObject(value);
      LocatedOnce(errors.path, errors.path, errors.errors, "object expected");
      errors.AddError("object expected");
      return None;
    }
    var es := value.value.entries;
    errors.Push();
    assert Init(errors.path) == old(errors.path);
    result := CustomPreviewFromEntries(es, errors);
    errors.Pop();
    BlamedInside(old(errors.path), FaultyCustomPreview(es), old(errors.errors), errors.errors);
    FaultyCustomPreviewDecides(es);
    if errors.HasErrors() {
      return None;
    }
  }

  function Prepended<T>(done: seq<T>, rest: Option<seq<T>>): Option<seq<T>> {
    match rest case None => None case Some(xs) => Some(done + xs)
  }

  lemma {:induction false} PrependOne<T>(done: seq<T>, x: T, rest: Option<seq<T>>)
    ensures Prepended(done + [x], rest) == Prepended(done, Prepended([x], rest))
  {
    if rest.Some? {
      assert done + [x] + rest.value == done + ([x] + rest.value);
    }
  }

  lemma {:induction false} PrependEmpty<T>(rest: Option<seq<T>>)
    ensures Prepended([], rest) == rest
  {
    if rest.Some? {
      assert [] + rest.value == rest.value;
    }
  }

  lemma {:induction false} PrependNone<T>(done: seq<T>)
    ensures Prepended(done, Some([])) == Some(done)
  {
    assert done + [] == done;
  }

  lemma {:induction false} ItemHeight(items: seq<Value>, i: nat)
    requires i < |items|
    ensures Height(items[i]) < ItemsHeight(items)
  {
    if i > 0 {
      ItemHeight(items[1..], i - 1);
    }
  }

  lemma {:induction false} ItemRank(items: seq<Value>, i: nat)
    requires i < |items|
    ensures Rank(Some(items[i])) < Rank(Some(Array(items)))
  {
    ItemHeight(items, i);
  }

  /** The name of an optional field that is there and does not convert. */
  function NotMaybe<T>(es: seq<Entry>, name: string, decoded: Option<T>): set<Text> {
    if Optional(Field(es, name), decoded).Some? then {} else {Ascii(name)}
  }

  function NotGood<T>(name: string, decoded: Option<T>): set<Text> {
    if decoded.Some? then {} else {Ascii(name)}
  }

  /** The two lists of an object preview. */
  method ReadLists(es: seq<Entry>, errors: Errors)
    returns (properties: Option<seq<PropertyPreview>>, entries: MaybeEntries)
    requires errors.path != []
    modifies errors
    ensures SameObject(old(errors.path), errors.path)
    ensures var p := DecodeProperties(Field(es, "properties"));
            var list := Optional(Field(es, "entries"), DecodeEntries(Field(es, "entries")));
            && Logged(old(errors.errors), errors.errors, p.Some? && list.Some?)
            && (errors.errors == [] ==>
                  properties == p && entries == if list.value.Some? then Entries(list.value.value) else NoEntries)
    ensures Blamed(Init(old(errors.path)),
                   NotGood("properties", DecodeProperties(Field(es, "properties"))) +
                   NotMaybe(es, "entries", DecodeEntries(Field(es, "entries"))), old(errors.errors), errors.errors)
    decreases 1 + EntriesHeight(es), 1, 1
  {
    hide Under, Field, DecodeProperties, DecodeEntries, ItemErrors, FailingPropertyPreviews, FailingEntryPreviews,
      Blamed, Located, Message;
    ghost var path, e0 := Init(errors.path), errors.errors;
    errors.SetName(Ascii("properties"));
    assert errors.path == path + [Ascii("properties")];
    properties := PropertyPreviewsFromValue(Field(es, "properties"), errors);
    BlamedField(path, Ascii("properties"), errors.path, e0, errors.errors);
    ghost var e1 := errors.errors;
    entries := NoEntries;
    if Field(es, "entries").Some? {
      errors.SetName(Ascii("entries"));
      assert errors.path == path + [Ascii("entries")];
      var list := EntryPreviewsFromValue(Field(es, "entries"), errors);
      BlamedField(path, Ascii("entries"), errors.path, e1, errors.errors);
      entries := if list.Some? then Entries(list.value) else NoEntries;
    } else {
      BlamedNothing(path, e1);
    }
    BlamedOn(path, NotGood("properties", DecodeProperties(Field(es, "properties"))),
             NotMaybe(es, "entries", DecodeEntries(Field(es, "entries"))), e0, e1, errors.errors);
  }

  method ReadPreview(es: seq<Entry>, name: string, errors: Errors) returns (r: Option<ObjectPreview>)
    requires errors.path != []
    modifies errors
    ensures SameObject(old(errors.path), errors.path)
    ensures var c := DecodeObjectPreview(Field(es, name));
            Logged(old(errors.errors), errors.errors, c.Some?) && (errors.errors == [] ==> r == c)
    ensures Blamed(Init(old(errors.path)), NotGood(name, DecodeObjectPreview(Field(es, name))), old(errors.errors),
                   errors.errors)
    decreases 1 + EntriesHeight(es), 1, 0
  {
    hide Under, Field, DecodeObjectPreview, Blamed, Located, FaultyObjectPreview, Message;
    errors.SetName(Ascii(name));
    assert errors.path == Init(old(errors.path)) + [Ascii(name)];
    r := ObjectPreviewFromValue(Field(es, name), errors);
    BlamedField(Init(old(errors.path)), Ascii(name), errors.path, old(errors.errors), errors.errors);
  }

  method ReadMaybePreview(es: seq<Entry>, name: string, errors: Errors) returns (r: Option<ObjectPreview>)
    requires errors.path != []
    modifies errors
    ensures SameObject(old(errors.path), errors.path)
    ensures var c := Optional(Field(es, name), DecodeObjectPreview(Field(es, name)));
            Logged(old(errors.errors), errors.errors, c.Some?) && (errors.errors == [] ==> r == c.value)
    ensures Blamed(Init(old(errors.path)), NotMaybe(es, name, DecodeObjectPreview(Field(es, name))), old(errors.errors),
                   errors.errors)
    decreases 1 + EntriesHeight(es), 1, 1
  {
    hide Field, DecodeObjectPreview, Blamed;
    if Field(es, name).None? {
      BlamedNothing(Init(errors.path), errors.errors);
      return None;
    }
    r := ReadPreview(es, name, errors);
  }

  lemma {:induction false} ObjectPreviewNeedsObject(v: Option<Value>)
    requires v.None? || !v.value.Object?
    ensures DecodeObjectPreview(v).None?
  {
  }

  /** The names of the fields that do not convert. */
  function FaultyObjectPreview(es: seq<Entry>): set<Text> {
    NotText(es, "type") + (NotMaybeText(es, "subtype") + NotMaybeText(es, "description")) + NotFlag(es, "overflow") +
    (NotGood("properties", DecodeProperties(Field(es, "properties"))) +
     NotMaybe(es, "entries", DecodeEntries(Field(es, "entries"))))
  }

  lemma {:induction false} FaultyObjectPreviewDecides(es: seq<Entry>)
    ensures FaultyObjectPreview(es) == {} <==> DecodeObjectPreview(Some(Object(es))).Some?
  {
    hide Field, StringOf, BoolOf, IntOf, MaybeString, Optional, Ascii, DecodeProperties, DecodeEntries;
  }

  /** The fields, one after the other. */
  method ObjectPreviewFromEntries(es: seq<Entry>, errors: Errors) returns (result: Option<ObjectPreview>)
    requires errors.path != []
    modifies errors
    ensures SameObject(old(errors.path), errors.path)
    ensures Blamed(Init(old(errors.path)), FaultyObjectPreview(es), old(errors.errors), errors.errors)
    ensures errors.errors == [] ==> result.Some? && result == DecodeObjectPreview(Some(Object(es)))
    decreases 1 + EntriesHeight(es), 1, 2
  {
    hide Blamed, Field, NotText, NotFlag, NotNumber, NotMaybeText, NotMaybe, NotGood, StringOf, BoolOf, IntOf,
      MaybeString, Optional, Ascii, Renamed, DecodeProperties, DecodeEntries;
    ghost var path, start := Init(errors.path), errors.errors;
    var kind := ReadString(es, "type", errors);
    ghost var faulty, log := NotText(es, "type"), errors.errors;
    var subtype, description := ReadTwoMaybeStrings(es, "subtype", "description", errors);
    BlamedOn(path, faulty, NotMaybeText(es, "subtype") + NotMaybeText(es, "description"), start, log, errors.errors);
    faulty, log := faulty + (NotMaybeText(es, "subtype") + NotMaybeText(es, "description")), errors.errors;
    var overflow := ReadBool(es, "overflow", errors);
    BlamedOn(path, faulty, NotFlag(es, "overflow"), start, log, errors.errors);
    faulty, log := faulty + NotFlag(es, "overflow"), errors.errors;
    var properties, entries := ReadLists(es, errors);
    BlamedOn(path, faulty, NotGood("properties", DecodeProperties(Field(es, "properties"))) +
             NotMaybe(es, "entries", DecodeEntries(Field(es, "entries"))), start, log, errors.errors);
    if errors.HasErrors() {
      return None;
    }
    return Some(ObjectPreview(kind, subtype, description, overflow, properties.value, entries));
  }

  method ObjectPreviewFromValue(value: Option<Value>, errors: Errors) returns (result: Option<ObjectPreview>)
    modifies errors
    ensures errors.path == old(errors.path)
    ensures Converted(old(errors.errors), errors.errors, DecodeObjectPreview(value), result)
    ensures Located(old(errors.path), old(errors.errors), errors.errors)
    ensures if value.Some? && value.value.Object?
            then Blamed(old(errors.path), FaultyObjectPreview(value.value.entries), old(errors.errors), errors.errors)
            else errors.errors == old(errors.errors) + [Message(old(errors.path), "object expected")]
    decreases Rank(value), 2, 0
  {
    hide Located, Blamed, FaultyObjectPreview, DecodeObjectPreview, Message;
    if value.None? || !value.value.Object? {
      ObjectPreviewNeedsObject(value);
      LocatedOnce(errors.path, errors.path, errors.errors, "object expected");
      errors.AddError("object expected");
      return None;
    }
    var es := value.value.entries;
    errors.Push();
    assert Init(errors.path) == old(errors.path);
    result := ObjectPreviewFromEntries(es, errors);
    errors.Pop();
    BlamedInside(old(errors.path), FaultyObjectPreview(es), old(errors.errors), errors.errors);
    FaultyObjectPreviewDecides(es);
    if errors.HasErrors() {
      return None;
    }
  }

  lemma {:induction false} PropertyPreviewNeedsObject(v: Option<Value>)
    requires v.None? || !v.value.Object?
    ensures DecodePropertyPreview(v).None?
  {
  }

  /** The names of the fields that do not convert. */
  function FaultyPropertyPreview(es: seq<Entry>): set<Text> {
    NotText(es, "name") + NotText(es, "type") + NotMaybeText(es, "value") +
    NotMaybe(es, "valuePreview", DecodeObjectPreview(Field(es, "valuePreview"))) + NotMaybeText(es, "subtype")
  }

  lemma {:induction false} FaultyPropertyPreviewDecides(es: seq<Entry>)
    ensures FaultyPropertyPreview(es) == {} <==> DecodePropertyPreview(Some(Object(es))).Some?
  {
    hide Field, StringOf, BoolOf, IntOf, MaybeString, Optional, Ascii, DecodeObjectPreview;
  }

  /** The fields, one after the other. */
  method PropertyPreviewFromEntries(es: seq<Entry>, errors: Errors) returns (result: Option<PropertyPreview>)
    requires errors.path != []
    modifies errors
    ensures SameObject(old(errors.path), errors.path)
    ensures Blamed(Init(old(errors.path)), FaultyPropertyPreview(es), old(errors.errors), errors.errors)
    ensures errors.errors == [] ==> result.Some? && result == DecodePropertyPreview(Some(Object(es)))
    decreases 1 + EntriesHeight(es), 1, 2
  {
    hide Blamed, Field, NotText, NotFlag, NotNumber, NotMaybeText, NotMaybe, NotGood, StringOf, BoolOf, IntOf,
      MaybeString, Optional, Ascii, Renamed, DecodeObjectPreview;
    ghost var path, start := Init(errors.path), errors.errors;
    var name := ReadString(es, "name", errors);
    ghost var faulty, log := NotText(es, "name"), errors.errors;
    var kind := ReadString(es, "type", errors);
    BlamedOn(path, faulty, NotText(es, "type"), start, log, errors.errors);
    faulty, log := faulty + NotText(es, "type"), errors.errors;
    var text := ReadMaybeString(es, "value", errors);
    BlamedOn(path, faulty, NotMaybeText(es, "value"), start, log, errors.errors);
    faulty, log := faulty + NotMaybeText(es, "value"), errors.errors;
    var valuePreview := ReadMaybePreview(es, "valuePreview", errors);
    BlamedOn(path, faulty, NotMaybe(es, "valuePreview", DecodeObjectPreview(Field(es, "valuePreview"))), start, log,
             errors.errors);
    faulty, log := faulty + NotMaybe(es, "valuePreview", DecodeObjectPreview(Field(es, "valuePreview"))), errors.errors;
    var subtype := ReadMaybeString(es, "subtype", errors);
    BlamedOn(path, faulty, NotMaybeText(es, "subtype"), start, log, errors.errors);
    if errors.HasErrors() {
      return None;
    }
    return Some(PropertyPreview(name, kind, text, valuePreview, subtype));
  }

  method PropertyPreviewFromValue(value: Option<Value>, errors: Errors) returns (result: Option<PropertyPreview>)
    modifies errors
    ensures errors.path == old(errors.path)
    ensures Converted(old(errors.errors), errors.errors, DecodePropertyPreview(value), result)
    ensures Located(old(errors.path), old(errors.errors), errors.errors)
    ensures if value.Some? && value.value.Object?
            then Blamed(old(errors.path), FaultyPropertyPreview(value.value.entries), old(errors.errors), errors.errors)
            else errors.errors == old(errors.errors) + [Message(old(errors.path), "object expected")]
    decreases Rank(value), 2, 0
  {
    hide Located, Blamed, FaultyPropertyPreview, DecodePropertyPreview, Message;
    if value.None? || !value.value.Object? {
      PropertyPreviewNeedsObject(value);
      LocatedOnce(errors.path, errors.path, errors.errors, "object expected");
      errors.AddError("object expected");
      return None;
    }
    var es := value.value.entries;
    errors.Push();
    assert Init(errors.path) == old(errors.path);
    result := PropertyPreviewFromEntries(es, errors);
    errors.Pop();
    BlamedInside(old(errors.path), FaultyPropertyPreview(es), old(errors.errors), errors.errors);
    FaultyPropertyPreviewDecides(es);
    if errors.HasErrors() {
      return None;
    }
  }

  lemma {:induction false} EntryPreviewNeedsObject(v: Option<Value>)
    requires v.None? || !v.value.Object?
    ensures DecodeEntryPreview(v).None?
  {
  }

  /** The names of the fields that do not convert. */
  function FaultyEntryPreview(es: seq<Entry>): set<Text> {
    NotMaybe(es, "key", DecodeObjectPreview(Field(es, "key"))) +
    NotGood("value", DecodeObjectPreview(Field(es, "value")))
  }

  lemma {:induction false} FaultyEntryPreviewDecides(es: seq<Entry>)
    ensures FaultyEntryPreview(es) == {} <==> DecodeEntryPreview(Some(Object(es))).Some?
  {
    hide Field, StringOf, BoolOf, IntOf, MaybeString, Optional, Ascii, DecodeObjectPreview;
  }

  /** The fields, one after the other. */
  method EntryPreviewFromEntries(es: seq<Entry>, errors: Errors) returns (result: Option<EntryPreview>)
    requires errors.path != []
    modifies errors
    ensures SameObject(old(errors.path), errors.path)
    ensures Blamed(Init(old(errors.path)), FaultyEntryPreview(es), old(errors.errors), errors.errors)
    ensures errors.errors == [] ==> result.Some? && result == DecodeEntryPreview(Some(Object(es)))
    decreases 1 + EntriesHeight(es), 1, 2
  {
    hide Blamed, Field, NotText, NotFlag, NotNumber, NotMaybeText, NotMaybe, NotGood, StringOf, BoolOf, IntOf,
      MaybeString, Optional, Ascii, Renamed, DecodeObjectPreview;
    ghost var path, start := Init(errors.path), errors.errors;
    var key := ReadMaybePreview(es, "key", errors);
    ghost var faulty, log := NotMaybe(es, "key", DecodeObjectPreview(Field(es, "key"))), errors.errors;
    var preview := ReadPreview(es, "value", errors);
    BlamedOn(path, faulty, NotGood("value", DecodeObjectPreview(Field(es, "value"))), start, log, errors.errors);
    if errors.HasErrors() {
      return None;
    }
    return Some(EntryPreview(key, preview.value));
  }

  method EntryPreviewFromValue(value: Option<Value>, errors: Errors) returns (result: Option<EntryPreview>)
    modifies errors
    ensures errors.path == old(errors.path)
    ensures Converted(old(errors.errors), errors.errors, DecodeEntryPreview(value), result)
    ensures Located(old(errors.path), old(errors.errors), errors.errors)
    ensures if value.Some? && value.value.Object?
            then Blamed(old(errors.path), FaultyEntryPreview(value.value.entries), old(errors.errors), errors.errors)
            else errors.errors == old(errors.errors) + [Message(old(errors.path), "object expected")]
    decreases Rank(value), 2, 0
  {
    hide Located, Blamed, FaultyEntryPreview, DecodeEntryPreview, Message;
    if value.None? || !value.value.Object? {
      EntryPreviewNeedsObject(value);
      LocatedOnce(errors.path, errors.path, errors.errors, "object expected");
      errors.AddError("object expected");
      return None;
    }
    var es := value.value.entries;
    errors.Push();
    assert Init(errors.path) == old(errors.path);
    result := EntryPreviewFromEntries(es, errors);
    errors.Pop();
    BlamedInside(old(errors.path), FaultyEntryPreview(es), old(errors.errors), errors.errors);
    FaultyEntryPreviewDecides(es);
    if errors.HasErrors() {
      return None;
    }
  }

  /** Which items do not convert. */
  function FailingPropertyPreviews(items: seq<Value>): (r: seq<bool>)
    ensures |r| == |items| && forall i :: 0 <= i < |items| ==> (r[i] <==> DecodePropertyPreview(Some(items[i])).None?)
  {
    seq(|items|, i requires 0 <= i < |items| => DecodePropertyPreview(Some(items[i])).None?)
  }

  lemma {:induction false} FailingPropertyPreviewsDecide(items: seq<Value>)
    ensures DecodePropertyItems(items).Some? <==> true !in FailingPropertyPreviews(items)
  {
    hide DecodePropertyPreview;
    var fails := FailingPropertyPreviews(items);
    if items != [] {
      FailingPropertyPreviewsDecide(items[1..]);
      assert fails == [fails[0]] + FailingPropertyPreviews(items[1..]);
    }
  }

  /** The loop over the items. */
  method PropertyPreviewsFromItems(items: seq<Value>, errors: Errors) returns (vector: seq<PropertyPreview>)
    requires errors.path != []
    modifies errors
    ensures SameObject(old(errors.path), errors.path)
    ensures ItemErrors(Init(old(errors.path)), FailingPropertyPreviews(items), |items|, old(errors.errors),
                       errors.errors)
    ensures errors.errors == [] ==> DecodePropertyItems(items) == Some(vector)
    decreases Rank(Some(Array(items))), 0, 1
  {
    hide ItemErrors, Located, FailingPropertyPreviews, Decimal, DecodePropertyPreview, Rank;
    vector := [];
    ghost var path, fails := Init(errors.path), FailingPropertyPreviews(items);
    NoItemErrors(path, fails, errors.errors);
    PrependEmpty(DecodePropertyItems(items));
    for i := 0 to |items|
      invariant SameObject(old(errors.path), errors.path)
      invariant ItemErrors(path, fails, i, old(errors.errors), errors.errors)
      invariant errors.errors == [] ==> DecodePropertyItems(items) == Prepended(vector, DecodePropertyItems(items[i..]))
    {
      errors.SetName(Decimal(i));
      ghost var before := errors.errors;
      ItemRank(items, i);
      assert errors.path == path + [Decimal(i)];
      var item := PropertyPreviewFromValue(Some(items[i]), errors);
      ItemErrorsOn(path, fails, i, old(errors.errors), before, errors.errors);
      assert items[i..][1..] == items[i + 1..];
      if item.Some? {
        PrependOne(vector, item.value, DecodePropertyItems(items[i + 1..]));
        vector := vector + [item.value];
      }
    }
    PrependNone(vector);
  }

  /** `Array<PropertyPreview>::fromValue`. A null item is pushed as well; the array is then dropped,
      because an error has been recorded. */
  method PropertyPreviewsFromValue(value: Option<Value>, errors: Errors) returns (result: Option<seq<PropertyPreview>>)
    modifies errors
    ensures errors.path == old(errors.path)
    ensures Converted(old(errors.errors), errors.errors, DecodeProperties(value), result)
    ensures Located(old(errors.path), old(errors.errors), errors.errors)
    ensures value.None? || !value.value.Array? ==>
              errors.errors == old(errors.errors) + [Message(old(errors.path), "array expected")]
    ensures value.Some? && value.value.Array? ==>
              ItemErrors(old(errors.path), FailingPropertyPreviews(value.value.items), |value.value.items|,
                         old(errors.errors), errors.errors)
    decreases Rank(value), 1, 0
  {
    if value.None? || !value.value.Array? {
      LocatedOnce(errors.path, errors.path, errors.errors, "array expected");
      errors.AddError("array expected");
      return None;
    }
    hide ItemErrors, Located, FailingPropertyPreviews, Rank;
    var items := value.value.items;
    ghost var fails := FailingPropertyPreviews(items);
    errors.Push();
    assert Init(errors.path) == old(errors.path);
    var vector := PropertyPreviewsFromItems(items, errors);
    errors.Pop();
    ItemErrorsInside(old(errors.path), fails, |items|, old(errors.errors), errors.errors);
    ItemErrorsDecide(old(errors.path), fails, old(errors.errors), errors.errors);
    FailingPropertyPreviewsDecide(items);
    if errors.HasErrors() {
      return None;
    }
    return Some(vector);
  }

  /** Which items do not convert. */
  function FailingEntryPreviews(items: seq<Value>): (r: seq<bool>)
    ensures |r| == |items| && forall i :: 0 <= i < |items| ==> (r[i] <==> DecodeEntryPreview(Some(items[i])).None?)
  {
    seq(|items|, i requires 0 <= i < |items| => DecodeEntryPreview(Some(items[i])).None?)
  }

  lemma {:induction false} FailingEntryPreviewsDecide(items: seq<Value>)
    ensures DecodeEntryItems(items).Some? <==> true !in FailingEntryPreviews(items)
  {
    hide DecodeEntryPreview;
    var fails := FailingEntryPreviews(items);
    if items != [] {
      FailingEntryPreviewsDecide(items[1..]);
      assert fails == [fails[0]] + FailingEntryPreviews(items[1..]);
    }
  }

  /** The loop over the items. */
  method EntryPreviewsFromItems(items: seq<Value>, errors: Errors) returns (vector: seq<EntryPreview>)
    requires errors.path != []
    modifies errors
    ensures SameObject(old(errors.path), errors.path)
    ensures ItemErrors(Init(old(errors.path)), FailingEntryPreviews(items), |items|, old(errors.errors), errors.errors)
    ensures errors.errors == [] ==> DecodeEntryItems(items) == Some(vector)
    decreases Rank(Some(Array(items))), 0, 1
  {
    hide ItemErrors, Located, FailingEntryPreviews, Decimal, DecodeEntryPreview, Rank;
    vector := [];
    ghost var path, fails := Init(errors.path), FailingEntryPreviews(items);
    NoItemErrors(path, fails, errors.errors);
    PrependEmpty(DecodeEntryItems(items));
    for i := 0 to |items|
      invariant SameObject(old(errors.path), errors.path)
      invariant ItemErrors(path, fails, i, old(errors.errors), errors.errors)
      invariant errors.errors == [] ==> DecodeEntryItems(items) == Prepended(vector, DecodeEntryItems(items[i..]))
    {
      errors.SetName(Decimal(i));
      ghost var before := errors.errors;
      ItemRank(items, i);
      assert errors.path == path + [Decimal(i)];
      var item := EntryPreviewFromValue(Some(items[i]), errors);
      ItemErrorsOn(path, fails, i, old(errors.errors), before, errors.errors);
      assert items[i..][1..] == items[i + 1..];
      if item.Some? {
        PrependOne(vector, item.value, DecodeEntryItems(items[i + 1..]));
        vector := vector + [item.value];
      }
    }
    PrependNone(vector);
  }

  /** `Array<EntryPreview>::fromValue`. A null item is pushed as well; the array is then dropped,
      because an error has been recorded. */
  method EntryPreviewsFromValue(value: Option<Value>, errors: Errors) returns (result: Option<seq<EntryPreview>>)
    modifies errors
    ensures errors.path == old(errors.path)
    ensures Converted(old(errors.errors), errors.errors, DecodeEntries(value), result)
    ensures Located(old(errors.path), old(errors.errors), errors.errors)
    ensures value.None? || !value.value.Array? ==>
              errors.errors == old(errors.errors) + [Message(old(errors.path), "array expected")]
    ensures value.Some? && value.value.Array? ==>
              ItemErrors(old(errors.path), FailingEntryPreviews(value.value.items), |value.value.items|,
                         old(errors.errors), errors.errors)
    decreases Rank(value), 1, 0
  {
    if value.None? || !value.value.Array? {
      LocatedOnce(errors.path, errors.path, errors.errors, "array expected");
      errors.AddError("array expected");
      return None;
    }
    hide ItemErrors, Located, FailingEntryPreviews, Rank;
    var items := value.value.items;
    ghost var fails := FailingEntryPreviews(items);
    errors.Push();
    assert Init(errors.path) == old(errors.path);
    var vector := EntryPreviewsFromItems(items, errors);
    errors.Pop();
    ItemErrorsInside(old(errors.path), fails, |items|, old(errors.errors), errors.errors);
    ItemErrorsDecide(old(errors.path), fails, old(errors.errors), errors.errors);
    FailingEntryPreviewsDecide(items);
    if errors.HasErrors() {
      return None;
    }
    return Some(vector);
  }

  method ReadMaybeCustomPreview(es: seq<Entry>, name: string, errors: Errors) returns (r: Option<CustomPreview>)
    requires errors.path != []
    modifies errors
    ensures SameObject(old(errors.path), errors.path)
    ensures var c := Optional(Field(es, name), DecodeCustomPreview(Field(es, name)));
            Logged(old(errors.errors), errors.errors, c.Some?) && (errors.errors == [] ==> r == c.value)
    ensures Blamed(Init(old(errors.path)), NotMaybe(es, name, DecodeCustomPreview(Field(es, name))), old(errors.errors),
                   errors.errors)
  {
    hide Under, Field, DecodeCustomPreview, Blamed, Located, FaultyCustomPreview, Message;
    if Field(es, name).None? {
      BlamedNothing(Init(errors.path), errors.errors);
      return None;
    }
    errors.SetName(Ascii(name));
    assert errors.path == Init(old(errors.path)) + [Ascii(name)];
    r := CustomPreviewFromValue(Field(es, name), errors);
    BlamedField(Init(old(errors.path)), Ascii(name), errors.path, old(errors.errors), errors.errors);
  }

  /** The value of a remote object, a copy of the tree it came in. */
  method ReadPayload(es: seq<Entry>, errors: Errors) returns (payload: Option<Value>)
    requires errors.path != []
    modifies errors
    ensures SameObject(old(errors.path), errors.path) && errors.errors == old(errors.errors)
    ensures payload == if Field(es, "value").Some? then Some(Clone(Field(es, "value").value)) else None
  {
    if Field(es, "value").None? {
      return None;
    }
    errors.SetName(Ascii("value"));
    payload := Some(Clone(Field(es, "value").value));
  }

  lemma {:induction false} RemoteObjectNeedsObject(v: Option<Value>)
    requires v.None? || !v.value.Object?
    ensures DecodeRemoteObject(v).None?
  {
  }

  /** The names of the fields that do not convert. */
  function FaultyRemoteObject(es: seq<Entry>): set<Text> {
    NotText(es, "type") + (NotMaybeText(es, "subtype") + NotMaybeText(es, "className")) +
    (NotMaybeText(es, "unserializableValue") + NotMaybeText(es, "description") + NotMaybeText(es, "objectId")) +
    NotMaybe(es, "preview", DecodeObjectPreview(Field(es, "preview"))) +
    NotMaybe(es, "customPreview", DecodeCustomPreview(Field(es, "customPreview")))
  }

  lemma {:induction false} FaultyRemoteObjectDecides(es: seq<Entry>)
    ensures FaultyRemoteObject(es) == {} <==> DecodeRemoteObject(Some(Object(es))).Some?
  {
    hide Field, StringOf, BoolOf, IntOf, MaybeString, Optional, Ascii, DecodeObjectPreview, DecodeCustomPreview, Clone;
  }

  /** The fields, one after the other. */
  method RemoteObjectFromEntries(es: seq<Entry>, errors: Errors) returns (result: Option<RemoteObject>)
    requires errors.path != []
    modifies errors
    ensures SameObject(old(errors.path), errors.path)
    ensures Blamed(Init(old(errors.path)), FaultyRemoteObject(es), old(errors.errors), errors.errors)
    ensures errors.errors == [] ==> result.Some? && result == DecodeRemoteObject(Some(Object(es)))
  {
    hide Blamed, Field, NotText, NotFlag, NotNumber, NotMaybeText, NotMaybe, NotGood, StringOf, BoolOf, IntOf,
      MaybeString, Optional, Ascii, Renamed, DecodeObjectPreview, DecodeCustomPreview, Clone;
    ghost var path, start := Init(errors.path), errors.errors;
    var kind := ReadString(es, "type", errors);
    ghost var faulty, log := NotText(es, "type"), errors.errors;
    var subtype, className := ReadTwoMaybeStrings(es, "subtype", "className", errors);
    BlamedOn(path, faulty, NotMaybeText(es, "subtype") + NotMaybeText(es, "className"), start, log, errors.errors);
    faulty, log := faulty + (NotMaybeText(es, "subtype") + NotMaybeText(es, "className")), errors.errors;
    var payload := ReadPayload(es, errors);
    var unserializableValue, description, objectId :=
      ReadThreeMaybeStrings(es, "unserializableValue", "description", "objectId", errors);
    BlamedOn(path, faulty, NotMaybeText(es, "unserializableValue") + NotMaybeText(es, "description") +
             NotMaybeText(es, "objectId"), start, log, errors.errors);
    faulty, log := faulty + (NotMaybeText(es, "unserializableValue") + NotMaybeText(es, "description") +
                             NotMaybeText(es, "objectId")), errors.errors;
    var preview := ReadMaybePreview(es, "preview", errors);
    BlamedOn(path, faulty, NotMaybe(es, "preview", DecodeObjectPreview(Field(es, "preview"))), start, log,
             errors.errors);
    faulty, log := faulty + NotMaybe(es, "preview", DecodeObjectPreview(Field(es, "preview"))), errors.errors;
    var customPreview := ReadMaybeCustomPreview(es, "customPreview", errors);
    BlamedOn(path, faulty, NotMaybe(es, "customPreview", DecodeCustomPreview(Field(es, "customPreview"))), start,
             log, errors.errors);
    if errors.HasErrors() {
      return None;
    }
    return Some(RemoteObject(kind, subtype, className, payload, unserializableValue, description, objectId, preview,
                             customPreview));
  }

  method RemoteObjectFromValue(value: Option<Value>, errors: Errors) returns (result: Option<RemoteObject>)
    modifies errors
    ensures errors.path == old(errors.path)
    ensures Converted(old(errors.errors), errors.errors, DecodeRemoteObject(value), result)
    ensures Located(old(errors.path), old(errors.errors), errors.errors)
    ensures if value.Some? && value.value.Object?
            then Blamed(old(errors.path), FaultyRemoteObject(value.value.entries), old(errors.errors), errors.errors)
            else errors.errors == old(errors.errors) + [Message(old(errors.path), "object expected")]
  {
    hide Located, Blamed, FaultyRemoteObject, DecodeRemoteObject, Message;
    if value.None? || !value.value.Object? {
      RemoteObjectNeedsObject(value);
      LocatedOnce(errors.path, errors.path, errors.errors, "object expected");
      errors.AddError("object expected");
      return None;
    }
    var es := value.value.entries;
    errors.Push();
    assert Init(errors.path) == old(errors.path);
    result := RemoteObjectFromEntries(es, errors);
    errors.Pop();
    BlamedInside(old(errors.path), FaultyRemoteObject(es), old(errors.errors), errors.errors);
    FaultyRemoteObjectDecides(es);
    if errors.HasErrors() {
      return None;
    }
  }

  lemma {:induction false} CallFrameNeedsObject(v: Option<Value>)
    requires v.None? || !v.value.Object?
    ensures DecodeCallFrame(v).None?
  {
  }

  /** The names of the fields that do not convert. */
  function FaultyCallFrame(es: seq<Entry>): set<Text> {
    (NotText(es, "functionName") + NotText(es, "scriptId") + NotText(es, "url")) + NotNumber(es, "lineNumber") +
    NotNumber(es, "columnNumber")
  }

  lemma {:induction false} FaultyCallFrameDecides(es: seq<Entry>)
    ensures FaultyCallFrame(es) == {} <==> DecodeCallFrame(Some(Object(es))).Some?
  {
    hide Field, StringOf, BoolOf, IntOf, MaybeString, Optional, Ascii;
  }

  /** The fields, one after the other. */
  method CallFrameFromEntries(es: seq<Entry>, errors: Errors) returns (result: Option<CallFrame>)
    requires errors.path != []
    modifies errors
    ensures SameObject(old(errors.path), errors.path)
    ensures Blamed(Init(old(errors.path)), FaultyCallFrame(es), old(errors.errors), errors.errors)
    ensures errors.errors == [] ==> result.Some? && result == DecodeCallFrame(Some(Object(es)))
  {
    hide Blamed, Field, NotText, NotFlag, NotNumber, NotMaybeText, NotMaybe, NotGood, StringOf, BoolOf, IntOf,
      MaybeString, Optional, Ascii, Renamed;
    ghost var path, start := Init(errors.path), errors.errors;
    var functionName, scriptId, url := ReadThreeStrings(es, "functionName", "scriptId", "url", errors);
    ghost var faulty, log := (NotText(es, "functionName") + NotText(es, "scriptId") + NotText(es, "url")),
                             errors.errors;
    var lineNumber := ReadInt(es, "lineNumber", errors);
    BlamedOn(path, faulty, NotNumber(es, "lineNumber"), start, log, errors.errors);
    faulty, log := faulty + NotNumber(es, "lineNumber"), errors.errors;
    var columnNumber := ReadInt(es, "columnNumber", errors);
    BlamedOn(path, faulty, NotNumber(es, "columnNumber"), start, log, errors.errors);
    if errors.HasErrors() {
      return None;
    }
    return Some(CallFrame(functionName, scriptId, url, lineNumber, columnNumber));
  }

  method CallFrameFromValue(value: Option<Value>, errors: Errors) returns (result: Option<CallFrame>)
    modifies errors
    ensures errors.path == old(errors.path)
    ensures Converted(old(errors.errors), errors.errors, DecodeCallFrame(value), result)
    ensures Located(old(errors.path), old(errors.errors), errors.errors)
    ensures if value.Some? && value.value.Object?
            then Blamed(old(errors.path), FaultyCallFrame(value.value.entries), old(errors.errors), errors.errors)
            else errors.errors == old(errors.errors) + [Message(old(errors.path), "object expected")]
    decreases Rank(value), 0, 0
  {
    hide Located, Blamed, FaultyCallFrame, DecodeCallFrame, Message;
    if value.None? || !value.value.Object? {
      CallFrameNeedsObject(value);
      LocatedOnce(errors.path, errors.path, errors.errors, "object expected");
      errors.AddError("object expected");
      return None;
    }
    var es := value.value.entries;
    errors.Push();
    assert Init(errors.path) == old(errors.path);
    result := CallFrameFromEntries(es, errors);
    errors.Pop();
    BlamedInside(old(errors.path), FaultyCallFrame(es), old(errors.errors), errors.errors);
    FaultyCallFrameDecides(es);
    if errors.HasErrors() {
      return None;
    }
  }

  /** Which items do not convert. */
  function FailingCallFrames(items: seq<Value>): (r: seq<bool>)
    ensures |r| == |items| && forall i :: 0 <= i < |items| ==> (r[i] <==> DecodeCallFrame(Some(items[i])).None?)
  {
    seq(|items|, i requires 0 <= i < |items| => DecodeCallFrame(Some(items[i])).None?)
  }

  lemma {:induction false} FailingCallFramesDecide(items: seq<Value>)
    ensures DecodeCallFrameItems(items).Some? <==> true !in FailingCallFrames(items)
  {
    hide DecodeCallFrame;
    var fails := FailingCallFrames(items);
    if items != [] {
      FailingCallFramesDecide(items[1..]);
      assert fails == [fails[0]] + FailingCallFrames(items[1..]);
    }
  }

  /** The loop over the items. */
  method CallFramesFromItems(items: seq<Value>, errors: Errors) returns (vector: seq<CallFrame>)
    requires errors.path != []
    modifies errors
    ensures SameObject(old(errors.path), errors.path)
    ensures ItemErrors(Init(old(errors.path)), FailingCallFrames(items), |items|, old(errors.errors), errors.errors)
    ensures errors.errors == [] ==> DecodeCallFrameItems(items) == Some(vector)
  {
    hide ItemErrors, Located, FailingCallFrames, Decimal, DecodeCallFrame, Rank;
    vector := [];
    ghost var path, fails := Init(errors.path), FailingCallFrames(items);
    NoItemErrors(path, fails, errors.errors);
    PrependEmpty(DecodeCallFrameItems(items));
    for i := 0 to |items|
      invariant SameObject(old(errors.path), errors.path)
      invariant ItemErrors(path, fails, i, old(errors.errors), errors.errors)
      invariant errors.errors == [] ==> DecodeCallFrameItems(items) ==
                                        Prepended(vector, DecodeCallFrameItems(items[i..]))
    {
      errors.SetName(Decimal(i));
      ghost var before := errors.errors;
      ItemRank(items, i);
      assert errors.path == path + [Decimal(i)];
      var item := CallFrameFromValue(Some(items[i]), errors);
      ItemErrorsOn(path, fails, i, old(errors.errors), before, errors.errors);
      assert items[i..][1..] == items[i + 1..];
      if item.Some? {
        PrependOne(vector, item.value, DecodeCallFrameItems(items[i + 1..]));
        vector := vector + [item.value];
      }
    }
    PrependNone(vector);
  }

  /** `Array<CallFrame>::fromValue`. A null item is pushed as well; the array is then dropped,
      because an error has been recorded. */
  method CallFramesFromValue(value: Option<Value>, errors: Errors) returns (result: Option<seq<CallFrame>>)
    modifies errors
    ensures errors.path == old(errors.path)
    ensures Converted(old(errors.errors), errors.errors, DecodeCallFrames(value), result)
    ensures Located(old(errors.path), old(errors.errors), errors.errors)
    ensures value.None? || !value.value.Array? ==>
              errors.errors == old(errors.errors) + [Message(old(errors.path), "array expected")]
    ensures value.Some? && value.value.Array? ==>
              ItemErrors(old(errors.path), FailingCallFrames(value.value.items), |value.value.items|,
                         old(errors.errors), errors.errors)
    decreases Rank(value), 1, 0
  {
    if value.None? || !value.value.Array? {
      LocatedOnce(errors.path, errors.path, errors.errors, "array expected");
      errors.AddError("array expected");
      return None;
    }
    hide ItemErrors, Located, FailingCallFrames, Rank;
    var items := value.value.items;
    ghost var fails := FailingCallFrames(items);
    errors.Push();
    assert Init(errors.path) == old(errors.path);
    var vector := CallFramesFromItems(items, errors);
    errors.Pop();
    ItemErrorsInside(old(errors.path), fails, |items|, old(errors.errors), errors.errors);
    ItemErrorsDecide(old(errors.path), fails, old(errors.errors), errors.errors);
    FailingCallFramesDecide(items);
    if errors.HasErrors() {
      return None;
    }
    return Some(vector);
  }

  lemma {:induction false} StackTraceNeedsObject(v: Option<Value>)
    requires v.None? || !v.value.Object?
    ensures DecodeStackTrace(v).None?
  {
  }

  method ReadCallFrames(es: seq<Entry>, errors: Errors) returns (r: Option<seq<CallFrame>>)
    requires errors.path != []
    modifies errors
    ensures SameObject(old(errors.path), errors.path)
    ensures var c := DecodeCallFrames(Field(es, "callFrames"));
            Logged(old(errors.errors), errors.errors, c.Some?) && (errors.errors == [] ==> r == c)
    ensures Blamed(Init(old(errors.path)), NotGood("callFrames", DecodeCallFrames(Field(es, "callFrames"))),
                   old(errors.errors), errors.errors)
  {
    hide Under, Field, DecodeCallFrames, Blamed, Located, ItemErrors, FailingCallFrames, Message;
    errors.SetName(Ascii("callFrames"));
    assert errors.path == Init(old(errors.path)) + [Ascii("callFrames")];
    r := CallFramesFromValue(Field(es, "callFrames"), errors);
    BlamedField(Init(old(errors.path)), Ascii("callFrames"), errors.path, old(errors.errors), errors.errors);
  }

  method ReadParent(es: seq<Entry>, errors: Errors) returns (r: Option<StackTrace>)
    requires errors.path != []
    modifies errors
    ensures SameObject(old(errors.path), errors.path)
    ensures var c := Optional(Field(es, "parent"), DecodeStackTrace(Field(es, "parent")));
            Logged(old(errors.errors), errors.errors, c.Some?) && (errors.errors == [] ==> r == c.value)
    ensures Blamed(Init(old(errors.path)), NotMaybe(es, "parent", DecodeStackTrace(Field(es, "parent"))),
                   old(errors.errors), errors.errors)
    decreases EntriesHeight(es), 2
  {
    hide Under, Field, DecodeStackTrace, Blamed, Located, FaultyStackTrace, Message;
    if Field(es, "parent").None? {
      BlamedNothing(Init(errors.path), errors.errors);
      return None;
    }
    errors.SetName(Ascii("parent"));
    assert errors.path == Init(old(errors.path)) + [Ascii("parent")];
    r := StackTraceFromValue(Field(es, "parent"), errors);
    BlamedField(Init(old(errors.path)), Ascii("parent"), errors.path, old(errors.errors), errors.errors);
  }

  /** The names of the fields that do not convert. */
  function FaultyStackTrace(es: seq<Entry>): set<Text> {
    NotMaybeText(es, "description") + NotGood("callFrames", DecodeCallFrames(Field(es, "callFrames"))) +
    NotMaybe(es, "parent", DecodeStackTrace(Field(es, "parent")))
  }

  lemma {:induction false} FaultyStackTraceDecides(es: seq<Entry>)
    ensures FaultyStackTrace(es) == {} <==> DecodeStackTrace(Some(Object(es))).Some?
  {
    hide Field, StringOf, BoolOf, IntOf, MaybeString, Optional, Ascii, DecodeCallFrames;
  }

  /** The fields, one after the other. */
  method StackTraceFromEntries(es: seq<Entry>, errors: Errors) returns (result: Option<StackTrace>)
    requires errors.path != []
    modifies errors
    ensures SameObject(old(errors.path), errors.path)
    ensures Blamed(Init(old(errors.path)), FaultyStackTrace(es), old(errors.errors), errors.errors)
    ensures errors.errors == [] ==> result.Some? && result == DecodeStackTrace(Some(Object(es)))
    decreases 1 + EntriesHeight(es), 0
  {
    hide Blamed, Field, NotText, NotFlag, NotNumber, NotMaybeText, NotMaybe, NotGood, StringOf, BoolOf, IntOf,
      MaybeString, Optional, Ascii, Renamed, DecodeCallFrames;
    ghost var path, start := Init(errors.path), errors.errors;
    var description := ReadMaybeString(es, "description", errors);
    ghost var faulty, log := NotMaybeText(es, "description"), errors.errors;
    var callFrames := ReadCallFrames(es, errors);
    BlamedOn(path, faulty, NotGood("callFrames", DecodeCallFrames(Field(es, "callFrames"))), start, log, errors.errors);
    faulty, log := faulty + NotGood("callFrames", DecodeCallFrames(Field(es, "callFrames"))), errors.errors;
    var parent := ReadParent(es, errors);
    BlamedOn(path, faulty, NotMaybe(es, "parent", DecodeStackTrace(Field(es, "parent"))), start, log, errors.errors);
    if errors.HasErrors() {
      return None;
    }
    return Some(StackTrace(description, callFrames.value, parent));
  }

  method StackTraceFromValue(value: Option<Value>, errors: Errors) returns (result: Option<StackTrace>)
    modifies errors
    ensures errors.path == old(errors.path)
    ensures Converted(old(errors.errors), errors.errors, DecodeStackTrace(value), result)
    ensures Located(old(errors.path), old(errors.errors), errors.errors)
    ensures if value.Some? && value.value.Object?
            then Blamed(old(errors.path), FaultyStackTrace(value.value.entries), old(errors.errors), errors.errors)
            else errors.errors == old(errors.errors) + [Message(old(errors.path), "object expected")]
    decreases Rank(value), 1
  {
    hide Located, Blamed, FaultyStackTrace, DecodeStackTrace, Message;
    if value.None? || !value.value.Object? {
      StackTraceNeedsObject(value);
      LocatedOnce(errors.path, errors.path, errors.errors, "object expected");
      errors.AddError("object expected");
      return None;
    }
    var es := value.value.entries;
    errors.Push();
    assert Init(errors.path) == old(errors.path);
    result := StackTraceFromEntries(es, errors);
    errors.Pop();
    BlamedInside(old(errors.path), FaultyStackTrace(es), old(errors.errors), errors.errors);
    FaultyStackTraceDecides(es);
    if errors.HasErrors() {
      return None;
    }
  }

}
