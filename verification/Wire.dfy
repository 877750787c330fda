/** Which record a tree stands for, field by field under the names of the protocol, and the proof that
    the conversions of `RuntimeTypes` go by it in both directions. */
module Wire {
  import opened String16
  import opened Values
  import opened ErrorSupport
  import opened RuntimeTypes
  import opened Dictionary

  // ---------------------------------------------------------------- what a field holds

  predicate HasText(es: seq<Entry>, name: string, s: Text) {
    Find(es, Ascii(name)) == Some(Str(s))
  }

  /** The field is there exactly if the record has it. */
  predicate MayText(es: seq<Entry>, name: string, s: Option<Text>) {
    Find(es, Ascii(name)) == match s case None => None case Some(t) => Some(Str(t))
  }

  predicate Flag(es: seq<Entry>, name: string, b: bool) {
    Find(es, Ascii(name)) == Some(Boolean(b))
  }

  predicate Number(es: seq<Entry>, name: string, n: int32) {
    Find(es, Ascii(name)) == Some(Integer(n))
  }

  // ---------------------------------------------------------------- what a tree stands for

  predicate IsCustomPreview(v: Value, x: CustomPreview) {
    && v.Object?
    && var es := v.entries;
    && HasText(es, "header", x.header) && Flag(es, "hasBody", x.hasBody)
    && HasText(es, "formatterObjectId", x.formatterObjectId)
    && HasText(es, "bindRemoteObjectFunctionId", x.bindRemoteObjectFunctionId)
    && MayText(es, "configObjectId", x.configObjectId)
  }

  ghost predicate IsObjectPreview(v: Value, x: ObjectPreview)
    decreases x, 1
  {
    && v.Object?
    && var es := v.entries;
    && HasText(es, "type", x.kind) && MayText(es, "subtype", x.subtype) &&
       MayText(es, "description", x.description)
    && Flag(es, "overflow", x.overflow)
    && (match Find(es, Ascii("properties"))
        case Some(Array(items)) => ArePropertyPreviews(items, x.properties)
        case _ => false)
    && (match Find(es, Ascii("entries"))
        case None => x.entries == NoEntries
        case Some(Array(items)) => x.entries.Entries? && AreEntryPreviews(items, x.entries.items)
        case _ => false)
  }

  ghost predicate MayPreview(es: seq<Entry>, name: string, x: Option<ObjectPreview>)
    decreases x, 0
  {
    match Find(es, Ascii(name))
    case None => x.None?
    case Some(v) => x.Some? && IsObjectPreview(v, x.value)
  }

  ghost predicate ArePropertyPreviews(vs: seq<Value>, xs: seq<PropertyPreview>)
    decreases xs, 0
  {
    |vs| == |xs| && forall i :: 0 <= i < |vs| ==> IsPropertyPreview(vs[i], xs[i])
  }

  ghost predicate AreEntryPreviews(vs: seq<Value>, xs: seq<EntryPreview>)
    decreases xs, 0
  {
    |vs| == |xs| && forall i :: 0 <= i < |vs| ==> IsEntryPreview(vs[i], xs[i])
  }

  ghost predicate IsPropertyPreview(v: Value, x: PropertyPreview)
    decreases x, 1
  {
    && v.Object?
    && var es := v.entries;
    && HasText(es, "name", x.name) && HasText(es, "type", x.kind) && MayText(es, "value", x.value)
    && MayText(es, "subtype", x.subtype)
    && MayPreview(es, "valuePreview", x.valuePreview)
  }

  ghost predicate IsEntryPreview(v: Value, x: EntryPreview)
    decreases x, 1
  {
    && v.Object?
    && var es := v.entries;
    && MayPreview(es, "key", x.key)
    && (match Find(es, Ascii("value"))
        case None => false
        case Some(w) => IsObjectPreview(w, x.value))
  }

  predicate MayCustomPreview(es: seq<Entry>, name: string, x: Option<CustomPreview>) {
    match Find(es, Ascii(name))
    case None => x.None?
    case Some(v) => x.Some? && IsCustomPreview(v, x.value)
  }

  predicate MayTree(es: seq<Entry>, name: string, x: Option<Value>) {
    match Find(es, Ascii(name))
    case None => x.None?
    case Some(v) => x == Some(Clone(v))
  }

  /** The value of a remote object is any tree; it is copied. */
  ghost predicate IsRemoteObject(v: Value, x: RemoteObject) {
    && v.Object?
    && var es := v.entries;
    && HasText(es, "type", x.kind) && MayText(es, "subtype", x.subtype) &&
       MayText(es, "className", x.className)
    && MayTree(es, "value", x.value)
    && MayText(es, "unserializableValue", x.unserializableValue) && MayText(es, "description", x.description)
    && MayText(es, "objectId", x.objectId)
    && MayPreview(es, "preview", x.preview) && MayCustomPreview(es, "customPreview", x.customPreview)
  }

  predicate IsCallFrame(v: Value, x: CallFrame) {
    && v.Object?
    && var es := v.entries;
    && HasText(es, "functionName", x.functionName) && HasText(es, "scriptId", x.scriptId) &&
       HasText(es, "url", x.url)
    && Number(es, "lineNumber", x.lineNumber) && Number(es, "columnNumber", x.columnNumber)
  }

  predicate AreCallFrames(vs: seq<Value>, xs: seq<CallFrame>) {
    |vs| == |xs| && forall i :: 0 <= i < |vs| ==> IsCallFrame(vs[i], xs[i])
  }

  ghost predicate IsStackTrace(v: Value, x: StackTrace)
    decreases x
  {
    && v.Object?
    && var es := v.entries;
    && MayText(es, "description", x.description)
    && (match Find(es, Ascii("callFrames"))
        case Some(Array(items)) => AreCallFrames(items, x.callFrames)
        case _ => false)
    && (match Find(es, Ascii("parent"))
        case None => x.parent.None?
        case Some(w) => x.parent.Some? && IsStackTrace(w, x.parent.value))
  }

  // ---------------------------------------------------------------- the conversions go by it

  lemma {:induction false} FieldFacts(es: seq<Entry>)
    ensures forall name: string, s :: HasText(es, name, s) <==> StringOf(Field(es, name)) == Some(s)
    ensures forall name: string, s :: MayText(es, name, s) <==> MaybeString(es, name) == Some(s)
    ensures forall name: string, b :: Flag(es, name, b) <==> BoolOf(Field(es, name)) == Some(b)
    ensures forall name: string, n: int32 :: Number(es, name, n) <==> IntOf(Field(es, name)) == Some(n)
    ensures forall name: string :: Field(es, name) == Find(es, Ascii(name))
  {
    hide Ascii;
  }

  lemma {:induction false} CustomPreviewIff(v: Option<Value>, x: CustomPreview)
    ensures DecodeCustomPreview(v) == Some(x) <==> v.Some? && IsCustomPreview(v.value, x)
  {
    hide Ascii, Field, Find, StringOf, BoolOf, IntOf, MaybeString, HasText, MayText, Flag, Number;
    match v {
      case Some(Object(es)) => FieldFacts(es);
      case _ =>
    }
  }

  /** A tree converts to a preview exactly when it stands for it. */
  lemma {:induction false} ObjectPreviewIff(v: Option<Value>, x: ObjectPreview)
    ensures DecodeObjectPreview(v) == Some(x) <==> v.Some? && IsObjectPreview(v.value, x)
    decreases x, 1
  {
    hide Ascii, Field, Find, StringOf, BoolOf, IntOf, MaybeString, HasText, MayText, Flag, Number;
    match v {
      case Some(Object(es)) =>
        FieldFacts(es);
        PropertiesIff(Field(es, "properties"), x.properties);
        if x.entries.Entries? {
          EntriesIff(Field(es, "entries"), x.entries.items);
        }
        hide DecodeProperties, DecodeEntries, ArePropertyPreviews, AreEntryPreviews;
      case _ =>
    }
  }

  lemma {:induction false} PropertiesIff(v: Option<Value>, xs: seq<PropertyPreview>)
    ensures DecodeProperties(v) == Some(xs) <==>
            v.Some? && v.value.Array? && ArePropertyPreviews(v.value.items, xs)
    decreases xs, 1
  {
    if v.Some? && v.value.Array? {
      PropertyItemsIff(v.value.items, xs);
    }
  }

  lemma {:induction false} PropertyItemsIff(items: seq<Value>, xs: seq<PropertyPreview>)
    ensures DecodePropertyItems(items) == Some(xs) <==> ArePropertyPreviews(items, xs)
    decreases xs, 0
  {
    hide DecodePropertyPreview, IsPropertyPreview;
    if items != [] && xs != [] {
      PropertyPreviewIff(Some(items[0]), xs[0]);
      PropertyItemsIff(items[1..], xs[1..]);
      assert xs == [xs[0]] + xs[1..];
      if IsPropertyPreview(items[0], xs[0]) && ArePropertyPreviews(items[1..], xs[1..]) {
        forall i | 0 <= i < |items| ensures IsPropertyPreview(items[i], xs[i]) {
          assert i > 0 ==> IsPropertyPreview(items[1..][i - 1], xs[1..][i - 1]);
        }
      }
    }
  }

  lemma {:induction false} PropertyPreviewIff(v: Option<Value>, x: PropertyPreview)
    ensures DecodePropertyPreview(v) == Some(x) <==> v.Some? && IsPropertyPreview(v.value, x)
    decreases x, 1
  {
    hide Ascii, Field, Find, StringOf, BoolOf, IntOf, MaybeString, HasText, MayText, Flag, Number;
    match v {
      case Some(Object(es)) =>
        FieldFacts(es);
        MayPreviewIff(es, "valuePreview", x.valuePreview);
        hide DecodeObjectPreview, MayPreview, Optional;
      case _ =>
    }
  }

  lemma {:induction false} EntriesIff(v: Option<Value>, xs: seq<EntryPreview>)
    ensures DecodeEntries(v) == Some(xs) <==> v.Some? && v.value.Array? && AreEntryPreviews(v.value.items, xs)
    decreases xs, 1
  {
    if v.Some? && v.value.Array? {
      EntryItemsIff(v.value.items, xs);
    }
  }

  lemma {:induction false} EntryItemsIff(items: seq<Value>, xs: seq<EntryPreview>)
    ensures DecodeEntryItems(items) == Some(xs) <==> AreEntryPreviews(items, xs)
    decreases xs, 0
  {
    hide DecodeEntryPreview, IsEntryPreview;
    if items != [] && xs != [] {
      EntryPreviewIff(Some(items[0]), xs[0]);
      EntryItemsIff(items[1..], xs[1..]);
      assert xs == [xs[0]] + xs[1..];
      if IsEntryPreview(items[0], xs[0]) && AreEntryPreviews(items[1..], xs[1..]) {
        forall i | 0 <= i < |items| ensures IsEntryPreview(items[i], xs[i]) {
          assert i > 0 ==> IsEntryPreview(items[1..][i - 1], xs[1..][i - 1]);
        }
      }
    }
  }

  lemma {:induction false} EntryPreviewIff(v: Option<Value>, x: EntryPreview)
    ensures DecodeEntryPreview(v) == Some(x) <==> v.Some? && IsEntryPreview(v.value, x)
    decreases x, 1
  {
    hide Ascii, Field, Find, StringOf, BoolOf, IntOf, MaybeString, HasText, MayText, Flag, Number;
    match v {
      case Some(Object(es)) =>
        FieldFacts(es);
        MayPreviewIff(es, "key", x.key);
        ObjectPreviewIff(Field(es, "value"), x.value);
        hide DecodeObjectPreview, IsObjectPreview, MayPreview, Optional;
      case _ =>
    }
  }

  lemma {:induction false} HasTextIff(es: seq<Entry>, name: string, s: Text)
    ensures StringOf(Field(es, name)) == Some(s) <==> HasText(es, name, s)
  {
    hide Ascii, Find;
  }

  lemma {:induction false} MayTextIff(es: seq<Entry>, name: string, s: Option<Text>)
    ensures MaybeString(es, name) == Some(s) <==> MayText(es, name, s)
  {
    hide Ascii, Find;
  }

  lemma {:induction false} MayPreviewIff(es: seq<Entry>, name: string, x: Option<ObjectPreview>)
    ensures Optional(Field(es, name), DecodeObjectPreview(Field(es, name))) == Some(x) <==> MayPreview(es, name, x)
    decreases x, 0
  {
    hide Ascii, Find, DecodeObjectPreview, IsObjectPreview;
    if x.Some? {
      ObjectPreviewIff(Field(es, name), x.value);
    }
  }

  lemma {:induction false} MayCustomPreviewIff(es: seq<Entry>, name: string, x: Option<CustomPreview>)
    ensures Optional(Field(es, name), DecodeCustomPreview(Field(es, name))) == Some(x) <==>
            MayCustomPreview(es, name, x)
  {
    hide Ascii, Find, DecodeCustomPreview, IsCustomPreview;
    if x.Some? {
      CustomPreviewIff(Field(es, name), x.value);
    }
  }

  lemma {:induction false} MayTreeIff(es: seq<Entry>, name: string, x: Option<Value>)
    ensures x == (if Field(es, name).Some? then Some(Clone(Field(es, name).value)) else None) <==> MayTree(es, name, x)
  {
    hide Ascii, Find, Clone;
  }

  /** A tree converts to a remote object exactly when it stands for it. */
  lemma {:induction false} RemoteObjectIff(v: Option<Value>, x: RemoteObject)
    ensures DecodeRemoteObject(v) == Some(x) <==> v.Some? && IsRemoteObject(v.value, x)
  {
    hide Ascii, Clone, Field, Find, StringOf, MaybeString, HasText, MayText;
    match v {
      case Some(Object(es)) =>
        HasTextIff(es, "type", x.kind);
        MayTextIff(es, "subtype", x.subtype);
        MayTextIff(es, "className", x.className);
        MayTextIff(es, "unserializableValue", x.unserializableValue);
        MayTextIff(es, "description", x.description);
        MayTextIff(es, "objectId", x.objectId);
        MayPreviewIff(es, "preview", x.preview);
        MayCustomPreviewIff(es, "customPreview", x.customPreview);
        MayTreeIff(es, "value", x.value);
        hide DecodeObjectPreview, MayPreview, DecodeCustomPreview, MayCustomPreview, MayTree, Optional;
      case _ =>
    }
  }

  lemma {:induction false} CallFrameIff(v: Option<Value>, x: CallFrame)
    ensures DecodeCallFrame(v) == Some(x) <==> v.Some? && IsCallFrame(v.value, x)
  {
    hide Ascii, Field, Find, StringOf, BoolOf, IntOf, MaybeString, HasText, MayText, Flag, Number;
    match v {
      case Some(Object(es)) => FieldFacts(es);
      case _ =>
    }
  }

  lemma {:induction false} CallFramesIff(items: seq<Value>, xs: seq<CallFrame>)
    ensures DecodeCallFrameItems(items) == Some(xs) <==> AreCallFrames(items, xs)
    decreases xs
  {
    hide DecodeCallFrame, IsCallFrame;
    if items != [] && xs != [] {
      CallFrameIff(Some(items[0]), xs[0]);
      CallFramesIff(items[1..], xs[1..]);
      assert xs == [xs[0]] + xs[1..];
      if IsCallFrame(items[0], xs[0]) && AreCallFrames(items[1..], xs[1..]) {
        forall i | 0 <= i < |items| ensures IsCallFrame(items[i], xs[i]) {
          assert i > 0 ==> IsCallFrame(items[1..][i - 1], xs[1..][i - 1]);
        }
      }
    }
  }

  /** A tree converts to a stack trace exactly when it stands for it. */
  lemma {:induction false} StackTraceIff(v: Option<Value>, x: StackTrace)
    ensures DecodeStackTrace(v) == Some(x) <==> v.Some? && IsStackTrace(v.value, x)
    decreases x
  {
    hide Ascii, Field, Find, StringOf, BoolOf, IntOf, MaybeString, HasText, MayText, Flag, Number;
    match v {
      case Some(Object(es)) =>
        FieldFacts(es);
        match Field(es, "callFrames") {
          case Some(Array(items)) => CallFramesIff(items, x.callFrames);
          case _ =>
        }
        if x.parent.Some? {
          StackTraceIff(Field(es, "parent"), x.parent.value);
        }
        hide DecodeCallFrameItems, AreCallFrames;
      case _ =>
    }
  }

  /** What a record is converted to stands for it. */
  lemma {:induction false} ObjectPreviewStands(x: ObjectPreview)
    ensures IsObjectPreview(ObjectPreviewValue(x), x)
  {
    ObjectPreviewRoundTrip(x);
    ObjectPreviewIff(Some(ObjectPreviewValue(x)), x);
  }

  lemma {:induction false} RemoteObjectStands(x: RemoteObject)
    requires x.value.Some? ==> WellFormed(x.value.value)
    ensures IsRemoteObject(RemoteObjectValue(x), x)
  {
    RemoteObjectRoundTrip(x);
    RemoteObjectIff(Some(RemoteObjectValue(x)), x);
  }

  lemma {:induction false} StackTraceStands(x: StackTrace)
    ensures IsStackTrace(StackTraceValue(x), x)
  {
    StackTraceRoundTrip(x);
    StackTraceIff(Some(StackTraceValue(x)), x);
  }
}
