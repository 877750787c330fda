/** Typed values over the wire: converted to a tree, printed, parsed and converted back. */
module RuntimeText {
  import opened String16
  import opened Values
  import opened Writer
  import opened Parser
  import opened RoundTrip
  import opened Dictionary
  import opened ErrorSupport
  import opened RuntimeTypes

  /** A tree that printing and parsing gives back, apart from its depth. */
  ghost predicate Readable(v: Value, host: Host) {
    WellFormed(v) && PrintsNumbers(v, host) && ExactDoubles(v, host)
  }

  ghost predicate ReadableEntries(es: seq<Entry>, host: Host) {
    EntriesWellFormed(es) && EntriesPrintNumbers(es, host) && EntriesExact(es, host)
  }

  ghost predicate ReadableItems(items: seq<Value>, host: Host) {
    ItemsWellFormed(items) && ItemsPrintNumbers(items, host) && ItemsExact(items, host)
  }

  lemma {:induction false} ReadableSet(es: seq<Entry>, key: Text, v: Value, host: Host)
    requires ReadableEntries(es, host) && Readable(v, host)
    ensures ReadableEntries(SetEntry(es, key, v), host)
  {
    var r := SetEntry(es, key, v);
    if es == [] {
      assert r[1..] == [];
    } else if es[0].key == key {
      assert r[1..] == es[1..];
    } else {
      ReadableSet(es[1..], key, v, host);
      assert r[1..] == SetEntry(es[1..], key, v);
    }
  }

  ghost predicate ReadableFields(fields: seq<NamedField>, host: Host) {
    forall i :: 0 <= i < |fields| && fields[i].value.Some? ==> Readable(fields[i].value.value, host)
  }

  lemma {:induction false} ReadableBuild(fields: seq<NamedField>, host: Host)
    requires ReadableFields(fields, host)
    ensures Readable(Object(Build(fields)), host)
  {
    if fields != [] {
      var before, last := fields[..|fields| - 1], fields[|fields| - 1];
      ReadableBuild(before, host);
      if last.value.Some? {
        ReadableSet(Build(before), Ascii(last.name), last.value.value, host);
        DistinctAfterSet(Build(before), Ascii(last.name), last.value.value);
      }
    }
  }

  lemma {:induction false} ObjectPreviewReadable(x: ObjectPreview, host: Host)
    ensures Readable(ObjectPreviewValue(x), host)
    decreases x, 1
  {
    PropertiesReadable(x.properties, host);
    if x.entries.Entries? {
      EntriesReadable(x.entries.items, host);
    }
    ReadableBuild(ObjectPreviewFields(x), host);
  }

  lemma {:induction false} PropertyPreviewReadable(x: PropertyPreview, host: Host)
    ensures Readable(PropertyPreviewValue(x), host)
    decreases x, 1
  {
    if x.valuePreview.Some? {
      ObjectPreviewReadable(x.valuePreview.value, host);
    }
    ReadableBuild(PropertyPreviewFields(x), host);
  }

  lemma {:induction false} PropertiesReadable(xs: seq<PropertyPreview>, host: Host)
    ensures ReadableItems(PropertyValues(xs), host)
    decreases xs, 0
  {
    if xs != [] {
      PropertyPreviewReadable(xs[0], host);
      PropertiesReadable(xs[1..], host);
      assert PropertyValues(xs)[1..] == PropertyValues(xs[1..]);
    }
  }

  lemma {:induction false} EntryPreviewReadable(x: EntryPreview, host: Host)
    ensures Readable(EntryPreviewValue(x), host)
    decreases x, 1
  {
    if x.key.Some? {
      ObjectPreviewReadable(x.key.value, host);
    }
    ObjectPreviewReadable(x.value, host);
    ReadableBuild(EntryPreviewFields(x), host);
  }

  lemma {:induction false} EntriesReadable(xs: seq<EntryPreview>, host: Host)
    ensures ReadableItems(EntryValues(xs), host)
    decreases xs, 0
  {
    if xs != [] {
      EntryPreviewReadable(xs[0], host);
      EntriesReadable(xs[1..], host);
      assert EntryValues(xs)[1..] == EntryValues(xs[1..]);
    }
  }

  lemma {:induction false} CallFramesReadable(xs: seq<CallFrame>, host: Host)
    ensures ReadableItems(CallFrameValues(xs), host)
  {
    if xs != [] {
      ReadableBuild(CallFrameFields(xs[0]), host);
      CallFramesReadable(xs[1..], host);
      assert CallFrameValues(xs)[1..] == CallFrameValues(xs[1..]);
    }
  }

  lemma {:induction false} StackTraceReadable(x: StackTrace, host: Host)
    ensures Readable(StackTraceValue(x), host)
    decreases x
  {
    CallFramesReadable(x.callFrames, host);
    if x.parent.Some? {
      StackTraceReadable(x.parent.value, host);
    }
    ReadableBuild(StackTraceFields(x), host);
  }

  lemma {:induction false} RemoteObjectReadable(x: RemoteObject, host: Host)
    requires x.value.Some? ==> Readable(x.value.value, host)
    ensures Readable(RemoteObjectValue(x), host)
  {
    if x.value.Some? {
      CloneIsEqual(x.value.value);
    }
    if x.preview.Some? {
      ObjectPreviewReadable(x.preview.value, host);
    }
    if x.customPreview.Some? {
      ReadableBuild(CustomPreviewFields(x.customPreview.value), host);
    }
    hide Build, Readable, Clone, ObjectPreviewValue;
    PlainFields(x, host);
    ReadableBuild(RemoteObjectFields(x), host);
  }

  lemma {:induction false} PlainFields(x: RemoteObject, host: Host)
    requires x.value.Some? ==> Readable(Clone(x.value.value), host)
    requires x.preview.Some? ==> Readable(ObjectPreviewValue(x.preview.value), host)
    requires x.customPreview.Some? ==> Readable(CustomPreviewValue(x.customPreview.value), host)
    ensures ReadableFields(RemoteObjectFields(x), host)
  {
  }

  /** `toJSONString` then `fromJSONString`: a remote object printed as text and read again is the
      same remote object, when its tree is within the depth the parser accepts. */
  lemma {:induction false} RemoteObjectOverText(x: RemoteObject, host: Host)
    requires x.value.Some? ==> Readable(x.value.value, host)
    requires Height(RemoteObjectValue(x)) <= STACK_LIMIT
    ensures DecodeRemoteObject(Parse(Render(RemoteObjectValue(x), host), host)) == Some(x)
  {
    RemoteObjectReadable(x, host);
    PrintThenParse(RemoteObjectValue(x), host);
    RemoteObjectRoundTrip(x);
  }

  lemma {:induction false} StackTraceOverText(x: StackTrace, host: Host)
    requires Height(StackTraceValue(x)) <= STACK_LIMIT
    ensures DecodeStackTrace(Parse(Render(StackTraceValue(x), host), host)) == Some(x)
  {
    StackTraceReadable(x, host);
    PrintThenParse(StackTraceValue(x), host);
    StackTraceRoundTrip(x);
  }
}
