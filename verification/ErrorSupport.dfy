/** `ErrorSupport` and the conversions of single fields that report into it. */
module ErrorSupport {
  import opened String16
  import opened Values
  import opened Dictionary

  function Join(parts: seq<Text>, separator: Text): Text {
    if parts == [] then []
    else if |parts| == 1 then parts[0]
    else parts[0] + separator + Join(parts[1..], separator)
  }

  /** The text of an error: the dotted path, then what is wrong. */
  function Message(path: seq<Text>, error: string): Text {
    Join(path, [DOT]) + Ascii(": ") + Ascii(error)
  }

  lemma {:induction false} DotText()
    ensures Ascii(".") == [DOT]
  {
  }

  /** An error starts with the names of the path in order, with dots between them. */
  lemma {:induction false} MessageStarts(path: seq<Text>, error: string)
    ensures path == [] ==> Message(path, error) == Ascii(": ") + Ascii(error)
    ensures |path| == 1 ==> Message(path, error) == path[0] + Ascii(": ") + Ascii(error)
    ensures |path| > 1 ==> Message(path, error) == path[0] + Ascii(".") + Message(path[1..], error)
  {
    hide Ascii;
    if |path| > 1 {
      DotText();
      var rest := Join(path[1..], [DOT]);
      assert path[0] + [DOT] + rest + Ascii(": ") == path[0] + [DOT] + (rest + Ascii(": "));
      assert path[0] + [DOT] + (rest + Ascii(": ")) + Ascii(error) ==
             path[0] + [DOT] + (rest + Ascii(": ") + Ascii(error));
    }
  }

  /** The path with its last name replaced. */
  function Renamed(path: seq<Text>, name: string): seq<Text>
    requires path != []
  {
    path[|path| - 1 := Ascii(name)]
  }

  class Errors {
    var path: seq<Text>
    var errors: seq<Text>

    constructor ()
      ensures path == [] && errors == []
    {
      path, errors := [], [];
    }

    method SetName(name: Text)
      requires path != []
      modifies this`path
      ensures path == old(path)[|old(path)| - 1 := name]
    {
      path := path[|path| - 1 := name];
    }

    method Push()
      modifies this`path
      ensures path == old(path) + [[]]
    {
      path := path + [[]];
    }

    method Pop()
      requires path != []
      modifies this`path
      ensures path == old(path)[..|old(path)| - 1]
    {
      path := path[..|path| - 1];
    }

    method AddError(error: string)
      modifies this`errors
      ensures errors == old(errors) + [Message(path, error)]
    {
      errors := errors + [Message(path, error)];
    }

    predicate HasErrors()
      reads this
    {
      errors != []
    }
  }

  /** Errors are only ever added, and one is added exactly when something went wrong. */
  predicate Logged(before: seq<Text>, after: seq<Text>, ok: bool) {
    before <= after && (ok <==> after == before)
  }

  /** The path of the object being read, without the name of its current field. */
  function Init(path: seq<Text>): seq<Text>
    requires path != []
  {
    path[..|path| - 1]
  }

  predicate SameObject(before: seq<Text>, after: seq<Text>) {
    before != [] && |after| == |before| && Init(after) == Init(before)
  }

  /** The error was recorded at `path`, or at some place inside. */
  ghost predicate Under(path: seq<Text>, error: Text) {
    exists place: seq<Text>, what: string :: path <= place && error == Message(place, what)
  }

  /** Every error added was recorded at `path`, or at some place inside. */
  ghost predicate Located(path: seq<Text>, before: seq<Text>, after: seq<Text>) {
    before <= after && forall i :: |before| <= i < |after| ==> Under(path, after[i])
  }

  lemma {:induction false} UnderOutside(path: seq<Text>, inner: seq<Text>, error: Text)
    requires path <= inner && Under(inner, error)
    ensures Under(path, error)
  {
    var place: seq<Text>, what: string :| inner <= place && error == Message(place, what);
    assert path <= place;
  }

  lemma {:induction false} LocatedOnce(path: seq<Text>, place: seq<Text>, before: seq<Text>, what: string)
    requires path <= place
    ensures Located(path, before, before + [Message(place, what)])
  {
    assert Under(path, Message(place, what));
  }

  /** The error was recorded for an item that fails, among the first `n`, under the item's index. */
  ghost predicate AtItem(path: seq<Text>, fails: seq<bool>, n: nat, error: Text)
    requires n <= |fails|
  {
    exists i :: 0 <= i < n && fails[i] && Under(path + [Decimal(i)], error)
  }

  /** Some error added was recorded under the index. */
  ghost predicate Reported(path: seq<Text>, i: nat, before: seq<Text>, after: seq<Text>)
    requires before <= after
  {
    exists k :: |before| <= k < |after| && Under(path + [Decimal(i)], after[k])
  }

  /** Every error added is under the index of an item that fails, and every item that fails has one. */
  ghost predicate ItemErrors(path: seq<Text>, fails: seq<bool>, n: nat, before: seq<Text>, after: seq<Text>)
    requires n <= |fails|
  {
    && before <= after
    && (forall k :: |before| <= k < |after| ==> AtItem(path, fails, n, after[k]))
    && (forall i :: 0 <= i < n && fails[i] ==> Reported(path, i, before, after))
  }

  lemma {:induction false} NoItemErrors(path: seq<Text>, fails: seq<bool>, errors: seq<Text>)
    ensures ItemErrors(path, fails, 0, errors, errors)
  {
  }

  lemma {:induction false} ItemErrorsOn(path: seq<Text>, fails: seq<bool>, n: nat, before: seq<Text>, middle: seq<Text>,
                                        after: seq<Text>)
    requires n < |fails| && ItemErrors(path, fails, n, before, middle) && Located(path + [Decimal(n)], middle, after)
    requires fails[n] <==> after != middle
    ensures ItemErrors(path, fails, n + 1, before, after)
  {
    hide Under, Decimal;
    forall k | |before| <= k < |after|
      ensures AtItem(path, fails, n + 1, after[k])
    {
      if k < |middle| {
        assert AtItem(path, fails, n, middle[k]);
        var i :| 0 <= i < n && fails[i] && Under(path + [Decimal(i)], middle[k]);
        assert fails[i] && Under(path + [Decimal(i)], after[k]);
      } else {
        assert fails[n] && Under(path + [Decimal(n)], after[k]);
      }
    }
    forall i | 0 <= i < n + 1 && fails[i]
      ensures Reported(path, i, before, after)
    {
      if i < n {
        assert Reported(path, i, before, middle);
        var k :| |before| <= k < |middle| && Under(path + [Decimal(i)], middle[k]);
        assert Under(path + [Decimal(i)], after[k]);
      } else {
        assert Under(path + [Decimal(i)], after[|middle|]);
      }
    }
  }

  lemma {:induction false} ItemErrorsDecide(path: seq<Text>, fails: seq<bool>, before: seq<Text>, after: seq<Text>)
    requires ItemErrors(path, fails, |fails|, before, after)
    ensures before <= after && (after == before <==> true !in fails)
  {
    hide Under, Decimal;
    if after != before {
      assert AtItem(path, fails, |fails|, after[|before|]);
    }
    if i :| 0 <= i < |fails| && fails[i] {
      assert Reported(path, i, before, after);
    }
  }

  lemma {:induction false} ItemErrorsInside(path: seq<Text>, fails: seq<bool>, n: nat, before: seq<Text>,
                                            after: seq<Text>)
    requires n <= |fails| && ItemErrors(path, fails, n, before, after)
    ensures Located(path, before, after)
  {
    hide Under, Decimal;
    forall k | |before| <= k < |after|
      ensures Under(path, after[k])
    {
      assert AtItem(path, fails, n, after[k]);
      var i :| 0 <= i < n && fails[i] && Under(path + [Decimal(i)], after[k]);
      UnderOutside(path, path + [Decimal(i)], after[k]);
    }
  }

  /** The error was recorded under the name of one of the faulty fields. */
  ghost predicate AtField(path: seq<Text>, faulty: set<Text>, error: Text) {
    exists name :: name in faulty && Under(path + [name], error)
  }

  ghost predicate Accused(path: seq<Text>, name: Text, before: seq<Text>, after: seq<Text>)
    requires before <= after
  {
    exists k :: |before| <= k < |after| && Under(path + [name], after[k])
  }

  /** Every error added is under the name of a faulty field, and every faulty field has one. */
  ghost predicate Blamed(path: seq<Text>, faulty: set<Text>, before: seq<Text>, after: seq<Text>) {
    && before <= after
    && (forall k :: |before| <= k < |after| ==> AtField(path, faulty, after[k]))
    && (forall name :: name in faulty ==> Accused(path, name, before, after))
  }

  lemma {:induction false} AtMoreFields(path: seq<Text>, some: set<Text>, all: set<Text>, error: Text)
    requires AtField(path, some, error) && some <= all
    ensures AtField(path, all, error)
  {
    hide Under;
  }

  lemma {:induction false} AccusedLonger(path: seq<Text>, name: Text, before: seq<Text>, middle: seq<Text>,
                                         after: seq<Text>)
    requires before <= middle <= after
    ensures Accused(path, name, before, middle) ==> Accused(path, name, before, after)
    ensures Accused(path, name, middle, after) ==> Accused(path, name, before, after)
  {
    hide Under;
    if Accused(path, name, before, middle) {
      var k :| |before| <= k < |middle| && Under(path + [name], middle[k]);
      assert Under(path + [name], after[k]);
    }
    if Accused(path, name, middle, after) {
      var k :| |middle| <= k < |after| && Under(path + [name], after[k]);
    }
  }

  lemma {:induction false} BlamedOn(path: seq<Text>, some: set<Text>, more: set<Text>, before: seq<Text>,
                                    middle: seq<Text>, after: seq<Text>)
    requires Blamed(path, some, before, middle) && Blamed(path, more, middle, after)
    ensures Blamed(path, some + more, before, after)
  {
    hide AtField, Accused;
    forall k | |before| <= k < |after|
      ensures AtField(path, some + more, after[k])
    {
      if k < |middle| {
        assert middle[k] == after[k];
        AtMoreFields(path, some, some + more, middle[k]);
      } else {
        AtMoreFields(path, more, some + more, after[k]);
      }
    }
    forall name | name in some + more
      ensures Accused(path, name, before, after)
    {
      AccusedLonger(path, name, before, middle, after);
    }
  }

  lemma {:induction false} BlamedNothing(path: seq<Text>, errors: seq<Text>)
    ensures Blamed(path, {}, errors, errors)
  {
  }

  /** What one field's conversion recorded. */
  lemma {:induction false} BlamedField(path: seq<Text>, name: Text, inner: seq<Text>, before: seq<Text>,
                                       after: seq<Text>)
    requires inner == path + [name] && Located(inner, before, after)
    ensures Blamed(path, if after == before then {} else {name}, before, after)
  {
    hide Under;
    if after != before {
      assert Under(path + [name], after[|before|]);
    }
  }

  lemma {:induction false} BlamedInside(path: seq<Text>, faulty: set<Text>, before: seq<Text>, after: seq<Text>)
    requires Blamed(path, faulty, before, after)
    ensures before <= after && Located(path, before, after) && (after == before <==> faulty == {})
  {
    hide Under;
    forall k | |before| <= k < |after|
      ensures Under(path, after[k])
    {
      assert AtField(path, faulty, after[k]);
      var name :| name in faulty && Under(path + [name], after[k]);
      UnderOutside(path, path + [name], after[k]);
    }
    if after != before {
      assert AtField(path, faulty, after[|before|]);
    }
    if name :| name in faulty {
      assert Accused(path, name, before, after);
    }
  }

  // ---------------------------------------------------------------- what a field holds

  function StringOf(v: Option<Value>): Option<Text> {
    match v case Some(Str(s)) => Some(s) case _ => None
  }

  function BoolOf(v: Option<Value>): Option<bool> {
    match v case Some(Boolean(b)) => Some(b) case _ => None
  }

  function IntOf(v: Option<Value>): Option<int32> {
    match v case Some(Integer(n)) => Some(n) case _ => None
  }

  /** An absent optional field is fine; one that is there has to convert. */
  function Optional<T>(found: Option<Value>, decoded: Option<T>): Option<Option<T>> {
    if found.None? then Some(None) else if decoded.None? then None else Some(decoded)
  }

  lemma {:induction false} FindHeight(entries: seq<Entry>, key: Text)
    requires Find(entries, key).Some?
    ensures Height(Find(entries, key).value) < EntriesHeight(entries)
  {
    if entries[0].key != key {
      FindHeight(entries[1..], key);
    }
  }

  /** `object->get(name)`. */
  function Field(dictionary: seq<Entry>, name: string): (r: Option<Value>)
    ensures r.Some? ==> Height(r.value) < EntriesHeight(dictionary)
  {
    if Find(dictionary, Ascii(name)).Some? then
      FindHeight(dictionary, Ascii(name));
      Find(dictionary, Ascii(name))
    else None
  }

  // ---------------------------------------------------------------- `ValueConversions<T>::fromValue`, after `setName`

  /** The name of a field that should be a string and is not. */
  function NotText(dictionary: seq<Entry>, name: string): set<Text> {
    if StringOf(Field(dictionary, name)).Some? then {} else {Ascii(name)}
  }

  function NotFlag(dictionary: seq<Entry>, name: string): set<Text> {
    if BoolOf(Field(dictionary, name)).Some? then {} else {Ascii(name)}
  }

  function NotNumber(dictionary: seq<Entry>, name: string): set<Text> {
    if IntOf(Field(dictionary, name)).Some? then {} else {Ascii(name)}
  }

  /** The name of a field that is there and is not a string. */
  function NotMaybeText(dictionary: seq<Entry>, name: string): set<Text> {
    if MaybeString(dictionary, name).Some? then {} else {Ascii(name)}
  }

  method ReadString(dictionary: seq<Entry>, name: string, errors: Errors) returns (r: Text)
    requires errors.path != []
    modifies errors
    ensures SameObject(old(errors.path), errors.path)
    ensures Logged(old(errors.errors), errors.errors, StringOf(Field(dictionary, name)).Some?)
    ensures StringOf(Field(dictionary, name)).None? ==>
              errors.errors == old(errors.errors) + [Message(Renamed(old(errors.path), name), "string value expected")]
    ensures StringOf(Field(dictionary, name)).Some? ==> r == StringOf(Field(dictionary, name)).value
    ensures Blamed(Init(old(errors.path)), NotText(dictionary, name), old(errors.errors), errors.errors)
  {
    var value := Field(dictionary, name);
    errors.SetName(Ascii(name));
    match value {
      case Some(Str(s)) => r := s;
      case _ =>
        r := [];
        LocatedOnce(errors.path, errors.path, errors.errors, "string value expected");
        errors.AddError("string value expected");
    }
    hide Ascii, Located, Blamed;
    assert errors.path == Init(old(errors.path)) + [Ascii(name)];
    BlamedField(Init(old(errors.path)), Ascii(name), errors.path, old(errors.errors), errors.errors);
  }

  method ReadBool(dictionary: seq<Entry>, name: string, errors: Errors) returns (r: bool)
    requires errors.path != []
    modifies errors
    ensures SameObject(old(errors.path), errors.path)
    ensures Logged(old(errors.errors), errors.errors, BoolOf(Field(dictionary, name)).Some?)
    ensures BoolOf(Field(dictionary, name)).None? ==>
              errors.errors == old(errors.errors) + [Message(Renamed(old(errors.path), name), "boolean value expected")]
    ensures BoolOf(Field(dictionary, name)).Some? ==> r == BoolOf(Field(dictionary, name)).value
    ensures Blamed(Init(old(errors.path)), NotFlag(dictionary, name), old(errors.errors), errors.errors)
  {
    var value := Field(dictionary, name);
    errors.SetName(Ascii(name));
    match value {
      case Some(Boolean(b)) => r := b;
      case _ =>
        r := false;
        LocatedOnce(errors.path, errors.path, errors.errors, "boolean value expected");
        errors.AddError("boolean value expected");
    }
    hide Ascii, Located, Blamed;
    assert errors.path == Init(old(errors.path)) + [Ascii(name)];
    BlamedField(Init(old(errors.path)), Ascii(name), errors.path, old(errors.errors), errors.errors);
  }

  method ReadInt(dictionary: seq<Entry>, name: string, errors: Errors) returns (r: int32)
    requires errors.path != []
    modifies errors
    ensures SameObject(old(errors.path), errors.path)
    ensures Logged(old(errors.errors), errors.errors, IntOf(Field(dictionary, name)).Some?)
    ensures IntOf(Field(dictionary, name)).None? ==>
              errors.errors == old(errors.errors) + [Message(Renamed(old(errors.path), name), "integer value expected")]
    ensures IntOf(Field(dictionary, name)).Some? ==> r == IntOf(Field(dictionary, name)).value
    ensures Blamed(Init(old(errors.path)), NotNumber(dictionary, name), old(errors.errors), errors.errors)
  {
    var value := Field(dictionary, name);
    errors.SetName(Ascii(name));
    match value {
      case Some(Integer(n)) => r := n;
      case _ =>
        r := 0;
        LocatedOnce(errors.path, errors.path, errors.errors, "integer value expected");
        errors.AddError("integer value expected");
    }
    hide Ascii, Located, Blamed;
    assert errors.path == Init(old(errors.path)) + [Ascii(name)];
    BlamedField(Init(old(errors.path)), Ascii(name), errors.path, old(errors.errors), errors.errors);
  }

  function MaybeString(dictionary: seq<Entry>, name: string): Option<Option<Text>> {
    Optional(Field(dictionary, name), StringOf(Field(dictionary, name)))
  }

  method ReadMaybeString(dictionary: seq<Entry>, name: string, errors: Errors) returns (r: Option<Text>)
    requires errors.path != []
    modifies errors
    ensures SameObject(old(errors.path), errors.path)
    ensures Logged(old(errors.errors), errors.errors, MaybeString(dictionary, name).Some?)
    ensures MaybeString(dictionary, name).Some? ==> r == MaybeString(dictionary, name).value
    ensures Blamed(Init(old(errors.path)), NotMaybeText(dictionary, name), old(errors.errors), errors.errors)
  {
    hide Under;
    if Field(dictionary, name).None? {
      return None;
    }
    var s := ReadString(dictionary, name, errors);
    return Some(s);
  }

  /** Three string fields in a row. */
  method ReadThreeStrings(dictionary: seq<Entry>, a: string, b: string, c: string, errors: Errors)
    returns (x: Text, y: Text, z: Text)
    requires errors.path != []
    modifies errors
    ensures SameObject(old(errors.path), errors.path)
    ensures var s, t, u := StringOf(Field(dictionary, a)), StringOf(Field(dictionary, b)),
                           StringOf(Field(dictionary, c));
            && Logged(old(errors.errors), errors.errors, s.Some? && t.Some? && u.Some?)
            && (s.Some? && t.Some? && u.Some? ==> x == s.value && y == t.value && z == u.value)
    ensures Blamed(Init(old(errors.path)), NotText(dictionary, a) + NotText(dictionary, b) +
                   NotText(dictionary, c), old(errors.errors), errors.errors)
  {
    hide Under;
    hide Field, StringOf, Message, Renamed, Blamed, NotText, NotMaybeText;
    ghost var path, e0 := Init(old(errors.path)), errors.errors;
    x := ReadString(dictionary, a, errors);
    ghost var e1 := errors.errors;
    y := ReadString(dictionary, b, errors);
    BlamedOn(path, NotText(dictionary, a), NotText(dictionary, b), e0, e1, errors.errors);
    ghost var e2 := errors.errors;
    z := ReadString(dictionary, c, errors);
    BlamedOn(path, NotText(dictionary, a) + NotText(dictionary, b), NotText(dictionary, c), e0, e2, errors.errors);
  }

  /** Two optional string fields in a row. */
  method ReadTwoMaybeStrings(dictionary: seq<Entry>, a: string, b: string, errors: Errors)
    returns (x: Option<Text>, y: Option<Text>)
    requires errors.path != []
    modifies errors
    ensures SameObject(old(errors.path), errors.path)
    ensures var s, t := MaybeString(dictionary, a), MaybeString(dictionary, b);
            && Logged(old(errors.errors), errors.errors, s.Some? && t.Some?)
            && (s.Some? && t.Some? ==> x == s.value && y == t.value)
    ensures Blamed(Init(old(errors.path)), NotMaybeText(dictionary, a) +
                   NotMaybeText(dictionary, b), old(errors.errors), errors.errors)
  {
    hide Under;
    hide Field, MaybeString, Blamed, NotText, NotMaybeText;
    ghost var path, e0 := Init(old(errors.path)), errors.errors;
    x := ReadMaybeString(dictionary, a, errors);
    ghost var e1 := errors.errors;
    y := ReadMaybeString(dictionary, b, errors);
    BlamedOn(path, NotMaybeText(dictionary, a), NotMaybeText(dictionary, b), e0, e1, errors.errors);
  }

  /** Three optional string fields in a row. */
  method ReadThreeMaybeStrings(dictionary: seq<Entry>, a: string, b: string, c: string, errors: Errors)
    returns (x: Option<Text>, y: Option<Text>, z: Option<Text>)
    requires errors.path != []
    modifies errors
    ensures SameObject(old(errors.path), errors.path)
    ensures var s, t, u := MaybeString(dictionary, a), MaybeString(dictionary, b), MaybeString(dictionary, c);
            && Logged(old(errors.errors), errors.errors, s.Some? && t.Some? && u.Some?)
            && (s.Some? && t.Some? && u.Some? ==> x == s.value && y == t.value && z == u.value)
    ensures Blamed(Init(old(errors.path)), NotMaybeText(dictionary, a) + NotMaybeText(dictionary, b) +
                   NotMaybeText(dictionary, c), old(errors.errors), errors.errors)
  {
    hide Under;
    hide Field, MaybeString, Blamed, NotText, NotMaybeText;
    ghost var path, e0 := Init(old(errors.path)), errors.errors;
    x := ReadMaybeString(dictionary, a, errors);
    ghost var e1 := errors.errors;
    y := ReadMaybeString(dictionary, b, errors);
    BlamedOn(path, NotMaybeText(dictionary, a), NotMaybeText(dictionary, b), e0, e1, errors.errors);
    ghost var e2 := errors.errors;
    z := ReadMaybeString(dictionary, c, errors);
    BlamedOn(path, NotMaybeText(dictionary, a) +
             NotMaybeText(dictionary, b), NotMaybeText(dictionary, c), e0, e2, errors.errors);
  }

  // ---------------------------------------------------------------- building a dictionary field by field

  datatype NamedField = NamedField(name: string, value: Option<Value>)

  /** Successive `setValue` calls for the fields that are there. */
  function Build(fields: seq<NamedField>): seq<Entry> {
    if fields == [] then []
    else
      var last := fields[|fields| - 1];
      var before := Build(fields[..|fields| - 1]);
      if last.value.None? then before else SetEntry(before, Ascii(last.name), last.value.value)
  }

  predicate DistinctNames(fields: seq<NamedField>) {
    forall i, j :: 0 <= i < j < |fields| ==> Ascii(fields[i].name) != Ascii(fields[j].name)
  }

  lemma {:induction false} BuildMisses(fields: seq<NamedField>, key: Text)
    requires forall i :: 0 <= i < |fields| ==> Ascii(fields[i].name) != key
    ensures Find(Build(fields), key) == None
  {
    if fields != [] {
      var before, last := fields[..|fields| - 1], fields[|fields| - 1];
      BuildMisses(before, key);
      if last.value.Some? {
        FindAfterSet(Build(before), Ascii(last.name), last.value.value, key);
      }
    }
  }

  /** Each field can be read back under its name, present or absent. */
  lemma {:induction false} BuildFinds(fields: seq<NamedField>, i: nat)
    requires DistinctNames(fields) && i < |fields|
    ensures Find(Build(fields), Ascii(fields[i].name)) == fields[i].value
    decreases |fields|
  {
    var before, last := fields[..|fields| - 1], fields[|fields| - 1];
    hide Ascii;
    if i == |fields| - 1 {
      BuildMisses(before, Ascii(last.name));
    } else {
      BuildFinds(before, i);
    }
    if last.value.Some? {
      FindAfterSet(Build(before), Ascii(last.name), last.value.value, Ascii(fields[i].name));
    }
  }

  lemma {:induction false} FieldOfBuilt(fields: seq<NamedField>, i: nat)
    requires DistinctNames(fields) && i < |fields|
    ensures Field(Build(fields), fields[i].name) == fields[i].value
  {
    BuildFinds(fields, i);
  }
}
