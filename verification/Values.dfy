/** The JSON value tree and the insertion-ordered dictionary
    (`protocol::Value` and its subclasses). */
module Values {
  import opened String16

  /** The bit pattern of an IEEE double. */
  type Bits64 = b: nat | b < 0x1_0000_0000_0000_0000

  datatype Value =
    | Null
    | Boolean(b: bool)
    | Integer(n: int32)
    | Double(bits: Bits64)
    | Str(s: Text)
    | Object(entries: seq<Entry>)
    | Array(items: seq<Value>)
    | Serialized(text: Text)

  /** A dictionary is the list of its entries in `m_order`; see `DictionaryValue` below
      for the two-field representation. */
  datatype Entry = Entry(key: Text, value: Value)

  /** `std::isfinite`: the exponent field is not all ones. */
  predicate IsFinite(bits: Bits64) {
    (bits / 0x10_0000_0000_0000) % 0x800 != 0x7FF
  }

  /** What the C++ runtime does with doubles. `fromDouble` is `String16::fromDouble`; `toNumber` is
      what `buildValue` makes of a number token that is not a plain int32 literal:
      a rejection, a whole number that fits an int, or a double. */
  datatype Host = Host(fromDouble: Bits64 -> Text, toNumber: Text -> Reading)

  datatype Reading = Rejected | Whole(n: int32) | Real(bits: Bits64)

  function Max(a: nat, b: nat): nat {
    if a < b then b else a
  }

  /** The number of edges from `v` down to its deepest descendant. */
  function Height(v: Value): nat
    decreases v, 0
  {
    match v
    case Object(entries) => EntriesHeight(entries)
    case Array(items) => ItemsHeight(items)
    case _ => 0
  }

  function ItemsHeight(items: seq<Value>): nat
    decreases items, 0
  {
    if items == [] then 0 else Max(1 + Height(items[0]), ItemsHeight(items[1..]))
  }

  function EntriesHeight(entries: seq<Entry>): nat
    decreases entries, 0
  {
    if entries == [] then 0 else Max(1 + Height(entries[0].value), EntriesHeight(entries[1..]))
  }

  // ---------------------------------------------------------------- dictionaries as lists

  /** `DictionaryValue::get`. */
  function Find(entries: seq<Entry>, key: Text): Option<Value> {
    if entries == [] then None
    else if entries[0].key == key then Some(entries[0].value)
    else Find(entries[1..], key)
  }

  function Keys(entries: seq<Entry>): (r: seq<Text>)
    ensures |r| == |entries|
    ensures forall i :: 0 <= i < |entries| ==> r[i] == entries[i].key
  {
    if entries == [] then [] else [entries[0].key] + Keys(entries[1..])
  }

  predicate DistinctKeys(entries: seq<Entry>) {
    forall i, j :: 0 <= i < j < |entries| ==> entries[i].key != entries[j].key
  }

  /** `DictionaryValue::set`: overwrite in place, or append a new key. */
  function SetEntry(entries: seq<Entry>, key: Text, value: Value): (r: seq<Entry>) {
    if entries == [] then [Entry(key, value)]
    else if entries[0].key == key then [Entry(key, value)] + entries[1..]
    else [entries[0]] + SetEntry(entries[1..], key, value)
  }

  /** `DictionaryValue::remove`. */
  function RemoveEntry(entries: seq<Entry>, key: Text): (r: seq<Entry>) {
    if entries == [] then []
    else if entries[0].key == key then RemoveEntry(entries[1..], key)
    else [entries[0]] + RemoveEntry(entries[1..], key)
  }

  lemma {:induction false} FindIffKey(entries: seq<Entry>, key: Text)
    ensures Find(entries, key).Some? <==> key in Keys(entries)
  {
    if entries != [] {
      FindIffKey(entries[1..], key);
    }
  }

  lemma {:induction false} FindAt(entries: seq<Entry>, i: nat)
    requires DistinctKeys(entries) && i < |entries|
    ensures Find(entries, entries[i].key) == Some(entries[i].value)
  {
    if i > 0 {
      FindAt(entries[1..], i - 1);
    }
  }

  lemma {:induction false} FindAfterSet(entries: seq<Entry>, key: Text, value: Value, k: Text)
    ensures Find(SetEntry(entries, key, value), k) == if k == key then Some(value) else Find(entries, k)
  {
    if entries != [] && entries[0].key != key {
      FindAfterSet(entries[1..], key, value, k);
      var r := SetEntry(entries, key, value);
      assert r[1..] == SetEntry(entries[1..], key, value);
    } else if entries != [] {
      var r := SetEntry(entries, key, value);
      assert r[1..] == entries[1..];
    }
  }

  lemma {:induction false} KeysCons(e: Entry, entries: seq<Entry>)
    ensures Keys([e] + entries) == [e.key] + Keys(entries)
  {
    assert ([e] + entries)[1..] == entries;
  }

  /** `set` leaves the order of keys alone, except that a new key comes last. */
  lemma {:induction false} KeysAfterSet(entries: seq<Entry>, key: Text, value: Value)
    ensures Keys(SetEntry(entries, key, value)) ==
            if key in Keys(entries) then Keys(entries) else Keys(entries) + [key]
  {
    if entries != [] {
      var head, tail := entries[0], entries[1..];
      assert entries == [head] + tail;
      KeysCons(head, tail);
      if head.key == key {
        KeysCons(Entry(key, value), tail);
        assert Keys(entries)[0] == key;
      } else {
        KeysAfterSet(tail, key, value);
        KeysCons(head, SetEntry(tail, key, value));
      }
    }
  }

  lemma {:induction false} DistinctIffKeys(entries: seq<Entry>)
    ensures DistinctKeys(entries) <==>
            forall i, j :: 0 <= i < j < |entries| ==> Keys(entries)[i] != Keys(entries)[j]
  {
    if DistinctKeys(entries) {
      forall i, j | 0 <= i < j < |entries| ensures Keys(entries)[i] != Keys(entries)[j] {
        assert entries[i].key != entries[j].key;
      }
    } else {
      var i, j :| 0 <= i < j < |entries| && entries[i].key == entries[j].key;
      assert Keys(entries)[i] == Keys(entries)[j];
    }
  }

  lemma {:induction false} DistinctAfterSet(entries: seq<Entry>, key: Text, value: Value)
    requires DistinctKeys(entries)
    ensures DistinctKeys(SetEntry(entries, key, value))
  {
    KeysAfterSet(entries, key, value);
    DistinctIffKeys(SetEntry(entries, key, value));
  }

  /** Setting a key that is not there appends. */
  lemma {:induction false} SetEntryAppends(entries: seq<Entry>, key: Text, value: Value)
    requires key !in Keys(entries)
    ensures SetEntry(entries, key, value) == entries + [Entry(key, value)]
  {
    if entries != [] {
      assert Keys(entries)[0] != key;
      assert Keys(entries) == [entries[0].key] + Keys(entries[1..]);
      SetEntryAppends(entries[1..], key, value);
    }
  }

  lemma {:induction false} FindAfterRemove(entries: seq<Entry>, key: Text, k: Text)
    ensures Find(RemoveEntry(entries, key), k) == if k == key then None else Find(entries, k)
  {
    if entries != [] {
      FindAfterRemove(entries[1..], key, k);
      if entries[0].key != key {
        assert RemoveEntry(entries, key)[1..] == RemoveEntry(entries[1..], key);
      }
    }
  }

  lemma {:induction false} KeysAfterRemove(entries: seq<Entry>, key: Text)
    ensures Keys(RemoveEntry(entries, key)) == WithoutKey(Keys(entries), key)
  {
    if entries != [] {
      KeysAfterRemove(entries[1..], key);
      assert Keys(entries)[1..] == Keys(entries[1..]);
      if entries[0].key != key {
        assert RemoveEntry(entries, key)[1..] == RemoveEntry(entries[1..], key);
      }
    }
  }

  /** `std::remove` followed by `erase` on `m_order`. */
  function WithoutKey(keys: seq<Text>, key: Text): (r: seq<Text>)
    ensures forall k :: k in r <==> k in keys && k != key
  {
    if keys == [] then []
    else if keys[0] == key then WithoutKey(keys[1..], key)
    else [keys[0]] + WithoutKey(keys[1..], key)
  }

  /** No duplicate key anywhere in the tree: the class invariant of `DictionaryValue`,
      at every level. */
  predicate WellFormed(v: Value)
    decreases v, 0
  {
    match v
    case Object(entries) => DistinctKeys(entries) && EntriesWellFormed(entries)
    case Array(items) => ItemsWellFormed(items)
    case _ => true
  }

  predicate ItemsWellFormed(items: seq<Value>)
    decreases items, 0
  {
    items == [] || (WellFormed(items[0]) && ItemsWellFormed(items[1..]))
  }

  predicate EntriesWellFormed(entries: seq<Entry>)
    decreases entries, 0
  {
    entries == [] || (WellFormed(entries[0].value) && EntriesWellFormed(entries[1..]))
  }

  // ---------------------------------------------------------------- histories of a dictionary

  datatype Op = Put(key: Text, value: Value) | Erase(key: Text)

  function Replay(ops: seq<Op>): seq<Entry> {
    if ops == [] then []
    else
      var before := Replay(ops[..|ops| - 1]);
      match ops[|ops| - 1]
      case Put(k, v) => SetEntry(before, k, v)
      case Erase(k) => RemoveEntry(before, k)
  }

  /** The value of the last operation on `key`, if that operation put it there. */
  function LastPut(ops: seq<Op>, key: Text): Option<Value> {
    if ops == [] then None
    else
      var op := ops[|ops| - 1];
      if op.key != key then LastPut(ops[..|ops| - 1], key)
      else if op.Put? then Some(op.value) else None
  }

  /** The position of the operation that made `key` present, for a key that is present. */
  function Birth(ops: seq<Op>, key: Text): nat {
    if ops == [] then 0
    else
      var before := ops[..|ops| - 1];
      if LastPut(before, key).Some? then Birth(before, key) else |ops| - 1
  }

  ghost predicate InBirthOrder(ops: seq<Op>, keys: seq<Text>) {
    && (forall i :: 0 <= i < |keys| ==> Birth(ops, keys[i]) < |ops|)
    && (forall i, j :: 0 <= i < j < |keys| ==> Birth(ops, keys[i]) < Birth(ops, keys[j]))
  }

  lemma {:induction false} BirthOrderAfterRemove(ops: seq<Op>, keys: seq<Text>, key: Text)
    requires InBirthOrder(ops, keys)
    ensures InBirthOrder(ops, WithoutKey(keys, key))
  {
    hide Birth;
    if keys != [] {
      var tail := keys[1..];
      BirthOrderAfterRemove(ops, tail, key);
      var r := WithoutKey(tail, key);
      forall i | 0 <= i < |r| ensures Birth(ops, keys[0]) < Birth(ops, r[i]) {
        assert r[i] in tail;
      }
    }
  }

  lemma {:induction false} BirthOrderSurvives(ops: seq<Op>, keys: seq<Text>)
    requires ops != [] && InBirthOrder(ops[..|ops| - 1], keys)
    requires forall k :: k in keys ==> LastPut(ops[..|ops| - 1], k).Some?
    ensures InBirthOrder(ops, keys)
    ensures forall k :: k in keys ==> Birth(ops, k) < |ops| - 1
  {
    var before := ops[..|ops| - 1];
    forall i | 0 <= i < |keys| ensures Birth(ops, keys[i]) == Birth(before, keys[i]) {
      assert keys[i] in keys;
    }
  }

  /** After any history of `set` and `remove`: a key is present exactly when
      the last operation on it was a `set`, and holds that operation's value; keys are
      distinct and stand in the order in which they last became present. */
  lemma {:induction false} DictionaryHistory(ops: seq<Op>)
    ensures forall k :: Find(Replay(ops), k) == LastPut(ops, k)
    ensures DistinctKeys(Replay(ops))
    ensures InBirthOrder(ops, Keys(Replay(ops)))
  {
    if ops != [] {
      var before, op := ops[..|ops| - 1], ops[|ops| - 1];
      DictionaryHistory(before);
      var es := Replay(before);
      hide Find, Keys, SetEntry, RemoveEntry, WithoutKey;
      forall k ensures Find(Replay(ops), k) == LastPut(ops, k) {
        if op.Put? { FindAfterSet(es, op.key, op.value, k); } else { FindAfterRemove(es, op.key, k); }
      }
      forall k | k in Keys(es) ensures LastPut(before, k).Some? {
        FindIffKey(es, k);
      }
      BirthOrderSurvives(ops, Keys(es));
      KeysAreBorn(ops, es);
      DistinctIffKeys(Replay(ops));
    }
  }

  lemma {:induction false} KeysAreBorn(ops: seq<Op>, es: seq<Entry>)
    requires ops != [] && es == Replay(ops[..|ops| - 1]) && InBirthOrder(ops, Keys(es))
    requires forall k :: Find(es, k) == LastPut(ops[..|ops| - 1], k)
    requires forall k :: k in Keys(es) ==> Birth(ops, k) < |ops| - 1
    ensures InBirthOrder(ops, Keys(Replay(ops)))
  {
    hide Find, Keys, SetEntry, RemoveEntry, WithoutKey;
    var op := ops[|ops| - 1];
    if op.Put? {
      KeysAfterSet(es, op.key, op.value);
      FindIffKey(es, op.key);
    } else {
      KeysAfterRemove(es, op.key);
      BirthOrderAfterRemove(ops, Keys(es), op.key);
    }
  }
}
