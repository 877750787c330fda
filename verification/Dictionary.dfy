/** `DictionaryValue` as the library stores it: a hash map and a vector of keys, updated in
    place. Every operation is proved to act on the list of entries as the functions in
    `Values` say, so the results about histories hold of the class. */
module Dictionary {
  import opened String16
  import opened Values
  import opened Writer
  import opened Parser
  import RoundTrip

  predicate Distinct(keys: seq<Text>) {
    forall i, j :: 0 <= i < j < |keys| ==> keys[i] != keys[j]
  }

  predicate Covered(order: seq<Text>, data: map<Text, Value>) {
    forall i :: 0 <= i < |order| ==> order[i] in data
  }

  function EntriesOf(order: seq<Text>, data: map<Text, Value>): (es: seq<Entry>)
    requires Covered(order, data)
    ensures |es| == |order|
  {
    if order == [] then [] else [Entry(order[0], data[order[0]])] + EntriesOf(order[1..], data)
  }

  lemma {:induction false} EntryAt(order: seq<Text>, data: map<Text, Value>, i: nat)
    requires Covered(order, data) && i < |order|
    ensures EntriesOf(order, data)[i] == Entry(order[i], data[order[i]])
  {
    if i > 0 {
      EntryAt(order[1..], data, i - 1);
    }
  }

  lemma {:induction false} KeysOfEntries(order: seq<Text>, data: map<Text, Value>)
    requires Covered(order, data)
    ensures Keys(EntriesOf(order, data)) == order
  {
    forall i | 0 <= i < |order| ensures Keys(EntriesOf(order, data))[i] == order[i] {
      EntryAt(order, data, i);
    }
  }

  /** Entries depend only on the values of the keys that are listed. */
  lemma {:induction false} SameEntries(order: seq<Text>, data: map<Text, Value>, data': map<Text, Value>)
    requires Covered(order, data) && Covered(order, data')
    requires forall i :: 0 <= i < |order| ==> data[order[i]] == data'[order[i]]
    ensures EntriesOf(order, data) == EntriesOf(order, data')
  {
    if order != [] {
      SameEntries(order[1..], data, data');
    }
  }

  lemma {:induction false} Overwrite(order: seq<Text>, data: map<Text, Value>, key: Text, value: Value)
    requires Covered(order, data) && Distinct(order) && key in order
    ensures EntriesOf(order, data[key := value]) == SetEntry(EntriesOf(order, data), key, value)
  {
    var data' := data[key := value];
    if order[0] == key {
      SameEntries(order[1..], data, data');
    } else {
      Overwrite(order[1..], data, key, value);
    }
  }

  lemma {:induction false} Append(order: seq<Text>, data: map<Text, Value>, key: Text, value: Value)
    requires Covered(order, data) && key !in data
    ensures Covered(order + [key], data[key := value])
    ensures EntriesOf(order + [key], data[key := value]) == SetEntry(EntriesOf(order, data), key, value)
  {
    if order != [] {
      assert (order + [key])[1..] == order[1..] + [key];
      Append(order[1..], data, key, value);
    }
  }

  lemma {:induction false} Erased(order: seq<Text>, data: map<Text, Value>, key: Text)
    requires Covered(order, data)
    ensures Covered(WithoutKey(order, key), data - {key})
    ensures EntriesOf(WithoutKey(order, key), data - {key}) == RemoveEntry(EntriesOf(order, data), key)
  {
    var kept := WithoutKey(order, key);
    forall i | 0 <= i < |kept| ensures kept[i] in data - {key} {
      assert kept[i] in kept;
    }
    if order != [] {
      Erased(order[1..], data, key);
      assert order[0] != key ==> kept[1..] == WithoutKey(order[1..], key);
    }
  }

  lemma {:induction false} WithoutDistinct(keys: seq<Text>, key: Text)
    requires Distinct(keys)
    ensures Distinct(WithoutKey(keys, key))
  {
    if keys != [] {
      WithoutDistinct(keys[1..], key);
      var rest := WithoutKey(keys[1..], key);
      forall i | 0 <= i < |rest| ensures rest[i] != keys[0] {
        assert rest[i] in rest;
      }
    }
  }

  lemma {:induction false} WithoutSnoc(keys: seq<Text>, last: Text, key: Text)
    ensures WithoutKey(keys + [last], key) == WithoutKey(keys, key) + (if last == key then [] else [last])
  {
    if keys != [] {
      assert (keys + [last])[1..] == keys[1..] + [last];
      WithoutSnoc(keys[1..], last, key);
    }
  }

  // ---------------------------------------------------------------- clones

  /** `Value::clone` and its overrides: dictionaries are rebuilt by successive `setValue`. */
  function Clone(v: Value): Value
    decreases v, 0
  {
    match v
    case Object(entries) => Object(Collect([], CloneEntries(entries)))
    case Array(items) => Array(CloneItems(items))
    case _ => v
  }

  function CloneItems(items: seq<Value>): seq<Value>
    decreases items, 0
  {
    if items == [] then [] else [Clone(items[0])] + CloneItems(items[1..])
  }

  function CloneEntry(e: Entry): Entry
    decreases e, 0
  {
    Entry(e.key, Clone(e.value))
  }

  function CloneEntries(entries: seq<Entry>): seq<Entry>
    decreases entries, 0
  {
    if entries == [] then [] else [CloneEntry(entries[0])] + CloneEntries(entries[1..])
  }

  /** A clone is structurally equal to its original, key order included. */
  lemma {:induction false} CloneIsEqual(v: Value)
    requires WellFormed(v)
    ensures Clone(v) == v
    decreases v, 1
  {
    match v {
      case Object(entries) =>
        CloneEntriesEqual(entries);
        assert [] + entries == entries;
        RoundTrip.CollectDistinct([], entries);
      case Array(items) => CloneItemsEqual(items);
      case _ =>
    }
  }

  lemma {:induction false} CloneItemsEqual(items: seq<Value>)
    requires ItemsWellFormed(items)
    ensures CloneItems(items) == items
    decreases items, 0
  {
    if items != [] {
      CloneIsEqual(items[0]);
      CloneItemsEqual(items[1..]);
    }
  }

  lemma {:induction false} CloneEntryEqual(e: Entry)
    requires WellFormed(e.value)
    ensures CloneEntry(e) == e
    decreases e, 0
  {
    CloneIsEqual(e.value);
  }

  lemma {:induction false} CloneEntriesEqual(entries: seq<Entry>)
    requires EntriesWellFormed(entries)
    ensures CloneEntries(entries) == entries
    decreases entries, 0
  {
    if entries != [] {
      CloneEntryEqual(entries[0]);
      CloneEntriesEqual(entries[1..]);
    }
  }

  lemma {:induction false} EntryWellFormed(entries: seq<Entry>, i: nat)
    requires EntriesWellFormed(entries) && i < |entries|
    ensures WellFormed(entries[i].value)
  {
    if i > 0 {
      EntryWellFormed(entries[1..], i - 1);
    }
  }

  // ---------------------------------------------------------------- the class

  /** `std::remove` with `erase`: the kept keys, in order. */
  method EraseFrom(keys: seq<Text>, key: Text) returns (kept: seq<Text>)
    ensures kept == WithoutKey(keys, key)
  {
    kept := [];
    for i := 0 to |keys|
      invariant kept == WithoutKey(keys[..i], key)
    {
      WithoutSnoc(keys[..i], keys[i], key);
      assert keys[..i + 1] == keys[..i] + [keys[i]];
      if keys[i] != key {
        kept := kept + [keys[i]];
      }
    }
    assert keys[..|keys|] == keys;
  }

  class DictionaryValue {
    var data: map<Text, Value>
    var order: seq<Text>

    /** `m_order` lists the keys of `m_data`, each once. */
    ghost predicate Valid()
      reads this
    {
      && Distinct(order)
      && (forall k :: k in data <==> k in order)
    }

    function Entries(): seq<Entry>
      reads this
      requires Covered(order, data)
    {
      EntriesOf(order, data)
    }

    constructor ()
      ensures Valid() && Entries() == []
    {
      data, order := map[], [];
    }

    method Set(key: Text, value: Value)
      requires Valid()
      modifies this
      ensures Valid() && Entries() == SetEntry(old(Entries()), key, value)
    {
      var isNew := key !in data;
      if isNew {
        Append(order, data, key, value);
      } else {
        Overwrite(order, data, key, value);
      }
      data := data[key := value];
      if isNew {
        order := order + [key];
      }
    }

    method Get(key: Text) returns (value: Option<Value>)
      requires Valid()
      ensures value == Find(Entries(), key)
    {
      FindInData(key);
      value := if key in data then Some(data[key]) else None;
    }

    lemma {:induction false} FindInData(key: Text)
      requires Valid()
      ensures Find(Entries(), key) == if key in data then Some(data[key]) else None
    {
      KeysOfEntries(order, data);
      FindIffKey(Entries(), key);
      if key in order {
        var i :| 0 <= i < |order| && order[i] == key;
        EntryAt(order, data, i);
        DistinctIffKeys(Entries());
        FindAt(Entries(), i);
      }
    }

    method At(index: nat) returns (entry: Entry)
      requires Valid() && index < |order|
      ensures entry == Entries()[index]
    {
      var key := order[index];
      EntryAt(order, data, index);
      entry := Entry(key, data[key]);
    }

    method Remove(key: Text)
      requires Valid()
      modifies this
      ensures Valid() && Entries() == RemoveEntry(old(Entries()), key)
    {
      var keys := order;
      Erased(keys, data, key);
      WithoutDistinct(keys, key);
      data := data - {key};
      order := EraseFrom(keys, key);
    }

    method WriteJSON(host: Host, output: StringBuilder)
      requires Valid()
      modifies output
      ensures output.buffer == old(output.buffer) + Render(Object(Entries()), host)
    {
      WriteDictionary(Entries(), host, output);
    }

    /** A new dictionary with the same entries; this one is left as it is. */
    method CloneDictionary() returns (result: DictionaryValue)
      requires Valid() && EntriesWellFormed(Entries())
      ensures fresh(result) && result.Valid() && result.Entries() == Entries()
    {
      result := new DictionaryValue();
      ghost var es := Entries();
      for i := 0 to |order|
        invariant result.Valid() && fresh(result)
        invariant result.Entries() == es[..i]
      {
        var key := order[i];
        EntryAt(order, data, i);
        EntryWellFormed(es, i);
        CloneIsEqual(data[key]);
        PrefixHasNoKey(order, data, i);
        SetEntryAppends(es[..i], key, data[key]);
        result.Set(key, Clone(data[key]));
        assert es[..i + 1] == es[..i] + [es[i]];
      }
      assert es[..|order|] == es;
    }
  }

  lemma {:induction false} PrefixHasNoKey(order: seq<Text>, data: map<Text, Value>, i: nat)
    requires Covered(order, data) && Distinct(order) && i < |order|
    ensures order[i] !in Keys(EntriesOf(order, data)[..i])
  {
    var es := EntriesOf(order, data)[..i];
    forall k | 0 <= k < i ensures Keys(es)[k] != order[i] {
      EntryAt(order, data, k);
    }
  }
}
