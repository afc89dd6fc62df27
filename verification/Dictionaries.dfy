/** What Python's `dict` makes of a JSON value, when the outcome is encoded with sorted keys. */
module Dictionaries {
  import opened Json
  import opened ForbiddenFields

  /** Keys of one kind can be sorted; a list or a dictionary cannot be a key at all. */
  datatype KeyKind = TextKey | NumberKey | NullKey | NoKey

  function KindOfKey(v: Value): KeyKind {
    match v
    case Str(_) => TextKey
    case Bool(_) | Int(_) | Float(_) => NumberKey
    case Null => NullKey
    case Arr(_) | Obj(_) => NoKey
  }

  datatype Entry = Entry(key: Value, value: Value)

  function Other(keys: seq<string>, first: string): Option<string> {
    if keys == [] then None else if keys[0] != first then Some(keys[0]) else Other(keys[1..], first)
  }

  /** A pair is anything that iterates to two elements: a list, a text, or the keys of a dictionary. */
  function EntryOf(item: Value, path: string, order: KeyOrder): Option<Entry> {
    match item
    case Arr(parts) =>
      if |parts| == 2 && !KindOfKey(parts[0]).NoKey? then Some(Entry(parts[0], parts[1])) else None
    case Str(s) => if |s| == 2 then Some(Entry(Str([s[0]]), Str([s[1]]))) else None
    case Obj(fields) =>
      var keys := order(path, fields);
      if |fields| != 2 || keys == [] || Other(keys, keys[0]).None? then None
      else Some(Entry(Str(keys[0]), Str(Other(keys, keys[0]).value)))
    case _ => None
  }

  function Entries(items: seq<Value>, path: string, order: KeyOrder): Option<seq<Entry>> {
    if items == [] then Some([])
    else
      var last := |items| - 1;
      var earlier, entry := Entries(items[..last], path, order), EntryOf(items[last], Element(path, last), order);
      if earlier.None? || entry.None? then None else Some(earlier.value + [entry.value])
  }

  predicate AllText(entries: seq<Entry>) {
    forall i | 0 <= i < |entries| :: entries[i].key.Str?
  }

  predicate OneKind(entries: seq<Entry>) {
    forall i | 0 <= i < |entries| :: KindOfKey(entries[i].key) == KindOfKey(entries[0].key)
  }

  /** The last entry of a key wins. */
  function Merged(entries: seq<Entry>): map<string, Value>
    requires AllText(entries)
  {
    if entries == [] then map[]
    else
      var last := |entries| - 1;
      Merged(entries[..last])[entries[last].key.s := entries[last].value]
  }

  /**
   * `dict(v)`, or none when it fails, or when its keys are of kinds that cannot be sorted. A dictionary whose keys are
   * no texts is not a JSON document; it is kept as the list it was made of, which is no valid set of parameters either.
   */
  function DictOf(v: Value, path: string, order: KeyOrder): Option<Value> {
    match v
    case Obj(_) => Some(v)
    case Str(s) => if s == "" then Some(Obj(map[])) else None
    case Arr(items) =>
      var entries := Entries(items, path, order);
      if entries.None? || !OneKind(entries.value) then None
      else if AllText(entries.value) then Some(Obj(Merged(entries.value)))
      else Some(v)
    case _ => None
  }

  // ------------------------------------------------------- read off the value

  predicate IsEntry(item: Value) {
    match item
    case Arr(parts) => |parts| == 2 && !KindOfKey(parts[0]).NoKey?
    case Str(s) => |s| == 2
    case Obj(fields) => |fields| == 2
    case _ => false
  }

  function EntryKind(item: Value): KeyKind {
    if item.Arr? && item.items != [] then KindOfKey(item.items[0]) else TextKey
  }

  /** A dictionary, an empty text, or a list of pairs whose keys are all of one kind. */
  predicate Dictable(v: Value) {
    match v
    case Obj(_) => true
    case Str(s) => s == ""
    case Arr(items) =>
      forall i | 0 <= i < |items| :: IsEntry(items[i]) && EntryKind(items[i]) == EntryKind(items[0])
    case _ => false
  }

  predicate AllDictable(items: seq<Value>) {
    forall i | 0 <= i < |items| :: Dictable(items[i])
  }

  lemma {:induction false} OtherFound(keys: seq<string>, first: string, k: string)
    requires k in keys && k != first
    ensures Other(keys, first).Some?
  {
    if keys[0] == first { OtherFound(keys[1..], first, k); }
  }

  lemma EntryOfExactly(item: Value, path: string, order: KeyOrder)
    requires Enumerates(order)
    ensures EntryOf(item, path, order).Some? <==> IsEntry(item)
    ensures IsEntry(item) ==> KindOfKey(EntryOf(item, path, order).value.key) == EntryKind(item)
  {
    if item.Obj? && |item.fields| == 2 {
      var keys := order(path, item.fields);
      assert KeysListed(keys, item.fields);
      assert keys != [] by {
        assert item.fields.Keys != {};
        var k :| k in item.fields;
        assert k in keys;
      }
      assert |item.fields.Keys - {keys[0]}| == 1;
      var k :| k in item.fields.Keys - {keys[0]};
      OtherFound(keys, keys[0], k);
    }
  }

  lemma {:induction false} EntriesExactly(items: seq<Value>, path: string, order: KeyOrder)
    requires Enumerates(order)
    ensures var entries := Entries(items, path, order);
            && (entries.Some? <==> forall i | 0 <= i < |items| :: IsEntry(items[i]))
            && (entries.Some? ==> |entries.value| == |items| && forall i | 0 <= i < |items| ::
                  KindOfKey(entries.value[i].key) == EntryKind(items[i]))
  {
    hide EntryOf, IsEntry, EntryKind, KindOfKey, Enumerates;
    if items != [] {
      var last := |items| - 1;
      EntriesExactly(items[..last], path, order);
      EntryOfExactly(items[last], Element(path, last), order);
      assert forall i | 0 <= i < last :: items[..last][i] == items[i];
    }
  }

  /** `dict` accepts exactly the dictable values, and makes a JSON document exactly when all keys are texts. */
  lemma DictOfExactly(v: Value, path: string, order: KeyOrder)
    requires Enumerates(order)
    ensures DictOf(v, path, order).Some? <==> Dictable(v)
    ensures v.Arr? && Dictable(v) ==>
              (DictOf(v, path, order).value.Obj? <==> forall i | 0 <= i < |v.items| :: EntryKind(v.items[i]).TextKey?)
  {
    if v.Arr? { EntriesExactly(v.items, path, order); }
    hide IsEntry, EntryOf;
  }

  // -------------------------------------------------------------- round trip

  function Pairs(fields: map<string, Value>, keys: seq<string>): seq<Value>
    requires forall k | k in keys :: k in fields
  {
    seq(|keys|, i requires 0 <= i < |keys| => Arr([Str(keys[i]), fields[keys[i]]]))
  }

  function Restricted(fields: map<string, Value>, keys: seq<string>): map<string, Value> {
    map k | k in fields && k in keys :: fields[k]
  }

  lemma OneMoreKey(fields: map<string, Value>, keys: seq<string>, key: string)
    requires key in fields
    ensures Restricted(fields, keys + [key]) == Restricted(fields, keys)[key := fields[key]]
  {
  }

  lemma OneMoreEntry(entries: seq<Entry>, entry: Entry)
    requires AllText(entries) && OneKind(entries) && entry.key.Str?
    ensures AllText(entries + [entry]) && OneKind(entries + [entry])
    ensures Merged(entries + [entry]) == Merged(entries)[entry.key.s := entry.value]
  {
    assert (entries + [entry])[..|entries|] == entries;
  }

  lemma {:induction false} PairsMerge(fields: map<string, Value>, keys: seq<string>, path: string, order: KeyOrder)
    requires forall k | k in keys :: k in fields
    ensures var entries := Entries(Pairs(fields, keys), path, order);
            && entries.Some? && AllText(entries.value) && OneKind(entries.value)
            && Merged(entries.value) == Restricted(fields, keys)
    decreases |keys|
  {
    hide Merged, AllText, OneKind, Restricted;
    if keys == [] {
      assert Entries(Pairs(fields, keys), path, order) == Some([]);
      NoEntries(fields);
    } else {
      var last := |keys| - 1;
      PairsMerge(fields, keys[..last], path, order);
      assert Pairs(fields, keys)[..last] == Pairs(fields, keys[..last]);
      var earlier := Entries(Pairs(fields, keys[..last]), path, order).value;
      var entry := Entry(Str(keys[last]), fields[keys[last]]);
      assert Entries(Pairs(fields, keys), path, order) == Some(earlier + [entry]);
      OneMoreEntry(earlier, entry);
      OneMoreKey(fields, keys[..last], keys[last]);
      assert keys[..last] + [keys[last]] == keys;
    }
  }

  lemma NoEntries(fields: map<string, Value>)
    ensures AllText([]) && OneKind([]) && Merged([]) == Restricted(fields, [])
  {
  }

  /** The pairs of a dictionary, listed in any order and any number of times, make the dictionary again. */
  lemma PairsRoundTrip(fields: map<string, Value>, keys: seq<string>, path: string, order: KeyOrder)
    requires KeysListed(keys, fields)
    ensures DictOf(Arr(Pairs(fields, keys)), path, order) == Some(Obj(fields))
  {
    hide Entries, Merged, Pairs;
    PairsMerge(fields, keys, path, order);
    assert Restricted(fields, keys) == fields;
  }
}
