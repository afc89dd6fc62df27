/** The structural diff behind the repair report, and what replaying it does. */
module JsonDiff {
  import opened Json
  import opened Strings

  datatype Step = Key(key: string) | Index(index: nat)

  type Path = seq<Step>

  datatype Entry = Entry(path: Path, before: Value, after: Value)

  // ---------------------------------------------------------------- the diff

  ghost function DiffValues(before: Value, after: Value, path: Path): seq<Entry>
    decreases before, 2, 0
  {
    if before.Obj? && after.Obj? then
      DiffFields(SortedKeys(before.fields.Keys + after.fields.Keys), before, after, path)
    else if before.Arr? && after.Arr? then
      DiffItems(0, before, after, path)
    else if before != after then
      [Entry(path, before, after)]
    else
      []
  }

  ghost function DiffFields(keys: seq<string>, before: Value, after: Value, path: Path): seq<Entry>
    requires before.Obj? && after.Obj?
    requires forall k | k in keys :: k in before.fields || k in after.fields
    decreases before, 1, |keys|
  {
    if keys == [] then
      []
    else
      DiffField(keys[0], before, after, path) + DiffFields(keys[1..], before, after, path)
  }

  ghost function DiffField(k: string, before: Value, after: Value, path: Path): seq<Entry>
    requires before.Obj? && after.Obj? && (k in before.fields || k in after.fields)
    decreases before, 0, 0
  {
    var child := path + [Key(k)];
    if k !in before.fields then [Entry(child, Null, after.fields[k])]
    else if k !in after.fields then [Entry(child, before.fields[k], Null)]
    else DiffValues(before.fields[k], after.fields[k], child)
  }

  ghost function DiffItems(i: nat, before: Value, after: Value, path: Path): seq<Entry>
    requires before.Arr? && after.Arr?
    decreases before, 1, |before.items| + |after.items| - i
  {
    if i >= |before.items| && i >= |after.items| then
      []
    else
      DiffItem(i, before, after, path) + DiffItems(i + 1, before, after, path)
  }

  ghost function DiffItem(i: nat, before: Value, after: Value, path: Path): seq<Entry>
    requires before.Arr? && after.Arr? && (i < |before.items| || i < |after.items|)
    decreases before, 0, 0
  {
    var child := path + [Index(i)];
    if i >= |before.items| then [Entry(child, Null, after.items[i])]
    else if i >= |after.items| then [Entry(child, before.items[i], Null)]
    else DiffValues(before.items[i], after.items[i], child)
  }

  ghost function Diff(before: Value, after: Value): seq<Entry> {
    DiffValues(before, after, [])
  }

  // ------------------------------------------------------- replaying a diff

  /** Writes one entry; below the root a null stands for "missing", as the diff writes it. */
  function Put(doc: Value, path: Path, item: Value): Value
    decreases |path|
  {
    if path == [] then item
    else
      match path[0]
      case Key(k) =>
        if !doc.Obj? then doc
        else if |path| == 1 then
          if item == Null then Obj(doc.fields - {k}) else Obj(doc.fields[k := item])
        else if k in doc.fields then
          Obj(doc.fields[k := Put(doc.fields[k], path[1..], item)])
        else doc
      case Index(i) =>
        if !doc.Arr? then doc
        else if |path| == 1 then
          if item == Null then (if i < |doc.items| then Arr(doc.items[..i]) else doc)
          else if i < |doc.items| then Arr(doc.items[i := item])
          else if i == |doc.items| then Arr(doc.items + [item])
          else doc
        else if i < |doc.items| then
          Arr(doc.items[i := Put(doc.items[i], path[1..], item)])
        else doc
  }

  function Replay(doc: Value, entries: seq<Entry>): Value
    decreases |entries|
  {
    if entries == [] then doc
    else Replay(Put(doc, entries[0].path, entries[0].after), entries[1..])
  }

  /** The same entries with `before` and `after` exchanged. */
  function Swapped(entries: seq<Entry>): seq<Entry> {
    if entries == [] then []
    else [Entry(entries[0].path, entries[0].after, entries[0].before)] + Swapped(entries[1..])
  }

  /** No null appears in `after` where `before` holds something else or nothing. */
  ghost predicate Replayable(before: Value, after: Value)
    decreases before, 1
  {
    if before.Obj? && after.Obj? then
      forall k | k in after.fields :: FieldSafe(before, after, k)
    else if before.Arr? && after.Arr? then
      forall i | 0 <= i < |after.items| :: ItemSafe(before, after, i)
    else
      true
  }

  ghost predicate FieldSafe(before: Value, after: Value, k: string)
    requires before.Obj? && after.Obj? && k in after.fields
    decreases before, 0
  {
    if k in before.fields then
      && (after.fields[k] == Null ==> before.fields[k] == Null)
      && Replayable(before.fields[k], after.fields[k])
    else
      after.fields[k] != Null
  }

  ghost predicate ItemSafe(before: Value, after: Value, i: nat)
    requires before.Arr? && after.Arr? && i < |after.items|
    decreases before, 0
  {
    if i < |before.items| then
      && (after.items[i] == Null ==> before.items[i] == Null)
      && Replayable(before.items[i], after.items[i])
    else
      after.items[i] != Null
  }

  ghost predicate NullFree(v: Value) {
    match v
    case Null => false
    case Arr(items) => forall i | 0 <= i < |items| :: NullFree(items[i])
    case Obj(fields) => forall k | k in fields :: NullFree(fields[k])
    case _ => true
  }

  // ------------------------------------------------------- shape of the diff

  ghost predicate SameKind(x: Value, y: Value) {
    (x.Obj? && y.Obj?) || (x.Arr? && y.Arr?)
  }

  ghost function Prefixed(prefix: Path, entries: seq<Entry>): seq<Entry> {
    if entries == [] then []
    else [Entry(prefix + entries[0].path, entries[0].before, entries[0].after)]
         + Prefixed(prefix, entries[1..])
  }

  lemma {:induction false} PrefixedConcat(prefix: Path, x: seq<Entry>, y: seq<Entry>)
    ensures Prefixed(prefix, x + y) == Prefixed(prefix, x) + Prefixed(prefix, y)
  {
    if x == [] {
      assert x + y == y;
    } else {
      assert (x + y)[0] == x[0] && (x + y)[1..] == x[1..] + y;
      PrefixedConcat(prefix, x[1..], y);
    }
  }

  /** The path argument is only ever put in front of every reported path. */
  lemma {:induction false} PathIsPrefix(before: Value, after: Value, prefix: Path, path: Path)
    ensures DiffValues(before, after, prefix + path) == Prefixed(prefix, DiffValues(before, after, path))
    decreases before, 2, 0
  {
    if before.Obj? && after.Obj? {
      PathIsPrefixFields(SortedKeys(before.fields.Keys + after.fields.Keys), before, after, prefix, path);
    } else if before.Arr? && after.Arr? {
      PathIsPrefixItems(0, before, after, prefix, path);
    }
  }

  lemma {:induction false} PathIsPrefixFields(
      keys: seq<string>, before: Value, after: Value, prefix: Path, path: Path)
    requires before.Obj? && after.Obj?
    requires forall k | k in keys :: k in before.fields || k in after.fields
    ensures DiffFields(keys, before, after, prefix + path)
         == Prefixed(prefix, DiffFields(keys, before, after, path))
    decreases before, 1, |keys|
  {
    if keys != [] {
      var k := keys[0];
      assert (prefix + path) + [Key(k)] == prefix + (path + [Key(k)]);
      if k in before.fields && k in after.fields {
        PathIsPrefix(before.fields[k], after.fields[k], prefix, path + [Key(k)]);
      }
      PathIsPrefixFields(keys[1..], before, after, prefix, path);
      PrefixedConcat(prefix, DiffField(k, before, after, path), DiffFields(keys[1..], before, after, path));
    }
  }

  lemma {:induction false} PathIsPrefixItems(
      i: nat, before: Value, after: Value, prefix: Path, path: Path)
    requires before.Arr? && after.Arr?
    ensures DiffItems(i, before, after, prefix + path) == Prefixed(prefix, DiffItems(i, before, after, path))
    decreases before, 1, |before.items| + |after.items| - i
  {
    if i < |before.items| || i < |after.items| {
      assert (prefix + path) + [Index(i)] == prefix + (path + [Index(i)]);
      if i < |before.items| && i < |after.items| {
        PathIsPrefix(before.items[i], after.items[i], prefix, path + [Index(i)]);
      }
      PathIsPrefixItems(i + 1, before, after, prefix, path);
      PrefixedConcat(prefix, DiffItem(i, before, after, path), DiffItems(i + 1, before, after, path));
    }
  }

  /** Entries for one child are the child's own diff, moved under that child. */
  lemma ChildDiff(before: Value, after: Value, step: Step)
    ensures DiffValues(before, after, [] + [step]) == Prefixed([step], Diff(before, after))
  {
    assert [] + [step] == [step] + [];
    PathIsPrefix(before, after, [step], []);
  }

  /** Between containers of one kind every reported path goes below the root. */
  lemma {:induction false} PathsBelow(before: Value, after: Value, path: Path)
    ensures forall e | e in DiffValues(before, after, path) :: path <= e.path
    ensures SameKind(before, after) ==>
              forall e | e in DiffValues(before, after, path) :: |path| < |e.path|
    decreases before, 2, 0
  {
    if before.Obj? && after.Obj? {
      FieldPaths(SortedKeys(before.fields.Keys + after.fields.Keys), before, after, path);
    } else if before.Arr? && after.Arr? {
      ItemPaths(0, before, after, path);
    }
  }

  lemma {:induction false} FieldPaths(keys: seq<string>, before: Value, after: Value, path: Path)
    requires before.Obj? && after.Obj?
    requires forall k | k in keys :: k in before.fields || k in after.fields
    ensures forall e | e in DiffFields(keys, before, after, path) ::
              path < e.path && e.path[|path|].Key? && e.path[|path|].key in keys
    decreases before, 1, |keys|
  {
    if keys != [] {
      var k := keys[0];
      if k in before.fields && k in after.fields {
        PathsBelow(before.fields[k], after.fields[k], path + [Key(k)]);
      }
      FieldPaths(keys[1..], before, after, path);
    }
  }

  lemma {:induction false} ItemPaths(i: nat, before: Value, after: Value, path: Path)
    requires before.Arr? && after.Arr?
    ensures forall e | e in DiffItems(i, before, after, path) ::
              path < e.path && e.path[|path|].Index? && e.path[|path|].index >= i
    decreases before, 1, |before.items| + |after.items| - i
  {
    if i < |before.items| || i < |after.items| {
      if i < |before.items| && i < |after.items| {
        PathsBelow(before.items[i], after.items[i], path + [Index(i)]);
      }
      ItemPaths(i + 1, before, after, path);
    }
  }

  // -------------------------------------------------- reported paths diverge

  ghost predicate Diverge(p: Path, q: Path) {
    !(p <= q) && !(q <= p)
  }

  ghost predicate Antichain(entries: seq<Entry>) {
    forall i, j | 0 <= i < j < |entries| :: Diverge(entries[i].path, entries[j].path)
  }

  lemma AntichainConcat(x: seq<Entry>, y: seq<Entry>)
    requires Antichain(x) && Antichain(y)
    requires forall d, e | d in x && e in y :: Diverge(d.path, e.path)
    ensures Antichain(x + y)
  {
    var z := x + y;
    forall i, j | 0 <= i < j < |z| ensures Diverge(z[i].path, z[j].path) {
      if i < |x| && |x| <= j {
        assert z[i] in x && z[j] in y;
      }
    }
  }

  lemma DivergeAt(p: Path, q: Path, n: nat)
    requires n < |p| && n < |q| && p[n] != q[n]
    ensures Diverge(p, q)
  {
  }

  /** No reported path is equal to, or a prefix of, another reported path. */
  lemma {:induction false} DiffPathsDiverge(before: Value, after: Value, path: Path)
    ensures Antichain(DiffValues(before, after, path))
    decreases before, 2, 0
  {
    if before.Obj? && after.Obj? {
      FieldPathsDiverge(SortedKeys(before.fields.Keys + after.fields.Keys), before, after, path);
    } else if before.Arr? && after.Arr? {
      ItemPathsDiverge(0, before, after, path);
    }
  }

  lemma {:induction false} FieldPathsDiverge(keys: seq<string>, before: Value, after: Value, path: Path)
    requires before.Obj? && after.Obj? && Sorted(keys)
    requires forall k | k in keys :: k in before.fields || k in after.fields
    ensures Antichain(DiffFields(keys, before, after, path))
    decreases before, 1, |keys|
  {
    if keys != [] {
      var k := keys[0];
      var rest := DiffFields(keys[1..], before, after, path);
      var head := DiffField(k, before, after, path);
      FieldPathsDiverge(keys[1..], before, after, path);
      FieldPaths(keys[1..], before, after, path);
      if k in before.fields && k in after.fields {
        DiffPathsDiverge(before.fields[k], after.fields[k], path + [Key(k)]);
        PathsBelow(before.fields[k], after.fields[k], path + [Key(k)]);
      }
      forall d, e | d in head && e in rest ensures Diverge(d.path, e.path) {
        assert path + [Key(k)] <= d.path;
        DivergeAt(d.path, e.path, |path|);
      }
      AntichainConcat(head, rest);
    }
  }

  lemma {:induction false} ItemPathsDiverge(i: nat, before: Value, after: Value, path: Path)
    requires before.Arr? && after.Arr?
    ensures Antichain(DiffItems(i, before, after, path))
    decreases before, 1, |before.items| + |after.items| - i
  {
    if i < |before.items| || i < |after.items| {
      var rest := DiffItems(i + 1, before, after, path);
      var head := DiffItem(i, before, after, path);
      ItemPathsDiverge(i + 1, before, after, path);
      ItemPaths(i + 1, before, after, path);
      if i < |before.items| && i < |after.items| {
        DiffPathsDiverge(before.items[i], after.items[i], path + [Index(i)]);
        PathsBelow(before.items[i], after.items[i], path + [Index(i)]);
      }
      forall d, e | d in head && e in rest ensures Diverge(d.path, e.path) {
        assert path + [Index(i)] <= d.path;
        DivergeAt(d.path, e.path, |path|);
      }
      AntichainConcat(head, rest);
    }
  }

  // -------------------------------------------------------- empty and mirror

  /** A diff is empty exactly when the two documents are equal. */
  lemma {:induction false} EmptyIffEqual(before: Value, after: Value, path: Path)
    ensures DiffValues(before, after, path) == [] <==> before == after
    decreases before, 2, 0
  {
    if before.Obj? && after.Obj? {
      var keys := SortedKeys(before.fields.Keys + after.fields.Keys);
      EmptyFields(keys, before, after, path);
      if DiffValues(before, after, path) == [] {
        assert forall k :: k in before.fields || k in after.fields ==> k in keys;
        assert before.fields.Keys == after.fields.Keys;
        assert before.fields == after.fields;
      }
    } else if before.Arr? && after.Arr? {
      EmptyItems(0, before, after, path);
    }
  }

  lemma {:induction false} EmptyFields(keys: seq<string>, before: Value, after: Value, path: Path)
    requires before.Obj? && after.Obj?
    requires forall k | k in keys :: k in before.fields || k in after.fields
    ensures DiffFields(keys, before, after, path) == []
       <==> forall k | k in keys :: Get(before.fields, k) == Get(after.fields, k)
    decreases before, 1, |keys|
  {
    if keys != [] {
      var k := keys[0];
      if k in before.fields && k in after.fields {
        EmptyIffEqual(before.fields[k], after.fields[k], path + [Key(k)]);
      }
      EmptyFields(keys[1..], before, after, path);
      assert forall o :: o in keys <==> o == k || o in keys[1..];
      assert DiffFields(keys, before, after, path) == [] <==>
             Get(before.fields, k) == Get(after.fields, k) && DiffFields(keys[1..], before, after, path) == [];
    }
  }

  lemma {:induction false} EmptyItems(i: nat, before: Value, after: Value, path: Path)
    requires before.Arr? && after.Arr?
    requires i <= |before.items| && i <= |after.items|
    ensures DiffItems(i, before, after, path) == []
       <==> |before.items| == |after.items| && before.items[i..] == after.items[i..]
    decreases before, 1, |before.items| + |after.items| - i
  {
    var b, a := before.items, after.items;
    if i < |b| && i < |a| {
      EmptyIffEqual(b[i], a[i], path + [Index(i)]);
      EmptyItems(i + 1, before, after, path);
      if |b| == |a| {
        assert b[i..] == [b[i]] + b[i + 1..] && a[i..] == [a[i]] + a[i + 1..];
      }
      assert DiffItems(i, before, after, path) == [] <==>
             b[i] == a[i] && DiffItems(i + 1, before, after, path) == [];
    } else {
      assert DiffItems(i, before, after, path) == [] <==> i >= |b| && i >= |a|;
    }
  }

  lemma {:induction false} SwappedConcat(x: seq<Entry>, y: seq<Entry>)
    ensures Swapped(x + y) == Swapped(x) + Swapped(y)
  {
    if x == [] {
      assert x + y == y;
    } else {
      assert (x + y)[0] == x[0] && (x + y)[1..] == x[1..] + y;
      SwappedConcat(x[1..], y);
    }
  }

  /** The diff from `after` to `before` is the diff from `before` to `after` read backwards. */
  lemma {:induction false} DiffMirror(before: Value, after: Value, path: Path)
    ensures DiffValues(after, before, path) == Swapped(DiffValues(before, after, path))
    decreases before, 2, 0
  {
    if before.Obj? && after.Obj? {
      assert before.fields.Keys + after.fields.Keys == after.fields.Keys + before.fields.Keys;
      FieldsMirror(SortedKeys(before.fields.Keys + after.fields.Keys), before, after, path);
    } else if before.Arr? && after.Arr? {
      ItemsMirror(0, before, after, path);
    }
  }

  lemma {:induction false} FieldsMirror(keys: seq<string>, before: Value, after: Value, path: Path)
    requires before.Obj? && after.Obj?
    requires forall k | k in keys :: k in before.fields || k in after.fields
    ensures DiffFields(keys, after, before, path) == Swapped(DiffFields(keys, before, after, path))
    decreases before, 1, |keys|
  {
    if keys != [] {
      var k := keys[0];
      if k in before.fields && k in after.fields {
        DiffMirror(before.fields[k], after.fields[k], path + [Key(k)]);
      }
      FieldsMirror(keys[1..], before, after, path);
      SwappedConcat(DiffField(k, before, after, path), DiffFields(keys[1..], before, after, path));
    }
  }

  lemma {:induction false} ItemsMirror(i: nat, before: Value, after: Value, path: Path)
    requires before.Arr? && after.Arr?
    ensures DiffItems(i, after, before, path) == Swapped(DiffItems(i, before, after, path))
    decreases before, 1, |before.items| + |after.items| - i
  {
    if i < |before.items| || i < |after.items| {
      if i < |before.items| && i < |after.items| {
        DiffMirror(before.items[i], after.items[i], path + [Index(i)]);
      }
      ItemsMirror(i + 1, before, after, path);
      SwappedConcat(DiffItem(i, before, after, path), DiffItems(i + 1, before, after, path));
    }
  }

  // ------------------------------------------------------------- round trips

  lemma {:induction false} ReplayConcat(doc: Value, x: seq<Entry>, y: seq<Entry>)
    ensures Replay(doc, x + y) == Replay(Replay(doc, x), y)
    decreases |x|
  {
    if x == [] {
      assert x + y == y;
    } else {
      assert (x + y)[1..] == x[1..] + y;
      ReplayConcat(Put(doc, x[0].path, x[0].after), x[1..], y);
    }
  }

  lemma {:induction false} ReplayUnderKey(fields: map<string, Value>, k: string, entries: seq<Entry>)
    requires k in fields
    requires forall e | e in entries :: e.path != []
    ensures Replay(Obj(fields), Prefixed([Key(k)], entries)) == Obj(fields[k := Replay(fields[k], entries)])
    decreases |entries|
  {
    var under := Prefixed([Key(k)], entries);
    if entries != [] {
      assert entries[0] in entries;
      assert under[0].path[1..] == entries[0].path;
      assert under[1..] == Prefixed([Key(k)], entries[1..]);
      var child := Put(fields[k], entries[0].path, entries[0].after);
      ReplayUnderKey(fields[k := child], k, entries[1..]);
      assert fields[k := child][k := Replay(child, entries[1..])] == fields[k := Replay(child, entries[1..])];
    } else {
      assert fields[k := fields[k]] == fields;
    }
  }

  lemma {:induction false} ReplayUnderIndex(items: seq<Value>, i: nat, entries: seq<Entry>)
    requires i < |items|
    requires forall e | e in entries :: e.path != []
    ensures Replay(Arr(items), Prefixed([Index(i)], entries)) == Arr(items[i := Replay(items[i], entries)])
    decreases |entries|
  {
    var under := Prefixed([Index(i)], entries);
    if entries != [] {
      assert entries[0] in entries;
      assert under[0].path[1..] == entries[0].path;
      assert under[1..] == Prefixed([Index(i)], entries[1..]);
      var child := Put(items[i], entries[0].path, entries[0].after);
      ReplayUnderIndex(items[i := child], i, entries[1..]);
    }
  }

  lemma LeafDiff(x: Value, y: Value, path: Path)
    requires !SameKind(x, y)
    ensures DiffValues(x, y, path) == if x == y then [] else [Entry(path, x, y)]
  {
  }

  /** What replaying leaves at one child; nothing when the child ends up missing. */
  ghost function ChildResult(before: Option<Value>, after: Option<Value>): Option<Value> {
    match (before, after)
    case (_, None) => None
    case (None, Some(y)) => if y == Null then None else after
    case (Some(x), Some(y)) =>
      if SameKind(x, y) then Some(Replay(x, Diff(x, y)))
      else if x == y then before
      else if y == Null then None
      else after
  }

  ghost function WithField(fields: map<string, Value>, k: string, child: Option<Value>): map<string, Value> {
    match child
    case None => fields - {k}
    case Some(v) => fields[k := v]
  }

  lemma ReplayChild(x: Value, y: Value, step: Step)
    requires SameKind(x, y)
    ensures DiffValues(x, y, [] + [step]) == Prefixed([step], Diff(x, y))
    ensures forall e | e in Diff(x, y) :: e.path != []
  {
    ChildDiff(x, y, step);
    PathsBelow(x, y, []);
  }

  lemma FieldReplay(k: string, before: Value, after: Value, current: map<string, Value>)
    requires before.Obj? && after.Obj? && (k in before.fields || k in after.fields)
    requires Get(current, k) == Get(before.fields, k)
    ensures Replay(Obj(current), DiffField(k, before, after, []))
         == Obj(WithField(current, k, ChildResult(Get(before.fields, k), Get(after.fields, k))))
  {
    var head := DiffField(k, before, after, []);
    assert [] + [Key(k)] == [Key(k)];
    if k in before.fields && k in after.fields {
      var x, y := before.fields[k], after.fields[k];
      assert current[k] == x by { assert Get(current, k) == Some(x); }
      if SameKind(x, y) {
        ReplayChild(x, y, Key(k));
        ReplayUnderKey(current, k, Diff(x, y));
      } else {
        LeafDiff(x, y, [] + [Key(k)]);
        assert x == y ==> current[k := x] == current;
        assert x != y ==> head[1..] == [];
      }
    } else {
      assert head[1..] == [];
    }
  }

  lemma {:induction false} FieldsReplay(
      keys: seq<string>, before: Value, after: Value, current: map<string, Value>)
    returns (out: map<string, Value>)
    requires before.Obj? && after.Obj? && Sorted(keys)
    requires forall k | k in keys :: k in before.fields || k in after.fields
    requires forall k | k in keys :: Get(current, k) == Get(before.fields, k)
    ensures Replay(Obj(current), DiffFields(keys, before, after, [])) == Obj(out)
    ensures forall k | k in keys :: Get(out, k) == ChildResult(Get(before.fields, k), Get(after.fields, k))
    ensures forall k | k !in keys :: Get(out, k) == Get(current, k)
    decreases |keys|
  {
    if keys == [] {
      out := current;
    } else {
      var k := keys[0];
      var next := WithField(current, k, ChildResult(Get(before.fields, k), Get(after.fields, k)));
      FieldReplay(k, before, after, current);
      ReplayConcat(Obj(current), DiffField(k, before, after, []), DiffFields(keys[1..], before, after, []));
      forall o | o in keys[1..] ensures Get(next, o) == Get(before.fields, o) {
        assert o in keys && o != k;
      }
      out := FieldsReplay(keys[1..], before, after, next);
      assert k !in keys[1..];
    }
  }

  lemma {:induction false} TailIgnored(i: nat, before: Value, after: Value, items: seq<Value>)
    requires before.Arr? && after.Arr? && |items| < i
    ensures Replay(Arr(items), DiffItems(i, before, after, [])) == Arr(items)
  {
    ItemPaths(i, before, after, []);
    EntriesIgnored(items, DiffItems(i, before, after, []));
  }

  lemma {:induction false} EntriesIgnored(items: seq<Value>, entries: seq<Entry>)
    requires forall e | e in entries :: e.path != [] && e.path[0].Index? && e.path[0].index > |items|
    ensures Replay(Arr(items), entries) == Arr(items)
    decreases |entries|
  {
    if entries != [] {
      assert entries[0] in entries;
      EntriesIgnored(items, entries[1..]);
    }
  }

  ghost function ItemResult(before: Value, after: Value, i: nat): Option<Value>
    requires before.Arr? && after.Arr? && i < |after.items|
  {
    ChildResult(if i < |before.items| then Some(before.items[i]) else None, Some(after.items[i]))
  }

  /** The document while an array diff is replayed: items before i done, the rest untouched. */
  ghost function Partly(done: seq<Value>, b: seq<Value>): seq<Value> {
    done + if |done| < |b| then b[|done|..] else []
  }

  lemma ItemReplay(i: nat, before: Value, after: Value, done: seq<Value>)
    requires before.Arr? && after.Arr? && |done| == i < |after.items|
    requires ItemResult(before, after, i).Some?
    ensures Replay(Arr(Partly(done, before.items)), DiffItem(i, before, after, []))
         == Arr(Partly(done + [ItemResult(before, after, i).value], before.items))
  {
    var b, a, v := before.items, after.items, ItemResult(before, after, i).value;
    var current, next := Partly(done, b), Partly(done + [v], b);
    var head := DiffItem(i, before, after, []);
    assert [] + [Index(i)] == [Index(i)];
    if i < |b| {
      var x, y := b[i], a[i];
      assert current[i] == x && current[i := v] == next;
      if SameKind(x, y) {
        ReplayChild(x, y, Index(i));
        ReplayUnderIndex(current, i, Diff(x, y));
      } else {
        LeafDiff(x, y, [] + [Index(i)]);
        assert x == y ==> current == next;
        assert x != y ==> head[1..] == [];
      }
    } else {
      assert head[1..] == [];
      assert current + [a[i]] == next;
    }
  }

  lemma ItemDropped(i: nat, before: Value, after: Value, done: seq<Value>)
    requires before.Arr? && after.Arr? && |done| == i <= |after.items|
    requires i < |before.items| || i < |after.items|
    requires i < |after.items| ==> ItemResult(before, after, i).None?
    ensures Replay(Arr(Partly(done, before.items)), DiffItem(i, before, after, [])) == Arr(done)
  {
    var b, a := before.items, after.items;
    var head := DiffItem(i, before, after, []);
    assert [] + [Index(i)] == [Index(i)];
    if i < |b| && i < |a| { LeafDiff(b[i], a[i], [] + [Index(i)]); }
    assert head == [Entry([Index(i)], if i < |b| then b[i] else Null, Null)];
    assert head[1..] == [];
    assert Partly(done, b)[..i] == done;
  }

  /** Replaying an array diff from index i on, when the items before i are already done. */
  lemma {:induction false} ItemsReplay(i: nat, before: Value, after: Value, done: seq<Value>)
    returns (out: seq<Value>)
    requires before.Arr? && after.Arr? && |done| == i <= |after.items|
    ensures Replay(Arr(Partly(done, before.items)), DiffItems(i, before, after, [])) == Arr(out)
    ensures |out| == |after.items| <==> forall j | i <= j < |after.items| :: ItemResult(before, after, j).Some?
    ensures |out| == |after.items| ==>
              out[..i] == done && forall j | i <= j < |out| :: Some(out[j]) == ItemResult(before, after, j)
    decreases |after.items| - i
  {
    var b, a := before.items, after.items;
    if i >= |b| && i >= |a| {
      out := done;
      assert Partly(done, b) == done;
    } else {
      ReplayConcat(Arr(Partly(done, b)), DiffItem(i, before, after, []), DiffItems(i + 1, before, after, []));
      if i >= |a| || ItemResult(before, after, i).None? {
        ItemDropped(i, before, after, done);
        TailIgnored(i + 1, before, after, done);
        out := done;
      } else {
        var next := done + [ItemResult(before, after, i).value];
        ItemReplay(i, before, after, done);
        out := ItemsReplay(i + 1, before, after, next);
        if |out| == |a| {
          assert out[..i] == out[..i + 1][..i] == done;
          assert out[i] == out[..i + 1][i];
        }
      }
    }
  }

  lemma ChildRoundTrip(x: Value, y: Value)
    requires SameKind(x, y) ==> (Replay(x, Diff(x, y)) == y <==> Replayable(x, y))
    ensures ChildResult(Some(x), Some(y)) == Some(y) <==> (y == Null ==> x == Null) && Replayable(x, y)
  {
  }

  lemma SameFields(m: map<string, Value>, n: map<string, Value>)
    requires forall k :: Get(m, k) == Get(n, k)
    ensures m == n
  {
    assert forall k :: (k in m <==> Get(m, k).Some?) && (k in n <==> Get(n, k).Some?);
    assert forall k | k in m :: Some(m[k]) == Get(m, k) == Get(n, k) == Some(n[k]);
  }

  lemma {:induction false} ObjectRoundTrip(before: Value, after: Value)
    requires before.Obj? && after.Obj?
    ensures Replay(before, Diff(before, after)) == after <==> Replayable(before, after)
    decreases before, 0
  {
    var b, a := before.fields, after.fields;
    var keys := SortedKeys(b.Keys + a.Keys);
    var out := FieldsReplay(keys, before, after, b);
    forall k | k in a ensures Get(out, k) == Some(a[k]) <==> FieldSafe(before, after, k) {
      assert k in keys;
      if k in b {
        if SameKind(b[k], a[k]) { ReplayRoundTrip(b[k], a[k]); }
        ChildRoundTrip(b[k], a[k]);
      }
    }
    if Replayable(before, after) {
      forall k ensures Get(out, k) == Get(a, k) {
        if k !in keys { assert Get(out, k) == Get(b, k); }
      }
      SameFields(out, a);
    }
    if out == a {
      assert forall k | k in a :: Get(out, k) == Some(a[k]);
    }
  }

  lemma {:induction false} ArrayRoundTrip(before: Value, after: Value)
    requires before.Arr? && after.Arr?
    ensures Replay(before, Diff(before, after)) == after <==> Replayable(before, after)
    decreases before, 0
  {
    var b, a := before.items, after.items;
    var out := ItemsReplay(0, before, after, []);
    assert Partly([], b) == b;
    forall i | 0 <= i < |a| ensures ItemResult(before, after, i) == Some(a[i]) <==> ItemSafe(before, after, i) {
      if i < |b| {
        if SameKind(b[i], a[i]) { ReplayRoundTrip(b[i], a[i]); }
        ChildRoundTrip(b[i], a[i]);
      }
    }
    if Replayable(before, after) {
      assert forall i | 0 <= i < |a| :: ItemSafe(before, after, i);
      SameItems(before, after, out);
    }
    if out == a {
      forall i | 0 <= i < |a| ensures ItemSafe(before, after, i) {
        assert Some(out[i]) == ItemResult(before, after, i);
      }
    }
  }

  lemma SameItems(before: Value, after: Value, out: seq<Value>)
    requires before.Arr? && after.Arr? && |out| == |after.items|
    requires forall i | 0 <= i < |out| :: Some(out[i]) == ItemResult(before, after, i) == Some(after.items[i])
    ensures out == after.items
  {
    forall i | 0 <= i < |out| ensures out[i] == after.items[i] {
      assert Some(out[i]) == ItemResult(before, after, i);
    }
  }

  /** Replaying a diff on its source gives its target exactly when nulls do not collide with "missing". */
  lemma {:induction false} ReplayRoundTrip(before: Value, after: Value)
    ensures Replay(before, Diff(before, after)) == after <==> Replayable(before, after)
    decreases before, 1
  {
    if before.Obj? && after.Obj? {
      ObjectRoundTrip(before, after);
    } else if before.Arr? && after.Arr? {
      ArrayRoundTrip(before, after);
    } else if before != after {
      assert Diff(before, after) == [Entry([], before, after)];
      assert Diff(before, after)[1..] == [];
    }
  }

  /** The same entries read backwards undo the change, under the mirrored condition. */
  lemma ReverseRoundTrip(before: Value, after: Value)
    ensures Replay(after, Swapped(Diff(before, after))) == before <==> Replayable(after, before)
  {
    DiffMirror(before, after, []);
    ReplayRoundTrip(after, before);
  }

  lemma {:induction false} NullFreeIsReplayable(before: Value, after: Value)
    requires NullFree(after)
    ensures Replayable(before, after)
    decreases after
  {
    if before.Obj? && after.Obj? {
      forall k | k in after.fields ensures FieldSafe(before, after, k) {
        if k in before.fields { NullFreeIsReplayable(before.fields[k], after.fields[k]); }
      }
    } else if before.Arr? && after.Arr? {
      forall i | 0 <= i < |after.items| ensures ItemSafe(before, after, i) {
        if i < |before.items| { NullFreeIsReplayable(before.items[i], after.items[i]); }
      }
    }
  }

  /** Null-free documents: the diff carries before to after and, reversed, after to before. */
  lemma NullFreeRoundTrip(before: Value, after: Value)
    requires NullFree(before) && NullFree(after)
    ensures Replay(before, Diff(before, after)) == after
    ensures Replay(after, Swapped(Diff(before, after))) == before
  {
    NullFreeIsReplayable(before, after);
    NullFreeIsReplayable(after, before);
    ReplayRoundTrip(before, after);
    ReverseRoundTrip(before, after);
  }

  // ------------------------------------------------- the paths as printed text

  /** The path strings the report prints: dots between keys, indices in brackets. */
  function Render(path: Path): string {
    RenderAfter("", path)
  }

  function RenderAfter(text: string, path: Path): string
    decreases |path|
  {
    if path == [] then text
    else
      match path[0]
      case Key(k) => RenderAfter(if text != "" then text + "." + k else k, path[1..])
      case Index(i) => RenderAfter(text + "[" + Decimal(i) + "]", path[1..])
  }

  const STOPS: set<char> := {'.', '['}

  ghost predicate PlainKey(k: string) {
    k != "" && forall c | c in k :: c !in STOPS
  }

  ghost predicate PlainPath(path: Path) {
    forall s | s in path :: s.Key? ==> PlainKey(s.key)
  }

  ghost predicate PlainKeys(v: Value) {
    match v
    case Obj(fields) => forall k | k in fields :: PlainKey(k) && PlainKeys(fields[k])
    case Arr(items) => forall i | 0 <= i < |items| :: PlainKeys(items[i])
    case _ => true
  }

  ghost function StepText(step: Step): string {
    match step
    case Key(k) => ['.'] + k
    case Index(i) => ['['] + Decimal(i) + [']']
  }

  ghost function Tail(path: Path): string {
    if path == [] then "" else StepText(path[0]) + Tail(path[1..])
  }

  lemma RenderStep(text: string, path: Path)
    requires path != [] && text != ""
    ensures RenderAfter(text, path) == RenderAfter(text + StepText(path[0]), path[1..])
  {
    match path[0]
    case Key(k) => assert text + "." + k == text + (['.'] + k);
    case Index(i) => assert text + "[" + Decimal(i) + "]" == text + (['['] + Decimal(i) + [']']);
  }

  lemma {:induction false} RenderAfterTail(text: string, path: Path)
    requires text != ""
    ensures RenderAfter(text, path) == text + Tail(path)
    decreases |path|
  {
    if path != [] {
      var first := StepText(path[0]);
      RenderStep(text, path);
      RenderAfterTail(text + first, path[1..]);
      assert (text + first) + Tail(path[1..]) == text + (first + Tail(path[1..]));
    }
  }

  lemma FirstKey(k: string, t: string, k': string, t': string)
    requires PlainKey(k) && PlainKey(k')
    requires t == [] || t[0] in STOPS
    requires t' == [] || t'[0] in STOPS
    requires (['.'] + k) + t == (['.'] + k') + t'
    ensures k == k' && t == t'
  {
    assert k + t == ((['.'] + k) + t)[1..] == ((['.'] + k') + t')[1..] == k' + t';
    CutIsUnique(k, t, k', t', STOPS);
  }

  lemma FirstIndex(d: string, t: string, d': string, t': string)
    requires forall c | c in d || c in d' :: c !in {']'}
    requires (['['] + d + [']']) + t == (['['] + d' + [']']) + t'
    ensures d == d' && t == t'
  {
    assert d + ([']'] + t) == ((['['] + d + [']']) + t)[1..] == ((['['] + d' + [']']) + t')[1..] == d' + ([']'] + t');
    CutIsUnique(d, [']'] + t, d', [']'] + t', {']'});
    assert ([']'] + t)[1..] == t && ([']'] + t')[1..] == t';
  }

  lemma StepTextStart(s: Step, t: string)
    ensures (StepText(s) + t)[0] == if s.Key? then '.' else '['
  {
  }

  /** The first step can be read off the printed tail. */
  lemma FirstStep(s: Step, t: string, s': Step, t': string)
    requires (s.Key? ==> PlainKey(s.key)) && (s'.Key? ==> PlainKey(s'.key))
    requires t == [] || t[0] in STOPS
    requires t' == [] || t'[0] in STOPS
    requires StepText(s) + t == StepText(s') + t'
    ensures s == s' && t == t'
  {
    StepTextStart(s, t);
    StepTextStart(s', t');
    if s.Key? {
      FirstKey(s.key, t, s'.key, t');
    } else {
      FirstIndex(Decimal(s.index), t, Decimal(s'.index), t');
      DecimalInjective(s.index, s'.index);
    }
  }

  lemma TailStartsWithStop(path: Path)
    ensures path != [] ==> Tail(path) != [] && Tail(path)[0] in STOPS
    ensures path == [] ==> Tail(path) == []
  {
  }

  lemma {:induction false} TailInjective(p: Path, q: Path)
    requires PlainPath(p) && PlainPath(q) && Tail(p) == Tail(q)
    ensures p == q
    decreases |p|
  {
    TailStartsWithStop(p);
    TailStartsWithStop(q);
    if p != [] {
      TailStartsWithStop(p[1..]);
      TailStartsWithStop(q[1..]);
      assert p == [p[0]] + p[1..] && q == [q[0]] + q[1..];
      FirstStep(p[0], Tail(p[1..]), q[0], Tail(q[1..]));
      TailInjective(p[1..], q[1..]);
    }
  }

  lemma RenderIsTail(path: Path)
    requires PlainPath(path) && path != []
    ensures Tail(path) == if path[0].Key? then ['.'] + Render(path) else Render(path)
    ensures Render(path) != "" && (Render(path)[0] == '[' <==> path[0].Index?)
  {
    assert path[0] in path;
    match path[0]
    case Key(k) =>
      RenderAfterTail(k, path[1..]);
      assert k[0] in k;
      assert StepText(path[0]) + Tail(path[1..]) == ['.'] + (k + Tail(path[1..]));
    case Index(i) =>
      assert "" + "[" + Decimal(i) + "]" == StepText(path[0]);
      RenderAfterTail(StepText(path[0]), path[1..]);
  }

  lemma RenderInjective(p: Path, q: Path)
    requires PlainPath(p) && PlainPath(q) && Render(p) == Render(q)
    ensures p == q
  {
    if p != [] { RenderIsTail(p); }
    if q != [] { RenderIsTail(q); }
    if p != [] {
      TailInjective(p, q);
    }
  }

  lemma {:induction false} DiffPathsPlain(before: Value, after: Value, path: Path)
    requires PlainKeys(before) && PlainKeys(after) && PlainPath(path)
    ensures forall e | e in DiffValues(before, after, path) :: PlainPath(e.path)
    decreases before, 2, 0
  {
    if before.Obj? && after.Obj? {
      FieldPathsPlain(SortedKeys(before.fields.Keys + after.fields.Keys), before, after, path);
    } else if before.Arr? && after.Arr? {
      ItemPathsPlain(0, before, after, path);
    }
  }

  lemma {:induction false} FieldPathsPlain(keys: seq<string>, before: Value, after: Value, path: Path)
    requires before.Obj? && after.Obj? && PlainKeys(before) && PlainKeys(after) && PlainPath(path)
    requires forall k | k in keys :: k in before.fields || k in after.fields
    ensures forall e | e in DiffFields(keys, before, after, path) :: PlainPath(e.path)
    decreases before, 1, |keys|
  {
    if keys != [] {
      var k := keys[0];
      if k in before.fields && k in after.fields {
        DiffPathsPlain(before.fields[k], after.fields[k], path + [Key(k)]);
      }
      FieldPathsPlain(keys[1..], before, after, path);
    }
  }

  lemma {:induction false} ItemPathsPlain(i: nat, before: Value, after: Value, path: Path)
    requires before.Arr? && after.Arr? && PlainKeys(before) && PlainKeys(after) && PlainPath(path)
    ensures forall e | e in DiffItems(i, before, after, path) :: PlainPath(e.path)
    decreases before, 1, |before.items| + |after.items| - i
  {
    if i < |before.items| || i < |after.items| {
      if i < |before.items| && i < |after.items| {
        DiffPathsPlain(before.items[i], after.items[i], path + [Index(i)]);
      }
      ItemPathsPlain(i + 1, before, after, path);
    }
  }

  /** When no key is empty or contains a dot or a bracket, the printed paths are pairwise distinct. */
  lemma PrintedPathsDistinct(before: Value, after: Value)
    requires PlainKeys(before) && PlainKeys(after)
    ensures var d := Diff(before, after);
            forall i, j | 0 <= i < j < |d| :: Render(d[i].path) != Render(d[j].path)
  {
    var d := Diff(before, after);
    DiffPathsDiverge(before, after, []);
    DiffPathsPlain(before, after, []);
    forall i, j | 0 <= i < j < |d| ensures Render(d[i].path) != Render(d[j].path) {
      assert d[i] in d && d[j] in d;
      assert Diverge(d[i].path, d[j].path);
      assert d[i].path != d[j].path;
      if Render(d[i].path) == Render(d[j].path) {
        RenderInjective(d[i].path, d[j].path);
      }
    }
  }

  lemma {:induction false} FieldEntryReported(
      k: string, keys: seq<string>, before: Value, after: Value, path: Path, e: Entry)
    requires before.Obj? && after.Obj? && k in keys
    requires forall o | o in keys :: o in before.fields || o in after.fields
    requires e in DiffField(k, before, after, path)
    ensures e in DiffFields(keys, before, after, path)
    decreases |keys|
  {
    if k != keys[0] {
      FieldEntryReported(k, keys[1..], before, after, path, e);
    }
  }

  /** Some diff lists two different places under this one printed path. */
  ghost predicate PrintedTwice(text: string) {
    exists before, after, d, e ::
      && d in Diff(before, after) && e in Diff(before, after)
      && d.path != e.path && Render(d.path) == Render(e.path) == text
  }

  lemma RenderOne(k: string)
    ensures Render([Key(k)]) == k
  {
    assert [Key(k)][1..] == [];
    assert RenderAfter("", [Key(k)]) == RenderAfter(k, []);
  }

  lemma RenderTwo(a: string, step: Step)
    ensures Render([Key(a), step])
         == match step
            case Key(b) => if a == "" then b else a + "." + b
            case Index(i) => a + "[" + Decimal(i) + "]"
  {
    assert [Key(a), step][1..] == [step] && [step][1..] == [];
    assert RenderAfter("", [Key(a), step]) == RenderAfter(a, [step]);
    match step
    case Key(b) => assert RenderAfter(a, [step]) == RenderAfter(if a != "" then a + "." + b else b, []);
    case Index(i) => assert RenderAfter(a, [step]) == RenderAfter(a + "[" + Decimal(i) + "]", []);
  }

  /** A top-level key k and an edit below another top-level key a that is printed as k. */
  lemma FieldsCollide(k: string, a: string, inner: Value, inner': Value, e: Entry)
    requires k != a && e in DiffValues(inner, inner', [Key(a)])
    requires e.path != [Key(k)] && Render(e.path) == k
    ensures PrintedTwice(k)
  {
    var before, after := Obj(map[k := Int(0), a := inner]), Obj(map[k := Int(1), a := inner']);
    var keys := SortedKeys(before.fields.Keys + after.fields.Keys);
    var d := Entry([Key(k)], Int(0), Int(1));
    assert [] + [Key(k)] == [Key(k)] && [] + [Key(a)] == [Key(a)];
    LeafDiff(Int(0), Int(1), [Key(k)]);
    assert d in DiffField(k, before, after, []);
    FieldEntryReported(k, keys, before, after, [], d);
    assert e in DiffField(a, before, after, []);
    FieldEntryReported(a, keys, before, after, [], e);
    RenderOne(k);
    assert d in Diff(before, after) && e in Diff(before, after);
  }

  lemma NestedEntry(a: string, b: string)
    ensures Entry([Key(a), Key(b)], Int(0), Int(1))
            in DiffValues(Obj(map[b := Int(0)]), Obj(map[b := Int(1)]), [Key(a)])
    ensures Render([Key(a), Key(b)]) == if a == "" then b else a + "." + b
  {
    var inner, inner' := Obj(map[b := Int(0)]), Obj(map[b := Int(1)]);
    var e := Entry([Key(a), Key(b)], Int(0), Int(1));
    assert [Key(a)] + [Key(b)] == [Key(a), Key(b)];
    LeafDiff(Int(0), Int(1), [Key(a), Key(b)]);
    FieldEntryReported(b, SortedKeys(inner.fields.Keys + inner'.fields.Keys), inner, inner', [Key(a)], e);
    RenderTwo(a, Key(b));
  }

  /** A key with an inner dot breaks that: two different places are printed as the same path. */
  lemma DottedKeysCollide(a: string, b: string)
    requires a != ""
    ensures PrintedTwice(a + "." + b)
  {
    assert |a + "." + b| > |a|;
    NestedEntry(a, b);
    FieldsCollide(a + "." + b, a, Obj(map[b := Int(0)]), Obj(map[b := Int(1)]),
                  Entry([Key(a), Key(b)], Int(0), Int(1)));
  }

  /** An empty key leaves no trace: what is below it is printed like its neighbour of the same name. */
  lemma EmptyKeyCollides(b: string)
    requires b != ""
    ensures PrintedTwice(b)
  {
    NestedEntry("", b);
    FieldsCollide(b, "", Obj(map[b := Int(0)]), Obj(map[b := Int(1)]), Entry([Key(""), Key(b)], Int(0), Int(1)));
  }

  /** A key that ends like an index is printed like the item of a list. */
  lemma BracketedKeysCollide(a: string)
    ensures PrintedTwice(a + "[0]")
  {
    var inner, inner' := Arr([Int(0)]), Arr([Int(1)]);
    var e := Entry([Key(a), Index(0)], Int(0), Int(1));
    assert [Key(a)] + [Index(0)] == [Key(a), Index(0)];
    LeafDiff(Int(0), Int(1), [Key(a), Index(0)]);
    assert e in DiffItem(0, inner, inner', [Key(a)]);
    assert e in DiffItems(0, inner, inner', [Key(a)]);
    RenderTwo(a, Index(0));
    assert a + "[" + Decimal(0) + "]" == a + "[0]";
    assert |a + "[0]"| > |a|;
    FieldsCollide(a + "[0]", a, inner, inner', e);
  }
}
