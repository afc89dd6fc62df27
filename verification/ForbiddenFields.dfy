/** The three separate searches for executable fields inside a structured contract, and why they agree. */
module ForbiddenFields {
  import opened Json
  import opened Strings

  /** The order in which a dictionary found at a path is iterated. */
  type KeyOrder = (string, map<string, Value>) -> seq<string>

  ghost predicate Enumerates(order: KeyOrder) {
    forall path, fields :: KeysListed(order(path, fields), fields)
  }

  ghost predicate KeysListed(keys: seq<string>, fields: map<string, Value>) {
    forall k :: k in keys <==> k in fields
  }

  /** The field set of the Episode. */
  const FORBIDDEN_EXECUTION_FIELDS := {
    "cad_code", "cadquery_code", "command", "model_code", "python_code", "shell", "shell_command", "script"}

  /** The field set of the adapter validation, which the Tool Broker imports. */
  const FORBIDDEN_BYPASS_KEYS := {
    "cad_code", "cadquery_code", "command", "model_code", "python_code", "shell", "shell_command", "script"}

  function Child(path: string, key: string): string {
    if path == "" then key else path + "." + key
  }

  function Element(path: string, index: nat): string {
    path + "[" + Decimal(index) + "]"
  }

  // ------------------------------------- the Episode: raises at the first field

  function RejectExecutionFields(v: Value, path: string, order: KeyOrder): Result<(), string>
    requires Enumerates(order)
    decreases v, 1, 0
  {
    match v
    case Obj(fields) =>
      assert KeysListed(order(path, fields), fields);
      RejectExecutionEntries(v, order(path, fields), path, order)
    case Arr(items) => RejectExecutionItems(v, 0, path, order)
    case _ => Ok(())
  }

  function RejectExecutionEntries(v: Value, keys: seq<string>, path: string, order: KeyOrder): Result<(), string>
    requires Enumerates(order) && v.Obj? && forall k | k in keys :: k in v.fields
    decreases v, 0, |keys|
  {
    if keys == [] then Ok(())
    else if Lower(keys[0]) in FORBIDDEN_EXECUTION_FIELDS then Err(Child(path, keys[0]))
    else
      var nested := RejectExecutionFields(v.fields[keys[0]], Child(path, keys[0]), order);
      if nested.Err? then nested else RejectExecutionEntries(v, keys[1..], path, order)
  }

  function RejectExecutionItems(v: Value, i: nat, path: string, order: KeyOrder): Result<(), string>
    requires Enumerates(order) && v.Arr? && i <= |v.items|
    decreases v, 0, |v.items| - i
  {
    if i == |v.items| then Ok(())
    else
      var nested := RejectExecutionFields(v.items[i], Element(path, i), order);
      if nested.Err? then nested else RejectExecutionItems(v, i + 1, path, order)
  }

  // --------------------------------- the Tool Broker: returns the first it finds

  function FindForbiddenField(v: Value, path: string, order: KeyOrder): Option<string>
    requires Enumerates(order)
    decreases v, 1, 0
  {
    match v
    case Obj(fields) =>
      assert KeysListed(order(path, fields), fields);
      FindInEntries(v, order(path, fields), path, order)
    case Arr(items) => FindInItems(v, 0, path, order)
    case _ => None
  }

  function FindInEntries(v: Value, keys: seq<string>, path: string, order: KeyOrder): Option<string>
    requires Enumerates(order) && v.Obj? && forall k | k in keys :: k in v.fields
    decreases v, 0, |keys|
  {
    if keys == [] then None
    else if Lower(keys[0]) in FORBIDDEN_BYPASS_KEYS then Some(Child(path, keys[0]))
    else
      var found := FindForbiddenField(v.fields[keys[0]], Child(path, keys[0]), order);
      if found.Some? then found else FindInEntries(v, keys[1..], path, order)
  }

  function FindInItems(v: Value, i: nat, path: string, order: KeyOrder): Option<string>
    requires Enumerates(order) && v.Arr? && i <= |v.items|
    decreases v, 0, |v.items| - i
  {
    if i == |v.items| then None
    else
      var found := FindForbiddenField(v.items[i], Element(path, i), order);
      if found.Some? then found else FindInItems(v, i + 1, path, order)
  }

  // ---------------------------------- adapter outputs: raises at the first field

  function RejectBypass(v: Value, path: string, order: KeyOrder): Result<(), string>
    requires Enumerates(order)
    decreases v, 1, 0
  {
    match v
    case Obj(fields) =>
      assert KeysListed(order(path, fields), fields);
      RejectBypassEntries(v, order(path, fields), path, order)
    case Arr(items) => RejectBypassItems(v, 0, path, order)
    case _ => Ok(())
  }

  function RejectBypassEntries(v: Value, keys: seq<string>, path: string, order: KeyOrder): Result<(), string>
    requires Enumerates(order) && v.Obj? && forall k | k in keys :: k in v.fields
    decreases v, 0, |keys|
  {
    if keys == [] then Ok(())
    else if Lower(keys[0]) in FORBIDDEN_BYPASS_KEYS then Err(Child(path, keys[0]))
    else
      var nested := RejectBypass(v.fields[keys[0]], Child(path, keys[0]), order);
      if nested.Err? then nested else RejectBypassEntries(v, keys[1..], path, order)
  }

  function RejectBypassItems(v: Value, i: nat, path: string, order: KeyOrder): Result<(), string>
    requires Enumerates(order) && v.Arr? && i <= |v.items|
    decreases v, 0, |v.items| - i
  {
    if i == |v.items| then Ok(())
    else
      var nested := RejectBypass(v.items[i], Element(path, i), order);
      if nested.Err? then nested else RejectBypassItems(v, i + 1, path, order)
  }

  // ------------------------------------------------ what each of them should say

  datatype Occurrence = Occurrence(path: string, key: string)

  /** Every field occurrence of a document with its path, each before the ones nested in it. */
  ghost function Occurrences(v: Value, path: string, order: KeyOrder): seq<Occurrence>
    requires Enumerates(order)
    decreases v, 1, 0
  {
    match v
    case Obj(fields) =>
      assert KeysListed(order(path, fields), fields);
      EntryOccurrences(v, order(path, fields), path, order)
    case Arr(items) => ItemOccurrences(v, 0, path, order)
    case _ => []
  }

  ghost function EntryOccurrences(v: Value, keys: seq<string>, path: string, order: KeyOrder): seq<Occurrence>
    requires Enumerates(order) && v.Obj? && forall k | k in keys :: k in v.fields
    decreases v, 0, |keys|
  {
    if keys == [] then []
    else
      [Occurrence(Child(path, keys[0]), keys[0])]
      + Occurrences(v.fields[keys[0]], Child(path, keys[0]), order)
      + EntryOccurrences(v, keys[1..], path, order)
  }

  ghost function ItemOccurrences(v: Value, i: nat, path: string, order: KeyOrder): seq<Occurrence>
    requires Enumerates(order) && v.Arr? && i <= |v.items|
    decreases v, 0, |v.items| - i
  {
    if i == |v.items| then []
    else Occurrences(v.items[i], Element(path, i), order) + ItemOccurrences(v, i + 1, path, order)
  }

  predicate Executable(key: string) {
    Lower(key) in {"cad_code", "cadquery_code", "command", "model_code", "python_code",
                   "shell", "shell_command", "script"}
  }

  /** The path of the first occurrence whose lower-cased name is an executable field. */
  function FirstExecutable(all: seq<Occurrence>): Option<string> {
    if all == [] then None
    else if Executable(all[0].key) then Some(all[0].path)
    else FirstExecutable(all[1..])
  }

  lemma {:induction false} FirstOfConcat(x: seq<Occurrence>, y: seq<Occurrence>)
    ensures FirstExecutable(x + y) == if FirstExecutable(x).Some? then FirstExecutable(x) else FirstExecutable(y)
  {
    if x == [] {
      assert x + y == y;
    } else {
      assert (x + y)[1..] == x[1..] + y;
      FirstOfConcat(x[1..], y);
    }
  }

  lemma FirstOfEntry(head: Occurrence, nested: seq<Occurrence>, rest: seq<Occurrence>)
    ensures FirstExecutable([head] + nested + rest)
         == if Executable(head.key) then Some(head.path)
            else if FirstExecutable(nested).Some? then FirstExecutable(nested) else FirstExecutable(rest)
  {
    assert [head] + nested + rest == [head] + (nested + rest);
    assert ([head] + (nested + rest))[1..] == nested + rest;
    FirstOfConcat(nested, rest);
  }

  function AsResult(found: Option<string>): Result<(), string> {
    if found.Some? then Err(found.value) else Ok(())
  }

  /** All three searches report the first executable occurrence, and nothing else. */
  lemma {:induction false} TraversalsAgree(v: Value, path: string, order: KeyOrder)
    requires Enumerates(order)
    ensures FindForbiddenField(v, path, order) == FirstExecutable(Occurrences(v, path, order))
    ensures RejectExecutionFields(v, path, order) == AsResult(FindForbiddenField(v, path, order))
    ensures RejectBypass(v, path, order) == AsResult(FindForbiddenField(v, path, order))
    decreases v, 1, 0
  {
    match v
    case Obj(fields) =>
      assert KeysListed(order(path, fields), fields);
      EntriesAgree(v, order(path, fields), path, order);
    case Arr(items) => ItemsAgree(v, 0, path, order);
    case _ =>
  }

  lemma {:induction false} EntriesAgree(v: Value, keys: seq<string>, path: string, order: KeyOrder)
    requires Enumerates(order) && v.Obj? && forall k | k in keys :: k in v.fields
    ensures FindInEntries(v, keys, path, order) == FirstExecutable(EntryOccurrences(v, keys, path, order))
    ensures RejectExecutionEntries(v, keys, path, order) == AsResult(FindInEntries(v, keys, path, order))
    ensures RejectBypassEntries(v, keys, path, order) == AsResult(FindInEntries(v, keys, path, order))
    decreases v, 0, |keys|
  {
    if keys != [] {
      var child, at := v.fields[keys[0]], Child(path, keys[0]);
      TraversalsAgree(child, at, order);
      EntriesAgree(v, keys[1..], path, order);
      FirstOfEntry(Occurrence(at, keys[0]), Occurrences(child, at, order), EntryOccurrences(v, keys[1..], path, order));
    }
  }

  lemma {:induction false} ItemsAgree(v: Value, i: nat, path: string, order: KeyOrder)
    requires Enumerates(order) && v.Arr? && i <= |v.items|
    ensures FindInItems(v, i, path, order) == FirstExecutable(ItemOccurrences(v, i, path, order))
    ensures RejectExecutionItems(v, i, path, order) == AsResult(FindInItems(v, i, path, order))
    ensures RejectBypassItems(v, i, path, order) == AsResult(FindInItems(v, i, path, order))
    decreases v, 0, |v.items| - i
  {
    if i < |v.items| {
      TraversalsAgree(v.items[i], Element(path, i), order);
      ItemsAgree(v, i + 1, path, order);
      FirstOfConcat(Occurrences(v.items[i], Element(path, i), order), ItemOccurrences(v, i + 1, path, order));
    }
  }

  // --------------------------------------- acceptance does not depend on the order

  /** No dictionary at any depth has an executable field. */
  predicate Clear(v: Value) {
    match v
    case Obj(fields) => forall k | k in fields :: !Executable(k) && Clear(fields[k])
    case Arr(items) => forall i | 0 <= i < |items| :: Clear(items[i])
    case _ => true
  }

  /** A search comes back empty exactly when no field at any depth is executable. */
  lemma {:induction false} AcceptedIffClear(v: Value, path: string, order: KeyOrder)
    requires Enumerates(order)
    ensures FindForbiddenField(v, path, order).None? <==> Clear(v)
    decreases v, 1, 0
  {
    match v
    case Obj(fields) =>
      assert KeysListed(order(path, fields), fields);
      EntriesClear(v, order(path, fields), path, order);
    case Arr(items) => ItemsClear(v, 0, path, order);
    case _ =>
  }

  lemma {:induction false} EntriesClear(v: Value, keys: seq<string>, path: string, order: KeyOrder)
    requires Enumerates(order) && v.Obj? && forall k | k in keys :: k in v.fields
    ensures FindInEntries(v, keys, path, order).None? <==> forall k | k in keys :: !Executable(k) && Clear(v.fields[k])
    decreases v, 0, |keys|
  {
    if keys != [] {
      AcceptedIffClear(v.fields[keys[0]], Child(path, keys[0]), order);
      EntriesClear(v, keys[1..], path, order);
      assert keys == [keys[0]] + keys[1..];
    }
  }

  lemma {:induction false} ItemsClear(v: Value, i: nat, path: string, order: KeyOrder)
    requires Enumerates(order) && v.Arr? && i <= |v.items|
    ensures FindInItems(v, i, path, order).None? <==> forall j | i <= j < |v.items| :: Clear(v.items[j])
    decreases v, 0, |v.items| - i
  {
    if i < |v.items| {
      AcceptedIffClear(v.items[i], Element(path, i), order);
      ItemsClear(v, i + 1, path, order);
    }
  }

  /** Whatever the Episode accepted as a draft, the Tool Broker and the adapter check accept too. */
  lemma AcceptedDraftIsNeverForbidden(draft: Value, order: KeyOrder, brokerOrder: KeyOrder)
    requires Enumerates(order) && Enumerates(brokerOrder)
    requires RejectExecutionFields(draft, "", order).Ok?
    ensures Clear(draft)
    ensures FindForbiddenField(draft, "", brokerOrder).None? && RejectBypass(draft, "", brokerOrder).Ok?
  {
    TraversalsAgree(draft, "", order);
    AcceptedIffClear(draft, "", order);
    AcceptedIffClear(draft, "", brokerOrder);
    TraversalsAgree(draft, "", brokerOrder);
  }
}
