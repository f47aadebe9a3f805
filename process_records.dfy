/** The record transforms of the load workflow and the loop that applies them
    to every record the paginator yields (workflows/process_paginated_records.py). */
module ProcessRecords {
  import opened Outcomes
  import opened Strings
  import opened Json
  import opened Endpoints
  import opened Helpers
  import opened Storage
  import opened OvergradApi
  import opened Config

  // ---------------------------------------------------------------------------
  // Nested objects

  /** `_flatten_nested_fields`: each entry of the child object renamed to
      `{parent}_{key}`, in the child's order. */
  function FlattenNestedFields(parent: string, children: seq<(string, Value)>): seq<(string, Value)>
  {
    seq(|children|, i requires 0 <= i < |children| => (parent + "_" + children[i].0, children[i].1))
  }

  /** Whether `name` starts with `{parent}_`. */
  predicate PrefixedBy(name: string, parent: string)
  {
    |parent| + 1 <= |name| && name[..|parent| + 1] == parent + "_"
  }

  /** Flattening keeps the size and the values, renames every key to
      `{parent}_{key}`, and keeps different keys different, so the resulting
      dict has one entry per child entry. */
  lemma FlattenNestedFieldsShape(parent: string, children: seq<(string, Value)>)
    ensures var r := FlattenNestedFields(parent, children);
      && |r| == |children|
      && (forall i :: 0 <= i < |r| ==> r[i].0 == parent + "_" + children[i].0 && r[i].1 == children[i].1)
      && (forall i :: 0 <= i < |r| ==> PrefixedBy(r[i].0, parent))
      && (DistinctKeys(children) ==> DistinctKeys(r))
  {
    var r := FlattenNestedFields(parent, children);
    forall i | 0 <= i < |r|
      ensures PrefixedBy(r[i].0, parent)
    {
      assert r[i].0 == (parent + "_") + children[i].0;
    }
    if DistinctKeys(children) {
      forall i, j | 0 <= i < j < |r|
        ensures r[i].0 != r[j].0
      {
        if r[i].0 == r[j].0 {
          SameSuffix(parent + "_", children[i].0, children[j].0);
        }
      }
    }
  }

  /** The keys of a dict's entries. */
  function KeySet(entries: seq<(string, Value)>): set<string>
  {
    set i | 0 <= i < |entries| :: entries[i].0
  }

  /** The keys of the entries grow by the last one. */
  lemma KeySetSnoc(entries: seq<(string, Value)>)
    requires entries != []
    ensures KeySet(entries) == KeySet(entries[..|entries| - 1]) + {entries[|entries| - 1].0}
  {
    var init := entries[..|entries| - 1];
    forall k | k in KeySet(entries)
      ensures k in KeySet(init) + {entries[|entries| - 1].0}
    {
      var i :| 0 <= i < |entries| && entries[i].0 == k;
      if i < |entries| - 1 {
        assert init[i].0 == k;
      }
    }
  }

  /** `record.update(entries)`: the entries written in order, a later one
      overwriting an earlier one with the same key. */
  function UpdateWith(record: Record, entries: seq<(string, Value)>): (r: Record)
    ensures r.Keys == record.Keys + KeySet(entries)
    ensures forall k :: k in record && k !in KeySet(entries) ==> r[k] == record[k]
  {
    if entries == [] then record
    else
      var last := entries[|entries| - 1];
      var before := UpdateWith(record, entries[..|entries| - 1]);
      KeySetSnoc(entries);
      before[last.0 := last.1]
  }

  /** After an update with distinct keys every entry's value is in place. */
  lemma {:induction false} UpdateWithDistinct(record: Record, entries: seq<(string, Value)>)
    requires DistinctKeys(entries)
    ensures forall i :: 0 <= i < |entries| ==> UpdateWith(record, entries)[entries[i].0] == entries[i].1
  {
    if entries != [] {
      var init, last := entries[..|entries| - 1], entries[|entries| - 1];
      UpdateWithDistinct(record, init);
      forall i | 0 <= i < |entries|
        ensures UpdateWith(record, entries)[entries[i].0] == entries[i].1
      {
        if i < |entries| - 1 {
          assert init[i] == entries[i];
          assert entries[i].0 != last.0;
        }
      }
    }
  }

  /** One pass of `_process_nested_fields`: pop the nested key (a KeyError
      when it is missing) and, when its value is non-empty, merge in its
      entries under prefixed names; only a dict has `.items()`. */
  function NestedStep(record: Record, key: string): Result<Record>
  {
    if key !in record then Err(KeyError(key))
    else
      var child := record[key];
      var rest := record - {key};
      if !Truthy(child) then Ok(rest)
      else if !child.Obj? then Err(AttributeError)
      else Ok(UpdateWith(rest, FlattenNestedFields(key, child.entries)))
  }

  /** One pass removes the nested key, keeps every other key the child
      does not overwrite, and brings in the child's entries under prefixed
      names; an empty or None child brings in nothing. */
  lemma NestedStepEffect(record: Record, key: string)
    ensures NestedStep(record, key).Err? <==>
      key !in record || (Truthy(record[key]) && !record[key].Obj?)
    ensures key !in record ==> NestedStep(record, key) == Err(KeyError(key))
    ensures NestedStep(record, key).Ok? ==> key !in NestedStep(record, key).value
    ensures NestedStep(record, key).Ok? ==> forall k :: k in NestedStep(record, key).value ==>
      (k in record && k != key) || PrefixedBy(k, key)
    ensures NestedStep(record, key).Ok? ==> forall k :: k in record && k != key && !PrefixedBy(k, key) ==>
      k in NestedStep(record, key).value && NestedStep(record, key).value[k] == record[k]
    ensures key in record && !Truthy(record[key]) ==> NestedStep(record, key) == Ok(record - {key})
    ensures key in record && record[key].Obj? && Truthy(record[key]) && DistinctKeys(record[key].entries) ==>
      var es := record[key].entries;
      forall i :: 0 <= i < |es| ==>
        key + "_" + es[i].0 in NestedStep(record, key).value &&
        NestedStep(record, key).value[key + "_" + es[i].0] == es[i].1
  {
    if key in record && Truthy(record[key]) && record[key].Obj? {
      var es := record[key].entries;
      var flat := FlattenNestedFields(key, es);
      FlattenNestedFieldsShape(key, es);
      if DistinctKeys(es) {
        UpdateWithDistinct(record - {key}, flat);
      }
      forall i | 0 <= i < |flat|
        ensures flat[i].0 != key
      {
        assert |flat[i].0| > |key|;
      }
    }
  }

  /** `_process_nested_fields` over the configured keys, in order; the first
      failing pass ends it. */
  function NestedSpec(record: Record, keys: seq<string>): Result<Record>
  {
    if keys == [] then Ok(record)
    else
      match NestedSpec(record, keys[..|keys| - 1])
      case Err(e) => Err(e)
      case Ok(r) => NestedStep(r, keys[|keys| - 1])
  }

  /** No configured key starts with another configured key and `_`. */
  predicate NoNestedPrefix(keys: seq<string>)
  {
    forall i, j :: 0 <= i < |keys| && 0 <= j < |keys| ==> !PrefixedBy(keys[i], keys[j])
  }

  /** When no configured key is a flattened name of another, a successful
      run leaves none of the configured keys in the record. */
  lemma {:induction false} NestedSpecRemovesKeys(record: Record, keys: seq<string>)
    requires NoNestedPrefix(keys)
    ensures NestedSpec(record, keys).Ok? ==> forall i :: 0 <= i < |keys| ==> keys[i] !in NestedSpec(record, keys).value
  {
    if keys != [] && NestedSpec(record, keys).Ok? {
      var init := keys[..|keys| - 1];
      var last := keys[|keys| - 1];
      assert NoNestedPrefix(init);
      NestedSpecRemovesKeys(record, init);
      var before := NestedSpec(record, init).value;
      NestedStepEffect(before, last);
      forall i | 0 <= i < |keys|
        ensures keys[i] !in NestedSpec(record, keys).value
      {
        if i < |keys| - 1 {
          assert init[i] == keys[i];
          assert !PrefixedBy(keys[i], last);
        }
      }
    }
  }

  /** A missing configured key is a KeyError naming it, when every key
      before it could be processed. */
  lemma MissingNestedKey(record: Record, keys: seq<string>)
    requires |keys| >= 1 && NestedSpec(record, keys[..|keys| - 1]).Ok?
    requires keys[|keys| - 1] !in NestedSpec(record, keys[..|keys| - 1]).value
    ensures NestedSpec(record, keys) == Err(KeyError(keys[|keys| - 1]))
  {
  }

  /** `_process_nested_fields`: changes the record in place; iterating over a
      missing key list is a TypeError. */
  method ProcessNestedFields(record: RecordRef, endpoint: Endpoint) returns (r: Result<()>)
    modifies record
    ensures endpoint.nestedFields.None? ==> r == Err(TypeError) && record.fields == old(record.fields)
    ensures endpoint.nestedFields.Some? ==>
      match NestedSpec(old(record.fields), endpoint.nestedFields.value)
      case Ok(v) => r == Ok(()) && record.fields == v
      case Err(e) => r == Err(e)
  {
    if endpoint.nestedFields.None? {
      return Err(TypeError);
    }
    var keys := endpoint.nestedFields.value;
    ghost var original := record.fields;
    for i := 0 to |keys|
      invariant NestedSpec(original, keys[..i]) == Ok(record.fields)
    {
      assert keys[..i + 1][..i] == keys[..i];
      var key := keys[i];
      if key !in record.fields {
        NestedErrorPersists(original, keys, i + 1);
        return Err(KeyError(key));
      }
      var child := record.fields[key];
      record.fields := record.fields - {key};
      if Truthy(child) {
        if !child.Obj? {
          NestedErrorPersists(original, keys, i + 1);
          return Err(AttributeError);
        }
        var flattened := FlattenNestedFields(key, child.entries);
        record.fields := UpdateWith(record.fields, flattened);
      }
    }
    assert keys[..|keys|] == keys;
    r := Ok(());
  }

  /** A failure on a prefix of the keys is the failure of the whole run. */
  lemma {:induction false} NestedErrorPersists(record: Record, keys: seq<string>, n: nat)
    requires n <= |keys| && NestedSpec(record, keys[..n]).Err?
    ensures NestedSpec(record, keys) == NestedSpec(record, keys[..n])
    decreases |keys| - n
  {
    if n < |keys| {
      assert keys[..n + 1][..n] == keys[..n];
      NestedErrorPersists(record, keys, n + 1);
    } else {
      assert keys[..n] == keys;
    }
  }

  // ---------------------------------------------------------------------------
  // Custom-field rows

  /** The keys of a custom-field row. */
  const RowKeys: set<string> := {"id", "custom_field_id", "value_type", "value"}

  /** One custom-field row. */
  function Row(parent: Value, fieldId: Value, key: string, value: Value): Record
  {
    map["id" := parent, "custom_field_id" := fieldId, "value_type" := Str(key), "value" := value]
  }

  /** Whether `row` is a row of the parent record and field, for one of `keys`. */
  predicate RowOf(row: Record, parent: Value, fieldId: Value, keys: set<string>)
  {
    && row.Keys == RowKeys
    && row["id"] == parent && row["custom_field_id"] == fieldId
    && row["value_type"].Str? && row["value_type"].s in keys && row["value_type"].s != "custom_field_id"
  }

  /** One row per value, in order, all of the same field and kind. */
  function RowsOf(parent: Value, fieldId: Value, key: string, vs: seq<Value>): (r: seq<Record>)
    ensures |r| == |vs|
    ensures forall i :: 0 <= i < |vs| ==> r[i] == Row(parent, fieldId, key, vs[i])
  {
    seq(|vs|, i requires 0 <= i < |vs| => Row(parent, fieldId, key, vs[i]))
  }

  /** The rows one entry of an item contributes: none for `custom_field_id`,
      one per element of a `multiselect` list, in order, and one otherwise. */
  function EntryRows(parent: Value, fieldId: Value, key: string, value: Value): (r: Result<seq<Record>>)
    ensures key == "custom_field_id" ==> r == Ok([])
    ensures key != "custom_field_id" && key != "multiselect" ==> r == Ok([Row(parent, fieldId, key, value)])
    ensures r.Ok? ==> forall row :: row in r.value ==> RowOf(row, parent, fieldId, {key})
    ensures key == "multiselect" && value.Arr? ==>
      r.Ok? && |r.value| == |value.elems| &&
      forall i :: 0 <= i < |value.elems| ==>
        r.value[i].Keys == RowKeys && r.value[i]["value"] == value.elems[i] &&
        r.value[i]["value_type"] == Str("multiselect")
  {
    if key == "custom_field_id" then Ok([])
    else if key == "multiselect" then
      match Iterate(value)
      case Err(e) => Err(e)
      case Ok(vs) => Ok(RowsOf(parent, fieldId, key, vs))
    else Ok([Row(parent, fieldId, key, value)])
  }

  /** The rows of an item's entries, in order; the first failing entry ends it. */
  function EntriesRows(parent: Value, fieldId: Value, entries: seq<(string, Value)>): (r: Result<seq<Record>>)
    ensures r.Ok? ==> forall row :: row in r.value ==> RowOf(row, parent, fieldId, KeySet(entries))
  {
    if entries == [] then Ok([])
    else
      var last := entries[|entries| - 1];
      KeySetSnoc(entries);
      match EntriesRows(parent, fieldId, entries[..|entries| - 1])
      case Err(e) => Err(e)
      case Ok(rows) =>
        match EntryRows(parent, fieldId, last.0, last.1)
        case Err(e) => Err(e)
        case Ok(more) => Ok(rows + more)
  }

  /** The rows of one item: its `custom_field_id` (the item must be a dict
      that has one), then its entries. */
  function ItemRows(parent: Value, item: Value): (r: Result<seq<Record>>)
    ensures r.Ok? ==> item.Obj? && Lookup(item.entries, "custom_field_id").Some?
    ensures r.Ok? ==> forall row :: row in r.value ==>
      RowOf(row, parent, Lookup(item.entries, "custom_field_id").value, KeySet(item.entries))
  {
    match Subscript(item, "custom_field_id")
    case Err(e) => Err(e)
    case Ok(fieldId) => EntriesRows(parent, fieldId, item.entries)
  }

  /** The rows of the items, in order; the first failing item ends it. */
  function ItemsRows(parent: Value, items: seq<Value>): (r: Result<seq<Record>>)
    ensures r.Ok? ==> forall row :: row in r.value ==> row.Keys == RowKeys && row["id"] == parent
  {
    if items == [] then Ok([])
    else
      match ItemsRows(parent, items[..|items| - 1])
      case Err(e) => Err(e)
      case Ok(rows) =>
        match ItemRows(parent, items[|items| - 1])
        case Err(e) => Err(e)
        case Ok(more) => Ok(rows + more)
  }

  /** The record after `_flatten_custom_fields` and the rows it returns. */
  datatype Flattened = Flattened(record: Record, rows: seq<Record>)

  /** `_flatten_custom_fields`: pop the custom-field list (an empty list when
      the key is absent), then one row per entry as above; every row carries
      the record's own id. */
  function FlattenSpec(record: Record, customField: CustomField): (r: Result<Flattened>)
    ensures r.Ok? ==> r.value.record == record - {customField.fieldName}
    ensures customField.fieldName !in record ==> r == Ok(Flattened(record, []))
    ensures r.Ok? ==> forall row :: row in r.value.rows ==>
      row.Keys == RowKeys && row["id"] == Get(record - {customField.fieldName}, "id")
  {
    var value := if customField.fieldName in record then record[customField.fieldName] else Arr([]);
    var rest := record - {customField.fieldName};
    var parent := Get(rest, "id");
    assert customField.fieldName !in record ==> rest == record;
    match Iterate(value)
    case Err(e) => Err(e)
    case Ok(items) =>
      match ItemsRows(parent, items)
      case Err(e) => Err(e)
      case Ok(rows) => Ok(Flattened(rest, rows))
  }

  /** A failing entry ends the rows of the whole item. */
  lemma {:induction false} EntriesErrorPersists(parent: Value, fieldId: Value, entries: seq<(string, Value)>, n: nat)
    requires n <= |entries| && EntriesRows(parent, fieldId, entries[..n]).Err?
    ensures EntriesRows(parent, fieldId, entries) == EntriesRows(parent, fieldId, entries[..n])
    decreases |entries| - n
  {
    if n < |entries| {
      assert entries[..n + 1][..n] == entries[..n];
      EntriesErrorPersists(parent, fieldId, entries, n + 1);
    } else {
      assert entries[..n] == entries;
    }
  }

  /** A failing item ends the rows of the whole list. */
  lemma {:induction false} ItemsErrorPersists(parent: Value, items: seq<Value>, n: nat)
    requires n <= |items| && ItemsRows(parent, items[..n]).Err?
    ensures ItemsRows(parent, items) == ItemsRows(parent, items[..n])
    decreases |items| - n
  {
    if n < |items| {
      assert items[..n + 1][..n] == items[..n];
      ItemsErrorPersists(parent, items, n + 1);
    } else {
      assert items[..n] == items;
    }
  }

  /** One more entry of an item. */
  lemma EntriesRowsStep(parent: Value, fieldId: Value, entries: seq<(string, Value)>, j: nat, rows: seq<Record>)
    requires j < |entries| && EntriesRows(parent, fieldId, entries[..j]) == Ok(rows)
    ensures EntriesRows(parent, fieldId, entries[..j + 1])
      == match EntryRows(parent, fieldId, entries[j].0, entries[j].1)
         case Err(e) => Err(e)
         case Ok(more) => Ok(rows + more)
  {
    assert entries[..j + 1][..j] == entries[..j];
    assert entries[..j + 1][j] == entries[j];
  }

  /** The inner loops of `_flatten_custom_fields` for one item: its rows
      appended to the list built so far, or the first failure. */
  method AppendItemRows(parentId: Value, fieldId: Value, entries: seq<(string, Value)>, flattened: seq<Record>)
    returns (r: Result<seq<Record>>)
    ensures EntriesRows(parentId, fieldId, entries).Ok? ==>
      r == Ok(flattened + EntriesRows(parentId, fieldId, entries).value)
    ensures EntriesRows(parentId, fieldId, entries).Err? ==>
      r == Err(EntriesRows(parentId, fieldId, entries).error)
  {
    var rows := flattened;
    ghost var itemRows: seq<Record> := [];
    for j := 0 to |entries|
      invariant EntriesRows(parentId, fieldId, entries[..j]) == Ok(itemRows)
      invariant rows == flattened + itemRows
    {
      var appended;
      appended, itemRows := AppendNextEntry(parentId, fieldId, entries, j, flattened, itemRows, rows);
      if appended.Err? {
        EntriesErrorPersists(parentId, fieldId, entries, j + 1);
        return appended;
      }
      rows := appended.value;
    }
    assert entries[..|entries|] == entries;
    r := Ok(rows);
  }

  /** One turn of the loop over an item's entries: the rows of entry `j`
      appended to those of the entries before it. */
  method AppendNextEntry(parentId: Value, fieldId: Value, entries: seq<(string, Value)>, j: nat,
                         ghost flattened: seq<Record>, ghost itemRows: seq<Record>, rows: seq<Record>)
    returns (r: Result<seq<Record>>, ghost nextRows: seq<Record>)
    requires j < |entries| && EntriesRows(parentId, fieldId, entries[..j]) == Ok(itemRows)
    requires rows == flattened + itemRows
    ensures r.Err? ==> EntriesRows(parentId, fieldId, entries[..j + 1]) == Err(r.error)
    ensures r.Ok? ==> EntriesRows(parentId, fieldId, entries[..j + 1]) == Ok(nextRows)
    ensures r.Ok? ==> r.value == flattened + nextRows
  {
    EntriesRowsStep(parentId, fieldId, entries, j, itemRows);
    var key, value := entries[j].0, entries[j].1;
    r := AppendEntryRows(parentId, fieldId, key, value, rows);
    nextRows := itemRows;
    if r.Ok? {
      nextRows := itemRows + EntryRows(parentId, fieldId, key, value).value;
      assert r.value == (flattened + itemRows) + EntryRows(parentId, fieldId, key, value).value;
    }
  }

  /** The body of the loop over an item's entries: `custom_field_id` is
      skipped, a `multiselect` list gives one row per element, any other key
      one row. */
  method AppendEntryRows(parentId: Value, fieldId: Value, key: string, value: Value, flattened: seq<Record>)
    returns (r: Result<seq<Record>>)
    ensures EntryRows(parentId, fieldId, key, value).Ok? ==>
      r == Ok(flattened + EntryRows(parentId, fieldId, key, value).value)
    ensures EntryRows(parentId, fieldId, key, value).Err? ==>
      r == Err(EntryRows(parentId, fieldId, key, value).error)
  {
    if key == "custom_field_id" {
      assert flattened + [] == flattened;
      return Ok(flattened);
    }
    if key == "multiselect" {
      var values := Iterate(value);
      if values.Err? {
        return Err(values.error);
      }
      var rows := AppendMultiselectRows(parentId, fieldId, values.value, flattened);
      return Ok(rows);
    }
    r := Ok(flattened + [Row(parentId, fieldId, key, value)]);
  }

  /** The innermost loop: one `multiselect` row per value, appended in order. */
  method AppendMultiselectRows(parentId: Value, fieldId: Value, values: seq<Value>, flattened: seq<Record>)
    returns (rows: seq<Record>)
    ensures rows == flattened + RowsOf(parentId, fieldId, "multiselect", values)
  {
    rows := flattened;
    for k := 0 to |values|
      invariant rows == flattened + RowsOf(parentId, fieldId, "multiselect", values[..k])
    {
      assert RowsOf(parentId, fieldId, "multiselect", values[..k + 1])
        == RowsOf(parentId, fieldId, "multiselect", values[..k]) + [Row(parentId, fieldId, "multiselect", values[k])];
      rows := rows + [Row(parentId, fieldId, "multiselect", values[k])];
    }
    assert values[..|values|] == values;
  }

  /** `_flatten_custom_fields`: pops the custom-field list from the record in
      place and appends the rows one by one; an endpoint without a custom
      field has no `field_name` to pop. */
  method FlattenCustomFields(record: RecordRef, endpoint: Endpoint) returns (r: Result<seq<Record>>)
    modifies record
    ensures endpoint.customField.None? ==> r == Err(AttributeError) && record.fields == old(record.fields)
    ensures endpoint.customField.Some? ==>
      record.fields == old(record.fields) - {endpoint.customField.value.fieldName}
    ensures endpoint.customField.Some? ==>
      match FlattenSpec(old(record.fields), endpoint.customField.value)
      case Ok(f) => r == Ok(f.rows)
      case Err(e) => r == Err(e)
  {
    if endpoint.customField.None? {
      return Err(AttributeError);
    }
    var name := endpoint.customField.value.fieldName;
    var customFields := if name in record.fields then record.fields[name] else Arr([]);
    record.fields := record.fields - {name};
    var parentId := Get(record.fields, "id");
    var iterated := Iterate(customFields);
    if iterated.Err? {
      return Err(iterated.error);
    }
    var items := iterated.value;
    var flattened: seq<Record> := [];
    for i := 0 to |items|
      invariant ItemsRows(parentId, items[..i]) == Ok(flattened)
      invariant record.fields == old(record.fields) - {name}
    {
      assert items[..i + 1][..i] == items[..i];
      var item := items[i];
      var fieldId := Subscript(item, "custom_field_id");
      if fieldId.Err? {
        ItemsErrorPersists(parentId, items, i + 1);
        return Err(fieldId.error);
      }
      var extended := AppendItemRows(parentId, fieldId.value, item.entries, flattened);
      if extended.Err? {
        assert ItemsRows(parentId, items[..i + 1]) == Err(extended.error);
        ItemsErrorPersists(parentId, items, i + 1);
        return Err(extended.error);
      }
      flattened := extended.value;
    }
    assert items[..|items|] == items;
    r := Ok(flattened);
  }

  /** The number of rows one entry contributes: none for the field id, one
      per value of a multiselect, one otherwise. */
  function EntryRowCount(key: string, value: Value): nat
  {
    if key == "custom_field_id" then 0
    else if key == "multiselect" then
      match Iterate(value)
      case Ok(vs) => |vs|
      case Err(_) => 0
    else 1
  }

  /** The number of rows of an item's entries. */
  function RowCount(entries: seq<(string, Value)>): nat
  {
    if entries == [] then 0 else RowCount(entries[..|entries| - 1]) + EntryRowCount(entries[|entries| - 1].0, entries[|entries| - 1].1)
  }

  /** An item yields exactly the rows its entries count for. */
  lemma {:induction false} EntriesRowsCount(parent: Value, fieldId: Value, entries: seq<(string, Value)>)
    ensures EntriesRows(parent, fieldId, entries).Ok? ==> |EntriesRows(parent, fieldId, entries).value| == RowCount(entries)
  {
    if entries != [] {
      EntriesRowsCount(parent, fieldId, entries[..|entries| - 1]);
    }
  }

  /** Without a multiselect, an item whose keys are distinct yields one row
      per key other than its `custom_field_id`. */
  lemma {:induction false} PlainItemRowCount(entries: seq<(string, Value)>)
    requires DistinctKeys(entries)
    requires forall i :: 0 <= i < |entries| ==> entries[i].0 != "multiselect"
    ensures RowCount(entries) == |entries| - (if "custom_field_id" in KeySet(entries) then 1 else 0)
  {
    if entries != [] {
      var init, last := entries[..|entries| - 1], entries[|entries| - 1];
      PlainItemRowCount(init);
      KeySetSnoc(entries);
      if last.0 == "custom_field_id" {
        assert "custom_field_id" !in KeySet(init);
      }
    }
  }

  /** Plain entries never fail, so an item with its field id and no
      multiselect always yields its rows. */
  lemma {:induction false} PlainEntriesSucceed(parent: Value, fieldId: Value, entries: seq<(string, Value)>)
    requires forall i :: 0 <= i < |entries| ==> entries[i].0 != "multiselect"
    ensures EntriesRows(parent, fieldId, entries).Ok?
  {
    if entries != [] {
      PlainEntriesSucceed(parent, fieldId, entries[..|entries| - 1]);
    }
  }

  // ---------------------------------------------------------------------------
  // Projection and upload of the custom-field rows

  /** `{k: v for k, v in row.items() if k in fields}`. */
  function Project(row: Record, fields: set<string>): (r: Record)
    ensures r.Keys == row.Keys * fields
    ensures forall k :: k in r ==> r[k] == row[k]
  {
    map k | k in row && k in fields :: row[k]
  }

  /** Every row projected, in order. */
  function Projected(rows: seq<Record>, fields: set<string>): (r: seq<Record>)
    ensures |r| == |rows|
    ensures forall i :: 0 <= i < |rows| ==> r[i] == Project(rows[i], fields)
  {
    seq(|rows|, i requires 0 <= i < |rows| => Project(rows[i], fields))
  }

  /** The students and admissions allow-lists keep a row whole; the
      custom_fields allow-list, which describes option objects rather than
      rows, keeps only the record id and the field id. */
  lemma ProjectConfiguredRow(row: Record, parent: Value, fieldId: Value, keys: set<string>)
    requires RowOf(row, parent, fieldId, keys)
    ensures Project(row, StudentCustomFieldFields) == row
    ensures Project(row, AdmissionCustomFieldFields) == row
    ensures Project(row, CustomFieldOptionFields) == map["id" := parent, "custom_field_id" := fieldId]
  {
    assert row.Keys * CustomFieldOptionFields == {"id", "custom_field_id"};
  }

  /** The bucket after a sequence of uploads, in order; a later upload to the
      same path replaces an earlier one. */
  function ApplyWrites(objects: map<string, string>, writes: seq<(string, string)>): (r: map<string, string>)
    ensures forall p :: p in objects ==> p in r
    ensures forall i :: 0 <= i < |writes| ==> writes[i].0 in r
    ensures writes != [] ==> r[writes[|writes| - 1].0] == writes[|writes| - 1].1
    ensures forall p :: p in objects && (forall i :: 0 <= i < |writes| ==> writes[i].0 != p) ==> r[p] == objects[p]
  {
    if writes == [] then objects
    else
      var last := writes[|writes| - 1];
      ApplyWrites(objects, writes[..|writes| - 1])[last.0 := last.1]
  }

  /** Uploads in two batches are the uploads of the joined sequence. */
  lemma {:induction false} ApplyWritesAppend(objects: map<string, string>, a: seq<(string, string)>, b: seq<(string, string)>)
    ensures ApplyWrites(objects, a + b) == ApplyWrites(ApplyWrites(objects, a), b)
  {
    if b == [] {
      assert a + b == a;
    } else {
      assert (a + b)[..|a + b| - 1] == a + b[..|b| - 1];
      ApplyWritesAppend(objects, a, b[..|b| - 1]);
    }
  }

  /** The year segment of a load: the run's graduation year exactly for the
      endpoints filtered by it. */
  function GradYearFor(endpoint: Endpoint, gradYear: string): Option<string>
  {
    if endpoint.hasGradYear then Some(gradYear) else None
  }

  /** What `_process_custom_fields` leaves behind: the record without its
      custom-field list, the upload it made (at most one) and the row count
      it returns (None for no rows). */
  datatype CustomOutcome = CustomOutcome(record: Record, writes: seq<(string, string)>, count: Option<nat>)

  /** `_process_custom_fields(record, endpoint, grad_year)`: flatten, project
      each row onto the custom field's allow-list and upload them as one
      object, named after the first row's id. */
  function CustomFieldsSpec(record: Record, endpoint: Endpoint, customField: CustomField, gradYear: string,
                            dumps: Record -> string): (r: Result<CustomOutcome>)
    ensures FlattenSpec(record, customField).Err? ==> r == Err(FlattenSpec(record, customField).error)
    ensures r.Ok? ==> r.value.record == record - {customField.fieldName}
    ensures r.Ok? ==> (r.value.count.None? <==> FlattenSpec(record, customField).value.rows == [])
    ensures r.Ok? ==> (r.value.count.None? <==> r.value.writes == [])
    ensures r.Ok? && r.value.count.Some? ==>
      r.value.count.value == |FlattenSpec(record, customField).value.rows| && |r.value.writes| == 1
  {
    match FlattenSpec(record, customField)
    case Err(e) => Err(e)
    case Ok(f) =>
      if f.rows == [] then Ok(CustomOutcome(f.record, [], None))
      else
        var filtered := Projected(f.rows, customField.fields);
        match PlanLoad(Many(filtered), ForCustomField(customField), GradYearFor(endpoint, gradYear), dumps)
        case Err(e) => Err(e)
        case Ok(w) => Ok(CustomOutcome(f.record, [w], Some(|filtered|)))
  }

  /** When the allow-list keeps `id`, the rows of a record are uploaded to
      the custom field's folder under the record's own id, with the year
      segment exactly for grad-year endpoints, one line per row. */
  lemma CustomFieldsUpload(record: Record, endpoint: Endpoint, customField: CustomField, gradYear: string,
                           dumps: Record -> string)
    requires "id" in customField.fields
    requires FlattenSpec(record, customField).Ok? && FlattenSpec(record, customField).value.rows != []
    ensures CustomFieldsSpec(record, endpoint, customField, gradYear, dumps).Ok?
    ensures var rows := FlattenSpec(record, customField).value.rows;
      CustomFieldsSpec(record, endpoint, customField, gradYear, dumps).value.writes
        == [(ObjectPath(customField.gcsFolder, customField.fileNamePrefix, GradYearFor(endpoint, gradYear),
                        PyStr(Get(record - {customField.fieldName}, "id"))),
             NdjsonContent(Projected(rows, customField.fields), dumps))]
  {
    var rows := FlattenSpec(record, customField).value.rows;
    var filtered := Projected(rows, customField.fields);
    assert rows[0] in rows;
    assert "id" in filtered[0] && filtered[0]["id"] == Get(record - {customField.fieldName}, "id");
  }

  /** `_process_custom_fields`: returns the row count, or None when the record
      has no custom-field rows, in which case nothing is uploaded. */
  method ProcessCustomFields(record: RecordRef, endpoint: Endpoint, gradYear: string, dumps: Record -> string,
                             storage: CloudStorage) returns (r: Result<Option<nat>>)
    modifies record, storage
    ensures endpoint.customField.None? ==>
      r == Err(AttributeError) && record.fields == old(record.fields) && storage.objects == old(storage.objects)
    ensures endpoint.customField.Some? ==>
      record.fields == old(record.fields) - {endpoint.customField.value.fieldName}
    ensures endpoint.customField.Some? ==>
      match CustomFieldsSpec(old(record.fields), endpoint, endpoint.customField.value, gradYear, dumps)
      case Ok(c) => r == Ok(c.count) && storage.objects == ApplyWrites(old(storage.objects), c.writes)
      case Err(e) => r == Err(e) && storage.objects == old(storage.objects)
  {
    var flattened := FlattenCustomFields(record, endpoint);
    if flattened.Err? {
      return Err(flattened.error);
    }
    var rows := flattened.value;
    if rows == [] {
      return Ok(None);
    }
    var customField := endpoint.customField.value;
    var filtered: seq<Record> := [];
    for i := 0 to |rows|
      invariant |filtered| == i
      invariant forall n :: 0 <= n < i ==> filtered[n] == Project(rows[n], customField.fields)
    {
      filtered := filtered + [Project(rows[i], customField.fields)];
    }
    assert filtered == Projected(rows, customField.fields);
    var loaded := LoadToCloudStorage(Many(filtered), ForCustomField(customField), GradYearFor(endpoint, gradYear),
                                     dumps, storage);
    if loaded.Err? {
      return Err(loaded.error);
    }
    r := Ok(Some(|filtered|));
  }

  // ---------------------------------------------------------------------------
  // The processing loop

  /** The university id queue `run_record_processing` fills (a Python set). */
  class UniversityQueue {
    var ids: set<Value>

    constructor ()
      ensures ids == {}
    {
      ids := {};
    }

    /** `set.add`: a list or dict cannot be hashed. */
    method Add(id: Value) returns (r: Result<()>)
      modifies this
      ensures Hashable(id) ==> r == Ok(()) && ids == old(ids) + {id}
      ensures !Hashable(id) ==> r == Err(TypeError) && ids == old(ids)
    {
      if !Hashable(id) {
        return Err(TypeError);
      }
      ids := ids + {id};
      r := Ok(());
    }
  }

  /** What processing some records did: the values added to the queue and
      the uploads, in order, the custom-field rows counted, and the exception
      that ended it, if any. */
  datatype Effect = Effect(queued: seq<Value>, writes: seq<(string, string)>, customRows: nat, failure: Option<Error>)

  const Done: Effect := Effect([], [], 0, None)

  function Fail(e: Error): Effect
  {
    Effect([], [], 0, Some(e))
  }

  /** One part after another; an exception skips the second part. */
  function Then(a: Effect, b: Effect): Effect
  {
    if a.failure.Some? then a
    else Effect(a.queued + b.queued, a.writes + b.writes, a.customRows + b.customRows, b.failure)
  }

  lemma ThenAssociative(a: Effect, b: Effect, c: Effect)
    ensures Then(Then(a, b), c) == Then(a, Then(b, c))
  {
    if a.failure.None? && b.failure.None? {
      assert (a.queued + b.queued) + c.queued == a.queued + (b.queued + c.queued);
      assert (a.writes + b.writes) + c.writes == a.writes + (b.writes + c.writes);
    }
  }

  /** The values of a sequence, as a set. */
  function Members(vs: seq<Value>): set<Value>
  {
    set v | v in vs
  }

  /** The queue step, which reads the record before any transform. */
  function QueueEffect(endpoint: Endpoint, record: Record): Effect
  {
    if !endpoint.hasUniversityId then Done
    else if Hashable(Get(record, "university_id")) then Effect([Get(record, "university_id")], [], 0, None)
    else Fail(TypeError)
  }

  /** The nested step, run only when the endpoint has nested keys. */
  function NestedOutcome(endpoint: Endpoint, record: Record): Result<Record>
  {
    if endpoint.nestedFields.None? then Ok(record) else NestedSpec(record, endpoint.nestedFields.value)
  }

  /** The custom-field step, given the graduation year its definition declares. */
  function CustomOutcomeOf(endpoint: Endpoint, record: Record, gradYear: string, dumps: Record -> string)
    : Result<CustomOutcome>
  {
    if endpoint.customField.None? then Ok(CustomOutcome(record, [], None))
    else CustomFieldsSpec(record, endpoint, endpoint.customField.value, gradYear, dumps)
  }

  /** The last steps: clean the record and upload it. */
  function LoadEffect(endpoint: Endpoint, c: CustomOutcome, gradYear: string, dumps: Record -> string): Effect
  {
    var count := if c.count.Some? then c.count.value else 0;
    match PlanLoad(One(Cleaned(c.record, endpoint.fields)), ForEndpoint(endpoint), GradYearFor(endpoint, gradYear), dumps)
    case Err(e) => Effect([], c.writes, count, Some(e))
    case Ok(w) => Effect([], c.writes + [w], count, None)
  }

  /** The steps after the queue, with the custom-field step given its
      `grad_year`. */
  function TransformEffect(endpoint: Endpoint, record: Record, gradYear: string, dumps: Record -> string): (r: Effect)
    ensures r.queued == []
  {
    match NestedOutcome(endpoint, record)
    case Err(e) => Fail(e)
    case Ok(flat) =>
      match CustomOutcomeOf(endpoint, flat, gradYear, dumps)
      case Err(e) => Fail(e)
      case Ok(c) => LoadEffect(endpoint, c, gradYear, dumps)
  }

  /** The body of the `run_record_processing` loop for one record. */
  function RecordEffect(endpoint: Endpoint, record: Record, gradYear: string, dumps: Record -> string): Effect
  {
    Then(QueueEffect(endpoint, record), TransformEffect(endpoint, record, gradYear, dumps))
  }

  /** The same body as the code has it: `_process_custom_fields(record,
      endpoint)` lacks the required `grad_year` argument, so the call raises
      TypeError before anything of the custom-field step runs. */
  function RecordEffectAsWritten(endpoint: Endpoint, record: Record, gradYear: string, dumps: Record -> string): Effect
  {
    Then(QueueEffect(endpoint, record),
      match NestedOutcome(endpoint, record)
      case Err(e) => Fail(e)
      case Ok(flat) =>
        if endpoint.customField.Some? then Fail(TypeError)
        else LoadEffect(endpoint, CustomOutcome(flat, [], None), gradYear, dumps))
  }

  /** Records processed one after another; the first exception ends it. */
  function Sequenced(f: Record -> Effect, records: seq<Record>): Effect
  {
    if records == [] then Done else Then(Sequenced(f, records[..|records| - 1]), f(records[|records| - 1]))
  }

  /** Processing two runs of records is processing them joined. */
  lemma {:induction false} SequencedAppend(f: Record -> Effect, a: seq<Record>, b: seq<Record>)
    ensures Sequenced(f, a + b) == Then(Sequenced(f, a), Sequenced(f, b))
  {
    if b == [] {
      assert a + b == a;
      var e := Sequenced(f, a);
      assert e.queued + [] == e.queued && e.writes + [] == e.writes;
    } else {
      assert (a + b)[..|a + b| - 1] == a + b[..|b| - 1];
      SequencedAppend(f, a, b[..|b| - 1]);
      ThenAssociative(Sequenced(f, a), Sequenced(f, b[..|b| - 1]), f(b[|b| - 1]));
    }
  }

  /** The loop body as a function of the record. */
  function RecordStep(endpoint: Endpoint, gradYear: string, dumps: Record -> string): Record -> Effect
  {
    r => RecordEffect(endpoint, r, gradYear, dumps)
  }

  function RecordStepAsWritten(endpoint: Endpoint, gradYear: string, dumps: Record -> string): Record -> Effect
  {
    r => RecordEffectAsWritten(endpoint, r, gradYear, dumps)
  }

  /** The run's effect over the records the paginator yields. */
  function RecordsEffect(endpoint: Endpoint, records: seq<Record>, gradYear: string, dumps: Record -> string): Effect
  {
    Sequenced(RecordStep(endpoint, gradYear, dumps), records)
  }

  /** The same with the code's custom-field call. */
  function RecordsEffectAsWritten(endpoint: Endpoint, records: seq<Record>, gradYear: string, dumps: Record -> string)
    : Effect
  {
    Sequenced(RecordStepAsWritten(endpoint, gradYear, dumps), records)
  }

  /** `run_record_processing` over a walk of the paginator: the records it
      yields, then the failure of a request the server could not answer. */
  function RunEffect(endpoint: Endpoint, w: Walk, gradYear: string, dumps: Record -> string): Effect
  {
    Then(RecordsEffect(endpoint, w.records, gradYear, dumps), if w.exhausted then Fail(NetworkExhausted) else Done)
  }

  /** The loop body of `run_record_processing` for one yielded record. */
  method ProcessRecord(endpoint: Endpoint, record: Record, gradYear: string, dumps: Record -> string,
                       queue: UniversityQueue, storage: CloudStorage) returns (failure: Option<Error>, customRows: nat)
    modifies queue, storage
    ensures failure == RecordEffect(endpoint, record, gradYear, dumps).failure
    ensures failure.None? ==> customRows == RecordEffect(endpoint, record, gradYear, dumps).customRows
    ensures queue.ids == old(queue.ids) + Members(RecordEffect(endpoint, record, gradYear, dumps).queued)
    ensures storage.objects == ApplyWrites(old(storage.objects), RecordEffect(endpoint, record, gradYear, dumps).writes)
  {
    ghost var objects := storage.objects;
    if endpoint.hasUniversityId {
      var added := queue.Add(Get(record, "university_id"));
      if added.Err? {
        return Some(added.error), 0;
      }
      assert Members([Get(record, "university_id")]) == {Get(record, "university_id")};
    }
    failure, customRows := TransformAndLoad(endpoint, record, gradYear, dumps, storage);
    ThenContinues(objects, QueueEffect(endpoint, record), TransformEffect(endpoint, record, gradYear, dumps));
  }

  /** The steps after the queue: nested keys, custom fields, cleaning and the
      upload, on a fresh dict holding the record. */
  method TransformAndLoad(endpoint: Endpoint, record: Record, gradYear: string, dumps: Record -> string,
                          storage: CloudStorage) returns (failure: Option<Error>, customRows: nat)
    modifies storage
    ensures failure == TransformEffect(endpoint, record, gradYear, dumps).failure
    ensures failure.None? ==> customRows == TransformEffect(endpoint, record, gradYear, dumps).customRows
    ensures storage.objects == ApplyWrites(old(storage.objects), TransformEffect(endpoint, record, gradYear, dumps).writes)
  {
    customRows := 0;
    var current := new RecordRef(record);
    if endpoint.nestedFields.Some? {
      var nested := ProcessNestedFields(current, endpoint);
      if nested.Err? {
        return Some(nested.error), 0;
      }
    }
    ghost var flat := current.fields;
    ghost var objects := storage.objects;
    if endpoint.customField.Some? {
      var count := ProcessCustomFields(current, endpoint, gradYear, dumps, storage);
      if count.Err? {
        return Some(count.error), 0;
      }
      if count.value.Some? {
        customRows := count.value.value;
      }
    }
    ghost var c := CustomOutcomeOf(endpoint, flat, gradYear, dumps).value;
    assert current.fields == c.record && storage.objects == ApplyWrites(objects, c.writes);
    var loaded := CleanAndLoad(current, endpoint, gradYear, dumps, storage);
    if loaded.Err? {
      return Some(loaded.error), customRows;
    }
    ghost var plan := PlanLoad(One(Cleaned(c.record, endpoint.fields)), ForEndpoint(endpoint), GradYearFor(endpoint, gradYear), dumps);
    ApplyWritesAppend(objects, c.writes, [plan.value]);
    failure := None;
  }

  /** `clean_record_fields`, then `load_to_cloud_storage` of the cleaned
      record, with the year segment exactly for grad-year endpoints. */
  method CleanAndLoad(record: RecordRef, endpoint: Endpoint, gradYear: string, dumps: Record -> string,
                      storage: CloudStorage) returns (r: Result<()>)
    modifies record, storage
    ensures var plan := PlanLoad(One(Cleaned(old(record.fields), endpoint.fields)), ForEndpoint(endpoint),
                                 GradYearFor(endpoint, gradYear), dumps);
      match plan
      case Ok(w) => r == Ok(()) && storage.objects == old(storage.objects)[w.0 := w.1]
      case Err(e) => r == Err(e) && storage.objects == old(storage.objects)
  {
    var cleaned := CleanRecordFields(record, endpoint);
    if endpoint.hasGradYear {
      r := LoadToCloudStorage(One(cleaned), ForEndpoint(endpoint), Some(gradYear), dumps, storage);
    } else {
      r := LoadToCloudStorage(One(cleaned), ForEndpoint(endpoint), None, dumps, storage);
    }
  }

  /** A run of records that ends without an exception, followed by more. */
  lemma ThenContinues(objects: map<string, string>, a: Effect, b: Effect)
    requires a.failure.None?
    ensures Then(a, b).failure == b.failure
    ensures Then(a, b).customRows == a.customRows + b.customRows
    ensures Members(Then(a, b).queued) == Members(a.queued) + Members(b.queued)
    ensures ApplyWrites(objects, Then(a, b).writes) == ApplyWrites(ApplyWrites(objects, a.writes), b.writes)
  {
    ApplyWritesAppend(objects, a.writes, b.writes);
  }

  /** One more record. */
  lemma RecordsEffectSnoc(endpoint: Endpoint, records: seq<Record>, j: nat, gradYear: string, dumps: Record -> string)
    requires j < |records|
    ensures RecordsEffect(endpoint, records[..j + 1], gradYear, dumps)
      == Then(RecordsEffect(endpoint, records[..j], gradYear, dumps), RecordEffect(endpoint, records[j], gradYear, dumps))
  {
    assert records[..j + 1][..j] == records[..j];
  }

  /** The records of one page, in order, as the generator yields them to
      the loop; the first exception ends it. */
  method ProcessPage(endpoint: Endpoint, data: seq<Record>, gradYear: string, dumps: Record -> string,
                     queue: UniversityQueue, storage: CloudStorage) returns (failure: Option<Error>, customRows: nat)
    modifies queue, storage
    ensures failure == RecordsEffect(endpoint, data, gradYear, dumps).failure
    ensures failure.None? ==> customRows == RecordsEffect(endpoint, data, gradYear, dumps).customRows
    ensures queue.ids == old(queue.ids) + Members(RecordsEffect(endpoint, data, gradYear, dumps).queued)
    ensures storage.objects == ApplyWrites(old(storage.objects), RecordsEffect(endpoint, data, gradYear, dumps).writes)
  {
    customRows := 0;
    ghost var sofar := Done;
    assert data[..0] == [];
    for j := 0 to |data|
      invariant sofar == RecordsEffect(endpoint, data[..j], gradYear, dumps) && sofar.failure.None?
      invariant customRows == sofar.customRows
      invariant queue.ids == old(queue.ids) + Members(sofar.queued)
      invariant storage.objects == ApplyWrites(old(storage.objects), sofar.writes)
    {
      ghost var next := RecordEffect(endpoint, data[j], gradYear, dumps);
      RecordsEffectSnoc(endpoint, data, j, gradYear, dumps);
      ThenContinues(old(storage.objects), sofar, next);
      var failed, rows := ProcessRecord(endpoint, data[j], gradYear, dumps, queue, storage);
      assert queue.ids == old(queue.ids) + Members(Then(sofar, next).queued);
      assert storage.objects == ApplyWrites(old(storage.objects), Then(sofar, next).writes);
      sofar := Then(sofar, next);
      if failed.Some? {
        RecordsFailurePersists(endpoint, data, j + 1, gradYear, dumps);
        return failed, customRows;
      }
      customRows := customRows + rows;
    }
    assert data[..|data|] == data;
    failure := None;
  }

  /** An exception on a prefix of the records is the outcome of them all. */
  lemma RecordsFailurePersists(endpoint: Endpoint, records: seq<Record>, n: nat, gradYear: string,
                               dumps: Record -> string)
    requires n <= |records| && RecordsEffect(endpoint, records[..n], gradYear, dumps).failure.Some?
    ensures RecordsEffect(endpoint, records, gradYear, dumps) == RecordsEffect(endpoint, records[..n], gradYear, dumps)
  {
    assert records == records[..n] + records[n..];
    SequencedAppend(RecordStep(endpoint, gradYear, dumps), records[..n], records[n..]);
  }

  /** The records of two runs, joined. */
  lemma RecordsEffectAppend(endpoint: Endpoint, a: seq<Record>, b: seq<Record>, gradYear: string, dumps: Record -> string)
    ensures RecordsEffect(endpoint, a + b, gradYear, dumps)
      == Then(RecordsEffect(endpoint, a, gradYear, dumps), RecordsEffect(endpoint, b, gradYear, dumps))
  {
    SequencedAppend(RecordStep(endpoint, gradYear, dumps), a, b);
  }

  /** One turn of the generator inside the loop: fetch and count the
      current page, process its records, then advance the paginator. */
  method RunPage(endpoint: Endpoint, api: Paginator, server: PageServer, queue: UniversityQueue,
                 gradYear: string, dumps: Record -> string, storage: CloudStorage) returns (failure: Option<Error>, customRows: nat)
    modifies api, server, queue, storage
    ensures old(server.pending) == [] ==>
      && failure == Some(NetworkExhausted) && server.pending == []
      && queue.ids == old(queue.ids) && storage.objects == old(storage.objects)
    ensures old(server.pending) != [] ==>
      var data := old(server.pending)[0].data;
      && server.pending == old(server.pending)[1..]
      && failure == RecordsEffect(endpoint, data, gradYear, dumps).failure
      && queue.ids == old(queue.ids) + Members(RecordsEffect(endpoint, data, gradYear, dumps).queued)
      && storage.objects == ApplyWrites(old(storage.objects), RecordsEffect(endpoint, data, gradYear, dumps).writes)
    ensures old(server.pending) != [] && failure.None? ==>
      && customRows == RecordsEffect(endpoint, old(server.pending)[0].data, gradYear, dumps).customRows
      && api.State() == Step(old(api.State()), old(server.pending)[0])
  {
    var page := api.BeginPage(server);
    if page.Err? {
      return Some(NetworkExhausted), 0;
    }
    failure, customRows := ProcessPage(endpoint, page.value.data, gradYear, dumps, queue, storage);
    if failure.None? {
      api.FinishPage(page.value);
    }
  }

  /** When a page's records end in an exception, that is the outcome of the
      whole run, whatever the later pages hold. */
  lemma PageFailureDecides(endpoint: Endpoint, w: Walk, records: seq<Record>, data: seq<Record>, rest: Walk,
                           gradYear: string, dumps: Record -> string)
    requires w.records == records + data + rest.records
    requires RecordsEffect(endpoint, records, gradYear, dumps).failure.None?
    requires RecordsEffect(endpoint, data, gradYear, dumps).failure.Some?
    ensures RunEffect(endpoint, w, gradYear, dumps)
      == Then(RecordsEffect(endpoint, records, gradYear, dumps), RecordsEffect(endpoint, data, gradYear, dumps))
  {
    RecordsEffectAppend(endpoint, records, data, gradYear, dumps);
    RecordsEffectAppend(endpoint, records + data, rest.records, gradYear, dumps);
  }

  /** `run_record_processing`: every record the paginator yields goes
      through the queue, the transforms and the upload, in order; the sum of
      the custom-field row counts is returned. The paginator's generator is
      inlined: a page is counted, its records processed, then the page
      advanced. */
  method RunRecordProcessing(endpoint: Endpoint, api: Paginator, server: PageServer, queue: UniversityQueue,
                             gradYear: string, dumps: Record -> string, storage: CloudStorage) returns (r: Result<nat>)
    modifies api, server, queue, storage
    ensures storage.objects == ApplyWrites(old(storage.objects),
      RunEffect(endpoint, Drive(api.BaseAddress(), old(api.State()), old(server.pending)), gradYear, dumps).writes)
    ensures queue.ids == old(queue.ids) +
      Members(RunEffect(endpoint, Drive(api.BaseAddress(), old(api.State()), old(server.pending)), gradYear, dumps).queued)
    ensures RunEffect(endpoint, Drive(api.BaseAddress(), old(api.State()), old(server.pending)), gradYear, dumps).failure.Some? ==>
      r == Err(RunEffect(endpoint, Drive(api.BaseAddress(), old(api.State()), old(server.pending)), gradYear, dumps).failure.value)
    ensures RunEffect(endpoint, Drive(api.BaseAddress(), old(api.State()), old(server.pending)), gradYear, dumps).failure.None? ==>
      r == Ok(RunEffect(endpoint, Drive(api.BaseAddress(), old(api.State()), old(server.pending)), gradYear, dumps).customRows)
    ensures RunEffect(endpoint, Drive(api.BaseAddress(), old(api.State()), old(server.pending)), gradYear, dumps).failure.None? ==>
      api.State() == Drive(api.BaseAddress(), old(api.State()), old(server.pending)).state
  {
    ghost var objects0, ids0 := storage.objects, queue.ids;
    ghost var w0 := Drive(api.BaseAddress(), api.State(), server.pending);
    ghost var records: seq<Record> := [];
    ghost var urls: seq<string> := [];
    ghost var consumed: nat := 0;
    var customFieldCount: nat := 0;
    assert After([], [], 0, w0) == w0;
    while !api.IsComplete()
      invariant w0 == After(records, urls, consumed, Drive(api.BaseAddress(), api.State(), server.pending))
      invariant RecordsEffect(endpoint, records, gradYear, dumps).failure.None?
      invariant customFieldCount == RecordsEffect(endpoint, records, gradYear, dumps).customRows
      invariant queue.ids == ids0 + Members(RecordsEffect(endpoint, records, gradYear, dumps).queued)
      invariant storage.objects == ApplyWrites(objects0, RecordsEffect(endpoint, records, gradYear, dumps).writes)
      decreases |server.pending|
    {
      var failure, rows;
      failure, rows, records, urls, consumed :=
        RunNextPage(endpoint, api, server, queue, gradYear, dumps, storage, w0, objects0, ids0, records, urls, consumed);
      if failure.Some? {
        return Err(failure.value);
      }
      customFieldCount := customFieldCount + rows;
    }
    RunFinished(endpoint, w0, records, urls, consumed, api.State(), gradYear, dumps);
    r := Ok(customFieldCount);
  }

  /** One turn of the loop of `run_record_processing`, placed in the walk
      the whole run follows: after it, either the run has ended in the
      exception the walk's effect ends in, or one more page of the walk has
      been consumed and its records' effect added. */
  method RunNextPage(endpoint: Endpoint, api: Paginator, server: PageServer, queue: UniversityQueue,
                     gradYear: string, dumps: Record -> string, storage: CloudStorage,
                     ghost w0: Walk, ghost objects0: map<string, string>, ghost ids0: set<Value>,
                     ghost records: seq<Record>, ghost urls: seq<string>, ghost consumed: nat)
    returns (failure: Option<Error>, rows: nat, ghost records': seq<Record>, ghost urls': seq<string>, ghost consumed': nat)
    modifies api, server, queue, storage
    requires !Complete(api.State())
    requires w0 == After(records, urls, consumed, Drive(api.BaseAddress(), api.State(), server.pending))
    requires RecordsEffect(endpoint, records, gradYear, dumps).failure.None?
    requires queue.ids == ids0 + Members(RecordsEffect(endpoint, records, gradYear, dumps).queued)
    requires storage.objects == ApplyWrites(objects0, RecordsEffect(endpoint, records, gradYear, dumps).writes)
    ensures failure.Some? ==>
      && RunEffect(endpoint, w0, gradYear, dumps).failure == failure
      && queue.ids == ids0 + Members(RunEffect(endpoint, w0, gradYear, dumps).queued)
      && storage.objects == ApplyWrites(objects0, RunEffect(endpoint, w0, gradYear, dumps).writes)
    ensures failure.None? ==>
      && |server.pending| < old(|server.pending|)
      && w0 == After(records', urls', consumed', Drive(api.BaseAddress(), api.State(), server.pending))
      && RecordsEffect(endpoint, records', gradYear, dumps).failure.None?
      && RecordsEffect(endpoint, records', gradYear, dumps).customRows
         == RecordsEffect(endpoint, records, gradYear, dumps).customRows + rows
      && queue.ids == ids0 + Members(RecordsEffect(endpoint, records', gradYear, dumps).queued)
      && storage.objects == ApplyWrites(objects0, RecordsEffect(endpoint, records', gradYear, dumps).writes)
  {
    ghost var base := api.BaseAddress();
    ghost var sofar := RecordsEffect(endpoint, records, gradYear, dumps);
    ghost var before, pendingBefore := api.State(), server.pending;
    ghost var url := PageUrl(base, before.currentPage);
    records', urls', consumed' := records, urls, consumed;
    failure, rows := RunPage(endpoint, api, server, queue, gradYear, dumps, storage);
    if pendingBefore == [] {
      ExhaustedRun(endpoint, w0, records, urls, consumed, before, url, gradYear, dumps);
      ThenContinues(objects0, sofar, Fail(NetworkExhausted));
    } else {
      var page := pendingBefore[0];
      var rest := Drive(base, Step(before, page), pendingBefore[1..]);
      assert w0 == After(records + page.data, urls + [url], consumed + 1, rest) by {
        DriveUnfold(base, before, pendingBefore);
        AfterAfter(records, urls, consumed, page.data, [url], 1, rest);
      }
      var pageEffect := RecordsEffect(endpoint, page.data, gradYear, dumps);
      ThenContinues(objects0, sofar, pageEffect);
      if failure.Some? {
        PageFailureDecides(endpoint, w0, records, page.data, rest, gradYear, dumps);
      } else {
        RecordsEffectAppend(endpoint, records, page.data, gradYear, dumps);
        records', urls', consumed' := records + page.data, urls + [url], consumed + 1;
      }
    }
  }

  /** A walk that ran out of pages ends, after the records so far, in the
      exception of the unanswered request. */
  lemma ExhaustedRun(endpoint: Endpoint, w0: Walk, records: seq<Record>, urls: seq<string>, consumed: nat,
                     s: PagerState, url: string, gradYear: string, dumps: Record -> string)
    requires w0 == After(records, urls, consumed, Walk(s, [], [url], 0, true))
    ensures RunEffect(endpoint, w0, gradYear, dumps)
      == Then(RecordsEffect(endpoint, records, gradYear, dumps), Fail(NetworkExhausted))
  {
    assert w0.records == records + [] == records;
  }

  /** A walk that reached a complete paginator has the effect of its
      records and leaves the paginator where it stopped. */
  lemma RunFinished(endpoint: Endpoint, w0: Walk, records: seq<Record>, urls: seq<string>, consumed: nat,
                    s: PagerState, gradYear: string, dumps: Record -> string)
    requires w0 == After(records, urls, consumed, Walk(s, [], [], 0, false))
    ensures w0.state == s
    ensures RunEffect(endpoint, w0, gradYear, dumps) == Then(RecordsEffect(endpoint, records, gradYear, dumps), Done)
    ensures RecordsEffect(endpoint, records, gradYear, dumps).failure.None? ==>
      RunEffect(endpoint, w0, gradYear, dumps) == RecordsEffect(endpoint, records, gradYear, dumps)
  {
    assert w0.records == records + [] == records;
    var e := RecordsEffect(endpoint, records, gradYear, dumps);
    assert e.queued + [] == e.queued && e.writes + [] == e.writes;
  }

  // ---------------------------------------------------------------------------
  // Properties of the run

  /** A key without `_` is never a flattened name. */
  lemma NoUnderscoreNotPrefixed(k: string, key: string)
    requires '_' !in k
    ensures !PrefixedBy(k, key)
  {
    if |key| + 1 <= |k| {
      assert k[..|key| + 1][|key|] == k[|key|];
      assert k[|key|] in k;
    }
  }

  /** Nested flattening never changes a record's `id` unless `id` itself is
      a nested key: no flattened name can be `id`. */
  lemma {:induction false} NestedKeepsId(record: Record, keys: seq<string>)
    requires forall i :: 0 <= i < |keys| ==> keys[i] != "id"
    ensures NestedSpec(record, keys).Ok? ==> Get(NestedSpec(record, keys).value, "id") == Get(record, "id")
  {
    if keys != [] && NestedSpec(record, keys).Ok? {
      var init, last := keys[..|keys| - 1], keys[|keys| - 1];
      NestedKeepsId(record, init);
      NestedStepEffect(NestedSpec(record, init).value, last);
      NoUnderscoreNotPrefixed("id", last);
    }
  }

  /** Only the queue step queues anything: one value, when the endpoint
      has university ids and the step succeeds. */
  lemma RecordQueued(endpoint: Endpoint, record: Record, gradYear: string, dumps: Record -> string)
    ensures !endpoint.hasUniversityId ==> RecordEffect(endpoint, record, gradYear, dumps).queued == []
    ensures endpoint.hasUniversityId && RecordEffect(endpoint, record, gradYear, dumps).failure.None? ==>
      RecordEffect(endpoint, record, gradYear, dumps).queued == [Get(record, "university_id")]
  {
    var t := TransformEffect(endpoint, record, gradYear, dumps);
    assert t.queued == [];
    assert [Get(record, "university_id")] + [] == [Get(record, "university_id")];
  }

  /** Records that each queue their value under `key` when they succeed
      queue those values, in order, when they all succeed. */
  lemma {:induction false} SequencedQueues(f: Record -> Effect, key: string, records: seq<Record>)
    requires forall r :: f(r).failure.None? ==> f(r).queued == [Get(r, key)]
    requires Sequenced(f, records).failure.None?
    ensures Sequenced(f, records).queued == seq(|records|, i requires 0 <= i < |records| => Get(records[i], key))
  {
    if records != [] {
      var init, last := records[..|records| - 1], records[|records| - 1];
      SequencedQueues(f, key, init);
      var ids := seq(|records|, i requires 0 <= i < |records| => Get(records[i], key));
      assert ids == seq(|init|, i requires 0 <= i < |init| => Get(init[i], key)) + [Get(last, key)];
    }
  }

  /** Records that queue nothing queue nothing together. */
  lemma {:induction false} SequencedQueuesNothing(f: Record -> Effect, records: seq<Record>)
    requires forall r :: f(r).queued == []
    ensures Sequenced(f, records).queued == []
  {
    if records != [] {
      SequencedQueuesNothing(f, records[..|records| - 1]);
    }
  }

  /** Nothing is queued for an endpoint without university ids. */
  lemma NothingQueuedWithoutUniversityId(endpoint: Endpoint, records: seq<Record>, gradYear: string,
                                         dumps: Record -> string)
    requires !endpoint.hasUniversityId
    ensures RecordsEffect(endpoint, records, gradYear, dumps).queued == []
  {
    var f := RecordStep(endpoint, gradYear, dumps);
    forall r ensures f(r).queued == [] {
      RecordQueued(endpoint, r, gradYear, dumps);
    }
    SequencedQueuesNothing(f, records);
  }

  /** A successful run over an endpoint with university ids queues each
      yielded record's `university_id` (None when absent), in order, as read
      before any transform. */
  lemma QueuedUniversityIds(endpoint: Endpoint, records: seq<Record>, gradYear: string, dumps: Record -> string)
    requires endpoint.hasUniversityId && RecordsEffect(endpoint, records, gradYear, dumps).failure.None?
    ensures RecordsEffect(endpoint, records, gradYear, dumps).queued
      == seq(|records|, i requires 0 <= i < |records| => Get(records[i], "university_id"))
  {
    var f := RecordStep(endpoint, gradYear, dumps);
    forall r | f(r).failure.None? ensures f(r).queued == [Get(r, "university_id")] {
      RecordQueued(endpoint, r, gradYear, dumps);
    }
    SequencedQueues(f, "university_id", records);
  }

  /** A record processed without an exception is uploaded last, to the
      endpoint's folder under its own id, with the year segment exactly for
      grad-year endpoints; this needs `id` among the allowed fields and
      neither a nested key nor the custom-field key to be `id`. */
  lemma RecordLoadedUnderItsId(endpoint: Endpoint, record: Record, gradYear: string, dumps: Record -> string)
    requires "id" in endpoint.fields
    requires endpoint.nestedFields.Some? ==>
      forall i :: 0 <= i < |endpoint.nestedFields.value| ==> endpoint.nestedFields.value[i] != "id"
    requires endpoint.customField.Some? ==> endpoint.customField.value.fieldName != "id"
    requires RecordEffect(endpoint, record, gradYear, dumps).failure.None?
    ensures var ws := RecordEffect(endpoint, record, gradYear, dumps).writes;
      ws != [] && ws[|ws| - 1].0
        == ObjectPath(endpoint.gcsFolder, endpoint.fileNamePrefix, GradYearFor(endpoint, gradYear), PyStr(Get(record, "id")))
  {
    LastUpload(endpoint, record, gradYear, dumps);
    var flat := NestedOutcome(endpoint, record).value;
    if endpoint.nestedFields.Some? {
      NestedKeepsId(record, endpoint.nestedFields.value);
    }
    var c := CustomOutcomeOf(endpoint, flat, gradYear, dumps).value;
    assert Get(c.record, "id") == Get(record, "id");
  }

  /** A record processed without an exception went through the nested and
      custom-field steps, and its last upload is its cleaned dict, at the
      path named by that dict's id, after the custom-field upload. */
  lemma LastUpload(endpoint: Endpoint, record: Record, gradYear: string, dumps: Record -> string)
    requires RecordEffect(endpoint, record, gradYear, dumps).failure.None?
    ensures NestedOutcome(endpoint, record).Ok?
    ensures CustomOutcomeOf(endpoint, NestedOutcome(endpoint, record).value, gradYear, dumps).Ok?
    ensures var c := CustomOutcomeOf(endpoint, NestedOutcome(endpoint, record).value, gradYear, dumps).value;
      var ws := RecordEffect(endpoint, record, gradYear, dumps).writes;
      && |ws| == |c.writes| + 1 && ws[..|c.writes|] == c.writes
      && ws[|ws| - 1].0
        == ObjectPath(endpoint.gcsFolder, endpoint.fileNamePrefix, GradYearFor(endpoint, gradYear), PyStr(Get(c.record, "id")))
  {
    var c := CustomOutcomeOf(endpoint, NestedOutcome(endpoint, record).value, gradYear, dumps).value;
    var cleaned := Cleaned(c.record, endpoint.fields);
    var plan := PlanLoad(One(cleaned), ForEndpoint(endpoint), GradYearFor(endpoint, gradYear), dumps);
    assert plan.Ok?;
    assert RecordEffect(endpoint, record, gradYear, dumps).writes == c.writes + [plan.value];
  }

  /** With no `/` in the folder, prefix, year or id, the object holding a
      record has four path segments (root, folder, year, file) exactly for
      grad-year endpoints, and three otherwise. */
  lemma RecordPathSegments(endpoint: Endpoint, gradYear: string, id: string)
    requires '/' !in endpoint.gcsFolder && '/' !in endpoint.fileNamePrefix && '/' !in gradYear && '/' !in id
    ensures var path := ObjectPath(endpoint.gcsFolder, endpoint.fileNamePrefix, GradYearFor(endpoint, gradYear), id);
      && (endpoint.hasGradYear ==> Split(path, '/') == ["overgrad", endpoint.gcsFolder, gradYear, FileName(endpoint.fileNamePrefix, id)])
      && (!endpoint.hasGradYear ==> Split(path, '/') == ["overgrad", endpoint.gcsFolder, FileName(endpoint.fileNamePrefix, id)])
  {
    if endpoint.hasGradYear {
      YearedPathSegments(endpoint.gcsFolder, endpoint.fileNamePrefix, gradYear, id);
    } else {
      PlainPathSegments(endpoint.gcsFolder, endpoint.fileNamePrefix, id);
    }
  }

  /** Without a custom field the code as written and the corrected call
      agree on every record. */
  lemma AsWrittenAgreesWithoutCustomField(endpoint: Endpoint, record: Record, gradYear: string, dumps: Record -> string)
    requires endpoint.customField.None?
    ensures RecordEffectAsWritten(endpoint, record, gradYear, dumps) == RecordEffect(endpoint, record, gradYear, dumps)
  {
  }

  /** As written, a record of an endpoint with a custom field is never
      uploaded: the processing stops with an exception, a TypeError once the
      queue and nested steps have passed. */
  lemma AsWrittenCustomFieldFails(endpoint: Endpoint, record: Record, gradYear: string, dumps: Record -> string)
    requires endpoint.customField.Some?
    ensures RecordEffectAsWritten(endpoint, record, gradYear, dumps).writes == []
    ensures RecordEffectAsWritten(endpoint, record, gradYear, dumps).failure.Some?
    ensures QueueEffect(endpoint, record).failure.None? && NestedOutcome(endpoint, record).Ok? ==>
      RecordEffectAsWritten(endpoint, record, gradYear, dumps).failure == Some(TypeError)
  {
  }

  /** As written, a run over an endpoint with a custom field uploads
      nothing at all, and fails as soon as it yields a record. */
  lemma {:induction false} AsWrittenRunWritesNothing(endpoint: Endpoint, records: seq<Record>, gradYear: string,
                                                     dumps: Record -> string)
    requires endpoint.customField.Some?
    ensures RecordsEffectAsWritten(endpoint, records, gradYear, dumps).writes == []
    ensures records != [] ==> RecordsEffectAsWritten(endpoint, records, gradYear, dumps).failure.Some?
  {
    if records != [] {
      var init, last := records[..|records| - 1], records[|records| - 1];
      AsWrittenRunWritesNothing(endpoint, init, gradYear, dumps);
      AsWrittenCustomFieldFails(endpoint, last, gradYear, dumps);
      assert RecordsEffectAsWritten(endpoint, records, gradYear, dumps)
        == Then(RecordsEffectAsWritten(endpoint, init, gradYear, dumps), RecordEffectAsWritten(endpoint, last, gradYear, dumps));
    }
  }

  /** With `grad_year` passed, a record of an endpoint with a custom field
      whose queue, nested and flattening steps succeed is uploaded, and so
      are its custom-field rows when it has any, both under the record's id;
      this needs `id` in both allow-lists. */
  lemma CorrectedCustomFieldLoads(endpoint: Endpoint, record: Record, gradYear: string, dumps: Record -> string)
    requires endpoint.customField.Some? && "id" in endpoint.fields && "id" in endpoint.customField.value.fields
    requires QueueEffect(endpoint, record).failure.None? && NestedOutcome(endpoint, record).Ok?
    requires FlattenSpec(NestedOutcome(endpoint, record).value, endpoint.customField.value).Ok?
    ensures RecordEffect(endpoint, record, gradYear, dumps).failure.None?
    ensures var ws := RecordEffect(endpoint, record, gradYear, dumps).writes;
      var flat := NestedOutcome(endpoint, record).value;
      var cf := endpoint.customField.value;
      && ws != []
      && ws[|ws| - 1].0
        == ObjectPath(endpoint.gcsFolder, endpoint.fileNamePrefix, GradYearFor(endpoint, gradYear), PyStr(Get(flat - {cf.fieldName}, "id")))
      && (FlattenSpec(flat, cf).value.rows != [] ==>
            |ws| == 2 && ws[0].0 == ObjectPath(cf.gcsFolder, cf.fileNamePrefix, GradYearFor(endpoint, gradYear),
                                              PyStr(Get(flat - {cf.fieldName}, "id"))))
  {
    var flat := NestedOutcome(endpoint, record).value;
    var cf := endpoint.customField.value;
    if FlattenSpec(flat, cf).value.rows != [] {
      CustomFieldsUpload(flat, endpoint, cf, gradYear, dumps);
    }
    var c := CustomOutcomeOf(endpoint, flat, gradYear, dumps).value;
    assert "id" in Cleaned(c.record, endpoint.fields);
    LastUpload(endpoint, record, gradYear, dumps);
  }

  /** The students, admissions and custom_fields endpoints of the table have
      a custom field, so as written their runs upload nothing. */
  lemma AsWrittenTableRunsWriteNothing(i: nat, records: seq<Record>, gradYear: string, dumps: Record -> string)
    requires i == 1 || i == 2 || i == 5
    ensures RecordsEffectAsWritten(BuiltEndpoint(i), records, gradYear, dumps).writes == []
    ensures records != [] ==> RecordsEffectAsWritten(BuiltEndpoint(i), records, gradYear, dumps).failure.Some?
  {
    BuiltTable();
    AsWrittenRunWritesNothing(BuiltEndpoint(i), records, gradYear, dumps);
  }
}
