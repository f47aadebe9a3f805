/** The Cloud Storage bucket the connector writes to and deletes from, as a
    map from object path to object content. */
module Storage {
  import opened Outcomes

  class CloudStorage {
    var objects: map<string, string>

    constructor (objects: map<string, string>)
      ensures this.objects == objects
    {
      this.objects := objects;
    }

    /** `load_in_memory_file_to_cloud`: create or overwrite one object. */
    method Upload(path: string, content: string)
      modifies this
      ensures objects == old(objects)[path := content]
    {
      objects := objects[path := content];
    }

    /** `delete_file`: deleting an object that does not exist raises NotFound. */
    method Delete(path: string) returns (r: Result<()>)
      modifies this
      ensures path in old(objects) ==> r == Ok(()) && objects == old(objects) - {path}
      ensures path !in old(objects) ==> r == Err(NotFound(path)) && objects == old(objects)
    {
      if path in objects {
        objects := objects - {path};
        r := Ok(());
      } else {
        r := Err(NotFound(path));
      }
    }
  }
}

/** Record projection and the upload of records as ndjson objects
    (utils/helpers.py). */
module Helpers {
  import opened Outcomes
  import opened Strings
  import opened Json
  import opened Endpoints
  import opened Storage

  /** The record `clean_record_fields` fills in: every allowed field the record
      lacks is added as None, everything else stays. */
  function Filled(record: Record, fields: set<string>): (r: Record)
    ensures r.Keys == record.Keys + fields
    ensures forall k :: k in record ==> r[k] == record[k]
    ensures forall k :: k in fields && k !in record ==> r[k] == Null
  {
    map k | k in record.Keys + fields :: if k in record then record[k] else Null
  }

  /** The dict `clean_record_fields` returns: exactly the allowed fields, each
      with the record's value or None. */
  function Cleaned(record: Record, fields: set<string>): (r: Record)
    ensures r.Keys == fields
    ensures forall k :: k in fields && k in record ==> r[k] == record[k]
    ensures forall k :: k in fields && k !in record ==> r[k] == Null
  {
    map k | k in fields :: Get(record, k)
  }

  /** `clean_record_fields`: fills the caller's record in place, then returns
      its projection onto the endpoint's fields. */
  method CleanRecordFields(record: RecordRef, endpoint: Endpoint) returns (cleaned: Record)
    modifies record
    ensures record.fields == Filled(old(record.fields), endpoint.fields)
    ensures cleaned == Cleaned(old(record.fields), endpoint.fields)
  {
    ghost var original := record.fields;
    var missing := set f | f in endpoint.fields && f !in record.fields;
    while missing != {}
      invariant missing <= endpoint.fields
      invariant record.fields.Keys == original.Keys + (endpoint.fields - missing)
      invariant forall k :: k in original ==> k !in missing && record.fields[k] == original[k]
      invariant forall k :: k in record.fields && k !in original ==> record.fields[k] == Null
      invariant forall k :: k in missing ==> k !in original
      decreases missing
    {
      var field :| field in missing;
      record.fields := record.fields[field := Null];
      missing := missing - {field};
    }
    cleaned := map k | k in record.fields && k in endpoint.fields :: record.fields[k];
  }

  /** Cleaning a cleaned record changes nothing. */
  lemma CleanedIdempotent(record: Record, fields: set<string>)
    ensures Cleaned(Cleaned(record, fields), fields) == Cleaned(record, fields)
  {
  }

  /** What the method returns is what cleaning the filled record returns: the
      filling does not show in the result. */
  lemma CleanedAfterFilled(record: Record, fields: set<string>)
    ensures Cleaned(Filled(record, fields), fields) == Cleaned(record, fields)
  {
  }

  /** The storage path of an object: `overgrad/{folder}/{year}/{prefix}_{id}.ndjson`,
      without the year segment when there is no year. */
  function ObjectPath(folder: string, prefix: string, gradYear: Option<string>, id: string): string
  {
    if gradYear.Some? then "overgrad/" + folder + "/" + gradYear.value + "/" + prefix + "_" + id + ".ndjson"
    else "overgrad/" + folder + "/" + prefix + "_" + id + ".ndjson"
  }

  /** The file name at the end of an object path. */
  function FileName(prefix: string, id: string): string
  {
    prefix + "_" + id + ".ndjson"
  }

  /** Different ids give different paths in the same folder and year. */
  lemma ObjectPathInjective(folder: string, prefix: string, gradYear: Option<string>, a: string, b: string)
    requires ObjectPath(folder, prefix, gradYear, a) == ObjectPath(folder, prefix, gradYear, b)
    ensures a == b
  {
    var head := if gradYear.Some? then "overgrad/" + folder + "/" + gradYear.value + "/" + prefix + "_"
                else "overgrad/" + folder + "/" + prefix + "_";
    assert ObjectPath(folder, prefix, gradYear, a) == head + (a + ".ndjson");
    assert ObjectPath(folder, prefix, gradYear, b) == head + (b + ".ndjson");
    SameSuffix(head, a + ".ndjson", b + ".ndjson");
    SamePrefix(a, b, ".ndjson");
  }

  /** A file name holds no `/` when neither the prefix nor the id does. */
  lemma FileNameHasNoSlash(prefix: string, id: string)
    requires '/' !in prefix && '/' !in id
    ensures '/' !in FileName(prefix, id)
  {
    NotInConcat('/', prefix, "_");
    NotInConcat('/', prefix + "_", id);
    NotInConcat('/', prefix + "_" + id, ".ndjson");
  }

  /** When no part holds a `/`, a path with a year splits back into the root,
      the folder, the year and the file name. */
  lemma YearedPathSegments(folder: string, prefix: string, year: string, id: string)
    requires '/' !in folder && '/' !in prefix && '/' !in id && '/' !in year
    ensures Split(ObjectPath(folder, prefix, Some(year), id), '/') == ["overgrad", folder, year, FileName(prefix, id)]
  {
    var file := FileName(prefix, id);
    FileNameHasNoSlash(prefix, id);
    var parts := ["overgrad", folder, year, file];
    JoinFour("overgrad", folder, year, file, "/");
    calc {
      ObjectPath(folder, prefix, Some(year), id);
      "overgrad/" + folder + "/" + year + "/" + prefix + "_" + id + ".ndjson";
      ("overgrad" + "/") + folder + "/" + year + "/" + file;
      Join(parts, "/");
    }
    SplitJoin(parts, '/');
  }

  /** When no part holds a `/`, a path without a year splits back into the
      root, the folder and the file name. */
  lemma PlainPathSegments(folder: string, prefix: string, id: string)
    requires '/' !in folder && '/' !in prefix && '/' !in id
    ensures Split(ObjectPath(folder, prefix, None, id), '/') == ["overgrad", folder, FileName(prefix, id)]
  {
    var file := FileName(prefix, id);
    FileNameHasNoSlash(prefix, id);
    var parts := ["overgrad", folder, file];
    JoinThree("overgrad", folder, file, "/");
    calc {
      ObjectPath(folder, prefix, None, id);
      "overgrad/" + folder + "/" + prefix + "_" + id + ".ndjson";
      ("overgrad" + "/") + folder + "/" + file;
      Join(parts, "/");
    }
    SplitJoin(parts, '/');
  }

  /** A path with a year segment is never a path without one, when no part
      holds a `/`. */
  lemma YearedPathsAreNotPlain(folder: string, prefix: string, year: string, id: string,
                               folder': string, prefix': string, id': string)
    requires '/' !in folder && '/' !in prefix && '/' !in id && '/' !in year
    requires '/' !in folder' && '/' !in prefix' && '/' !in id'
    ensures ObjectPath(folder, prefix, Some(year), id) != ObjectPath(folder', prefix', None, id')
  {
    YearedPathSegments(folder, prefix, year, id);
    PlainPathSegments(folder', prefix', id');
  }

  /** What `load_to_cloud_storage` is given: one record or a list of them. */
  datatype Batch = One(record: Record) | Many(records: seq<Record>)

  /** Where it is told to store them: an endpoint or its custom-field table. */
  datatype Target = ForEndpoint(endpoint: Endpoint) | ForCustomField(customField: CustomField)

  function Folder(target: Target): string
  {
    match target
    case ForEndpoint(e) => e.gcsFolder
    case ForCustomField(cf) => cf.gcsFolder
  }

  function Prefix(target: Target): string
  {
    match target
    case ForEndpoint(e) => e.fileNamePrefix
    case ForCustomField(cf) => cf.fileNamePrefix
  }

  /** The record id naming the object: `data[0]["id"]` for a custom-field
      table, `data["id"]` for an endpoint. */
  function RecordId(data: Batch, target: Target): (r: Result<Value>)
    ensures target.ForEndpoint? && data.One? ==>
      (if "id" in data.record then r == Ok(data.record["id"]) else r == Err(KeyError("id")))
    ensures target.ForEndpoint? && data.Many? ==> r == Err(TypeError)
    ensures target.ForCustomField? && data.Many? ==>
      (if data.records == [] then r == Err(IndexError)
       else if "id" in data.records[0] then r == Ok(data.records[0]["id"])
       else r == Err(KeyError("id")))
    ensures target.ForCustomField? && data.One? ==> r == Err(KeyError("0"))
  {
    match target
    case ForCustomField(_) =>
      (match data
       case Many(rs) =>
         if rs == [] then Err(IndexError)
         else if "id" in rs[0] then Ok(rs[0]["id"]) else Err(KeyError("id"))
       case One(_) => Err(KeyError("0")))
    case ForEndpoint(_) =>
      (match data
       case One(d) => if "id" in d then Ok(d["id"]) else Err(KeyError("id"))
       case Many(_) => Err(TypeError))
  }

  /** The records of a batch; a single dict is wrapped in a list. */
  function Records(data: Batch): seq<Record>
  {
    match data
    case One(d) => [d]
    case Many(rs) => rs
  }

  /** `json.dumps` of each record, in order. */
  function NdjsonLines(records: seq<Record>, dumps: Record -> string): (lines: seq<string>)
    ensures |lines| == |records|
    ensures forall i :: 0 <= i < |records| ==> lines[i] == dumps(records[i])
  {
    seq(|records|, i requires 0 <= i < |records| => dumps(records[i]))
  }

  /** The object content: the lines joined by newlines, without a trailing one. */
  function NdjsonContent(records: seq<Record>, dumps: Record -> string): string
  {
    Join(NdjsonLines(records, dumps), "\n")
  }

  /** `json.dumps` with its default separators writes no raw newline; then
      the content splits back into one line per record, in order, and a
      single record is its own content. */
  lemma NdjsonContentLines(records: seq<Record>, dumps: Record -> string)
    requires |records| >= 1
    requires forall i :: 0 <= i < |records| ==> '\n' !in dumps(records[i])
    ensures Split(NdjsonContent(records, dumps), '\n') == NdjsonLines(records, dumps)
    ensures |Split(NdjsonContent(records, dumps), '\n')| == |records|
    ensures |records| == 1 ==> NdjsonContent(records, dumps) == dumps(records[0])
  {
    SplitJoin(NdjsonLines(records, dumps), '\n');
  }

  /** The path and content `load_to_cloud_storage` uploads, or the error it
      raises before uploading. */
  function PlanLoad(data: Batch, target: Target, gradYear: Option<string>, dumps: Record -> string)
    : (r: Result<(string, string)>)
    ensures RecordId(data, target).Err? ==> r == Err(RecordId(data, target).error)
    ensures r.Ok? ==> r.value.0 == ObjectPath(Folder(target), Prefix(target), gradYear, PyStr(RecordId(data, target).value))
    ensures r.Ok? ==> r.value.1 == NdjsonContent(Records(data), dumps)
  {
    match RecordId(data, target)
    case Err(e) => Err(e)
    case Ok(id) =>
      Ok((ObjectPath(Folder(target), Prefix(target), gradYear, PyStr(id)), NdjsonContent(Records(data), dumps)))
  }

  /** `load_to_cloud_storage`: one object per call, overwriting any object at
      the same path. */
  method LoadToCloudStorage(data: Batch, target: Target, gradYear: Option<string>, dumps: Record -> string,
                            storage: CloudStorage) returns (r: Result<()>)
    modifies storage
    ensures PlanLoad(data, target, gradYear, dumps).Ok? ==>
      var plan := PlanLoad(data, target, gradYear, dumps).value;
      r == Ok(()) && storage.objects == old(storage.objects)[plan.0 := plan.1]
    ensures PlanLoad(data, target, gradYear, dumps).Err? ==>
      r == Err(PlanLoad(data, target, gradYear, dumps).error) && storage.objects == old(storage.objects)
  {
    var recordId := RecordId(data, target);
    if recordId.Err? {
      return Err(recordId.error);
    }
    var records := Records(data);
    var lines := NdjsonLines(records, dumps);
    var content := Join(lines, "\n");
    var blobName := ObjectPath(Folder(target), Prefix(target), gradYear, PyStr(recordId.value));
    storage.Upload(blobName, content);
    r := Ok(());
  }
}
