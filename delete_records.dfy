/** The deletion workflow (workflows/delete_records.py): records the warehouse
    still holds for a graduation year but the API no longer returns have
    their objects removed from the bucket. */
module DeleteRecords {
  import opened Outcomes
  import opened Strings
  import opened Json
  import opened Endpoints
  import opened Helpers
  import opened Storage
  import opened OvergradApi

  // ---------------------------------------------------------------------------
  // Object paths

  /** The path `_delete_record` deletes first: always with the year segment. */
  function RecordPath(endpoint: Endpoint, recordId: string, year: string): string
  {
    "overgrad/" + endpoint.gcsFolder + "/" + year + "/" + endpoint.fileNamePrefix + "_" + recordId + ".ndjson"
  }

  /** The custom-field path it then tries, in the custom field's folder. */
  function CustomPath(customField: CustomField, recordId: string, year: string): string
  {
    "overgrad/" + customField.gcsFolder + "/" + year + "/" + customField.fileNamePrefix + "_" + recordId + ".ndjson"
  }

  /** The deleter names objects exactly as the loader does when it is given
      the year. */
  lemma PathsMatchLoader(endpoint: Endpoint, recordId: string, year: string)
    ensures RecordPath(endpoint, recordId, year)
      == ObjectPath(endpoint.gcsFolder, endpoint.fileNamePrefix, Some(year), recordId)
    ensures endpoint.customField.Some? ==>
      CustomPath(endpoint.customField.value, recordId, year)
        == ObjectPath(endpoint.customField.value.gcsFolder, endpoint.customField.value.fileNamePrefix, Some(year), recordId)
  {
  }

  /** For an endpoint without a graduation year the loader writes objects
      without the year segment, which the deleter never names (given no `/`
      in the folders, prefixes, ids and year). */
  lemma PlainLoadsAreNeverDeleted(endpoint: Endpoint, recordId: string, year: string, loadedId: string)
    requires '/' !in endpoint.gcsFolder && '/' !in endpoint.fileNamePrefix
    requires '/' !in recordId && '/' !in year && '/' !in loadedId
    ensures RecordPath(endpoint, recordId, year) != ObjectPath(endpoint.gcsFolder, endpoint.fileNamePrefix, None, loadedId)
  {
    PathsMatchLoader(endpoint, recordId, year);
    YearedPathsAreNotPlain(endpoint.gcsFolder, endpoint.fileNamePrefix, year, recordId,
                           endpoint.gcsFolder, endpoint.fileNamePrefix, loadedId);
  }

  /** The paths `_delete_record` removes for one id. */
  function RecordTargets(endpoint: Endpoint, recordId: string, year: string): set<string>
  {
    {RecordPath(endpoint, recordId, year)}
    + (if endpoint.customField.Some? then {CustomPath(endpoint.customField.value, recordId, year)} else {})
  }

  /** Every path the deletion of some ids may remove. */
  function TargetPaths(endpoint: Endpoint, ids: set<string>, year: string): set<string>
  {
    (set id | id in ids :: RecordPath(endpoint, id, year))
    + (if endpoint.customField.Some? then set id | id in ids :: CustomPath(endpoint.customField.value, id, year) else {})
  }

  /** The targets of one more id. */
  lemma TargetPathsAdd(endpoint: Endpoint, ids: set<string>, id: string, year: string)
    ensures TargetPaths(endpoint, ids + {id}, year) == TargetPaths(endpoint, ids, year) + RecordTargets(endpoint, id, year)
  {
  }

  /** Whether no record path of the ids is the custom-field path of one of
      them; then deleting one record never removes another's record. */
  predicate Separated(endpoint: Endpoint, ids: set<string>, year: string)
  {
    endpoint.customField.Some? ==>
      forall a, b :: a in ids && b in ids ==>
        RecordPath(endpoint, a, year) != CustomPath(endpoint.customField.value, b, year)
  }

  /** Folder and prefix names without `/`, and a custom-field folder apart
      from the endpoint's own. */
  predicate StorageNames(endpoint: Endpoint)
  {
    && '/' !in endpoint.gcsFolder && '/' !in endpoint.fileNamePrefix
    && (endpoint.customField.Some? ==>
          && '/' !in endpoint.customField.value.gcsFolder && '/' !in endpoint.customField.value.fileNamePrefix
          && endpoint.customField.value.gcsFolder != endpoint.gcsFolder)
  }

  /** Different folders keep the two kinds of path apart, when no part holds
      a `/`. */
  lemma SeparateFolders(endpoint: Endpoint, ids: set<string>, year: string)
    requires StorageNames(endpoint) && '/' !in year
    requires forall id :: id in ids ==> '/' !in id
    ensures Separated(endpoint, ids, year)
  {
    if endpoint.customField.Some? {
      var cf := endpoint.customField.value;
      forall a, b | a in ids && b in ids
        ensures RecordPath(endpoint, a, year) != CustomPath(cf, b, year)
      {
        PathsMatchLoader(endpoint, a, year);
        PathsMatchLoader(endpoint, b, year);
        YearedPathSegments(endpoint.gcsFolder, endpoint.fileNamePrefix, year, a);
        YearedPathSegments(cf.gcsFolder, cf.fileNamePrefix, year, b);
      }
    }
  }

  /** No record outside the deleted ids loses its record or custom-field
      object, for separated folders and paths without `/`. */
  lemma OtherRecordsUntouched(endpoint: Endpoint, ids: set<string>, year: string, other: string)
    requires other !in ids
    requires StorageNames(endpoint) && '/' !in year && '/' !in other
    requires forall id :: id in ids ==> '/' !in id
    ensures RecordPath(endpoint, other, year) !in TargetPaths(endpoint, ids, year)
    ensures endpoint.customField.Some? ==> CustomPath(endpoint.customField.value, other, year) !in TargetPaths(endpoint, ids, year)
  {
    SeparateFolders(endpoint, ids + {other}, year);
    forall id | id in ids
      ensures RecordPath(endpoint, other, year) != RecordPath(endpoint, id, year)
    {
      if RecordPath(endpoint, other, year) == RecordPath(endpoint, id, year) {
        PathsMatchLoader(endpoint, other, year);
        PathsMatchLoader(endpoint, id, year);
        ObjectPathInjective(endpoint.gcsFolder, endpoint.fileNamePrefix, Some(year), other, id);
      }
    }
    if endpoint.customField.Some? {
      var cf := endpoint.customField.value;
      forall id | id in ids
        ensures CustomPath(cf, other, year) != CustomPath(cf, id, year)
      {
        if CustomPath(cf, other, year) == CustomPath(cf, id, year) {
          PathsMatchLoader(endpoint, other, year);
          PathsMatchLoader(endpoint, id, year);
          ObjectPathInjective(cf.gcsFolder, cf.fileNamePrefix, Some(year), other, id);
        }
      }
    }
  }

  // ---------------------------------------------------------------------------
  // Deleting

  /** `_delete_record`: the record's object must exist (NotFound otherwise,
      uncaught); its custom-field object is removed when there is one, and
      its absence is tolerated. */
  method DeleteRecord(endpoint: Endpoint, recordId: string, year: string, storage: CloudStorage) returns (r: Result<()>)
    modifies storage
    ensures RecordPath(endpoint, recordId, year) !in old(storage.objects) ==>
      r == Err(NotFound(RecordPath(endpoint, recordId, year))) && storage.objects == old(storage.objects)
    ensures RecordPath(endpoint, recordId, year) in old(storage.objects) ==>
      r == Ok(()) && storage.objects == old(storage.objects) - RecordTargets(endpoint, recordId, year)
  {
    var recordPath := "overgrad/" + endpoint.gcsFolder + "/" + year + "/" + endpoint.fileNamePrefix + "_" + recordId + ".ndjson";
    r := storage.Delete(recordPath);
    if r.Err? {
      return;
    }
    if endpoint.customField.Some? {
      var customFields := endpoint.customField.value;
      var customFieldRecordPath := "overgrad/" + customFields.gcsFolder + "/" + year + "/"
                                   + customFields.fileNamePrefix + "_" + recordId + ".ndjson";
      var deleted := storage.Delete(customFieldRecordPath);
    }
  }

  /** Whether every id's record object is in the bucket. */
  predicate AllRecordsPresent(objects: map<string, string>, endpoint: Endpoint, ids: set<string>, year: string)
  {
    forall id :: id in ids ==> RecordPath(endpoint, id, year) in objects
  }

  /** What deleting the missing ids may leave: on success exactly their
      targets are gone; on a NotFound the targets of some of them are gone
      and the failing id's record object was absent; with every record object
      present and separated paths there is no failure. */
  predicate DeleteOutcome(before: map<string, string>, after: map<string, string>, r: Result<()>,
                          endpoint: Endpoint, ids: set<string>, year: string)
  {
    && (r.Ok? ==> after == before - TargetPaths(endpoint, ids, year))
    && (r.Err? ==>
          && (exists done :: done <= ids && after == before - TargetPaths(endpoint, done, year))
          && (exists id :: id in ids && r.error == NotFound(RecordPath(endpoint, id, year)))
          && r.error.NotFound? && r.error.path !in after)
    && (AllRecordsPresent(before, endpoint, ids, year) && Separated(endpoint, ids, year) ==> r.Ok?)
  }

  /** Under separated paths, the record object of an id not yet deleted is
      not among the targets of those deleted. */
  lemma NotTargeted(endpoint: Endpoint, ids: set<string>, done: set<string>, recordId: string, year: string)
    requires done <= ids && recordId in ids && recordId !in done
    requires Separated(endpoint, ids, year)
    ensures RecordPath(endpoint, recordId, year) !in TargetPaths(endpoint, done, year)
  {
    forall id | id in done
      ensures RecordPath(endpoint, recordId, year) != RecordPath(endpoint, id, year)
    {
      if RecordPath(endpoint, recordId, year) == RecordPath(endpoint, id, year) {
        PathsMatchLoader(endpoint, recordId, year);
        PathsMatchLoader(endpoint, id, year);
        ObjectPathInjective(endpoint.gcsFolder, endpoint.fileNamePrefix, Some(year), recordId, id);
      }
    }
  }

  /** The outcome when the deletion of `recordId` finds no record object,
      after those of `done` went. */
  lemma StoppedOutcome(before: map<string, string>, after: map<string, string>, endpoint: Endpoint,
                       ids: set<string>, done: set<string>, recordId: string, year: string)
    requires done <= ids && recordId in ids && recordId !in done
    requires after == before - TargetPaths(endpoint, done, year)
    requires RecordPath(endpoint, recordId, year) !in after
    ensures DeleteOutcome(before, after, Err(NotFound(RecordPath(endpoint, recordId, year))), endpoint, ids, year)
  {
    if AllRecordsPresent(before, endpoint, ids, year) && Separated(endpoint, ids, year) {
      NotTargeted(endpoint, ids, done, recordId, year);
    }
  }

  /** The loop over `missing_ids`: a Python list built from a set, so the
      order is unspecified; each id is deleted once and the first NotFound
      ends the loop. */
  method DeleteMissing(endpoint: Endpoint, missing: set<string>, year: string, storage: CloudStorage) returns (r: Result<()>)
    modifies storage
    ensures DeleteOutcome(old(storage.objects), storage.objects, r, endpoint, missing, year)
  {
    ghost var before := storage.objects;
    var remaining := missing;
    ghost var done: set<string> := {};
    while remaining != {}
      invariant remaining <= missing && done == missing - remaining
      invariant storage.objects == before - TargetPaths(endpoint, done, year)
      decreases remaining
    {
      var recordId :| recordId in remaining;
      r := DeleteRecord(endpoint, recordId, year, storage);
      if r.Err? {
        StoppedOutcome(before, storage.objects, endpoint, missing, done, recordId, year);
        return;
      }
      TargetPathsAdd(endpoint, done, recordId, year);
      remaining := remaining - {recordId};
      done := done + {recordId};
    }
    r := Ok(());
  }

  // ---------------------------------------------------------------------------
  // The two id sets

  /** The warehouse queries: the student table by graduation year, or an
      endpoint's table joined to the students for that year. */
  datatype Query =
    | StudentIds(year: string)
    | JoinedIds(table: string, idColumn: string, year: string)

  /** The id column of the joined query. */
  function IdColumn(endpoint: Endpoint): string
  {
    if endpoint.name == "admissions" then "overgrad_application_id" else "overgrad_following_id"
  }

  /** The query `run_delete_records_workflow` chooses for an endpoint. */
  function QueryFor(endpoint: Endpoint, year: string): (q: Query)
    ensures q.year == year
    ensures q.StudentIds? <==> endpoint.name == "students"
    ensures q.JoinedIds? ==> q.table == endpoint.name
    ensures q.JoinedIds? ==>
      (q.idColumn == "overgrad_application_id" <==> endpoint.name == "admissions") &&
      (q.idColumn == "overgrad_application_id" || q.idColumn == "overgrad_following_id")
  {
    if endpoint.name == "students" then StudentIds(year) else JoinedIds(endpoint.name, IdColumn(endpoint), year)
  }

  /** The warehouse ids as strings, or None when the query gave no frame;
      the warehouse is a given function from query to the id column. */
  function WarehouseIds(endpoint: Endpoint, year: string, warehouse: Query -> Option<seq<Value>>): Option<set<string>>
  {
    match warehouse(QueryFor(endpoint, year))
    case None => None
    case Some(column) => Some(set v | v in column :: PyStr(v))
  }

  /** Whether every yielded record has an `id`. */
  predicate AllHaveIds(records: seq<Record>)
  {
    forall i :: 0 <= i < |records| ==> "id" in records[i]
  }

  /** `str(record["id"])` of every record. */
  function IdStrings(records: seq<Record>): set<string>
    requires AllHaveIds(records)
  {
    set i | 0 <= i < |records| :: PyStr(records[i]["id"])
  }

  /** The API id set a walk of the paginator gives: a record without an `id`
      is a KeyError, raised before any later request; otherwise a request
      the server cannot answer ends it. */
  function ApiIds(w: Walk): Result<set<string>>
  {
    if !AllHaveIds(w.records) then Err(KeyError("id"))
    else if w.exhausted then Err(NetworkExhausted)
    else Ok(IdStrings(w.records))
  }

  /** Ids are compared after `str` on both sides, so an integer id and the
      same digits as text match, whichever side held the number: a warehouse
      value and an API record id that render to the digits of `n` keep that id
      out of the ids to delete. */
  lemma IdsComparedAsStrings(endpoint: Endpoint, year: string, warehouse: Query -> Option<seq<Value>>,
                             w: Walk, n: int, wv: Value, i: int)
    requires warehouse(QueryFor(endpoint, year)).Some?
    requires wv in warehouse(QueryFor(endpoint, year)).value && PyStr(wv) == Decimal(n)
    requires 0 <= i < |w.records| && "id" in w.records[i] && PyStr(w.records[i]["id"]) == Decimal(n)
    requires ApiIds(w).Ok?
    ensures PyStr(Int(n)) == PyStr(Str(Decimal(n))) == Decimal(n)
    ensures WarehouseIds(endpoint, year, warehouse).Some?
    ensures Decimal(n) in WarehouseIds(endpoint, year, warehouse).value
    ensures Decimal(n) in ApiIds(w).value
    ensures Decimal(n) !in WarehouseIds(endpoint, year, warehouse).value - ApiIds(w).value
  {
  }

  /** The ids of two runs of records, joined. */
  lemma IdStringsAppend(a: seq<Record>, b: seq<Record>)
    requires AllHaveIds(a) && AllHaveIds(b)
    ensures AllHaveIds(a + b)
    ensures IdStrings(a + b) == IdStrings(a) + IdStrings(b)
  {
    var ab := a + b;
    forall s | s in IdStrings(ab)
      ensures s in IdStrings(a) + IdStrings(b)
    {
      var i :| 0 <= i < |ab| && s == PyStr(ab[i]["id"]);
      if i >= |a| {
        assert ab[i] == b[i - |a|];
      }
    }
    forall s | s in IdStrings(a) + IdStrings(b)
      ensures s in IdStrings(ab)
    {
      if s in IdStrings(a) {
        var i :| 0 <= i < |a| && s == PyStr(a[i]["id"]);
        assert ab[i] == a[i];
      } else {
        var i :| 0 <= i < |b| && s == PyStr(b[i]["id"]);
        assert ab[|a| + i] == b[i];
      }
    }
  }

  /** The records of one page added to the id set, in order. */
  method CollectPage(data: seq<Record>, ids: set<string>) returns (r: Result<set<string>>)
    ensures !AllHaveIds(data) ==> r == Err(KeyError("id"))
    ensures AllHaveIds(data) ==> r == Ok(ids + IdStrings(data))
  {
    var collected := ids;
    for j := 0 to |data|
      invariant AllHaveIds(data[..j])
      invariant collected == ids + IdStrings(data[..j])
    {
      if "id" !in data[j] {
        return Err(KeyError("id"));
      }
      assert data[..j + 1] == data[..j] + [data[j]];
      IdStringsAppend(data[..j], [data[j]]);
      collected := collected + {PyStr(data[j]["id"])};
    }
    assert data[..|data|] == data;
    r := Ok(collected);
  }

  /** One turn of the generator inside the id loop. */
  method CollectNextPage(api: Paginator, server: PageServer, ids: set<string>) returns (r: Result<set<string>>)
    modifies api, server
    ensures old(server.pending) == [] ==> r == Err(NetworkExhausted) && server.pending == []
    ensures old(server.pending) != [] ==>
      var data := old(server.pending)[0].data;
      && server.pending == old(server.pending)[1..]
      && (!AllHaveIds(data) ==> r == Err(KeyError("id")))
      && (AllHaveIds(data) ==> r == Ok(ids + IdStrings(data)) && api.State() == Step(old(api.State()), old(server.pending)[0]))
  {
    var page := api.BeginPage(server);
    if page.Err? {
      return Err(NetworkExhausted);
    }
    r := CollectPage(page.value.data, ids);
    if r.Ok? {
      api.FinishPage(page.value);
    }
  }

  /** `{str(record["id"]) for record in api.call_endpoint()}`. */
  method CollectApiIds(api: Paginator, server: PageServer) returns (r: Result<set<string>>)
    modifies api, server
    ensures r == ApiIds(Drive(api.BaseAddress(), old(api.State()), old(server.pending)))
    ensures r.Ok? ==> api.State() == Drive(api.BaseAddress(), old(api.State()), old(server.pending)).state
  {
    ghost var base := api.BaseAddress();
    ghost var w0 := Drive(base, api.State(), server.pending);
    ghost var records: seq<Record> := [];
    ghost var urls: seq<string> := [];
    ghost var consumed: nat := 0;
    var ids: set<string> := {};
    assert After([], [], 0, w0) == w0;
    while !api.IsComplete()
      invariant w0 == After(records, urls, consumed, Drive(base, api.State(), server.pending))
      invariant AllHaveIds(records) && ids == IdStrings(records)
      decreases |server.pending|
    {
      ghost var before, pendingBefore := api.State(), server.pending;
      ghost var url := PageUrl(base, before.currentPage);
      var next := CollectNextPage(api, server, ids);
      if next.Err? {
        if pendingBefore == [] {
          assert w0 == After(records, urls, consumed, Walk(before, [], [url], 0, true));
          assert records + [] == records;
        } else {
          ghost var data := pendingBefore[0].data;
          ghost var rest := Drive(base, Step(before, pendingBefore[0]), pendingBefore[1..]);
          assert w0 == After(records + data, urls + [url], consumed + 1, rest) by {
            DriveUnfold(base, before, pendingBefore);
            AfterAfter(records, urls, consumed, data, [url], 1, rest);
          }
          ghost var i :| 0 <= i < |data| && "id" !in data[i];
          assert w0.records[|records| + i] == data[i];
        }
        return next;
      }
      ghost var page := pendingBefore[0];
      ghost var rest := Drive(base, Step(before, page), pendingBefore[1..]);
      assert w0 == After(records + page.data, urls + [url], consumed + 1, rest) by {
        DriveUnfold(base, before, pendingBefore);
        AfterAfter(records, urls, consumed, page.data, [url], 1, rest);
      }
      IdStringsAppend(records, page.data);
      ids := next.value;
      records := records + page.data;
      urls := urls + [url];
      consumed := consumed + 1;
    }
    assert Drive(base, api.State(), server.pending) == Walk(api.State(), [], [], 0, false);
    assert records + [] == records;
    r := Ok(ids);
  }

  // ---------------------------------------------------------------------------
  // The workflow

  /** `run_delete_records_workflow`: no frame from the warehouse means no
      API call and no deletion; otherwise every id the warehouse holds and
      the API no longer returns is deleted. */
  method RunDeleteRecordsWorkflow(api: Paginator, server: PageServer, endpoint: Endpoint, gradYear: string,
                                  warehouse: Query -> Option<seq<Value>>, storage: CloudStorage) returns (r: Result<()>)
    modifies api, server, storage
    ensures WarehouseIds(endpoint, gradYear, warehouse).None? ==>
      && r == Ok(()) && storage.objects == old(storage.objects)
      && server.requested == old(server.requested) && server.pending == old(server.pending)
      && api.State() == old(api.State())
    ensures WarehouseIds(endpoint, gradYear, warehouse).Some? &&
            ApiIds(Drive(api.BaseAddress(), old(api.State()), old(server.pending))).Err? ==>
      r == Err(ApiIds(Drive(api.BaseAddress(), old(api.State()), old(server.pending))).error) &&
      storage.objects == old(storage.objects)
    ensures WarehouseIds(endpoint, gradYear, warehouse).Some? &&
            ApiIds(Drive(api.BaseAddress(), old(api.State()), old(server.pending))).Ok? ==>
      DeleteOutcome(old(storage.objects), storage.objects, r, endpoint,
        WarehouseIds(endpoint, gradYear, warehouse).value
          - ApiIds(Drive(api.BaseAddress(), old(api.State()), old(server.pending))).value,
        gradYear)
  {
    var query := if endpoint.name == "students" then StudentIds(gradYear)
                 else JoinedIds(endpoint.name, IdColumn(endpoint), gradYear);
    var frame := warehouse(query);
    if frame.None? {
      return Ok(());
    }
    var idsFromDw := set v | v in frame.value :: PyStr(v);
    var idsFromApi := CollectApiIds(api, server);
    if idsFromApi.Err? {
      return Err(idsFromApi.error);
    }
    var missingIds := idsFromDw - idsFromApi.value;
    r := DeleteMissing(endpoint, missingIds, gradYear, storage);
  }

  /** No missing id, no deletion. */
  lemma NothingMissingNothingDeleted(before: map<string, string>, after: map<string, string>, r: Result<()>,
                                     endpoint: Endpoint, year: string)
    requires DeleteOutcome(before, after, r, endpoint, {}, year)
    ensures r.Ok? && after == before
  {
    assert AllRecordsPresent(before, endpoint, {}, year);
    assert Separated(endpoint, {}, year);
    assert TargetPaths(endpoint, {}, year) == {};
    assert before - {} == before;
  }

  /** The objects of a record the API still returns are not among those the
      workflow may delete, given ids and a year without `/`. */
  lemma ApiRecordsUntouched(endpoint: Endpoint, dwIds: set<string>, apiIds: set<string>, year: string, recordId: string)
    requires StorageNames(endpoint) && recordId in apiIds
    requires '/' !in year && '/' !in recordId
    requires forall id :: id in dwIds ==> '/' !in id
    ensures RecordPath(endpoint, recordId, year) !in TargetPaths(endpoint, dwIds - apiIds, year)
    ensures endpoint.customField.Some? ==>
      CustomPath(endpoint.customField.value, recordId, year) !in TargetPaths(endpoint, dwIds - apiIds, year)
  {
    OtherRecordsUntouched(endpoint, dwIds - apiIds, year, recordId);
  }

  /** Every configured endpoint names its storage so. */
  lemma ConfiguredStorageNames(i: nat)
    requires i < 6
    ensures StorageNames(BuiltEndpoint(i))
  {
    var e := BuiltEndpoint(i);
    ConfiguredNamesHaveNoSlash();
    assert e.gcsFolder in ConfiguredNames && e.fileNamePrefix in ConfiguredNames;
    if e.customField.Some? {
      assert e.customField.value.gcsFolder in ConfiguredNames && e.customField.value.fileNamePrefix in ConfiguredNames;
    }
  }

  /** The folder and prefix names of the table. */
  const ConfiguredNames: seq<string> := [
    "schools", "school_", "students", "student_", "admissions", "admission_", "followings", "following_",
    "universities", "university_", "custom_fields", "custom_field_",
    "student_custom_fields", "student_custom_field_", "admission_custom_fields", "admission_custom_field_",
    "custom_field_options"]

  lemma ConfiguredNamesHaveNoSlash()
    ensures forall k :: 0 <= k < |ConfiguredNames| ==> '/' !in ConfiguredNames[k]
  {
  }
}
