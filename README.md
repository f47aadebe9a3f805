# overgrad-connector, modelled in Dafny

The Overgrad connector copies records from the Overgrad REST API into a
Google Cloud Storage bucket, one newline-delimited JSON object per record. It
also deletes the objects of records that the warehouse still holds but the API
no longer returns. This project models the record pipeline between the network
and the storage client, and proves what it does.

**Endpoint descriptors** (`config.dfy`, `endpoints.dfy`)
- The constant table of six endpoint configurations, as dict literals.
- `create_endpoint_object`, with its KeyError on a missing required key and
  its TypeError on a `custom_field` dict with foreign keys.
- Each table entry builds to a known descriptor.

**The paginator** (`overgrad_api.dfy`)
- A `Paginator` class whose fields are the page counters of
  `OvergradAPIPaginator`, and the URL builders.
- The network is a `PageServer` object holding the page payloads it will
  answer with.
- The generator loop is specified by `Drive`, the walk it makes over those
  payloads.
- Counting, termination and URL facts are proved about `Drive`.

**Record transforms** (`process_records.dfy`, `helpers.dfy`)
- Nested-object flattening and custom-field explosion, both in place on a
  mutable record (`RecordRef`).
- Projection onto allow-lists, the object path, and the ndjson content.
- `run_record_processing` as a loop over the paginator, page by page, with
  the custom-field call corrected to pass `grad_year` (see Findings).
  - Its effect on the bucket, the university-id queue and the row count is
    given by the corrected effect function over the records the walk yields.
  - The code as written is modelled beside it (`RecordsEffectAsWritten`): for
    endpoints with custom fields it fails on the first record that reaches
    the call.

**Deletion reconciliation** (`delete_records.dfy`)
- The warehouse query choice and `str` normalisation.
- API id collection over the same paginator.
- `_delete_record`, and the deletion of `warehouse ids - API ids`.
- The bucket is a map from path to content; deleting an absent path is
  NotFound.

Shared pieces:
- `json.dfy`: decoded JSON values and Python's `str`, truthiness, iteration
  and subscripting.
- `strings.dfy`: decimal rendering, `join` and `split`.

Integers are unbounded, as in Python. `json.dumps` is a parameter
`dumps: Record -> string`. The warehouse query is a parameter from query to an
optional id column.

## Model

| member | source | states |
|---|---|---|
| Config.TableOrder | utils/config.py:17-256 | the table has exactly six entries, each with a string name; they are named schools, students, admissions, followings, universities, custom_fields in that order, with no name repeated |
| Config.CustomFieldDictKeys | utils/config.py:96-106 | every `custom_field` dict in the table has exactly the keys field_name, gcs_folder, file_name_prefix and fields |
| Config.StudentsSatSuperscoreSpelling | utils/config.py:54-68 | the students allow-list holds `cademics_sat_superscore` and not `academics_sat_superscore`, the key flattening produces |
| Endpoints.FirstMissing | entities/endpoints.py:28-34 | None exactly when every required key is present; otherwise the first absent key in reading order |
| Endpoints.CreateCustomField | entities/endpoints.py:44-45 | a dict whose keys are not exactly the four CustomField parameters is a TypeError; a built CustomField holds the dict's four values |
| Endpoints.CreateCustomFieldRoundTrip | entities/endpoints.py:44-45 | building from a CustomField's own dict gives back that CustomField |
| Endpoints.CreateEndpoint | entities/endpoints.py:26-41 | a configuration builds exactly when the seven required keys are present with the right types and nested_fields and custom_field are usable, extra keys ignored; any other error is a type error; a missing required key is KeyError of the first missing one; the seven values are copied verbatim; nested_fields is None iff the key is absent; custom_field is None iff the key is absent or falsy, and otherwise holds the dict's values |
| Endpoints.CreateEndpointRoundTrip | entities/endpoints.py:26-41 | building from a descriptor's own configuration dict gives back that descriptor |
| Endpoints.TableBuilds | utils/config.py:17-256 | every table entry builds without error, to the descriptor `BuiltEndpoint(i)` |
| Endpoints.BuiltTable | utils/config.py:17-256 | has_grad_year exactly for students, admissions, followings; has_university_id exactly for admissions, followings; nested fields exactly for those three; custom fields exactly for students, admissions, custom_fields; every allow-list and custom-field allow-list holds id (and custom_field_id) |
| Json.Lookup | workflows/process_paginated_records.py:15 | None exactly when no entry has the key; otherwise the value of an entry under that key |
| Json.Iterate | workflows/process_paginated_records.py:14 | a list gives its elements; a string gives each character as a one-character string, in order; a dict gives its keys, in order; None, booleans and ints are a TypeError |
| Json.Subscript | workflows/process_paginated_records.py:15 | succeeds exactly on a dict holding the key, with its value; a dict without it is KeyError of that key |
| Json.PyStrIntInjective | workflows/delete_records.py:73 | two different integer ids never render to the same `str` |
| OvergradApi.BaseUrlBothFilters | entities/overgrad_api.py:50-57 | with both filters the base URL is root + endpoint + `?graduation_year=Y&updated_after=D&limit=100` |
| OvergradApi.BaseUrlYearOnly | entities/overgrad_api.py:50-57 | with only the year: `?graduation_year=Y&limit=100` |
| OvergradApi.BaseUrlDateOnly | entities/overgrad_api.py:50-57 | with only the date: `?updated_after=D&limit=100` |
| OvergradApi.BaseUrlNoFilter | entities/overgrad_api.py:50-57 | with neither: `?limit=100` |
| OvergradApi.PageUrlInjective | entities/overgrad_api.py:44-48 | different page numbers from 1 on give different URLs |
| OvergradApi.InitialNotComplete | entities/overgrad_api.py:35-39 | a fresh paginator is not complete |
| OvergradApi.Step | entities/overgrad_api.py:80-87 | one fetched page advances the page by 1 and the count by the page's size; the totals are taken from the page only while still unknown and kept afterwards |
| OvergradApi.DriveFacts | entities/overgrad_api.py:76-88 | the loop stops complete unless the server ran out; the records are those of the consumed pages, in page then in-page order; page and count advance by the pages and records consumed |
| OvergradApi.DriveKnownTotal | entities/overgrad_api.py:63-67 | once the total is known, exactly the remaining pages are requested, in order, and the total is kept |
| OvergradApi.FirstPageFixesWalk | entities/overgrad_api.py:76-88 | if the first page reports T pages, exactly max(1, T) pages are fetched at pages 1, 2, ..., the loop ends complete, and the record count is the sum of their sizes |
| OvergradApi.WalkUrlsDistinct | entities/overgrad_api.py:44-48 | no URL is requested twice in such a walk |
| OvergradApi.PageServer.Get | entities/overgrad_api.py:20-23 | records the URL and answers with the next payload, or with nothing when none remains |
| OvergradApi.Paginator.constructor | entities/overgrad_api.py:35-42 | page 1, count 0, totals unknown |
| OvergradApi.Paginator.IsComplete | entities/overgrad_api.py:63-67 | false while the page total is unknown, else current page > total pages |
| OvergradApi.Paginator.IncrementPage | entities/overgrad_api.py:69-70 | the page advances by one, nothing else changes |
| OvergradApi.Paginator.UpdateResponseCounts | entities/overgrad_api.py:72-74 | the totals are set from the payload, nothing else changes |
| OvergradApi.Paginator.BeginPage | entities/overgrad_api.py:78-81 | requests the current page's URL and adds the page's size to the count |
| OvergradApi.Paginator.FinishPage | entities/overgrad_api.py:84-87 | reads the totals only if unknown, then advances the page |
| OvergradApi.Paginator.NextPage | entities/overgrad_api.py:77-87 | one loop turn: request, count, totals, next page |
| OvergradApi.Paginator.DrainPage | entities/overgrad_api.py:76-88 | one loop turn inside the walk of the whole call: a failed request ends the walk exhausted; otherwise one more page's records are collected and the rest of the walk starts from the advanced paginator |
| OvergradApi.Paginator.CallEndpoint | entities/overgrad_api.py:76-88 | yields exactly the records of the walk `Drive` makes, ends in its state, consumes its pages and requests its URLs in order |
| OvergradApi.RecordUrlInjective | entities/overgrad_api.py:95-99 | different integer ids give different single-record URLs |
| OvergradApi.RecordServer.Get | entities/overgrad_api.py:20-23 | answers with the stored payload, or an HTTP error for an unknown URL |
| OvergradApi.RecordFetcher.FetchRecord | entities/overgrad_api.py:101-104 | requests `.../{endpoint}/{id}` and returns the payload unchanged |
| Storage.CloudStorage.Upload | utils/helpers.py:46 | the object at the path now holds the content, all others unchanged |
| Storage.CloudStorage.Delete | workflows/delete_records.py:22 | removes an existing object; an absent one is NotFound and nothing changes |
| Helpers.Filled | utils/helpers.py:15-16 | the record gains None for its missing allowed fields and keeps all its own keys and values |
| Helpers.Cleaned | utils/helpers.py:18 | key set exactly the allow-list; present values kept, absent ones None |
| Helpers.CleanRecordFields | utils/helpers.py:13-18 | writes the Filled record back into the caller's dict and returns the Cleaned one |
| Helpers.CleanedIdempotent | utils/helpers.py:13-18 | cleaning a cleaned record changes nothing |
| Helpers.CleanedAfterFilled | utils/helpers.py:15-18 | the in-place filling does not change what is returned |
| Helpers.ObjectPathInjective | utils/helpers.py:41-44 | one folder, prefix and year never give two ids the same path |
| Helpers.YearedPathSegments | utils/helpers.py:41-42 | a path with a year splits on `/` into overgrad, folder, year, file name |
| Helpers.PlainPathSegments | utils/helpers.py:43-44 | a path without one splits into overgrad, folder, file name |
| Helpers.YearedPathsAreNotPlain | utils/helpers.py:41-44 | no path with a year is a path without one |
| Helpers.RecordId | utils/helpers.py:26-30 | for an Endpoint the id of the dict (KeyError if absent); for a CustomField the id of the list's first record (IndexError if empty, KeyError if absent) |
| Helpers.NdjsonLines | utils/helpers.py:36 | one line per record, the record's dump, in order |
| Helpers.NdjsonContentLines | utils/helpers.py:32-37 | splitting the content on newlines gives back the lines, one per record; a single record is its own line, no trailing newline |
| Helpers.PlanLoad | utils/helpers.py:21-44 | an id error is the outcome; otherwise the object path is built from the target's folder and prefix, the optional year and `str(id)`, and the content from the wrapped records |
| Helpers.LoadToCloudStorage | utils/helpers.py:21-46 | exactly the planned object is written, or nothing on error |
| ProcessRecords.FlattenNestedFieldsShape | workflows/process_paginated_records.py:52-57 | same size, each key becomes `parent_key` with its value unchanged, distinct keys stay distinct |
| ProcessRecords.UpdateWith | workflows/process_paginated_records.py:65 | keys become the old ones plus the merged ones; keys not merged keep their values |
| ProcessRecords.UpdateWithDistinct | workflows/process_paginated_records.py:65 | every merged key holds its merged value, overwriting the old one |
| ProcessRecords.NestedStepEffect | workflows/process_paginated_records.py:61-65 | an absent key is KeyError; a falsy value is removed and nothing added; a truthy dict is removed and its entries merged under prefixed keys; everything else kept |
| ProcessRecords.NestedSpecRemovesKeys | workflows/process_paginated_records.py:60-65 | after success no configured nested key remains |
| ProcessRecords.MissingNestedKey | workflows/process_paginated_records.py:62 | a configured key missing at its turn is a KeyError of that key |
| ProcessRecords.ProcessNestedFields | workflows/process_paginated_records.py:60-65 | the record in place becomes what the step-by-step specification gives, or the error it gives |
| ProcessRecords.NestedErrorPersists | workflows/process_paginated_records.py:61-62 | the first error decides the outcome |
| ProcessRecords.RowsOf | workflows/process_paginated_records.py:21-27 | one row per list element, in order |
| ProcessRecords.EntryRows | workflows/process_paginated_records.py:14-34 | custom_field_id gives no row; multiselect gives one row per element, in order; any other key gives exactly one row; every row is {id, custom_field_id, value_type, value} |
| ProcessRecords.EntriesRows | workflows/process_paginated_records.py:14-34 | every row of an item carries the parent id, the item's field id and one of its keys |
| ProcessRecords.ItemRows | workflows/process_paginated_records.py:14-16 | rows come only from a dict item with a custom_field_id and carry it |
| ProcessRecords.ItemsRows | workflows/process_paginated_records.py:14-34 | every row has exactly the four row keys and the parent id |
| ProcessRecords.FlattenSpec | workflows/process_paginated_records.py:9-35 | the custom-field key is gone; an absent key gives no rows; every row has the four keys and the record's id |
| ProcessRecords.EntriesErrorPersists | workflows/process_paginated_records.py:14-34 | the first error in an item decides the outcome |
| ProcessRecords.ItemsErrorPersists | workflows/process_paginated_records.py:14-34 | the first error among items decides the outcome |
| ProcessRecords.AppendItemRows | workflows/process_paginated_records.py:14-34 | appends exactly the item's rows, or returns the item's error |
| ProcessRecords.AppendNextEntry | workflows/process_paginated_records.py:16-34 | one turn of the loop over an item's entries: the rows so far extended by the entry's rows, or the entry's error |
| ProcessRecords.AppendEntryRows | workflows/process_paginated_records.py:17-34 | custom_field_id appends nothing; multiselect appends one row per element or fails to iterate; any other key appends its one row |
| ProcessRecords.AppendMultiselectRows | workflows/process_paginated_records.py:20-27 | appends exactly one row per element, in order |
| ProcessRecords.FlattenCustomFields | workflows/process_paginated_records.py:9-35 | pops the key from the record in place and returns the specified rows or error; no custom field is an AttributeError |
| ProcessRecords.EntriesRowsCount | workflows/process_paginated_records.py:14-34 | the number of rows is the sum of per-key counts |
| ProcessRecords.PlainItemRowCount | workflows/process_paginated_records.py:14-34 | without multiselect, one row per key other than custom_field_id |
| ProcessRecords.PlainEntriesSucceed | workflows/process_paginated_records.py:14-34 | without multiselect, an item never fails |
| ProcessRecords.Project | workflows/process_paginated_records.py:43 | keys are the row's keys within the allow-list, values unchanged |
| ProcessRecords.Projected | workflows/process_paginated_records.py:42-44 | one projected row per row, in order |
| ProcessRecords.ProjectConfiguredRow | workflows/process_paginated_records.py:43 | the students and admissions custom-field allow-lists keep a row whole; the custom_fields one keeps only id and custom_field_id |
| ProcessRecords.ApplyWrites | workflows/process_paginated_records.py:80-83 | every written path exists, the last write to a path wins, untouched objects unchanged |
| ProcessRecords.ApplyWritesAppend | workflows/process_paginated_records.py:68-86 | two runs of writes compose |
| ProcessRecords.CustomFieldsSpec | workflows/process_paginated_records.py:38-49 | the key is removed; no rows means no count (None) and no write; otherwise the count is the number of rows and exactly one object is written |
| ProcessRecords.CustomFieldsUpload | workflows/process_paginated_records.py:43-48 | that object sits at the custom-field folder and prefix, with the year exactly when the endpoint has one, under the record's id, and holds the projected rows |
| ProcessRecords.ProcessCustomFields | workflows/process_paginated_records.py:38-49 | the record and bucket change as the specification says |
| ProcessRecords.UniversityQueue.Add | workflows/process_paginated_records.py:72 | a hashable id is added to the set; a list or dict is a TypeError |
| ProcessRecords.ThenAssociative | workflows/process_paginated_records.py:68-86 | sequencing effects is associative |
| ProcessRecords.SequencedAppend | workflows/process_paginated_records.py:70 | processing two runs of records is the first then the second |
| ProcessRecords.ProcessRecord | workflows/process_paginated_records.py:70-83 | one record's failure, count, queue additions and writes are those of the corrected per-record effect |
| ProcessRecords.TransformAndLoad | workflows/process_paginated_records.py:73-83 | the same, for the transform and load, with the corrected call (grad_year passed) |
| ProcessRecords.CleanAndLoad | workflows/process_paginated_records.py:79-83 | the cleaned record is loaded with the year exactly when the endpoint has one |
| ProcessRecords.ThenContinues | workflows/process_paginated_records.py:70-83 | after a success the next effect decides failure; counts add, queues join, writes compose |
| ProcessRecords.RecordsEffectSnoc | workflows/process_paginated_records.py:70 | records are processed in order |
| ProcessRecords.ProcessPage | workflows/process_paginated_records.py:70-83 | a page's records are processed in order, with the corrected effect (grad_year passed) |
| ProcessRecords.RecordsFailurePersists | workflows/process_paginated_records.py:70-83 | an exception on a record ends the run: later records change nothing |
| ProcessRecords.RecordsEffectAppend | workflows/process_paginated_records.py:70 | the effect of records split anywhere is the join of the two |
| ProcessRecords.RunPage | workflows/process_paginated_records.py:70-83 | a page is requested, its records processed with the corrected call (grad_year passed), and the paginator advanced only if none failed |
| ProcessRecords.PageFailureDecides | workflows/process_paginated_records.py:70-83 | a failing page decides the run's outcome whatever follows |
| ProcessRecords.RunNextPage | workflows/process_paginated_records.py:70-83 | with the corrected call (grad_year passed), one page of the loop inside the whole run: an exception is the run's own outcome, bucket and queue included; otherwise one more page of the walk is consumed and its records' effect added |
| ProcessRecords.RunRecordProcessing | workflows/process_paginated_records.py:68-86 | with the corrected call (grad_year passed), the bucket, the queue, the error or the custom-row count, and the paginator's final state are those of the effect of the records the walk yields |
| ProcessRecords.NoUnderscoreNotPrefixed | workflows/process_paginated_records.py:55 | a key without `_` is never a flattened key |
| ProcessRecords.NestedKeepsId | workflows/process_paginated_records.py:60-65 | nested flattening never changes the record's id |
| ProcessRecords.RecordQueued | workflows/process_paginated_records.py:71-72 | `university_id` (or None) is queued exactly when the endpoint has university ids, read before any transform |
| ProcessRecords.SequencedQueues | workflows/process_paginated_records.py:70-72 | a run queues each record's key value, in order |
| ProcessRecords.SequencedQueuesNothing | workflows/process_paginated_records.py:70-72 | a step that queues nothing makes a run that queues nothing |
| ProcessRecords.NothingQueuedWithoutUniversityId | workflows/process_paginated_records.py:71 | endpoints without university ids queue nothing |
| ProcessRecords.QueuedUniversityIds | workflows/process_paginated_records.py:71-72 | a successful run queues every record's university_id, in order |
| ProcessRecords.RecordLoadedUnderItsId | workflows/process_paginated_records.py:79-83 | a processed record's last write is its own object, under its id, with the year exactly when the endpoint has one |
| ProcessRecords.LastUpload | workflows/process_paginated_records.py:73-83 | a record processed without exception went through the nested and custom-field steps, and its last write is its cleaned dict at the path of its id, after the custom-field writes |
| ProcessRecords.RecordPathSegments | workflows/process_paginated_records.py:80-83 | that path has four segments with the year, three without |
| ProcessRecords.AsWrittenAgreesWithoutCustomField | workflows/process_paginated_records.py:68-86 | for endpoints without custom fields the code as written and the corrected one agree |
| ProcessRecords.AsWrittenCustomFieldFails | workflows/process_paginated_records.py:76 | as written, a record of an endpoint with custom fields writes nothing and fails, with a TypeError once it reaches the call |
| ProcessRecords.AsWrittenRunWritesNothing | workflows/process_paginated_records.py:68-86 | as written, such a run writes nothing and fails on its first record |
| ProcessRecords.CorrectedCustomFieldLoads | workflows/process_paginated_records.py:38-49 | with the year passed, the record is loaded under its id, after its custom-field object when it has rows |
| ProcessRecords.AsWrittenTableRunsWriteNothing | workflows/process_paginated_records.py:76 | the students, admissions and custom_fields runs as written write nothing |
| DeleteRecords.PathsMatchLoader | workflows/delete_records.py:21-26 | the deleter's two paths are the loader's paths with the year |
| DeleteRecords.PlainLoadsAreNeverDeleted | workflows/delete_records.py:21 | objects written without a year are never a deletion target |
| DeleteRecords.TargetPathsAdd | workflows/delete_records.py:79-81 | one more id adds its record path and, with a custom field, its custom path |
| DeleteRecords.SeparateFolders | workflows/delete_records.py:21-26 | different folders keep record paths and custom paths apart |
| DeleteRecords.OtherRecordsUntouched | workflows/delete_records.py:75-81 | an id not among those deleted keeps both its objects |
| DeleteRecords.DeleteRecord | workflows/delete_records.py:20-33 | an absent record object is NotFound and nothing changes; otherwise the record object and, if there is one, the custom-field object are gone, a missing custom-field object tolerated |
| DeleteRecords.NotTargeted | workflows/delete_records.py:79-81 | a record not yet deleted still has its record object |
| DeleteRecords.StoppedOutcome | workflows/delete_records.py:22 | a NotFound stops the loop with the ids deleted so far gone |
| DeleteRecords.DeleteMissing | workflows/delete_records.py:79-81 | on success exactly the objects of the missing ids are gone; on NotFound those of some of them and the failing path was absent; with all record objects present no failure |
| DeleteRecords.QueryFor | workflows/delete_records.py:46-68 | students use the student query; any other name the joined query on its own table, with overgrad_application_id exactly for admissions and overgrad_following_id otherwise |
| DeleteRecords.IdsComparedAsStrings | workflows/delete_records.py:73 | for every integer n, a warehouse value and an API record id that both render to the digits of n (Int(n) or its text, on either side) put that id in both sets, so it is never among the ids to delete |
| DeleteRecords.IdStringsAppend | workflows/delete_records.py:72-73 | the ids of two runs of records are the union |
| DeleteRecords.CollectPage | workflows/delete_records.py:72-73 | adds `str(id)` of every record of a page, or is KeyError("id") |
| DeleteRecords.CollectNextPage | workflows/delete_records.py:72-73 | one generator turn of the collection |
| DeleteRecords.CollectApiIds | workflows/delete_records.py:71-73 | the id set is that of the walk's records, or its error |
| DeleteRecords.RunDeleteRecordsWorkflow | workflows/delete_records.py:60-83 | no warehouse frame: no API call, nothing deleted; an API error: nothing deleted; otherwise exactly warehouse ids minus API ids are deleted |
| DeleteRecords.NothingMissingNothingDeleted | workflows/delete_records.py:77-83 | an empty difference deletes nothing |
| DeleteRecords.ApiRecordsUntouched | workflows/delete_records.py:75-81 | for an endpoint whose folders and prefixes hold no `/` and whose custom folder is its own, a record the API still returns keeps its objects |
| DeleteRecords.ConfiguredStorageNames | utils/config.py:17-256 | every configured endpoint's folders and prefixes hold no `/`, and its custom-field folder differs from its own |
| Strings.SplitJoin | utils/helpers.py:37 | splitting a join on a separator absent from the parts gives the parts back |
| Strings.DigitsValueNatDecimal | workflows/delete_records.py:73 | the decimal rendering reads back to the number |

## Left out

- HTTP transport: the session, the API key header, the tenacity retry with its 60 s wait, the 10 s timeout and `sleep(1.1)`. The server is an object answering with a given sequence of payloads.
- OvergradApi.Paginator.CallEndpoint: a server with no payload left ends the walk with `NetworkExhausted`. The service would keep being asked; this marks the end of the given payloads, not a behaviour of the source.
- Payloads are typed pages with `data`, `total_count` and `total_pages`. A payload missing one of these keys, which the source would answer with a KeyError, is not modelled.
- `ConfigTypeMismatch`: a configuration value of the wrong Python type is an error of the model. The source would store it as it is.
- Json.Value: there is no float variant, so fractional values such as the gpa fields cannot be expressed. Field values pass through the transforms untouched, so only ids need a numeric form.
- Json.PyStr: renders lists and dicts as placeholders rather than Python's full `repr`. Ids are scalars.
- `json.dumps`, the key order inside one ndjson line, and UTF-8 encoding are all a parameter (`dumps`). Top-level records are maps.
- Python's `1 == True` set identity is not modelled: `Int(1)` and `Bool(true)` are distinct queue members.
- Helpers.RecordId: a single dict given with a CustomField target is modelled as KeyError("0"), the error `dict[0]` gives.
- Cloud Storage, BigQuery and environment variables: the bucket is a map of paths, the warehouse a given function from query to id column. The SQL text is represented only by its choice of table and column.
- Logging calls, including the `record_count` log line, are not modelled.
- main.py and entities/record_delete_dataclass.py are not part of this model. The second declares fields for student, admission and following ids, but no code uses them: deletion does not cascade from students to their admissions and followings.
- ProcessRecords.RunRecordProcessing: specified with the custom-field call corrected to pass `grad_year`. As written, workflows/process_paginated_records.py:76 raises TypeError for the students, admissions and custom_fields endpoints; that behaviour is `RecordsEffectAsWritten`, and `AsWrittenRunWritesNothing` states its outcome.
- ProcessRecords.RunRecordProcessing: the paginator's state is stated only when the run succeeds. After an exception inside a page, the page's count has been added but the page has not advanced.
- ProcessRecords.ProcessRecord: each yielded record is a fresh dict. Aliasing between yielded records is not modelled.
- DeleteRecords.DeleteMissing: `list(set)` has no defined order, so the deletion order is arbitrary. On a NotFound the contract names some set of deleted ids, not which ones.
- DeleteRecords.ApiRecordsUntouched, DeleteRecords.OtherRecordsUntouched: they assume ids and the year contain no `/`. Otherwise distinct ids could share a path.

Behaviour of the code that the model keeps as it is:
- The single-record lookup raises on an unknown id: `raise_for_status` fails for it (entities/overgrad_api.py:22, :101-104).
- Nested flattening raises KeyError on an absent nested key, because `record.pop` has no default (workflows/process_paginated_records.py:62).

## Findings

| source | as written | input that shows it | evidently intended | confidence | as-written member | corrected member |
|---|---|---|---|---|---|---|
| workflows/process_paginated_records.py:76 | `_process_custom_fields(record, endpoint)` is called with two arguments, but the function takes three (`grad_year`), so Python raises TypeError | any record of students, admissions or custom_fields whose university-id and nested steps succeed | pass `grad_year`, so the custom-field rows and then the record are written | not executed | ProcessRecords.AsWrittenTableRunsWriteNothing | ProcessRecords.CorrectedCustomFieldLoads |
