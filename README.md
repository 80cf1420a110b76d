# Notes API mock: entry store and request router

This project models the in-memory stand-in for the hosted notes backend used by
the repository's browser tests:

- the **entry store** (`mocks/notesMockData.ts`): one shared, ordered array of
  note entries, seeded with four entries with ids `"1"`–`"4"`, with append
  (automatic id `String(length + 1)` when none is given), filter by
  canonicalised date, list, find-first-by-id, partial-merge update of the first
  match, splice-delete of the first match, and clear;
- the **request router** (`mocks/notesApiInterceptors.ts`): it dispatches an
  intercepted request on its HTTP method and its `id`/`date` query parameters,
  calls the store, and answers with a status and a JSON body, or lets the
  request through; plus the fixed-answer variants (test-specific mock,
  special-content mock with its content switch, invalid-date mock).

Layout:

- `wrappers.dfy` — `Option`.
- `decimal.dfy` — `DecimalString` (JavaScript's `String(n)` for a natural
  number) and its inverse on digit strings.
- `notes_mock_data.dfy` — module `NotesMockData`: `NoteEntry`, the seed, the
  store operations as functions on `seq<NoteEntry>` (`Appended`, `WithDate`,
  `FindIndex`, `Merge`, `Updated`, `Removed`) and the class `NotesStore`, whose
  field `entries` is the shared array and whose methods change it in place.
- `notes_mock_data_lemmas.dfy` — properties of the store operations.
- `notes_api_interceptors.dfy` — module `NotesApiInterceptors`: request,
  response and outcome datatypes; each handler as a function from the store's
  contents and a request to a `Reply` (new contents and outcome); and each
  handler as a method on a `NotesStore`, proved equal to that function.
- `notes_api_interceptors_lemmas.dfy` — properties of the router.

Modelling choices:

- JavaScript truthiness: an optional string counts only when present and
  non-empty (`Truthy`), as in `if (id)`, `!name` and `if (name)`.
- Date canonicalisation (`new Date(x).toISOString()`) is a parameter
  `canon: string -> Option<string>`; `None` is the case where it throws. A throw
  escaping a handler is the outcome `Rejected` (the handler's promise rejects
  and the request gets no answer from it). Properties are stated relative to
  `canon`.
- `NoteEntry.name` and `NoteEntry.createdDate` are optional: the fixed-answer
  mocks store whatever the request body held, including an absent name or
  date. `id` is always a string, since `addMockEntry` always assigns one.
- A request carries its method (`verb`, compared as a string, as the source
  does), its raw URL (read by the invalid-date mock's substring test), the
  `id` and `date` query parameters, and a body of optional strings (`id`,
  `name`, `Created_date`). A missing body reads as `{}`.
- The model follows what the code does: ids are **not** kept unique (after a delete,
  `String(length + 1)` can repeat a live id, and lookups, updates and deletes
  act on the first match), and POST stores `Created_date` **as posted** while
  only the `date` query is canonicalised, so an entry posted as `2024-02-29`
  is not found by `?date=2024-02-29`. `SeedDeleteThenAddRepeatsId`,
  `PostThenGetByIdShadowed` and `PostedDateNotCanonicalised` state these
  consequences.

## Model

| member | source | states |
|---|---|---|
| `Decimal.DecimalString` | mocks/notesMockData.ts:21 | `String(n)` is a non-empty string of decimal digits whose first digit is `0` only for `n == 0` |
| `Decimal.DigitsValueOfDecimalString` | mocks/notesMockData.ts:21 | reading the decimal rendering of `n` back gives `n` |
| `Decimal.DecimalStringInjective` | mocks/notesMockData.ts:21 | distinct store sizes give distinct automatic ids |
| `NotesMockData.NextId` | mocks/notesMockData.ts:21 | the new id is the supplied one when truthy, else the canonical decimal string (digits only, no leading zero) denoting the pre-append length + 1; never empty |
| `NotesMockData.Appended` | mocks/notesMockData.ts:20-22 | the store after `push`: one longer, earlier entries unchanged and in order, the new entry last with the given name and date and the id `NextId` assigns |
| `NotesMockData.WithDate` | mocks/notesMockData.ts:27 | the date filter keeps only entries whose date is exactly the given string and is no longer than the store |
| `NotesMockData.FindIndex` | mocks/notesMockData.ts:57 | `findIndex`: the index of the first entry with the id, or none exactly when no entry has it |
| `NotesMockData.Merge` | mocks/notesMockData.ts:60 | `{ ...entry, ...updates }`: each field present in the updates replaces the entry's, each absent one keeps it |
| `NotesMockData.Updated` | mocks/notesMockData.ts:56-62 | same length; entries with another id untouched; no change when no entry has the id; otherwise an entry with the id becomes its merge with the updates |
| `NotesMockData.Removed` | mocks/notesMockData.ts:65-71 | no change when no entry has the id; otherwise one entry shorter; never introduces an entry the store did not hold |
| `NotesMockData.WithDateCount` | mocks/notesMockData.ts:25-28 | the date filter keeps every matching entry as often as the store holds it and drops every other |
| `NotesMockData.NotesStore.constructor` | mocks/notesMockData.ts:12-17 | a new store holds the four seed entries, ids `"1"`–`"4"` |
| `NotesMockData.NotesStore.AddMockEntry` | mocks/notesMockData.ts:20-22 | length grows by one, earlier entries unchanged and in order, new entry last with the given name and date and `NextId` of the old store |
| `NotesMockData.NotesStore.GetMockEntriesForDate` | mocks/notesMockData.ts:25-28 | none exactly when `canon(date)` throws; otherwise the store-order filter on `canon(date)`: every result carries that date, and each matching entry appears as often as in the store |
| `NotesMockData.NotesStore.ClearMockData` | mocks/notesMockData.ts:31-33 | the store is empty afterwards |
| `NotesMockData.NotesStore.GetAllEntries` | mocks/notesMockData.ts:46-48 | the result has the store's length and its entries in the same order; the store is only read |
| `NotesMockData.NotesStore.GetEntryById` | mocks/notesMockData.ts:51-53 | none exactly when no entry has the id; otherwise an entry of the store with that id and no earlier entry carrying it |
| `NotesMockData.NotesStore.UpdateEntry` | mocks/notesMockData.ts:56-62 | returns whether some entry has the id; if not the store is unchanged, if so only the first match is replaced by its merge with the updates |
| `NotesMockData.NotesStore.DeleteEntry` | mocks/notesMockData.ts:65-71 | returns whether some entry has the id; if not the store is unchanged, if so exactly the first match is spliced out, length drops by one, the rest keep their order |
| `NotesMockDataLemmas.WithDateConcat` | mocks/notesMockData.ts:27 | filtering by date distributes over concatenation, so it keeps store order |
| `NotesMockDataLemmas.WithDateEmpty` | mocks/notesMockData.ts:27 | with no entry carrying the date, the filter is empty |
| `NotesMockDataLemmas.WithDateOfAppended` | mocks/notesMockData.ts:20-28 | after an append, a date query gains the new entry exactly when its date string equals the queried canonical date |
| `NotesMockDataLemmas.SeedIdsUnique` | mocks/notesMockData.ts:12-17 | the seed's ids are distinct |
| `NotesMockDataLemmas.AppendedKeepsIdsUnique` | mocks/notesMockData.ts:20-22 | an append keeps ids distinct when the assigned id is unused |
| `NotesMockDataLemmas.SeedDeleteThenAddRepeatsId` | mocks/notesMockData.ts:21 | deleting `"2"` from the seed and adding without an id gives two entries with id `"4"` |
| `NotesMockDataLemmas.FindIndexOfFreshAppend` | mocks/notesMockData.ts:20-22 | an appended entry with an unused id is what a lookup of that id finds |
| `NotesMockDataLemmas.RemovedMultiset` | mocks/notesMockData.ts:65-71 | a delete removes one occurrence of the first matching entry and keeps every other |
| `NotesMockDataLemmas.RemovedUniqueIdGone` | mocks/notesMockData.ts:65-71 | with distinct ids, a deleted id is no longer found |
| `NotesMockDataLemmas.RemovedDuplicateStillFound` | mocks/notesMockData.ts:65-71 | with a repeated id, deleting it leaves the id findable |
| `NotesMockDataLemmas.UpdatedFrame` | mocks/notesMockData.ts:56-62 | an update keeps the length and every entry but the first match, which becomes the merge |
| `NotesMockDataLemmas.MergeEmpty` | mocks/notesMockData.ts:60 | merging an empty updates object leaves the entry as it was |
| `NotesApiInterceptors.GetReply` | mocks/notesApiInterceptors.ts:58-99 | GET never passes through; it throws exactly when there is no truthy id and the truthy date does not canonicalise; 404 "Entry not found" exactly when a truthy id matches no entry; a single entry answered is in the store and carries the requested id; a list is answered only without a truthy id and is no longer than the store |
| `NotesApiInterceptors.PostReply` | mocks/notesApiInterceptors.ts:106-129 | the answer is 201 `{success:true}` or 400 "Name and date are required"; 201 exactly when name and date are truthy; on 400 the store is unchanged, on 201 it is one longer with the earlier entries kept |
| `NotesApiInterceptors.PutUpdates` | mocks/notesApiInterceptors.ts:151-153 | the updates object holds a name exactly when the body's name is truthy, a date exactly when its date is truthy, each as given, and never an id |
| `NotesApiInterceptors.PutReply` | mocks/notesApiInterceptors.ts:136-168 | the answer is 200 `{success:true}`, 400 "ID is required" or 404 "Entry not found"; 400 exactly when the body id is not truthy, 200 exactly when it names an entry; the store changes only on 200 and never changes size |
| `NotesApiInterceptors.DeleteReply` | mocks/notesApiInterceptors.ts:176-204 | the answer is 200 `{success:true}`, 400 "ID is required" or 404 "Entry not found"; 400 exactly when the `id` query is not truthy, 200 exactly when it names an entry; the store changes only on 200, shrinking by one |
| `NotesApiInterceptors.Route` | mocks/notesApiInterceptors.ts:21-50 | the request passes through exactly when the method is none of GET, POST, PUT, DELETE, and then the store is unchanged; only GET can throw, leaving the store |
| `NotesApiInterceptors.FixedEntryReply` | mocks/notesApiInterceptors.ts:213-251 | throws exactly when the test date does not canonicalise, leaving the store; otherwise POST appends the body's name and date unchecked and answers 201, GET answers 200 with the one fixed entry (content, canonical date, id), and every other method passes through |
| `NotesApiInterceptors.TestSpecificReply` | mocks/notesApiInterceptors.ts:213-251 | throws exactly when the test date does not canonicalise; GET answers the one entry with the test content, canonical date and id `"test-id"`; POST appends the body unchecked and answers 201; other methods leave the store |
| `NotesApiInterceptors.SpecialContent` | mocks/notesApiInterceptors.ts:271-286 | `"multiline"`, `"unicode"`, `"html"` and `"emoji"` select the multiline, unicode, HTML and emoji notes; any other content type gives the medium note |
| `NotesApiInterceptors.SpecialContentReply` | mocks/notesApiInterceptors.ts:260-317 | throws exactly when the test date (default `"2024-01-01"`) does not canonicalise; GET answers the one entry with the switched content, canonical date and id `"special-content-id"`; POST appends the body unchecked and answers 201; other methods leave the store |
| `NotesApiInterceptors.Contains` | mocks/notesApiInterceptors.ts:331 | `includes` is true exactly when the pattern occurs at some index |
| `NotesApiInterceptors.InvalidDateReply` | mocks/notesApiInterceptors.ts:325-340 | 400 "Invalid date format" exactly when the URL contains `date=<invalidDate>`, otherwise pass-through |
| `NotesApiInterceptors.HandleGetRequest` | mocks/notesApiInterceptors.ts:58-99 | the GET handler only reads the shared store, and its answer is the one `GetReply` gives for the store's contents |
| `NotesApiInterceptors.HandlePostRequest` | mocks/notesApiInterceptors.ts:106-129 | the POST handler's store afterwards and its answer are those `PostReply` gives for the old contents |
| `NotesApiInterceptors.HandlePutRequest` | mocks/notesApiInterceptors.ts:136-168 | the PUT handler, building the updates from the truthy name and date, ends with the store and the answer that `PutReply` gives for the old contents |
| `NotesApiInterceptors.HandleDeleteRequest` | mocks/notesApiInterceptors.ts:176-204 | the DELETE handler's store afterwards and its answer are those `DeleteReply` gives for the old contents |
| `NotesApiInterceptors.SetupNotesApiInterceptors` | mocks/notesApiInterceptors.ts:21-50 | the dispatcher's store afterwards and its answer are those `Route` gives for the old contents |
| `NotesApiInterceptors.SetupFixedEntryMock` | mocks/notesApiInterceptors.ts:213-251 | the shared fixed-answer behaviour's store afterwards and its answer are those `FixedEntryReply` gives for the old contents |
| `NotesApiInterceptors.SetupTestSpecificMock` | mocks/notesApiInterceptors.ts:213-251 | the test-specific mock's store afterwards and its answer are those `TestSpecificReply` gives for the old contents |
| `NotesApiInterceptors.SetupSpecialContentMock` | mocks/notesApiInterceptors.ts:260-317 | the special-content mock's store afterwards and its answer are those `SpecialContentReply` gives for the old contents |
| `NotesApiInterceptorsLemmas.RouteStatuses` | mocks/notesApiInterceptors.ts:21-204 | every answer of the main router has status 200, 201, 400 or 404 |
| `NotesApiInterceptorsLemmas.GetLeavesStore` | mocks/notesApiInterceptors.ts:58-99 | GET never changes the store |
| `NotesApiInterceptorsLemmas.GetByIdFindsFirst` | mocks/notesApiInterceptors.ts:66-73 | a truthy id matching entries answers 200 with the first of them, whatever the date parameter |
| `NotesApiInterceptorsLemmas.GetNotFoundIff` | mocks/notesApiInterceptors.ts:66-81 | GET answers 404 "Entry not found" exactly when a truthy id matches no entry |
| `NotesApiInterceptorsLemmas.GetByDate` | mocks/notesApiInterceptors.ts:83-91 | without an id and with a truthy date: rejection when the date does not canonicalise, else 200 with exactly the entries of that canonical date, and an empty list (still 200) when none match |
| `NotesApiInterceptorsLemmas.GetAllListsStore` | mocks/notesApiInterceptors.ts:93-98 | with neither parameter, 200 with the whole store, as many entries as it holds |
| `NotesApiInterceptorsLemmas.PostAppendsIffValid` | mocks/notesApiInterceptors.ts:106-129 | POST grows the store by one exactly when name and date are truthy, answering 201 `{success:true}`; otherwise 400 "Name and date are required" and the store unchanged |
| `NotesApiInterceptorsLemmas.PostStoresVerbatim` | mocks/notesApiInterceptors.ts:122 | a valid POST keeps the earlier entries and appends the posted name and date unchanged with the id `String(old size + 1)` |
| `NotesApiInterceptorsLemmas.PostThenGetById` | mocks/notesApiInterceptors.ts:66-73 | after a valid POST whose automatic id was unused, GET by that id answers 200 with the posted name and date |
| `NotesApiInterceptorsLemmas.PostThenGetByIdShadowed` | mocks/notesApiInterceptors.ts:122 | after deleting `"2"` from the seed, a posted entry gets id `"4"` and GET by `"4"` answers the older seed entry |
| `NotesApiInterceptorsLemmas.PostedDateNotCanonicalised` | mocks/notesApiInterceptors.ts:122 | when the posted date differs from the canonical form of a queried date, that date query answers exactly what it did before the POST |
| `NotesApiInterceptorsLemmas.PutKeepsSize` | mocks/notesApiInterceptors.ts:136-168 | PUT never changes the number of entries |
| `NotesApiInterceptorsLemmas.PutRejections` | mocks/notesApiInterceptors.ts:143-149 | PUT without a truthy body id answers 400 "ID is required", with an unknown id 404 "Entry not found", store unchanged in both |
| `NotesApiInterceptorsLemmas.PutMergesFirstMatch` | mocks/notesApiInterceptors.ts:151-161 | PUT on a known id answers 200 and changes only the first match: truthy name and date replace, other fields kept |
| `NotesApiInterceptorsLemmas.PutNothingToMerge` | mocks/notesApiInterceptors.ts:151-161 | PUT on a known id with neither a truthy name nor a truthy date answers 200 `{success:true}` and leaves the store as it was |
| `NotesApiInterceptorsLemmas.DeleteShrinksIffFound` | mocks/notesApiInterceptors.ts:176-204 | DELETE shrinks the store by one exactly when a truthy id query matches, answering 200; else 400 "ID is required" or 404 "Entry not found" with the store unchanged |
| `NotesApiInterceptorsLemmas.DeleteThenGetNotFound` | mocks/notesApiInterceptors.ts:176-204 | with distinct ids, GET of a deleted id answers 404 |
| `NotesApiInterceptorsLemmas.RouteSizeDelta` | mocks/notesApiInterceptors.ts:21-50 | per request the size moves by at most one: up exactly for a valid POST, down exactly for a DELETE of a present id |
| `NotesApiInterceptorsLemmas.FixedMocksRejectBadDate` | mocks/notesApiInterceptors.ts:220 | both fixed-answer mocks throw for every method, leaving the store, when their date does not canonicalise |
| `NotesApiInterceptorsLemmas.FixedMocksGetIgnoresStore` | mocks/notesApiInterceptors.ts:239-248 | the fixed-answer GET answers 200 with one entry (fixed content, canonical date, fixed id), the same for every store, and changes nothing |
| `NotesApiInterceptorsLemmas.FixedMocksPostUnvalidated` | mocks/notesApiInterceptors.ts:223-236 | in both fixed-answer mocks, POST appends the body's name and date, even absent or empty, with the id `String(old size + 1)` and answers 201; methods other than GET and POST pass through with the store unchanged |

## Left out

- Network timing: `simulateNetworkDelay`, `setupSlowNetworkMock` and the waits they await carry no state; the model has no time.
- Transport failure: `simulateNetworkError` and `setupNetworkErrorMock` always reject before `route.abort` runs; not modelled.
- JSON: request bodies are records of optional strings and responses a body datatype; malformed-JSON exceptions and non-string JSON values (numbers, booleans, objects) in body fields are not modelled.
- URL parsing: the `id` and `date` query parameters are given with the request; the model does not derive them from the URL (and so does not relate the percent-decoded parameters to the raw URL the invalid-date mock searches).
- Date canonicalisation is the parameter `canon`; which strings JavaScript's `Date` accepts, and what it renders them as, is not modelled.
- The `error` field of `NoteEntry` is never set on a stored entry by this code and is not modelled as part of an entry.
- Playwright's `Route` object is replaced by the request and outcome datatypes; `mocks/apiMocks.ts` (fixture-file routes) is not part of this model.
- Test-note texts: `mocks/notesApiInterceptors.ts:14` imports them from `../tests/data/testNotes`, a file that is not part of this model; the texts are those of `data/testNotes.ts`, which `mocks/notesMockData.ts:1` imports, and the two are taken to agree.
- Concurrency: the handlers are modelled as atomic steps; the interleaving of concurrent requests at their `await` points is not modelled.
