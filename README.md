# aspect-ui-server, modelled in Dafny

aspect-ui-server serves the source files of the Aspect UI component library. It has
three parts, and this project models the core of each:

- **Ingestion** (`fetch-github-data.js`). The script walks a fixed catalog of
  components and utilities: entries, then languages, then filenames. It fetches every
  file from GitHub with a bounded retry loop and assembles a tree of records. It then
  computes download statistics over that tree.
- **The read-only HTTP API** (`api-server.js`). Each route looks up stored component or
  utility documents and projects them: raw file content with a content type, JSON
  views of a file, the per-language file lists, the component list, a bulk export per
  language, search, and the language summary.
- **The database updater** (`update-database.js`). It reads the assembled data. It then
  replaces the `components`, `utils` and `static_files` collections wholesale and
  upserts the single metadata document. It stops at the first exception and reports
  success or failure, which becomes the exit code. A companion backup turns the
  collections back into objects keyed by id.

Modules, one per file:

- `wrappers.dfy`: `Option`.
- `js_object.dfy`: a JavaScript object used as a dictionary.
  - Its properties are kept in insertion order.
  - Assigning an existing name keeps its position.
  - Assigning a new name appends it.
- `fetcher.dfy`: the retry loop of `fetchFileContent`.
  - The network is an oracle that lists, per attempt, `Ok(body)`, `NotFound` or `Fail`.
  - The pauses the loop would sleep are returned as a list.
- `catalog.dfy`: the `componentList` and `utils` literals, with lemmas saying that
  their cross references resolve.
- `ingestion.dfy`: `fetchAllComponentFiles`.
  - Its nested loops are written as methods, each proved equal to a specification
    function.
  - Lemmas state what those functions produce: the records, the document shape, the
    pacing and the URLs.
- `stats.dfy`: `calculateStats`.
  - Its loops are methods proved equal to a fold over the steps the pass takes.
  - Lemmas prove what the fold computes.
- `query.dfy`: the route handlers, as functions of the stored documents.
  - The bulk handler and the search filter builder are methods, because the source
    builds their results step by step.
- `json.dfy`: the JSON values the updater handles, with the JavaScript operations it
  applies to them.
- `persistence.dfy`: the `DatabaseUpdater` class, `main`'s exit code and the backup
  re-keying.
  - The database is a map from collection name to documents.
  - The refused operations are a set of injected faults.
  - The file's content (`None` when it cannot be read) and the clock are inputs.

Reading `update-database.js` alongside the project: `updateDatabase` is specified by
`UpdateRun`, which is staged into `Writes`, `AfterComponents`, `AfterUtils`,
`AfterStatic` and `AfterMetadata`. Each stage takes what the previous database
operation did. The class method `DatabaseUpdater.UpdateDatabase` runs the steps in
place and is proved to reach `UpdateRun`'s state and result.

Unique ids are assumed where the source relies on its unique indexes (`createIndex({
id: 1 }, { unique: true })` at `update-database.js:65-67`). The lemmas about stored
documents require `UniqueIds`. The lemmas for ids that match nothing need no such
assumption. The unique index on the metadata `type` (`update-database.js:95-97`) is
part of the metadata write itself: a write whose `type` another document already holds
fails with a duplicate-key error and changes nothing.

## Model

| member | source | states |
|---|---|---|
| Fetcher.Fetched | fetch-github-data.js:611-637 | The retry loop as a value: the requests, the result and the pauses, given the oracle's responses; proved by the lemmas below and reached by `FetchFileContent` |
| Fetcher.FetchFileContent | fetch-github-data.js:611-637 | The retry loop yields exactly `Fetched`: the first attempt that does not fail decides the result, and the pauses before it are the linear schedule |
| Fetcher.NotFoundEndsFetch | fetch-github-data.js:617-621 | A 404 on attempt k ends the run with `null` after k+1 requests. No pause follows it. A 404 on the first attempt means one request and no pause |
| Fetcher.OkEndsFetch | fetch-github-data.js:625-627 | An ok response returns its body, and it is the last request issued |
| Fetcher.ExhaustedRetries | fetch-github-data.js:628-633 | When all `retries` attempts fail, all of them are made, the result is `null`, and the pauses are those after the first `retries - 1` failures |
| Fetcher.AttemptsBounded | fetch-github-data.js:612-636 | For every oracle: with `retries >= 1` there are between 1 and `retries` requests, one pause fewer than requests, and the result is never `undefined`. With `retries <= 0` no request is made and the result is `undefined`. Pause j is always `1000 * (j + 1)` |
| Fetcher.DefaultScheduleAllFail | fetch-github-data.js:630-634 | With the default three attempts all failing, the pauses are exactly [1000, 2000] |
| Catalog.CatalogUtilRefsResolve | fetch-github-data.js:6-600 | Every `utils` reference in the catalog (`cn`, `portal`) is a key of the `utils` object |
| Catalog.CatalogComponentRefsResolve | fetch-github-data.js:6-579 | Every `components` reference (`dropdown`, `popover`, `tooltip`) is a key of `componentList` |
| Ingestion.FileUrl | fetch-github-data.js:673 | The raw GitHub URL of a file: base, language, the kind's folder, the entry's path and the filename joined by `/`; `FileUrlInjective` is its property |
| Ingestion.MakeRecord | fetch-github-data.js:676-683 | The record pushed for a file; `RecordFill` states how it is filled |
| Ingestion.FetchOne | fetch-github-data.js:672-686 | One file: its URL, one fetch with three attempts, its record, then the fetch's pauses followed by the 100 ms pacing pause |
| Ingestion.FetchLanguageFiles | fetch-github-data.js:670-687 | The filename loop pushes `LanguageRecords`, one record per filename in order, and sleeps `LanguageSleeps` |
| Ingestion.FetchEntry | fetch-github-data.js:658-688 | The language loop fills the document's `files` in place and reaches `EntryDocument`, with the entry's pauses |
| Ingestion.FetchCatalog | fetch-github-data.js:655-689 | The entry loop stores each document under its id, reaching `CatalogDocuments` |
| Ingestion.FetchAllComponentFiles | fetch-github-data.js:640-729 | Components first, then utilities, with their pauses in that order. The metadata totals are the numbers of catalog keys and carry the run's time and the repository name |
| Ingestion.RecordFill | fetch-github-data.js:676-683 | A `null` fetch gives the placeholder, success false and size 0. A non-empty body is kept with success and its length. An empty body or `undefined` gives the placeholder yet success true, with size 0 |
| Ingestion.LanguageRecordsShape | fetch-github-data.js:672-687 | A language gets one record per declared filename, in order: record k was built from filename k |
| Ingestion.EntryFilesShape | fetch-github-data.js:668-688 | A document's language keys are its catalog entry's, in the same order, each holding that language's records |
| Ingestion.CatalogDocumentsShape | fetch-github-data.js:655-689 | The documents object has one property per entry, keyed by id, in catalog order |
| Ingestion.OneRecordPerTriple | fetch-github-data.js:655-726 | For each (entry, language, filename) triple, looking up the id and then the language finds a list as long as the declared filenames. Its k-th record names the k-th filename and carries that file's URL |
| Ingestion.MetadataTotalsAreKeyCounts | fetch-github-data.js:644-647 | A documents object has exactly as many keys as the catalog has entries, which is the `totalComponents`/`totalUtils` the metadata reports |
| Ingestion.FilePacedOnce | fetch-github-data.js:674-686 | Each file costs exactly one 100 ms pacing pause, whatever its fetch did. Retry pauses are never 100 ms |
| Ingestion.NoPacingInBackoff | fetch-github-data.js:634 | No retry pause equals the pacing pause |
| Ingestion.PacingAfterEveryFile | fetch-github-data.js:655-726 | The number of pacing pauses equals the number of declared files |
| Ingestion.CatalogWellFormed | fetch-github-data.js:6-600 | The declared catalog has distinct ids and distinct language keys in every entry, as the object literals guarantee |
| Ingestion.FileUrlInjective | fetch-github-data.js:673 | When languages and paths contain no `/`, the URL determines the language, path and filename, so distinct declared files are fetched from distinct URLs |
| Stats.TallyFiles | fetch-github-data.js:759-765 | The file loop reaches the fold of the file steps |
| Stats.TallyDocument | fetch-github-data.js:754-766 | The language loop, which creates missing language entries and counts files, reaches the fold of the document's steps |
| Stats.TallyDocuments | fetch-github-data.js:753-767 | The document loop reaches the fold over all documents' steps |
| Stats.CalculateStats | fetch-github-data.js:746-793 | `calculateStats` returns the report of the fold over the components' steps followed by the utilities' steps |
| Stats.CalculateStatsReport | fetch-github-data.js:746-792 | `totalFiles` counts every file, `successfulFiles` the successful ones and `totalSize` their sizes. `failedFiles` is the rest and never negative. The per-language entries sum to the totals, an entry exists exactly when a language was met, and each entry counts that language's files and bytes |
| Stats.RunTotals | fetch-github-data.js:760-762 | The totals grow by the number of file steps, the successful ones and their sizes |
| Stats.RunLanguage | fetch-github-data.js:755-764 | A language's entry exists exactly when the language was met, and holds that language's file count and byte sum |
| Stats.RunBalanced | fetch-github-data.js:755-764 | The pass keeps the language entries summing to the totals, and successes at most the files |
| Stats.StatsLanguagesAreListed | fetch-github-data.js:753-784 | `languageStats` has an entry for a language exactly when some component or utility document lists that language, even with an empty list |
| Stats.DocumentLanguages | fetch-github-data.js:754-757 | The languages met in a document are exactly its language keys |
| Stats.FileEventsCount | fetch-github-data.js:759-760 | A language's list contributes as many file steps as it has files |
| Stats.DocumentEventsCount | fetch-github-data.js:754-766 | A document contributes as many file steps as it stores records, over all its languages |
| Stats.EventsCount | fetch-github-data.js:753-767 | A documents object contributes as many file steps as its documents store records |
| Stats.TotalFilesAreRecords | fetch-github-data.js:746-767 | `totalFiles` is the number of records stored under `components` plus those under `utils` |
| Query.FindOne | api-server.js:52-54 | `findOne({ id })` finds a stored document with that id, and finds none exactly when no document has it |
| Query.FindOneIsFirst | api-server.js:52-54 | The document found is the first stored one with the id |
| Query.LookupFile | api-server.js:180-194 | The checks shared by the raw routes and the JSON file views, in order: id, language, filename. A found record has the requested filename |
| Query.LookupUnknownId | api-server.js:180-184 | An unknown id is a 404 "Component not found" (or "Utility not found" on the utility routes) |
| Query.LookupStored | api-server.js:186-194 | For a stored document, "Language not found" happens exactly when the language key is absent (an empty list counts as present). "File not found" happens exactly when the list has no file of that name. A found file is from that list |
| Query.LookupStoredFirst | api-server.js:190-194 | The file returned is the first of the list with the requested name |
| Query.RawFile | api-server.js:177-213 | The raw route: the lookup's 404 message, or the found record's content with its content type; `FileViewMatchesRaw` relates it to the JSON view |
| Query.ContentType | api-server.js:197-208 | The content type of a filename; the next four rows state it |
| Query.ContentTypeByLastDot | api-server.js:196-208 | The content type depends only on the lowercased text after the last dot, looked up in the table |
| Query.ContentTypeWithoutDot | api-server.js:197-208 | A name without a dot is its own extension |
| Query.ContentTypeUpperCase | api-server.js:197-208 | `Button.TSX` is served as `application/typescript` |
| Query.ContentTypeLastExtension | api-server.js:197-208 | `archive.tar.js` is served as `application/javascript`, and an extension outside the table as `text/plain` |
| Query.RawUrl | api-server.js:329 | The `rawUrl` of a JSON file view; `RawUrlSegment` states its two forms |
| Query.RawUrlSegment | api-server.js:329 | A component's raw URL is `<protocol>://<host>/api/raw/<id>/<language>/<filename>`, a utility's is the same with `utils/` before the id (line 379). The utility URL is six characters longer, so the two kinds never share a URL |
| Query.FileViewOf | api-server.js:292-389 | The JSON file views of components and utilities; `FileViewMatchesRaw` states what they carry |
| Query.FileViewMatchesRaw | api-server.js:292-389 | The JSON file view and the raw route agree. Both fail with the same 404 message, or the view carries the content the raw route serves, the requested filename, the stored record's `url` and `size`, the requested language, the id, and the raw URL of the file (lines 320-330 and 370-380) |
| Query.FilesByLanguage | api-server.js:255-289 | The per-language file list route; the next two rows state it |
| Query.FilesByLanguageUnknownId | api-server.js:258-265 | An unknown component is a 404 "Component not found" |
| Query.FilesByLanguageOfStored | api-server.js:267-281 | For a stored component the route succeeds exactly when the language key is present. It returns the stored list unchanged, or the message `Language '<lang>' not available for this component` |
| Query.ListAll | api-server.js:105-133 | The component list route, projecting components and utilities; `ListProjection` states the projection |
| Query.ListProjection | api-server.js:112-133 | A list entry keeps the document's language keys in order and maps each list to its filenames, keeping order and length. Utilities carry no `utils` |
| JsObject.RebuildByKeysIsMapValues | api-server.js:118-121 | Rebuilding an object key by key with `reduce` gives the same names, order and values as mapping over its values |
| Query.Bulk | api-server.js:397-412 | The loop, with its `continue` for components without the language, builds the object of the assignments `BulkOps` lists |
| Query.BulkOfStored | api-server.js:399-412 | With unique ids, a component with the language appears under its id, carrying its summary and that language's list unchanged. A component without the language does not appear |
| Query.BulkLastWins | api-server.js:399-412 | Whatever the ids, a key holds the last component with the language assigned to it |
| Query.BulkAbsent | api-server.js:399-412 | An id no component with the language has is absent from the result |
| Query.BuildFilter | api-server.js:432-443 | The filter has a pattern exactly when `q` is non-empty, and a dependency exactly when `dependency` is non-empty |
| Query.Search | api-server.js:445-453 | The search route over a built filter; the next three rows state it |
| Query.SearchExact | api-server.js:445-453 | Search returns the summary (no `files`) of every matching component and nothing else |
| Query.SearchWithoutTerms | api-server.js:432-453 | With neither `q` nor `dependency`, every component is returned, in stored order |
| Query.SearchByDependency | api-server.js:441-453 | With only `dependency`, exactly the components whose dependency list contains that exact value are returned |
| Query.LanguagesOf | api-server.js:469-501 | The languages route; `LanguagesCounts` states it |
| Query.LanguagesCounts | api-server.js:481-491 | `languages` is the document's file-map keys, `filesPerLanguage` has the same keys, and each count is the length of that language's list |
| Json.ObjectValues | update-database.js:117 | `Object.values` throws exactly for `null` and `undefined`, and gives an object's property values in order |
| Json.PropertyNames | update-database.js:364-366 | Naming examples: strings name themselves, numbers by their decimal text, an absent id is `undefined`, arrays are joined by commas |
| Json.PropertyNameOfScalar | update-database.js:364-366 | Every string is its own property name and every number is named by its decimal text, so the number 42 and the string "42" name the same property |
| Json.DecimalStartsWithDigit | update-database.js:364-366 | The decimal text of a natural number starts with a digit, never `-` |
| Json.DigitsOfDecimal | update-database.js:364-366 | The digits of a natural number read back as that number |
| Json.DecimalRoundTrip | update-database.js:364-366 | `Number(String(n))` is `n` for every integer |
| Json.DecimalInjective | update-database.js:364-366 | Different numbers have different decimal texts, so documents with different numeric ids get different property names |
| Persistence.Replace | update-database.js:107-176 | A collection update: delete, `Object.values`, insert. The lemmas below state what it leaves and returns |
| Persistence.ReplaceExact | update-database.js:107-123 | When every value is an object, a replacement without refusals leaves the collection holding exactly the input's values, in order, with nothing from before. The count is returned and no other collection changes |
| Persistence.ReplaceWithNothing | update-database.js:117-121 | An input without values empties the collection and returns 0 without inserting: refusing `insertMany` makes no difference |
| Persistence.ReplaceWithUndefined | update-database.js:113-117 | An `undefined` or `null` input is found out only after the delete: the collection is emptied and the call throws |
| Persistence.ReplaceRefusesNonObjects | update-database.js:117-121 | A value among the input's values that is not an object makes `insertMany` throw: the collection is left empty and nothing is inserted |
| Persistence.ReplaceIdempotent | update-database.js:113-121 | Replacing twice with the same input is replacing once, with the same collections and return value, whatever the database refuses |
| Persistence.StaticDefaultsToEmpty | update-database.js:161-171 | A missing or falsy `static` is read as `{}` (line 165): it empties `static_files` and returns 0, where the other two updates would throw on `null` or `undefined` |
| Persistence.MetadataDoc | update-database.js:185-189 | The metadata document: the tag, the input's own properties, then this run's timestamp; `MetadataDocFields` states its fields |
| Persistence.MetadataDocFields | update-database.js:185-189 | The metadata document carries the input's fields and this run's `databaseUpdatedAt`, whatever the input says. It is tagged `app_metadata` when the input has no `type`, and the input's `type` overrides otherwise |
| Persistence.FirstTagged | update-database.js:192-193 | The filter `{ type: "app_metadata" }` selects the first tagged document, and none exactly when no document is tagged |
| Persistence.Upsert | update-database.js:192-196 | The upsert: replace the document the filter finds, or append. The lemmas below state it |
| Persistence.UpsertKeepsOne | update-database.js:192-196 | Upserting a tagged document into a collection with at most one tagged document leaves exactly one, which is the new document |
| Persistence.UntaggedUpsertAppends | update-database.js:192-196 | Without a tagged document, the upsert of an untagged document appends it, and the collection still has no tagged document |
| Persistence.UntaggedRewriteRefused | update-database.js:95-97 | An untagged metadata document written once cannot be written again: the filter does not find it and the unique index on `type` refuses the copy with a duplicate-key error, leaving the database as it was |
| Persistence.UpsertAgain | update-database.js:192-196 | Upserting a tagged document after another tagged one is upserting the second alone |
| Persistence.UniqueTypesAdmitTagged | update-database.js:95-97 | In a collection whose `type`s are unique, a tagged document is never a duplicate key |
| Persistence.UpsertKeepsUniqueTypes | update-database.js:95-97 | An upsert the unique index lets through keeps the `type`s unique |
| Persistence.MetadataWriteKeepsUniqueTypes | update-database.js:179-204 | The metadata write keeps the unique index's guarantee, whatever the database refuses |
| Persistence.TypeFreeAfterUpsert | update-database.js:95-97 | After a tagged upsert the index let through, a later tagged document is let through |
| Persistence.MetadataWriteAgain | update-database.js:179-204 | Writing the metadata again with another tagged document is writing that document alone, refusals and duplicate keys included |
| Persistence.UpdateRun | update-database.js:249-302 | The whole update as a value: the database after it and its result; the lemmas below state it |
| Persistence.Writes | update-database.js:263-266 | The four writes in order, each stage going on only after the previous one succeeded |
| Persistence.SuccessfulWrites | update-database.js:263-292 | After a successful update, the three collections hold exactly their inputs' values and the metadata collection has the document upserted. The result carries the three counts |
| Persistence.SuccessfulRun | update-database.js:249-292 | A successful run read a non-null value from the file and is its four writes |
| Persistence.RunIsWrites | update-database.js:254-266 | Once the file is read and the connection and indexes succeed, a non-null file's run is its four writes in order |
| Persistence.FailedRunKeepsMetadata | update-database.js:263-298 | A failed run never reaches the metadata write: the metadata collection is as before |
| Persistence.FailedWritesKeepMetadata | update-database.js:263-266 | A failure in any of the four writes leaves the metadata collection as before |
| Persistence.RunFrame | update-database.js:249-302 | A run writes only its four collections |
| Persistence.WritesFrame | update-database.js:263-266 | The four writes leave every other collection unchanged |
| Persistence.EarlyFailureWritesNothing | update-database.js:254-263 | An unreadable file, a refused connection, a refused index or a file holding `null`: the run fails and the database is unchanged |
| Persistence.UtilsFailureKeepsComponents | update-database.js:263-264 | When the utilities delete is refused after components were replaced, the run reports that error, the new components stay, and the utilities, static files and metadata are untouched |
| Persistence.FaultFreeRunSucceeds | update-database.js:249-292 | Without refusals, a file holding an object succeeds when `components`, `utils` and `static` defaulted to `{}` give only objects to insert and the metadata document keeps its tag, on a database whose metadata `type`s are unique |
| Persistence.FaultFreeWritesSucceed | update-database.js:263-266 | Without refusals, the four writes succeed when the three collections get only objects to insert and the metadata document is no duplicate key |
| Persistence.ReplaceSettles | update-database.js:113-121 | A replacement leaves its collection in the state a repeat replacement writes |
| Persistence.ReplaceAgain | update-database.js:113-121 | On such a collection the replacement changes nothing and returns what it returns on any database |
| Persistence.ReplaceKeepsSettled | update-database.js:113-121 | A replacement keeps the other collections' settled state |
| Persistence.WritesTwice | update-database.js:263-266 | Running the four writes again with the same collections and another tagged metadata document leaves the database as running the second alone, with the same result |
| Persistence.UpdateTwice | update-database.js:249-302 | Running the update from the same file again, at any later time, leaves the database as one run at that later time, refusals included, when the metadata document keeps its tag |
| Persistence.ExitCode | update-database.js:317 | The exit code is 0 exactly when the update succeeded, and 1 otherwise |
| Persistence.DatabaseUpdater.constructor | update-database.js:18-21 | A new updater holds no connection |
| Persistence.DatabaseUpdater.Connect | update-database.js:24-35 | A refused connection throws. Otherwise the updater is connected, and the data is unchanged either way |
| Persistence.DatabaseUpdater.Disconnect | update-database.js:38-43 | The connection is closed and the data unchanged |
| Persistence.DatabaseUpdater.UpdateComponents | update-database.js:107-128 | The delete, `Object.values` and the insert, updating the store in place to what `Replace` says |
| Persistence.DatabaseUpdater.UpdateUtils | update-database.js:131-152 | The same for `utils` |
| Persistence.DatabaseUpdater.UpdateStaticFiles | update-database.js:155-176 | The same for `static_files`, with a falsy input read as `{}` |
| Persistence.DatabaseUpdater.UpdateMetadata | update-database.js:179-204 | Builds the metadata document and upserts it in place, or throws when the replace is refused or its `type` is a duplicate key |
| Persistence.DatabaseUpdater.UpdateDatabase | update-database.js:249-302 | Read, connect, indexes, then the four updates in order, stopping at the first exception. The store and the result are `UpdateRun`'s, and every exit disconnects |
| Persistence.Cli | update-database.js:306-318 | `main` exits with the exit code of the run's result, after the run's writes |
| Persistence.Backup | update-database.js:342-387 | The backup object; `BackupFields` states its four properties |
| Persistence.BackupFields | update-database.js:363-377 | The backup has the three collections re-keyed by id, and the metadata document or `{}` |
| Persistence.Rekey | update-database.js:364-375 | The `reduce` that keys documents by the property name of their `id`; the next rows state it |
| Persistence.RekeyLastWins | update-database.js:364-375 | Under each id is the last document with that id |
| Persistence.RekeyAbsent | update-database.js:364-375 | An id no document has is absent |
| Persistence.BackupWithoutMetadata | update-database.js:376 | Without a metadata document the backup's `metadata` is `{}` |
| Persistence.BackupRestores | update-database.js:364-375 | With distinct ids and object documents, `Object.values` of a re-keyed collection is the collection, so an update from the backup rewrites it as it was |

## Left out

- Network, sleeping and time.
  - `fetch` is an oracle of per-attempt outcomes.
  - `setTimeout` pauses are returned rather than slept.
  - `new Date().toISOString()` is an input string.
  - No claim relates `databaseUpdatedAt` to `lastUpdated`, because the program does not constrain the clock.
- File system and JSON text.
  - Reading and parsing `component-data.json` is an input: `None` when it fails.
  - `JSON.stringify`, `fs.writeFile` and `saveDataToFile` are not modelled. The last of these catches its own write errors and does not stop the run.
  - Writing the backup file and its dated name are not part of this model either.
- Logging, `displayStats`, `main`'s `process.argv` file name and the durations are not modelled. They are console output, floating-point percentages and `toFixed` text.
- MongoDB mechanics.
  - The connection is a flag.
  - `createIndexes` is only a step that may be refused; building an index over data that already violates it is not modelled. The unique index on the metadata `type` is modelled in the metadata write. The unique `id` indexes appear only as the unique-id assumption of some lemmas, and a duplicate id that would make `insertMany` fail midway is not modelled.
  - A refused `insertMany` is modelled as inserting nothing. A partial insert is not modelled.
  - `insertMany` refuses every value that is not a JSON object. Arrays are refused too, although whether the driver would take one is not settled here.
  - The unique index treats a missing `type` as `null`; the model compares only present values.
  - `_id` fields added by the database are not modelled.
- `getStatistics` is not modelled: its aggregation pipeline has behaviour the library defines, and it never throws, so it cannot change a run's result.
- `clearDatabase` is not modelled: it is four unconditional deletes.
- The backup's own connection failure is not modelled: it only logs.
- Express plumbing is not modelled.
  - This covers middleware, CORS, the error and 404 handlers, server start-up and signal handlers, `connectDatabase`, and the 500 replies.
  - The route `/api/components/:componentId` is registered before `/api/components/search`, so Express probably never reaches the search handler. The search filter is modelled as a standalone function.
  - `GET /api/components/:componentId` is covered only through `FindOne`.
  - The health, stats and metadata routes and the commented-out tree route are outside the core.
- Query.Search: the `q` term is a MongoDB case-insensitive `$regex`, modelled as an abstract predicate passed in (`regex`), not as a regular expression engine.
- Query.FileViewMatchesRaw does not model `req.protocol` and `req.get('host')`. They are parameters.
- Lengths: `content.length` counts UTF-16 code units. The model counts the characters of a Dafny string.
- JavaScript objects: real objects order integer-like property names first. The model keeps every name in insertion order. Property names that collide with `Object.prototype` members are not modelled.
- JSON numbers are integers. Floating point is not modelled.
- Json.Spread: spreading a string or an array into the metadata document (which would add index-named properties) is not modelled. Such values contribute nothing.
