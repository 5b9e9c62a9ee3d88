# A verified model of a serverless data pipeline

The system is made of three AWS Lambda handlers written in JavaScript:

- The **Ingestor** (`services/ingestion/index.js`) fetches two public APIs
  (`jsonplaceholder` posts and `randomuser` users). It stores each payload in a raw
  S3 bucket under `raw/source=<name>/date=<date>/<timestamp>-<md5>.json`. Then it
  sends an SQS message that points to the stored object. A source that fails is
  reported in the results, and the next source is still tried.
- The **Transformer** (`services/processing/index.js`) reads a batch of those messages.
  For each message it loads the raw payload and maps it to curated records:
  - posts: at most ten;
  - users: one per element of `results`;
  - any other source: none.

  Each record is written to a DynamoDB table only if no record with its id exists
  yet. A conditional-check failure is ignored; any other failure aborts the whole
  batch.
- The **query API** (`services/api/index.js`) serves four routes:
  - `GET /records`: paged. With a `source` filter it runs a GSI query; without one
    it runs a scan whose resume key goes out as a base64 cursor.
  - `GET /records/{id}`.
  - `GET /analytics`: counts by source and by date, the seven greatest dates, and
    the newest and oldest capture times.
  - `OPTIONS`, for CORS.

  Before routing, the handler strips the first path segment (the API Gateway stage).

## How it is modelled

| file | module | what it holds |
|---|---|---|
| `outcomes.dfy` | `Outcomes` | `Option`, and `Result`, whose `Err` carries the message of a thrown JavaScript error |
| `text.dfy` | `Text` | `split('T')[0]`, the code-point order used for `localeCompare`, decimal printing and `parseInt` |
| `json.dfy` | `Json` | JSON values, plus property access that throws on `null`/`undefined`, truthiness, the logical-or default and `String(x)` |
| `domain.dfy` | `Domain` | the queue message and the curated record the handlers exchange |
| `utf8.dfy`, `base64.dfy`, `cursor.dfy` | `Utf8`, `Base64`, `Cursor` | the pagination cursor, `base64(utf8(JSON.stringify(key)))`, and its parser |
| `analytics.dfy` | `Analytics` | the `reduce` counts as association lists in insertion order, a stable descending sort, and the analytics report |
| `api.dfy` | `Api` | the response helper, `listRecords` and `handler` as methods, and `getRecord`/`getAnalytics` as functions over a table interface |
| `transformer.dfy` | `Transformer` | per-source mapping, record ids, the curated table as a class over a map, and the batch handler as a method with nested loops |
| `ingestor.dfy` | `Ingestor` | S3 keys, `recordCount`, the raw bucket and the queue as classes, and the ingestion handler as a method |

Each handler method is proved equal to a declarative function of its inputs:
- `Api.ListRecords` to `ListResponse`;
- `Api.Handle` to `HandlerResponse`;
- `Transformer.HandleBatch` to `RunBatch`;
- `Ingestor.Ingest` to `IngestFrom`.

The lemmas then state the promises of the code about those functions.

The outside world enters as parameters:
- **AWS calls.** DynamoDB `get`, `query` and `scan` are the fields of an `Api.Table`. S3 and SQS are the `RawBucket` and `MessageQueue` objects. Call failures are inputs, given per call.
- **The network.** The outcome of `httpsGet` is given as `Result<Json>`.
- **The clock.** Each timestamp is given as a string.
- **MD5.** The digest is a function parameter.

Behaviour of the code that the model keeps, because the code does it:

- Paths and routes:
  - The first path segment is always removed. So `GET /records`, sent without a stage
    prefix, answers 404 with path `/`, whether the path comes as `rawPath` or as `path`
    (`Api.BareRecordsNotFound`).
  - `GET /<stage>/records/` reaches `getRecord(undefined)` (`Api.StagedRecordWithoutId`).
- Paging and analytics:
  - `limit` has no upper bound: any non-zero integer, negative ones included, is sent as
    the page size (`Api.LimitUncapped`).
  - The analytics timeline holds the seven greatest dates in descending order, not the
    last seven days in ascending order (`Analytics.TimelineFollowsByDate`).
  - Records without `captured_at` are counted under `unknown`. Since `u` sorts above
    every digit, `unknown` is listed first (`Analytics.UnknownFirst`).
- Ingestion:
  - A `null` payload is stored in S3, but reading its `results` throws before the
    message is sent. The object then has no message (`Ingestor.NullPayloadStoredNotQueued`).
  - An empty `results` array is announced with `recordCount` 1, and the Transformer then
    writes 0 records (`Ingestor.CountsAgree`).

## Model

| member | source | states |
|---|---|---|
| `Api.HandlerAnswers` | services/api/index.js:7-16 | every answer of the handler carries the four CORS headers and has status 200, 404 or 500 |
| `Api.ListAnswers` | services/api/index.js:19-66 | `listRecords` answers with the CORS headers and status 200 or 500 |
| `Api.LimitDefault` | services/api/index.js:21 | the page size is never 0; it is 20 when `limit` is absent, unparsable or parses to 0, and otherwise the integer `parseInt` reads |
| `Api.LimitUncapped` | services/api/index.js:21 | every non-zero integer written in decimal is used as the page size unchanged: there is no cap and no lower bound |
| `Text.ParseIntOfDecimal` | services/api/index.js:21 | `parseInt` of the decimal text of any integer gives that integer back |
| `Api.ListRequestShape` | services/api/index.js:21-50 | every request carries the table and the page size; a non-empty `source` always gives a query on `SourceIndex` for that source with no start key; only a malformed `lastKey` without `source` makes the request fail before DynamoDB is called |
| `Api.ListRecords` | services/api/index.js:19-66 | the method, which fills the parameters field by field, answers exactly `ListResponse`: the query page, the scan page with its cursor, or a 500 |
| `Api.ScanResponse` | services/api/index.js:52-60 | a scan page answers 200 with the items, and carries a cursor exactly when DynamoDB returned a resume key |
| `Api.NextPageResumes` | services/api/index.js:46-60 | passing the cursor of a scan page back as `lastKey` makes the next scan start at that page's resume key |
| `Cursor.CursorRoundTrip` | services/api/index.js:46-59 | decoding the cursor written for a key gives that key back |
| `Cursor.CursorNonEmpty` | services/api/index.js:57-59 | a cursor is never the empty string, so a truthy `lastKey` check accepts it |
| `Cursor.ParseSerialized` | services/api/index.js:47-58 | `JSON.parse` of `JSON.stringify` of a key with string attributes gives the key back |
| `Base64.DecodeEncode` | services/api/index.js:48-58 | base64 decoding of base64 encoding gives back the bytes |
| `Utf8.DecodeEncode` | services/api/index.js:48-58 | UTF-8 decoding of UTF-8 encoding gives back the text |
| `Api.GetRecord` | services/api/index.js:69-86 | 404 with the id exactly when the table has no such item, 200 with the item exactly when it has one, and 500 exactly when `get` throws |
| `Api.GetAnalytics` | services/api/index.js:89-137 | 200 with the aggregate of the items of one full-table scan exactly when the scan succeeds; a failed scan answers 500 with `Failed to get analytics` and the scan's error message |
| `Analytics.BySourceCount` | services/api/index.js:99-102 | the count of a source equals the number of records from that source, and a source is listed exactly when some record has it |
| `Analytics.BySourceTotals` | services/api/index.js:121-124 | the source counts add up to `total_records`, and `total_sources` is the number of distinct sources |
| `Analytics.TallyLookup` | services/api/index.js:99-109 | the count a `reduce` tally keeps for a key is the number of times the key occurs |
| `Analytics.TallyTotals` | services/api/index.js:99-109 | a tally's counts add up to the number of keys, and it has one entry per distinct key |
| `Text.BeforeFirst` | services/api/index.js:106 | `split('T')[0]` is the longest prefix without a `T` |
| `Analytics.DateKey` | services/api/index.js:106 | the date of a record is the part of `captured_at` before the first `T`, or `unknown` when it is missing or that part is empty |
| `Analytics.ByDateTotal` | services/api/index.js:105-109 | the count of a date equals the number of records with that date, and the counts add up to the number of records |
| `Text.StrLtTransitive` | services/api/index.js:113 | the order used for `localeCompare` is transitive |
| `Text.StrLtTotal` | services/api/index.js:113 | the order used for `localeCompare` is total on distinct strings |
| `Analytics.SortDescPermutation` | services/api/index.js:112-119 | the sort keeps exactly the elements it is given |
| `Analytics.SortDescSorted` | services/api/index.js:112-119 | the sort orders its result from the greatest key to the least |
| `Analytics.TopDatesSize` | services/api/index.js:112-114 | `by_date` lists min(7, number of distinct dates) entries |
| `Analytics.TopDateCount` | services/api/index.js:112-114 | each listed date occurs among the records, with its full count |
| `Analytics.TopDatesDescending` | services/api/index.js:112-114 | listed dates are strictly descending |
| `Analytics.TopDatesGreatest` | services/api/index.js:112-114 | a date that is left out is below every listed date |
| `Analytics.UnknownFirst` | services/api/index.js:106-114 | when some record lacks a date and all other dates start with a digit, `unknown` is listed first |
| `Analytics.TimelineFollowsByDate` | services/api/index.js:129-130 | the timeline has one point per `by_date` entry, in the same descending order and with the same counts |
| `Analytics.ByCaptureSorted` | services/api/index.js:117-119 | the records with a capture time, and only those, are sorted newest first |
| `Analytics.NewestIsGreatest` | services/api/index.js:126 | `newest_record` is missing exactly when no record has a capture time, and is otherwise the greatest one |
| `Analytics.OldestIsLeast` | services/api/index.js:125 | `oldest_record` is missing exactly when no record has a capture time, and is otherwise the least one |
| `Api.StripStageShape` | services/api/index.js:154 | a leading slash followed by a non-slash removes the first segment; any other path is left unchanged |
| `Api.StripStageOf` | services/api/index.js:154 | `/<stage><rest>` loses exactly `/<stage>` |
| `Api.ReadRequest` | services/api/index.js:149-158 | the path it computes, with the first segment stripped and `/` for nothing left, is `RoutedPath`; the method is `RequestMethod` |
| `Api.Handle` | services/api/index.js:140-183 | the method, which reassigns `path` and returns early, answers exactly `HandlerResponse` |
| `Api.OptionsAlwaysOk` | services/api/index.js:144-146 | `OPTIONS` answers 200 with an empty object, whatever the path |
| `Api.BareRecordsNotFound` | services/api/index.js:150-177 | `GET /records` without a stage prefix, given as `rawPath` or as `path`, is stripped to `/` and answers 404 |
| `Api.StagedListing` | services/api/index.js:150-165 | `GET /<stage>/records`, from `rawPath` or `path` and `httpMethod` or the request context, is the listing, with the query string parameters |
| `Api.SegmentsOfRecordPath` | services/api/index.js:168 | the second non-empty segment of `/records/<id>...` is the id |
| `Api.StagedRecord` | services/api/index.js:167-170 | `GET /<stage>/records/<id>[/...]` fetches the record with that id |
| `Api.StagedRecordWithoutId` | services/api/index.js:167-170 | `GET /<stage>/records/` fetches with an undefined id |
| `Api.StagedAnalytics` | services/api/index.js:172-174 | `GET /<stage>/analytics` is the analytics report |
| `Api.OnlyGetRouted` | services/api/index.js:163-177 | any method other than GET and OPTIONS answers 404 `Route not found` |
| `Json.FieldValue` | services/processing/index.js:46-51 | a field read gives the value of the last field with that name, and nothing exactly when no field has that name |
| `Json.Member` | services/processing/index.js:46-51 | reading a property throws exactly on `undefined` or `null`, and on an object is the value of the last field with that name |
| `Transformer.HashPrefix` | services/processing/index.js:31 | the hash part of an id is the first eight characters of the hash, or all of it when shorter |
| `Transformer.RecordIdShape` | services/processing/index.js:31 | an id starts with the source and a dash, and ends with the hash prefix |
| `Transformer.RecordIdInjective` | services/processing/index.js:46 | within one message, different item keys give different ids |
| `Transformer.MapItemsShape` | services/processing/index.js:45 | `map` with a throwing callback succeeds exactly when no element throws, and then gives one record per element, in order |
| `Transformer.PostRecordOk` | services/processing/index.js:30-40 | a post item is rejected only when it is `null` |
| `Transformer.PostsCount` | services/processing/index.js:28-41 | from an array, the posts are the first ten items mapped in order, failing exactly when one of them is `null`; anything else gives none |
| `Transformer.PostDefaults` | services/processing/index.js:31-39 | a post record takes its envelope from the message; a missing or falsy `title`/`body` is `''`, and `userId` is the string of a truthy `item.userId`, else `''` |
| `Transformer.UsersCount` | services/processing/index.js:44-45 | no `results` (or a falsy one) gives no users; a truthy non-array throws `users.map is not a function` |
| `Transformer.UsersFromArray` | services/processing/index.js:44-56 | a `results` array gives one record per user, in order, and fails exactly when a user throws |
| `Transformer.UserRecordOk` | services/processing/index.js:45-56 | a user throws exactly when it is `null` or its `login`, `name` or `location` is missing or `null` |
| `Transformer.UserFieldsOf` | services/processing/index.js:46-52 | a user's id comes from `login.uuid`, its name is first and last joined by a space, and email, country and gender are copied |
| `Transformer.UnknownSourceNoRecords` | services/processing/index.js:26-57 | a source other than the two known ones maps to no records |
| `Transformer.CandidatesFromMessage` | services/processing/index.js:28-57 | every mapped record carries the message's source, capture time and raw key, and an id that starts with the source |
| `Transformer.CuratedTable.PutIfAbsent` | services/processing/index.js:61-74 | a put with `attribute_not_exists(id)` stores the record only when its id is absent; an existing id is left untouched, and a failed call changes nothing |
| `Transformer.PutRecordsInsertOnly` | services/processing/index.js:59-75 | the put loop never changes or removes a stored record; every new entry is one of the records written, under its own id |
| `Transformer.PutRecordsCover` | services/processing/index.js:59-75 | when no put fails, every record's id is in the table afterwards |
| `Transformer.PutRecordsNoop` | services/processing/index.js:59-75 | putting records whose ids are all present changes nothing |
| `Transformer.HandleBatch` | services/processing/index.js:14-100 | the method with its two loops leaves the table and returns the outcome of `RunBatch`: the results of every message, or the first error |
| `Transformer.ProcessMessageInsertOnly` | services/processing/index.js:59-75 | a message only adds records to the table, and keeps every record under its own id |
| `Transformer.ProcessMessageCovers` | services/processing/index.js:59-81 | after a successful message all its record ids are in the table, and `processedCount` counts all its records, those already present included |
| `Transformer.CandidatesIgnoreClock` | services/processing/index.js:39 | the clock reading only sets `processed_at`: at another reading a payload throws the same error or maps to the same records, in the same order, with the same ids |
| `Transformer.ReplayIsNoop` | services/processing/index.js:59-81 | redelivering a handled message changes nothing and reports the same result |
| `Transformer.CoveredAtAnyClock` | services/processing/index.js:39 | a message handled at one clock reading is handled at any other, and reports the same count |
| `Transformer.ProcessTwiceSameAsOnce` | services/processing/index.js:59-81 | handling a message again, at a new clock reading and with no put failing, leaves the table as handling it once did and reports the same result |
| `Transformer.RunBatchInsertOnly` | services/processing/index.js:14-92 | a batch, completed or aborted by the rethrow, never changes or removes a stored record and keeps every record under its own id |
| `Transformer.CompletedCoversAll` | services/processing/index.js:14-92 | a completed batch leaves every message of it handled and keeps every earlier record, key and value |
| `Transformer.BatchReplayIsNoop` | services/processing/index.js:14-100 | redelivering a handled batch changes nothing and reports each message's full count |
| `Transformer.CompletedResults` | services/processing/index.js:77-81 | a completed batch reports, for every message, its source and the number of its records |
| `Transformer.ReplayResultsAtAnyClock` | services/processing/index.js:39 | the counts reported for a batch do not depend on the clock readings |
| `Transformer.BatchRedeliveryIsNoop` | services/processing/index.js:14-100 | redelivering a completed batch at new clock readings, with no put failing, leaves the table as it was and reports the same results |
| `Transformer.AbortIgnoresRest` | services/processing/index.js:83-91 | once a message throws, the messages after it do not affect the outcome or the table |
| `Transformer.UnknownSourceIsNoop` | services/processing/index.js:26-81 | a message from an unknown source succeeds with count 0 and leaves the table unchanged, whatever a put would answer, since none is made |
| `Ingestor.S3KeyPartition` | services/ingestion/index.js:51-55 | the raw key lies under the partition of its source and of its timestamp's date and ends in `.json`; for slash-free parts it splits back on `/` into `raw`, `source=<name>`, `date=<date>` and `<timestamp>-<hash>.json` |
| `Ingestor.IsoDate` | services/ingestion/index.js:51-52 | for an ISO timestamp, the date partition is its first ten characters |
| `Ingestor.RecordCount` | services/ingestion/index.js:79 | counting throws exactly on a `null` payload |
| `Ingestor.RecordCountCases` | services/ingestion/index.js:79 | an array counts its elements; an object counts a non-empty `results` array and is 1 when `results` is empty or missing |
| `Ingestor.RawBucket.PutObject` | services/ingestion/index.js:57-68 | a successful put stores the object under its key, replacing any object there; a failed one changes nothing |
| `Ingestor.MessageQueue.Send` | services/ingestion/index.js:82-91 | a successful send appends the message; a failed one changes nothing |
| `Ingestor.Ingest` | services/ingestion/index.js:40-120 | the method with its loop leaves the bucket, the queue and the results as `IngestFrom` does, and answers status 200 |
| `Ingestor.SourceSucceeds` | services/ingestion/index.js:46-109 | a source succeeds exactly when the fetch, the put and the send go through and the payload is not `null`; its result names the stored key |
| `Ingestor.SourceResultIsolated` | services/ingestion/index.js:45-110 | a source's result does not depend on what happened to the sources before it |
| `Ingestor.ResultsPerSource` | services/ingestion/index.js:43-110 | there is one result per source, in order, each the one the source would have had on its own |
| `Ingestor.IngestAnswers` | services/ingestion/index.js:27-119 | the results are `jsonplaceholder`'s, then `randomuser`'s |
| `Ingestor.PutThenSend` | services/ingestion/index.js:49-100 | keys are only added. A message is queued only after its payload is stored: it carries the run's clock reading and the payload's digest, names the key built from exactly these, and the object stored there is the fetched payload with the same source, type, timestamp and hash |
| `Ingestor.IngestKeepsBacked` | services/ingestion/index.js:45-110 | after a run, every queued message still points to an object in the bucket |
| `Ingestor.NullPayloadStoredNotQueued` | services/ingestion/index.js:57-80 | a `null` payload is stored but not queued, and the source fails with the `TypeError` message |
| `Ingestor.QueuedRecordsPointAtPayload` | services/ingestion/index.js:72-91 | the records the Transformer makes from a queued message point to the stored object of the same timestamp and hash |
| `Ingestor.CountsAgree` | services/ingestion/index.js:79 | `recordCount` is n for n posts, while the Transformer writes min(n, 10) records; for users it equals the records written, except that an empty `results` is announced as 1 |

## Left out

- Logging (`console.log`, `console.error`) is left out. It has no effect on results.
- Serializing the response bodies with `JSON.stringify` is left out. The model keeps the body as a value, because nothing reads the text back.
- Keys that name `Object.prototype` properties are counted like any other key. In the code, `acc[k] || 0` on such a key (`constructor`, `toString`, ...) reads the inherited function, so the count becomes a string, and an assignment to `__proto__` is ignored. The pipeline writes only the two fixed sources and ISO dates or `unknown`. This applies to:
  - `Analytics.TallyLookup`;
  - `Analytics.BySourceCount`;
  - `Analytics.BySourceTotals`;
  - `Analytics.ByDateTotal`.
- `localeCompare` is modelled as code-point order. Locale-aware collation differs for letters with accents and for mixed case. The dates and ISO timestamps being compared are ASCII.
- `parseInt` is modelled for optional ASCII whitespace, an optional sign and decimal digits:
  - The `0x` hexadecimal prefix is left out.
  - Unicode whitespace other than ASCII is left out.
  - Values beyond 2^53 (which JavaScript rounds) are left out.
- Numbers are integers in the model. Non-integer numbers and their printing are left out.
- Cursor decoding is left out in part:
  - It is strict: Node's decoder tolerates bad base64 and bad UTF-8, and the model only accepts well-formed input. The round trip is proved for what the code writes.
  - A cursor is modelled as an object with string values. A cursor that decodes to other JSON is rejected as malformed, where the code would pass it to DynamoDB.
  - The error text of a malformed cursor is one fixed message, not Node's exact `SyntaxError` wording.
  - `\u` escapes of lone UTF-16 surrogates are rejected.
  - A cursor whose object repeats an attribute name keeps every occurrence, where `JSON.parse` keeps the last. A cursor the code writes never repeats a name.
- The order of object keys is left out: `JSON.stringify` puts integer-like keys first, and the model writes them in insertion order.
- `GetAnalytics` aggregates the first scan page only, as the code does, because it ignores `LastEvaluatedKey`. The DynamoDB 1 MB page limit is not modelled.
- The outer `try`/`catch` of the API handler (`services/api/index.js:179-182`) is not modelled: each route already turns its own errors into a 500 response, so that branch is never taken.
- Queue messages are modelled as well-formed. A message body missing `source`, `s3Key` or `hash` (a `TypeError` on `hash.substring`) is not modelled. A body that is not JSON, or a raw object that cannot be read, is modelled as an error outcome.
- MD5 is a function parameter, and collisions are not considered.
- Each record's `processed_at` is one clock reading per message. The code reads the clock once per record.
- `Ingestor.LengthOf` counts the Unicode scalar values of a string where JavaScript's `length` counts UTF-16 units; the two differ for characters outside the Basic Multilingual Plane.
- The HTTP status of a fetch is not checked by the code, and is not modelled: any body that parses is a payload.
- The JSON indentation of the stored object is not modelled.
- The S3 object metadata is modelled. S3 and SQS attribute types are not.
- Concurrency is left out: Lambda invocations run in parallel and batches can be redelivered. The model handles one invocation at a time, and a redelivery is replayed as a new call at new clock readings (`Transformer.BatchRedeliveryIsNoop`).
- The environment variables `CURATED_TABLE_NAME`, `RAW_BUCKET_NAME` and `QUEUE_URL` are inputs:
  - the table name is a field of `Api.Table`;
  - the bucket name is a field of `Ingestor.RawBucket`;
  - the queue is a `MessageQueue` object.
