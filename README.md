# Daily AI data fetcher: a Dafny model of its fetch cycle, table, logger and dead-letter queue

The system fetches batches of random users from a public HTTP API a few times a
minute. It stores them in a DynamoDB table called `users` and reports on each fetch
through CloudWatch Logs and an SQS dead-letter queue. The repository holds two revisions:

- **Current** (`chalicelib/`). `DataFetcher` drives `UsersTable`, `EventLogger` and
  `DeadLetterQueue`.
- **Earlier** (the root-level `services.py`, `data.py`, `logs.py`). It uses the same
  classes without the dead-letter queue. It shapes its error events differently, and its
  logger takes its stream names from its own configuration.

This project models both revisions side by side, as separate classes. It proves their
bookkeeping and decision logic:

- how `fetch` counts calls, users and errors;
- what each failure of `_get_data` records, logs and dead-letters;
- how the table sorts "not found" from other errors, writes best-effort and pages through a scan;
- how `serialize` rewrites the coordinates;
- how the logger provisions its group and streams, routes its channels, stamps its events
  and reads back the last status;
- how the queue is resolved and sent to.

**How the foreign services appear.** Every foreign service (CloudWatch Logs, SQS,
DynamoDB, the users API) is the sequence of write requests sent to it, oldest first:

- `LogsRequest` (module `Logging`), `SqsRequest` (module `Dlq`) and `DynamoRequest` (module `Tables`);
- each class keeps its own sequence in a `requests` field, which its methods extend.

Everything a service answers is a method parameter. This covers listings, `load`,
`scan` pages, HTTP responses, and a raised error as an `Exc` value. A Python exception
becomes a `Result`/`Outcome` value. JSON and Python data is the datatype
`PyValue.Value`. `Opaque` stands for a Python object `json.dumps` rejects, such as a
`requests.Response`.

**How a fetch is modelled.**

- **The world.** `fetch` changes four things: the status dict, the log, the queue and the
  table. Together these are a `Fetching.World`.
- **One piece of a fetch.** What one part adds is a `Fetching.Delta`. This is a call's
  effect, or an iteration's.
- **The classes.** The `DataFetcher` classes change their fields step by step, as the
  source does. Each method is proved equal to the function that gives its effect.
- **The accounts.** Lemmas then prove, separately, what those effects add up to over the
  whole loop: one API call per iteration, the users of the good batches, one errors entry
  per non-200 or sentinel reply, one dead letter per failure, and one status event at the end.

Modules, in dependency order:

| module | file | models |
|---|---|---|
| `Wrappers` | wrappers.dfy | `Option`, `Result`, `Outcome` |
| `Config` | config.dfy | the constants of `chalicelib/config.py` |
| `PyValue` | pyvalue.dfy | Python values, exceptions, `in`, `[]`, `len`, iteration, truthiness, JSON-serializability |
| `Logging` | logging.dfy | what the two loggers share: events, stamping, `put_log_events`, group and stream provisioning, stream contents, `json.loads`, `peek_status` |
| `Events` | events.dfy | `chalicelib/events.py` `EventLogger` |
| `Dlq` | dlq.dfy | `chalicelib/dlq.py` `DeadLetterQueue` |
| `Tables` | tables.dfy | what both table revisions share: the users schema, `serialize`, the batch loop, `exists`/`create_table`/`add_elements`/`get_elements` effects, the scan loop |
| `Persistence` | persistence.dfy | `chalicelib/persistence.py` `UsersTable` |
| `Fetching` | fetching.dfy | what both fetchers share: the status dict, the classification of replies, `World`/`Delta` and their accounts |
| `Services` | services.dfy | `chalicelib/services.py` `DataFetcher` |
| `LegacyData` | legacy_data.dfy | `data.py` `UsersTable` |
| `LegacyLogs` | legacy_logs.dfy | `logs.py` `EventLogger` |
| `LegacyServices` | legacy_services.dfy | `services.py` `DataFetcher` |

## Model

| member | source | states |
|---|---|---|
| `PyValue.Lookup` | chalicelib/persistence.py:172-173 | `d[key]` on a dict holding the key gives a value stored under that key |
| `PyValue.Store` | chalicelib/persistence.py:175-178 | after `d[key] = v` the key holds `v`; an existing key keeps its place and the length, a new key is appended last |
| `PyValue.StoreKeepsOthers` | chalicelib/persistence.py:175-178 | `d[key] = v` leaves every other key present exactly when it was, with the same value |
| `PyValue.Contains` | chalicelib/services.py:108 | `"message" in data` succeeds exactly on sized values; on a dict it looks among the keys, on a list among the items |
| `PyValue.GetItem` | chalicelib/services.py:108 | `data["message"]` succeeds exactly on a dict holding the key, and gives the stored value |
| `PyValue.Iter` | chalicelib/persistence.py:73 | `for e in elements` works exactly on sized values, visits `len` items, and visits a list's items in order |
| `Logging.Stamped` | chalicelib/events.py:96-98 | the message is kept; a caller's timestamp is kept; the logger's clock is used exactly when the timestamp is absent |
| `Logging.StampAll` | chalicelib/events.py:96-98 | every event is stamped by that rule, with the count and order kept |
| `Logging.PutEffect` | chalicelib/events.py:94-105 | `_log_events` makes one put of all the stamped events exactly when every event has only `message`/`timestamp` keys; otherwise it fails and nothing is sent |
| `Logging.PutRequests` | chalicelib/events.py:90-92 | `_log_event` sends exactly one put holding the one stamped event, or nothing when the event is rejected |
| `Logging.PutOutcome` | chalicelib/events.py:90-92 | `_log_event` returns normally exactly when the event is acceptable, and otherwise raises ParamValidationError |
| `Logging.FindExactName` | chalicelib/events.py:23-30 | the flag-and-break search finds the group exactly when its exact name is listed; a prefix match does not count |
| `Logging.GroupCreatedIffAbsent` | chalicelib/events.py:33-48 | group and retention policy are created, in that order, exactly when no listed group has the exact name; nothing is sent otherwise |
| `Logging.StreamsFailureSticks` | chalicelib/events.py:61-65 | after a `create_log_stream` raises, the rest of the stream list sends nothing |
| `Logging.Missing` | chalicelib/events.py:61-62 | a stream is selected exactly when it is wanted and not among the existing names |
| `Logging.CreateAll` | chalicelib/events.py:63-65 | one `create_log_stream` per selected stream, in order |
| `Logging.StreamsCreatesMissing` | chalicelib/events.py:50-65 | when no create fails, `_create_log_streams` sends exactly the creates of the missing streams, in order, and returns normally |
| `Logging.MissingOnce` | chalicelib/events.py:61-65 | a stream listed once is created once when it is absent and never when it is present |
| `Logging.ProvisionEffect` | chalicelib/events.py:11-19 | a failing group listing is re-raised with nothing sent; a failing stream listing after a successful group step is re-raised |
| `Logging.ProvisionCreatesMissing` | chalicelib/events.py:11-65 | when nothing fails, provisioning sends the group and its retention policy exactly when the group is absent, then one create per missing stream in order, and returns normally |
| `Logging.Loads` | chalicelib/events.py:86 | `json.loads` of what `json.dumps(v)` wrote gives `v` back; any other message fails to parse |
| `Logging.PeekStatus` | chalicelib/events.py:80-88 | None on an empty stream; a read error propagates; otherwise the first event's message, decoded |
| `Logging.PutLeavesOtherStreams` | chalicelib/events.py:94-105 | a single-event write to one stream adds nothing to any other stream |
| `Logging.NewestReply` | chalicelib/events.py:107-115 | `get_log_events(limit=1)` returns at most one event |
| `Logging.PutMakesNewest` | chalicelib/events.py:80-92 | after writing an acceptable event to a stream, a peek of that stream gives that event's message; every other stream keeps its events |
| `Events.StreamsDistinct` | chalicelib/events.py:52-56 | the three streams Status, Info and Error are distinct, and each is listed once |
| `Events.ProvisioningCreatesExactlyMissing` | chalicelib/events.py:50-65 | when no create fails, each of Status, Info and Error is created once when absent and never when present |
| `Events.EventLogger.constructor` | chalicelib/events.py:10-13 | the new logger has sent nothing |
| `Events.EventLogger.Provision` | chalicelib/events.py:11-19 | the constructor's provisioning sends the group step, then the streams step; the first failure ends it and is re-raised |
| `Events.EventLogger.CreateGroup` | chalicelib/events.py:21-48 | `_create_log_group` sends what `GroupEffect` gives: nothing on an exact match, else the creation and the retention policy; a failure there is raised |
| `Events.EventLogger.CreateStreams` | chalicelib/events.py:50-65 | the `_create_log_streams` loop over Status, Info and Error sends what `StreamsEffect` gives |
| `Events.EventLogger.Info` | chalicelib/events.py:68-70 | `info` writes the event to the Info stream only |
| `Events.EventLogger.Error` | chalicelib/events.py:72-74 | `error` writes the event to the Error stream only |
| `Events.EventLogger.Status` | chalicelib/events.py:76-78 | `status` writes the event to the Status stream only |
| `Events.EventLogger.LogOne` | chalicelib/events.py:90-92 | `_log_event` is `_log_events` of the one event |
| `Events.EventLogger.LogEvents` | chalicelib/events.py:94-105 | the stamping loop, then one put of all the events, or the validation error with nothing sent |
| `Events.EventLogger.PeekStatus` | chalicelib/events.py:80-88 | `peek_status` gives None on an empty reply, decodes the first message, and propagates a read error |
| `Dlq.ResolveEffect` | chalicelib/dlq.py:17-45 | the first URL listed is reused with nothing sent; an empty listing creates "dlq" (its URL and one info log on success; one error log and no URL on failure); a ClientError while listing logs one error, leaves no URL and is not raised; any other listing error is re-raised with nothing sent or logged; at most one event is logged |
| `Dlq.SendEffect` | chalicelib/dlq.py:47-65 | each `send` logs exactly one event; the message goes, serialized, with `{}` as default attributes, exactly when there is a URL and encoding succeeds; the info event is logged exactly when the send went out and succeeded, and otherwise an error event is logged |
| `Dlq.DeadLetterQueue.constructor` | chalicelib/dlq.py:9-13 | queue name "dlq", no URL, nothing sent |
| `Dlq.DeadLetterQueue.CreateQueueIfNotExists` | chalicelib/dlq.py:17-29 | URL, queue requests, log and outcome are those of `ResolveEffect` |
| `Dlq.DeadLetterQueue.CreateTheQueue` | chalicelib/dlq.py:31-45 | one `create_queue`; on success the URL is set and one info event is logged; on failure the URL is unchanged and one error event is logged, with nothing raised |
| `Dlq.DeadLetterQueue.Send` | chalicelib/dlq.py:47-65 | the queue and the log receive what `SendEffect` gives |
| `Tables.UsersSchemaWellFormed` | chalicelib/persistence.py:149-167 | key schema (id HASH, last_name RANGE); attribute types id:N, last_name:S; every key attribute defined and nothing else; throughput 1/1 |
| `Tables.ToDecimal` | chalicelib/persistence.py:176-177 | `Decimal(str(x))` of a number is the Decimal of the same value; anything else raises InvalidOperation |
| `Tables.Serialize` | chalicelib/persistence.py:170-180 | succeeds exactly when `address.coordinates` holds `lat` and `lng` that are numbers; the coordinates then hold exactly `lat` and `lng` as Decimals of the same numbers; failures are KeyError, TypeError or InvalidOperation |
| `Tables.SerializeKeepsOtherFields` | chalicelib/persistence.py:175-180 | every top-level field but `address`, and every address field but `coordinates`, is present exactly when it was, with its value |
| `Tables.SerializeIdempotent` | chalicelib/persistence.py:170-180 | serializing a serialized element changes nothing more |
| `Tables.SerializeEach` | chalicelib/persistence.py:73-75 | the serialized elements, in order, up to the first that fails and that failure; every element when none fails |
| `Tables.SerializeFailureSticks` | chalicelib/persistence.py:73-75 | once an element fails, no later element is serialized |
| `Tables.SerializeBatch` | chalicelib/persistence.py:73-75 | the `for e in elements` loop computes `SerializeEach` |
| `Tables.ClientErrorEvent` | chalicelib/persistence.py:31-41 | the current revision's ClientError event is accepted by `put_log_events`; the earlier revision's, with its extra `error_code`/`error_message` keys, is not |
| `Tables.ExistsEffect` | chalicelib/persistence.py:19-42 | true, silently, exactly when `load` succeeds; false exactly on ResourceNotFoundException, with nothing logged; another ClientError logs one event and (current revision) re-raises that error; any other error escapes unlogged |
| `Tables.CreateEffect` | chalicelib/persistence.py:44-67 | succeeds exactly when create and wait both succeed; otherwise the first error is logged once and re-raised |
| `Tables.AddEffectCases` | chalicelib/persistence.py:69-87 | `add_elements` logs exactly one event and never raises; it logs "Saved n" exactly when there is a table, every element serializes, and the flush (if any) succeeds; the one batch then holds every serialized element (none for an empty list) |
| `Tables.Stop` | chalicelib/persistence.py:98-106 | the loop ends at the first reply that raises or whose LastEvaluatedKey is missing or null; every earlier reply continues it |
| `Tables.ItemsOfMembership` | chalicelib/persistence.py:104 | an item is in the result exactly when some page read holds it |
| `Tables.Scans` | chalicelib/persistence.py:98-103 | one scan per page up to and including the last |
| `Tables.ScanForwardsKey` | chalicelib/persistence.py:94-103 | the first scan has no ExclusiveStartKey; each later one passes the previous page's truthy key |
| `Tables.NextKey` | chalicelib/persistence.py:105-106 | the next start key is None exactly when the page's LastEvaluatedKey is missing or null, and the key itself otherwise |
| `Tables.ScanPages` | chalicelib/persistence.py:91-108 | the `while not done` loop returns the Items of every page in read order (or the scan's error) and sends the start key of every scan |
| `Tables.GetEffect` | chalicelib/persistence.py:89-122 | the pages' Items; on a ClientError one error event and (current revision) `[]`, discarding the pages read; another error escapes; no table handle raises AttributeError |
| `Persistence.UsersTable.constructor` | chalicelib/persistence.py:12-17 | table "users", no handle, nothing sent |
| `Persistence.UsersTable.Exists` | chalicelib/persistence.py:19-42 | sets the handle; result and log are those of `ExistsEffect` (current revision) |
| `Persistence.UsersTable.CreateTable` | chalicelib/persistence.py:44-67 | one `create_table` with the users schema; the handle is set once the create returns; result and log are those of `CreateEffect` |
| `Persistence.UsersTable.AddElements` | chalicelib/persistence.py:69-87 | the table and the log receive what `AddEffect` gives |
| `Persistence.UsersTable.GetElements` | chalicelib/persistence.py:89-122 | result and log are those of `GetEffect` (current revision); the scans send the keys of `Scans` |
| `Fetching.StatusSerializable` | chalicelib/services.py:72-74 | `json.dumps` of the status succeeds exactly when its errors and its duration are JSON data |
| `Fetching.ClassifyCases` | chalicelib/services.py:87-131 | a raised error is a runtime failure; a non-200 code is Non200; a 200 whose dict body has `message` equal to the sentinel is Sentinel; any other 200 that parses, and whose `"message" in data` raises nothing, is Ok with the parsed body |
| `Fetching.KindsAccount` | chalicelib/services.py:89-141 | every call is of exactly one kind: good batches plus failures are all the calls, and the failures are the non-200 replies, the sentinels and the raises |
| `Fetching.CallsAccount` | chalicelib/services.py:81 | effects that count one call each count `k` calls in `k` iterations |
| `Fetching.Batch` | chalicelib/services.py:59-65 | the batch the loop counts and stores is the good reply's body, `[]` otherwise; its length is the call's users |
| `Fetching.WritesAccount` | chalicelib/services.py:64-65 | effects that each send their run of table writes send all the runs, in order |
| `Fetching.RunWrites` | chalicelib/services.py:50-65 | iterations that each store their call's batch leave the table with every call's writes appended, in call order |
| `Fetching.RunStatus` | chalicelib/services.py:59-62 | iterations that account for their calls leave api_calls = calls made, users = sum of good batches, errors = the calls' runs of entries in call order |
| `Fetching.ResetRunStatus` | chalicelib/services.py:44-62 | from a status with nothing counted and no errors, the loop leaves exactly the calls made, the users of the good batches and the runs of entries in call order, keeping the timestamp and duration |
| `Fetching.EntryRunsCount` | chalicelib/services.py:98 | runs of one entry per non-200 or sentinel reply join to exactly as many entries as there are such calls |
| `Fetching.UsersAccount` | chalicelib/services.py:62 | effects that count their call's users count the users of all the calls |
| `Services.Non200Event` | chalicelib/services.py:91-95 | the non-200 error event is JSON data |
| `Services.SentinelEvent` | chalicelib/services.py:109-114 | the sentinel error event is JSON data |
| `Services.RuntimeEvent` | chalicelib/services.py:133-138 | the runtime error event is JSON data |
| `Services.ReportApply` | chalicelib/services.py:98-100 | a failure branch appends its event to errors when asked, logs it on the error stream, then dead-letters it; the table is not touched |
| `Services.FailureEvent` | chalicelib/services.py:91-138 | the event each failing kind reports is JSON data |
| `Services.EntriesCount` | chalicelib/services.py:98 | errors entries number exactly the non-200 replies plus the sentinels |
| `Services.LettersCount` | chalicelib/services.py:140 | dead letters number exactly the failures of every kind |
| `Services.EntriesSerializable` | chalicelib/services.py:91-114 | every errors entry is JSON data, so the final `json.dumps` cannot raise |
| `Services.SentNoStatus` | chalicelib/events.py:68-74 | an info or error event adds nothing to the Status stream |
| `Services.ReportFacts` | chalicelib/services.py:97-102 | a failure branch counts nothing, adds its entry when asked, sends one dead letter when the queue has a URL, and writes nothing to Status or the table; it logs exactly two events, first the failure's event on the error stream, then the dead-letter outcome, which is the send's info event exactly when the queue has a URL and the send succeeds |
| `Services.ReportLogs` | chalicelib/services.py:99-100 | a failure branch logs exactly two requests: its event on the error stream, then the dead-letter outcome, which is the send's info event exactly when the queue has a URL, the event encodes and the send succeeds |
| `Services.ReportQuiet` | chalicelib/services.py:99-100 | neither of a failure branch's log requests reaches the Status stream |
| `Services.GetDataFacts` | chalicelib/services.py:79-141 | `_get_data` counts one call; it adds the entry of a non-200 or sentinel reply; it dead-letters every failure; it returns the good reply's body as the batch, and `[]` after every failure; it writes nothing to Status or the table |
| `Services.HandledCounts` | chalicelib/services.py:89-141 | after the call is counted: no further count, the kind's entry, the kind's dead letter, the batch or `[]` |
| `Services.HandledQuiet` | chalicelib/services.py:89-141 | handling a reply sends nothing to the Status stream |
| `Services.StepFacts` | chalicelib/services.py:50-65 | one iteration makes one API call; it adds its users, its entry and its dead letter; it writes no status event; it always calls `add_elements` on its batch (`[]` after a failure), whose table writes are the iteration's and whose outcome event is its last log request |
| `Services.IterationsAccounted` | chalicelib/services.py:50-65 | every iteration of the loop accounts for its own call and stores its own batch, as in `StepFacts` |
| `Services.RunLetters` | chalicelib/services.py:100 | the queue receives the dead letters of all the calls, in call order |
| `Services.RunQuiet` | chalicelib/services.py:50-65 | the loop leaves the Status stream as it was |
| `Services.FinishStatus` | chalicelib/services.py:68-77 | with JSON-data errors, the end of `fetch` returns the status with its duration and sends nothing to the queue or the table |
| `Services.LoopFacts` | chalicelib/services.py:44-65 | from the reset status, the loop leaves api_calls = N, users = sum of good batches, the entries in call order, one dead letter per failure in order, each call's batch writes on the table in order, and the Status stream unchanged |
| `Services.LoopStatus` | chalicelib/services.py:44-62 | the status the loop leaves from the reset status: N calls, the users of the good batches, the entries in call order |
| `Services.LoopTraffic` | chalicelib/services.py:50-65 | the loop sends the dead letters to the queue and the batches to the table, in call order, and nothing to Status |
| `Services.FinishStream` | chalicelib/services.py:72-74 | the end of `fetch` appends exactly one status event to the Status stream, and `peek_status` then decodes the returned status |
| `Services.StatusAppend` | chalicelib/events.py:76-88 | a status event on any log is the newest event of the Status stream, and a peek decodes it |
| `Services.FetchFacts` | chalicelib/services.py:43-77 | `fetch` never raises; the previous status is discarded; api_calls = N; users = sum of good batches; one errors entry per non-200 or sentinel reply; one dead letter per failure, in order; the table receives each call's batch writes, in call order; one status event last, which a peek reads back as the status returned |
| `Services.InitEffect` | chalicelib/services.py:33-41 | as written: construction logs only the table operations' own events, so the fatal event never reaches the log |
| `Services.IntendedInitEffect` | chalicelib/services.py:33-41 | as intended: success logs only the table operations' events; a failure re-raises its cause after logging the fatal event on the error stream |
| `Services.IntendedInitLogsCause` | chalicelib/services.py:33-41 | the intended construction fails exactly on a table failure, and then logs exactly one more event, the fatal one, last |
| `Services.InitLosesCause` | chalicelib/services.py:40 | for an AccessDenied ClientError from `exists`, the code as written raises TypeError and logs one event fewer than intended |
| `Services.DataFetcher.constructor` | chalicelib/services.py:19-28 | fresh status (users 0, api_calls 0, errors [], duration 0.0); the three collaborators share the logger |
| `Services.DataFetcher.Init` | chalicelib/services.py:30-41 | the table handle is bound to the users table; `create_table` is sent exactly when `exists()` is false; the outcome and the log are those of `IntendedInitEffect`: a failure is logged as fatal and re-raised (the corrected except block) |
| `Services.DataFetcher.Fetch` | chalicelib/services.py:43-77 | status, log, queue, table and result are those of `FetchEffect`, for 1..20 calls with sizes 1..150 |
| `Services.DataFetcher.RunLoop` | chalicelib/services.py:50-65 | the `for` loop applies one iteration effect per call, in order |
| `Services.DataFetcher.Iteration` | chalicelib/services.py:52-65 | announce, `_get_data`, add `len(data)` to users, `add_elements(data)` |
| `Services.DataFetcher.Conclude` | chalicelib/services.py:68-77 | record the duration, log the dumped status, return it |
| `Services.DataFetcher.GetData` | chalicelib/services.py:79-87 | count the call, then handle its reply |
| `Services.DataFetcher.Handle` | chalicelib/services.py:89-141 | the four branches of `_get_data` after the call |
| `Services.DataFetcher.ReportFailure` | chalicelib/services.py:98-100 | append the event when the branch records it, then log and dead-letter it |
| `Services.DataFetcher.Alert` | chalicelib/services.py:99-100 | the dumped event goes to the error stream, then `dlq.send(message=ev)` |
| `Services.DataFetcher.Status` | chalicelib/services.py:154-156 | `status()` is the logger's `peek_status` |
| `Services.DataFetcher.Get` | chalicelib/services.py:158-164 | the table's elements; `[]` when `get_elements` raises; the table's ClientError event is logged |
| `LegacyData.UsersTable.constructor` | data.py:9-13 | table "users", no handle, nothing sent |
| `LegacyData.UsersTable.Exists` | data.py:15-31 | sets the handle; result and log are those of `ExistsEffect` (earlier revision) |
| `LegacyData.UsersTable.CreateTable` | data.py:33-52 | one `create_table`, the handle set once it returns, the first error logged once and re-raised |
| `LegacyData.UsersTable.AddElements` | data.py:54-68 | the table and the log receive what `AddEffect` gives: best-effort, one event, never raises |
| `LegacyData.UsersTable.GetElements` | data.py:70-97 | result and log are those of `GetEffect` (earlier revision) |
| `LegacyData.ExistsLosesClientError` | data.py:24-31 | on a ClientError other than not-found, the earlier `exists` logs nothing and raises ParamValidationError; the current one logs one event and re-raises the ClientError |
| `LegacyData.GetElementsRaisesOnClientError` | data.py:89-97 | on a ClientError during a scan, the earlier `get_elements` logs nothing and raises; the current one logs one event and returns `[]` |
| `LegacyLogs.StreamsListedOnce` | logs.py:53-57 | with distinct configured names, each of the three streams is listed once |
| `LegacyLogs.ChannelsApart` | logs.py:67-74 | an event on one channel leaves the other channels' streams as they were |
| `LegacyLogs.StatusReadBack` | logs.py:73-82 | a status event becomes the newest on the fetches stream, where `peek_status` decodes it |
| `LegacyLogs.ProvisioningCreatesExactlyMissing` | logs.py:52-65 | when no create fails, each of fetches, info and error is created once when absent and never when present |
| `LegacyLogs.EventLogger.constructor` | logs.py:18-20 | the new logger has sent nothing |
| `LegacyLogs.EventLogger.Provision` | logs.py:18-25 | group, then streams; the first failure ends it and is re-raised |
| `LegacyLogs.EventLogger.CreateGroup` | logs.py:27-50 | what `GroupEffect` gives for the configured group and retention |
| `LegacyLogs.EventLogger.CreateStreams` | logs.py:52-65 | the loop over fetches, info and error sends what `StreamsEffect` gives |
| `LegacyLogs.EventLogger.Info` | logs.py:67-68 | `info` writes to the info stream only |
| `LegacyLogs.EventLogger.Error` | logs.py:70-71 | `error` writes to the error stream only |
| `LegacyLogs.EventLogger.Status` | logs.py:73-74 | `status` writes to the fetches stream only |
| `LegacyLogs.EventLogger.LogOne` | logs.py:84-85 | `_log_event` is `_log_events` of the one event |
| `LegacyLogs.EventLogger.LogEvents` | logs.py:87-96 | stamp only the events without a timestamp, then one put, or the validation error with nothing sent |
| `LegacyLogs.EventLogger.PeekStatus` | logs.py:76-82 | None on an empty reply; otherwise the decoded first message |
| `LegacyServices.Non200Entry` | services.py:93-96 | the non-200 entry holds the response object, so it is not JSON data |
| `LegacyServices.SentinelEntry` | services.py:106-109 | the sentinel entry holds the response object, so it is not JSON data |
| `LegacyServices.EntriesCount` | services.py:98 | errors entries number exactly the non-200 replies plus the sentinels |
| `LegacyServices.EntriesUnserializable` | services.py:93-109 | no errors entry is JSON data |
| `LegacyServices.SentNoStatus` | logs.py:67-71 | an info or error event adds nothing to the fetches stream |
| `LegacyServices.RecordedFacts` | services.py:98-99 | a failure branch appends its entry; its own event is rejected for the `response` key, so only the except block's runtime event reaches the log; nothing goes to a queue or the table |
| `LegacyServices.GetDataFacts` | services.py:84-128 | one call counted; the entry of a non-200 or sentinel reply; the good reply's body as the batch, `[]` after every failure; nothing dead-lettered; nothing on the fetches stream |
| `LegacyServices.HandledCounts` | services.py:92-128 | after the call is counted: no further count, the kind's entry, the batch or `[]`, no queue, no table |
| `LegacyServices.HandledQuiet` | services.py:92-128 | handling a reply sends nothing to the fetches stream |
| `LegacyServices.StepFacts` | services.py:58-72 | one iteration makes one API call; it adds its users and its entry; it sends no queue message and writes nothing on the fetches stream; it always calls `add_elements` on its batch, whose table writes are the iteration's and whose outcome event is its last log request |
| `LegacyServices.IterationsAccounted` | services.py:58-72 | every iteration accounts for its own call and stores its own batch, as in `StepFacts` |
| `LegacyServices.FinishFacts` | services.py:75-82 | with unencodable entries, the end of `fetch` writes nothing to the queue or the table and succeeds exactly when errors is empty; it then logs the status, which a peek reads back; otherwise it raises TypeError with no status logged |
| `LegacyServices.LoopFacts` | services.py:54-73 | from the reset status (duration integer 0) the loop leaves api_calls = N, users = sum of good batches, the entries in order, no queue message, the fetches stream unchanged, and each call's batch writes on the table, in call order |
| `LegacyServices.RunQuiet` | services.py:58-72 | the loop sends nothing to a queue or the fetches stream |
| `LegacyServices.FetchFacts` | services.py:53-82 | api_calls = N, users = sum of good batches, one entry per non-200 or sentinel reply, nothing dead-lettered, each call's batch writes on the table in call order; `fetch` returns normally exactly when there was no such reply |
| `LegacyServices.FetchOutcome` | services.py:75-82 | a fetch returns its status and logs it last on the fetches stream, where a peek reads it back; or it raises TypeError with no status logged |
| `LegacyServices.ServerErrorBreaksFetch` | services.py:92-101 | a fetch of one call answered by a 500 raises TypeError and logs no status |
| `LegacyServices.InitError` | services.py:29-51 | construction fails exactly when `exists` fails or the table is missing and its creation fails; a non-ClientError escapes as it is; another ClientError of `exists` turns into the logger's ParamValidationError |
| `LegacyServices.DataFetcher.constructor` | services.py:28-36 | fresh status (duration integer 0); a new users table on the logger, with no handle |
| `LegacyServices.DataFetcher.Init` | services.py:37-51 | the table handle is bound to the users table; `create_table` is sent exactly when `exists()` is false; a failure is re-raised |
| `LegacyServices.DataFetcher.Fetch` | services.py:53-82 | status, log, table and result are those of `FetchEffect` |
| `LegacyServices.DataFetcher.RunLoop` | services.py:58-73 | the `for` loop applies one iteration effect per call, in order |
| `LegacyServices.DataFetcher.Iteration` | services.py:59-73 | announce, `_get_data`, add `len(data)` to users, `add_elements(data)` |
| `LegacyServices.DataFetcher.Conclude` | services.py:75-82 | record the duration, log the dumped status, return it |
| `LegacyServices.DataFetcher.GetData` | services.py:84-90 | count the call, then handle its reply |
| `LegacyServices.DataFetcher.Handle` | services.py:92-128 | the four branches of `_get_data` after the call |
| `LegacyServices.DataFetcher.Record` | services.py:98-99 | append the entry, log it, and, when logging raises, log the runtime event of the except block |
| `LegacyServices.DataFetcher.Status` | services.py:140-141 | `status()` is the logger's `peek_status` |
| `LegacyServices.DataFetcher.Get` | services.py:143-148 | the table's elements, `[]` when `get_elements` raises anything |

## Left out

- The AWS SDK and the HTTP client are not modelled: boto3 resources and clients, `batch_writer`, `wait_until_exists`, `LimiterSession`. What they answer is a parameter. What the model keeps is the requests the code sends and how the code reacts to each reply.
- Service-side failures of `put_log_events` are not modelled. Only the client's own check of the event keys is, because that check decides the earlier revision's behaviour.
- Some parts of the source are not part of this model:
  - the root-level `config.py`, so the earlier logger's names are a constructor parameter (`LegacyLogs.LogNames`);
  - the root-level `utils.py`;
  - `app.py` (Chalice routing);
  - the test utilities under `test_tools/`.
- The earlier fetcher's call count and sizes are not bounded, because the root-level configuration is not modelled. The current fetcher's are bounded by `chalicelib/config.py` (1..20 calls, sizes 1..150).
- Randomness, the clock and the elapsed time are parameters: `random.randint`, `get_timestamp_millis`, `datetime.now`. Timestamps the logger adds are the symbolic `Clock` stamp.
- `print` calls are left out. They are the logger's constructor message and the earlier fetcher's debug output.
- `json.dumps` is modelled symbolically as `Text.Dumped`. Only whether it raises is modelled (on a Decimal or a non-JSON object), and `json.loads` inverts it. The textual form of JSON is not modelled.
- `Tables.ToDecimal` treats the text of every non-number as not numeric. In Python, `Decimal(str(x))` of a numeric string such as "1.5" would succeed. This path is not modelled because the API returns numbers.
- Float arithmetic is not modelled. Durations are reals.
- `Tables.AddEffect` models the batch as one `BatchWrite` request. The batch writer's splitting into 25-item requests is not modelled.
- The fetchers' `dlq=None` path is not modelled. In it, `self.dlq.send` inside the except block would itself raise. The model assumes the current fetcher's queue is not None. The tests under `test/` build the fetcher with `dlq=None`, but they never call `fetch`.
- `Services.DataFetcher.constructor` requires that the table and the queue log through the fetcher's own logger, so the model keeps a single log. The source does not demand this of its callers, but every visible call site shares one logger.
- `Tables.Serialize` modelling and aliasing:
  - `serialize`'s in-place mutation is modelled on values: the element put is the serialized copy.
  - The alias between the element and the caller's batch is not tracked. After `add_elements`, a fetcher does not read the batch again.
- `LegacyServices.Non200Entry` and `LegacyServices.SentinelEntry` leave out the `timestamp` key that the earlier `_log_events` adds to the same dict while trying to log it. The entry is unencodable either way. The alias between the errors list and the logged dict is not tracked.
- The abstract base class `DynamoDbTable` has no class of its own. Its methods are the functions of module `Tables`, parameterised by the table name and the revision.
- Each logger's constructor is split into a Dafny constructor and a `Provision` method that returns the outcome, because a constructor whose provisioning fails never hands back the object. Each fetcher's constructor is split the same way, into a constructor and `Init`. So is the dead-letter queue's, into a constructor and `CreateQueueIfNotExists`, the call that `__init__` makes at chalicelib/dlq.py:15. A listing error other than a ClientError escapes the Python constructor; the `Fail` outcome of `ResolveEffect` stands for it.
- `Logging.NewestReply` is a model of `get_log_events(limit=1)`, not a parameter. The read-back lemmas (`Logging.PutMakesNewest`, `Services.StatusAppend`, `Services.FinishStream`, `Services.FetchFacts`, `LegacyLogs.StatusReadBack`, `LegacyServices.FetchOutcome`) assume it returns the last event written, with clock stamps in write order and no read lag. The lemmas do not state this assumption.

## Findings

| source | as written | input that shows it | evidently intended | confidence | as-written member | corrected member |
|---|---|---|---|---|---|---|
| chalicelib/services.py:40 | the except block calls the logger object itself, `self.event_logger(event=...)`; that raises TypeError, so the fatal event is never logged and the TypeError replaces the cause | `exists()` raising a ClientError AccessDeniedException | log the fatal event with `event_logger.error` and re-raise the cause; `DataFetcher.Init` follows this | not executed | `Services.InitLosesCause` | `Services.IntendedInitLogsCause` |
| data.py:24-31 | `exists` passes `error_code`/`error_message` as extra keys of the log event; `put_log_events` rejects them, and the ParamValidationError replaces the ClientError; nothing is logged | `load` raising ClientError("AccessDeniedException") | log one event and re-raise the ClientError, as the current revision does with a dumped message | not executed | `LegacyData.ExistsLosesClientError` | `Persistence.UsersTable.Exists` |
| data.py:89-97 | `get_elements` logs with the same extra keys; the logger raises inside the except block, so `get_elements` raises instead of returning `[]` | a scan raising ClientError("ProvisionedThroughputExceededException") | log one event and return `[]` | not executed | `LegacyData.GetElementsRaisesOnClientError` | `Persistence.UsersTable.GetElements` |
| services.py:92-114 | each errors entry holds the `requests.Response` object, so `json.dumps(self.current_fetch_status)` at services.py:79 raises TypeError, and `fetch` raises after any non-200 or sentinel reply; the entry's own log event is also rejected for its `response` key | one call answered by HTTP 500 | JSON-encodable entries (code and text), so that `fetch` returns its status, as the current revision does | not executed | `LegacyServices.ServerErrorBreaksFetch` | `Services.FetchFacts` |
