# Percipio content metadata exporter: a verified model

This project models the core of a command-line exporter. The exporter
downloads an organisation's content catalog from the Percipio
content-discovery API, one page at a time, and streams every record into a
single JSON array on disk. It also keeps a last-run cursor (`lastrun.json`),
so that the next run asks only for content updated since the last clean run.

The model follows the program's own structure:

- `js.dfy` (`Js`): JavaScript values and the small library helpers the code
  leans on: `||`, property access, `accessSafe`, `_.omitBy(_, _.isNil)` and
  `String()`.
- `template.dfy` (`Template`): `processTemplate`, which fills `{name}`
  placeholders of a URI template.
- `http.dfy` (`Http`): the axios request configuration, response, error and
  settled outcome.
- `request.dfy` (`Request`): `callPercipio`'s request building and response
  cleaning, the option copies made for the count probe and for each page, and
  `getRecordCount`'s header reading.
- `retry.dfy` (`Retry`): `shouldRetry` and the merge of the retry settings in
  `createInstance`.
- `expect_json.dfy` (`ExpectJson`): the interceptor that insists on JSON
  bodies.
- `polling.dfy` (`Polling`): the interceptor that detects a report still in
  progress.
- `transport.dfy` (`Transport`): one request through the client
  `createInstance` builds, with the retry loop and the JSON check. It is
  modelled both as wired and as evidently intended (see Findings).
- `paging.dfy` (`Paging`): `getPage`'s result mapping and record emission.
  It also holds `getAllPages`'s offset loop, the aggregation of the settled
  pages and the finalisation of the output.
- `sink.dfy` (`Sink`): the output file, as a class whose array of records
  grows as pages arrive.
- `cursor.dfy` (`Cursor`): validating, trusting and writing the last-run
  cursor.
- `driver.dfy` (`Driver`): `main`, as a method that mutates the cursor file
  and is proved equal to the specification function `RunSpec`.
- `logger.dfy` (`Logging`): the `Logger` class (`currentLogLevel`, `update`,
  `log`, the level methods), the `getInstance` singleton, `getLabel`, and
  `errorFormatter`'s message assembly.

Some things are outside the model and become parameters:

- the HTTP exchange (`send`, or `exchange(k)` for the k-th attempt);
- `JSON.parse`, `JSON.stringify`, `parseInt`, `uuidv4`, and the schema's UUID
  and ISO-date checks;
- the run's start time;
- the order in which the concurrently fired page requests settle.

## Model

| member | source | states |
|---|---|---|
| Js.OmitNil | app.js:62-66 | query and body entries are kept exactly when their value is neither null nor undefined, with their values unchanged |
| Js.AccessSafe | app.js:191-198 | the getter's value when it neither throws nor yields undefined; the fallback otherwise |
| Template.Process | app.js:45-48 | a template without placeholders renders to itself |
| Template.ProcessFills | app.js:45-48 | a template assembled from literal text and `{name}` placeholders with non-empty names, all bound, renders to the text with each placeholder replaced by its variable (null and undefined render empty) |
| Template.ProcessUnbound | app.js:45-48 | a well-formed template with a placeholder whose name is not among the variables throws |
| Template.OneHole | app.js:45-48 | a single placeholder with a non-empty name between literal texts is replaced by its variable's rendering |
| Template.EmptyPlaceholder | app.js:45-48 | an empty placeholder `{}` renders nothing, whatever the variables |
| Template.CatalogPath | app.js:60 | the shipped catalog template with `orgId` renders to `/content-discovery/v2/organizations/<org>/catalog-content` |
| Request.BuildConfig | app.js:59-86 | the URL is the filled template (a throwing template fails the call), the header is `Bearer ` + bearer, timeout falls back to 2000 and correlation id to a fresh one when falsy, and params/data are present exactly when some non-nil entry exists and then hold exactly those entries |
| Request.CallPercipio | app.js:57-109 | a rejected request fails with the client's error; a resolved one is answered with its data, headers, its configuration's params and correlation id, and its status |
| Request.WithQuery | app.js:124-126 | the copy differs from the caller's options only in the one query key and a fresh correlation id; a null query throws |
| Request.ReadCount | app.js:138-139 | `total` is the parsed `x-total-count` header (absent when the header is missing); `pagingRequestId` is the header when non-empty, else null |
| Request.GetRecordCount | app.js:118-157 | the probe fails with the call's failure, or is counted from the response headers; a null query fails it |
| Request.ProbeRequest | app.js:124-126 | the probe asks for `max = 1` under a fresh correlation id, with every other non-nil query parameter unchanged |
| Request.PageRequest | app.js:174-176 | a page request carries its offset with every other non-nil query parameter unchanged, under a fresh correlation id |
| Retry.ShouldRetry | lib/axios-helpers.js:45-90 | never retries at or above either cap, so the effective cap is the smaller of the two; below both, a non-JSON error is always retried and any other error exactly when the library would retry it |
| Retry.Overlay | lib/axios-helpers.js:96 | each retry setting the user gives wins over the helper's, and one left out keeps the helper's |
| Retry.ShippedCapIsFour | lib/axios-helpers.js:48-75 | under the shipped settings (retry 5, noResponseRetries 4) nothing is retried after four retries, while a non-JSON error is retried before that |
| Retry.NotJsonErrorRetried | lib/axios-helpers.js:66-75 | the JSON interceptor's own error is retried below both caps |
| Retry.InProgressErrorLeftToLibrary | lib/axios-helpers.js:66-89 | the polling interceptor's error is not mistaken for a non-JSON body; the library's decision applies |
| ExpectJson.Handle | lib/expectJSONInterceptor.js:11-34 | rejects, with the "did not return JSON" error carrying the response, exactly when JSON is expected and a non-empty string body fails to parse; a body that parses replaces `data` and nothing else; everything else passes through untouched |
| ExpectJson.OnSettled | lib/expectJSONInterceptor.js:11-34 | errors pass by the interceptor untouched, as it registers no error handler |
| ExpectJson.SecondPass | lib/expectJSONInterceptor.js:15-19 | running the interceptor on its own result changes nothing, unless the parsed body is itself a string |
| Polling.Handle | lib/interceptors/pollingInterceptor.js:11-40 | an IN_PROGRESS status (any letter case) becomes a rejection with message `Report IN_PROGRESS`, code ECONNABORTED, `reportInProgress` set and the response attached; every other response and every error passes through unchanged |
| Polling.InProgressAnyCase | lib/interceptors/pollingInterceptor.js:16-33 | a status equal to IN_PROGRESS up to letter case is rejected as in progress |
| Polling.CompletedPassesThrough | lib/interceptors/pollingInterceptor.js:35 | a COMPLETED report resolves with the very same response |
| Polling.NoStatusPassesThrough | lib/interceptors/pollingInterceptor.js:13-35 | a body without a string `status` resolves unchanged |
| Transport.Settle | lib/axios-helpers.js:45-97 | a request settles with the first attempt that resolves or whose error `shouldRetry` declines, after at most cap + 1 attempts; every earlier attempt was rejected with an error `shouldRetry` accepted |
| Transport.ExhaustsCap | lib/axios-helpers.js:48-63 | a request that keeps failing retryably is attempted exactly cap + 1 times |
| Transport.RecoversAfter | lib/axios-helpers.js:45-90 | a request that fails retryably k times, within the cap, and then resolves succeeds on attempt k + 1 |
| Transport.SendAsWritten | lib/axios-helpers.js:96-100 | the client as wired: the retry loop settles first and the JSON check is applied to what it settled with |
| Transport.NotJsonNeverRetriedAsWritten | lib/axios-helpers.js:96-100 | as wired, a non-JSON body is surfaced after one attempt whatever the retry settings |
| Transport.Send | lib/axios-helpers.js:65-75 | the intended client: each attempt's body is checked for JSON before the retry decision; every earlier attempt was rejected, after the check, with an error `shouldRetry` accepted, and a final rejection is one it declined |
| Transport.NotJsonRetriedToCap | lib/axios-helpers.js:65-75 | intended: a server that never sends JSON is tried cap + 1 times and the request fails with the non-JSON error |
| Transport.ShippedNotJsonAttempts | config/default.js:112-114 | intended, with the shipped settings: five attempts for a server that never sends JSON |
| Transport.InProgressNotDetected | lib/axios-helpers.js:96-100 | the polling interceptor is not attached: a report in progress resolves on the first attempt |
| Paging.Length | app.js:191 | an array or string body counts its length, an object its numeric `length` field, anything else 0 |
| Paging.Param | app.js:192-195 | a numeric request parameter is read as it is; a missing one, or missing parameters, read as 0 |
| Paging.MapPage | app.js:189-222 | a body whose `length` is null fails the page (`toLocaleString` throws); a positive count with an array body yields all its records; a positive count with any other body fails the page (`forEach` throws); otherwise the page resolves with no records; the summary reports count, the requested offset and offset + max, and the correlation id |
| Paging.FetchPage | app.js:168-225 | a page is the mapping of its answered call, or fails with the call's failure |
| Paging.DispatchPages | app.js:290-293 | the loop makes one request per offset `0, max, 2 max, …` up to and including the total, in that order |
| Paging.Pages | app.js:290-293 | one page per request, page k fetched at offset k max under the k-th fresh correlation id |
| Paging.PageCount | app.js:290-293 | no request is made exactly when the total is negative |
| Paging.Offsets | app.js:291 | the number of requests n satisfies (n - 1) max <= total < n max: the last offset is the largest multiple of max not above the total |
| Paging.PageCountExamples | app.js:291 | with pages of 1000: 2500 and 2000 records take three requests, 999 one and 1000 two |
| Paging.PageWindow | app.js:190-198 | when the server echoes the configuration, a done page reports exactly the window it asked for and its own correlation id |
| Paging.EmitPage | app.js:211-214 | a page's records are written once each, in response order, and a page with none writes nothing |
| Paging.Downloaded | app.js:301-304 | the downloaded total is never negative when no page reports a negative count, and is 0 when every page failed |
| Paging.DownloadedAppend | app.js:301-304 | the downloaded total over consecutive runs of pages is the sum of their totals |
| Paging.FailuresAppend | app.js:297-299 | the failures are gathered in dispatch order |
| Paging.Failures | app.js:297-299 | there are never more failures than pages |
| Paging.NoFailuresIffAllDone | app.js:297-299 | no failures are reported exactly when every page was done |
| Paging.FailuresAreFailedPages | app.js:297-299 | every reported failure is a failed page's, and there are as many as failed pages |
| Paging.WrittenPermutation | app.js:212-214 | the records written do not depend on the order the pages settle in, up to interleaving |
| Paging.WrittenInOrderCount | app.js:301-304 | pages settling in dispatch order write as many records as the downloaded total, when every page's count is its record count |
| Paging.WrittenMatchesDownloaded | app.js:265-304 | whatever the settle order, when every page's count is its record count the records written number the downloaded total, so a run is saved exactly when it wrote something |
| Paging.MapPageConsistent | app.js:189-214 | a done page with a non-negative count writes exactly as many records as it counts |
| Paging.FetchPageConsistent | app.js:168-225 | the same for a fetched page |
| Paging.SavedIffWritten | app.js:265-304 | for the dispatched pages, whatever the settle order, the records written number the downloaded total and the run is saved exactly when it wrote something, when no page reports a negative count |
| Paging.RunOf | app.js:295-309 | the run reports failures exactly when some page failed |
| Paging.SettlePages | app.js:212-214 | as the pages settle, the output receives each page's records in settle order, and the stream stays open |
| Paging.GetAllPages | app.js:235-315 | the output holds the records of every page in settle order, the run's total and failures are those of the dispatched pages, and the file survives exactly when the total is not 0; when no page reports a negative count the output holds the downloaded total of records and survives exactly when it holds any |
| Sink.OutputSink.Write | app.js:213 | one more element at the end of the array, nothing else changes |
| Sink.OutputSink.constructor | app.js:248-253 | opening the stream creates the file, with no records yet and the byte-order mark as configured |
| Sink.OutputSink.Finish | app.js:265-280 | ends the output; nothing is saved and the file is deleted exactly when no records were downloaded |
| Cursor.Consult | app.js:360-385 | the cursor is consulted only when the filter is null; a missing file gives no filter, an unparsable one throws, an invalid one or one of another org is deleted with no filter, and a valid file of this org supplies its `updatedSince` |
| Cursor.Record | app.js:405-409 | the cursor written holds exactly this org (omitted when undefined) and the run's start time |
| Cursor.RoundTrip | app.js:360-409 | a cursor written by a run is trusted by the next run of the same org, which filters from that run's start time |
| Cursor.NoOrgNotTrusted | app.js:29-36 | a cursor written without an org id fails the schema and is deleted by the next run |
| Cursor.OtherOrgDeleted | app.js:366-376 | a valid cursor of another org is deleted and the run is not filtered |
| Cursor.ConsultSettles | app.js:360-385 | consulting a second time changes nothing: the filter is set, or the file is gone |
| Driver.CursorStore.Delete | app.js:374 | the cursor file is gone |
| Driver.CursorStore.Save | app.js:409 | the cursor file holds the given object |
| Driver.Filtered | app.js:360-367 | only a null filter is replaced, by what the cursor gave; every other option is unchanged |
| Driver.Paged | app.js:394 | the probe's paging request id joins the query; every other option is unchanged |
| Driver.KeepsPageSize | app.js:394 | the filter and the paging request id leave the page size alone |
| Driver.LoadCursor | app.js:360-385 | consulting the file on disk gives the filter `Consult` gives and leaves the file as `Consult` says, deleting an untrusted one |
| Driver.RunSpec | app.js:323-431 | a run with a null query crashes, and a crashed run leaves the cursor file as it was |
| Driver.Run | app.js:323-431 | the run's report and the cursor file it leaves are those of `RunSpec` |
| Driver.CursorWrittenOnlyAfterCleanRun | app.js:396-423 | the cursor is written, with this org and the start time, exactly after a run that downloaded pages and in which none failed; any other run leaves it as it was or deleted |
| Driver.FinishedRuns | app.js:396 | pages are downloaded exactly when the probe counted a positive number of records |
| Driver.CursorFiltersProbe | app.js:360-367 | a trusted cursor's `updatedSince` is sent with the count probe |
| Logging.Rank | lib/logger.js:137-145 | a name has a rank exactly when it is one of the seven levels, and the rank is its position |
| Logging.LevelOf | lib/logger.js:120 | a level is known exactly when its text is a level name |
| Logging.GetLabel | lib/logger.js:12-18 | a string label is returned as it is; otherwise the object's `label` field; `common` when there is none |
| Logging.Merge | lib/logger.js:83-90 | a given option wins and an undefined one keeps the default |
| Logging.Gather | lib/logger.js:28-48 | the lines gathered for one error are `ErrorItems`: message, code, stack, a leading correlation id for axios errors, and Percipio's error messages |
| Logging.Described | lib/logger.js:30-34 | every error gives its message line, its code line, and a stack line exactly when it has a stack |
| Logging.ErrorLines | lib/logger.js:43-45 | one line per Percipio error message |
| Logging.ErrorFormatter | lib/logger.js:24-77 | the message is replaced by the gathered lines joined with spaces when there is at least one, and left alone otherwise |
| Logging.ErrorItems | lib/logger.js:28-48 | one error adds two lines, one for a stack, one for a correlation id and two plus one per Percipio message |
| Logging.CorrelationIdFirst | lib/logger.js:35-38 | for an axios error with a correlation id, the id line comes first, before every line gathered so far |
| Logging.RewrittenIffError | lib/logger.js:73-75 | the message is rewritten exactly when the info carries an error |
| Logging.Logger.constructor | lib/logger.js:82-121 | options are the defaults overlaid by the caller's, a file transport is added exactly when path and filename are not null, and the current level is the rank of the configured level |
| Logging.LoggerRegistry.constructor | lib/logger.js:80 | no logger exists before the first request for one |
| Logging.Logger.Update | lib/logger.js:147-149 | a known level sets the current rank; any other leaves it unchanged |
| Logging.Logger.Log | lib/logger.js:243-253 | an entry is emitted, and true returned, exactly when the current level admits the message's level; otherwise nothing is emitted |
| Logging.Logger.At | lib/logger.js:158-226 | the level methods log at their level under the resolved label, `common` by default |
| Logging.LoggerRegistry.GetInstance | lib/logger.js:123-128 | the first call creates the logger from its options; every later call returns that same logger |
| Logging.GetInstanceTwice | lib/logger.js:123-128 | two calls give one logger, configured by the first call's options |
| Logging.LevelRanks | lib/logger.js:137-145 | error 0, warn 1, info 2, http 3, verbose 4, debug 5, silly 6 |
| Logging.GateByRank | lib/logger.js:244 | at a known level, a message of a known level passes exactly when its rank is at most the current one |
| Logging.DefaultLevelGate | lib/logger.js:86 | at the default level error, warn and info pass, and http, verbose, debug and silly are suppressed |
| Logging.UnknownLevelSilent | lib/logger.js:120 | with an unknown configured level nothing is logged |

## Left out

- Numbers are integers: floating-point page sizes, offsets and counts are not modelled.
- Real I/O is not modelled. This covers the HTTP adapter and its timing, folder creation, and the bytes of the output file (JSONStream framing, the byte-order mark). It also covers `fs` and `jsonfile`. The output is a sequence of records with a flag for whether the file exists.
- Stream and output errors (`error` events that reject `getAllPages`) are not modelled. `getAllPages` always resolves.
- Concurrency is not modelled. The Bottleneck limiter is a pass-through. `Promise.allSettled` is a settle order given as a parameter: each page's records are written when it settles.
- Log output is not modelled. The winston transports, colourising, timestamps and the `printf` layout are out, and so are the log lines `getPage`, `getRecordCount` and `main` emit. The logger records only what it hands to its transports.
- The timing adapters (lib/timingAdapter.js, lib/adapters/timingAdapter.js) are not part of this model. Neither are the `durationms` and `sent` fields of a page summary.
- retry-axios itself is not part of this model. Backoff timing is left out. `rax.shouldRetryRequest` is a parameter. The attempt counter is assumed to start at 0 and to grow by one per retry. The library's own defaults for unset caps are taken as retry 3 and noResponseRetries 2.
- Transport.Send: assumes retry-axios can read the JSON error's request configuration. The source constructs that error with its arguments in a different order from the polling interceptor's (configuration second, code third). The model records no code for it.
- Request.CallPercipio: the `statusText` and `timings` fields of the cleaned response are not modelled.
- Template.Process: an empty placeholder `{}` renders nothing, as in lodash. Beyond that, lodash evaluates each placeholder as a JavaScript expression inside a `with` over the variables. The model treats the placeholder text as a plain variable name. `{a.b}`, expressions, and names that resolve to globals (such as `{Math}`) are not modelled.
- Paging.Length: a null `length` fails the page, as in the source, where `toLocaleString` throws on it. Any other `length` that is neither a number nor undefined (`"5"`, `true`) is counted as 0. In the source such a value that compares greater than 0 fails the page, since `forEach` is then called on a non-array; otherwise the page resolves with that value as its count.
- Paging.Param: a non-numeric `offset` or `max` in the echoed parameters is taken as 0. In the source a null `offset` makes `toLocaleString` throw and fails the page.
- Paging.GetAllPages, Driver.Run: require a positive numeric page size. With a page size of 0 or null the source's loop never ends. With an undefined one it makes a single request. With a string one the offsets are built by string concatenation.
- Logging.LevelOf: level keys inherited by plain objects (`toString`, `constructor`) are treated as unknown levels.
- Logging.Gather: an axios error without a request configuration (whose `config.correlationid` access would throw) is not modelled.
- Polling.Handle: `localeCompare` with accent sensitivity is modelled as an ASCII letter-case comparison. Accented and other non-ASCII letters are not folded.
- The null-options check in `main` (app.js:331-334) is unreachable because `options.logger` is assigned first. It is not modelled.
- `createInstance` and `getRecordCount` work on deep copies. The model's values are immutable, so the caller's options are never changed.
- Paging.SavedIffWritten, Paging.GetAllPages: the link between records written and the downloaded total assumes that no page reports a negative count. Only an object body with a negative numeric `length` reports one.
- Transport.Send, Transport.SendAsWritten: a retry is modelled as re-entering the same client, with both interceptors. `createInstance` does not set `raxConfig.instance`, so retry-axios may re-issue a retry through the default axios instance instead.
- The polling interceptor is modelled on its own because no client attaches it (see Transport.InProgressNotDetected).
- The configuration files are data only. Of them, the model uses the retry settings, the page size of 1000 and the catalog URI template.

## Findings

| source | as written | input that shows it | evidently intended | confidence | as-written member | corrected member |
|---|---|---|---|---|---|---|
| lib/axios-helpers.js:96-100 | retry-axios is attached before the JSON interceptor, and axios runs response interceptors in registration order. So a response with a non-JSON body has already passed the retry handler when the JSON interceptor rejects it, and the "always retry if response was not JSON" branch of `shouldRetry` (lines 65-75) is never reached | any request whose first response is a 200 with body `"<html>…"`, under the shipped retry settings: one attempt, then the "Request did not return JSON" error | the non-JSON rejection is seen by the retry handler and retried until the cap: five attempts under the shipped settings | medium, not executed | Transport.NotJsonNeverRetriedAsWritten | Transport.NotJsonRetriedToCap |
