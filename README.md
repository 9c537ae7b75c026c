# Ad-network callback, reporting and eCPM handlers — a Dafny model

This project models the three request handlers of an ad-mediation backend.

- **Reward callback** (`handlers/ironsource.ts`). ironSource calls this after a user earns a reward. The handler runs these steps in order:
  1. It looks up the client named by `custom_clientId`.
  2. It checks the MD5 signature over `timestamp‖eventId‖userId‖rewards‖privateKey`.
  3. It checks the event ledger for the key `(clientId, eventId)`.
  4. It writes the event to the ledger.
  5. It forwards the event to the client's callback URL with a `success=true|false` flag.

  Whatever happens, it answers `200 "<eventId>:OK"`.
- **Daily revenue report** (`handlers/reporting.ts`). The job computes yesterday's date. It fetches one bearer token, then one report per ad network. It loads the spreadsheet's sheets by title. For each network it appends a row `{Date, <appKey>: revenue sum, …}` to that network's sheet.
- **eCPM lookup** (`handlers/eCPM.ts`). A read-only chain of three checks: the client exists, its secret matches, and a record exists. Each failure has its own fixed 400 body. Success answers 200 with the record's eCPM.

Files and modules:

- `common.dfy` (`Common`) holds the shared parts: `Option`, the Lambda response, the client record, and the client lookup. The source has two identical copies of the client lookup; the model has one.
- `ironsource.dfy` (`IronSource`) holds `Dispatch`, the pure specification of one callback. Its contract gives:
  - the exit each call takes;
  - the new ledger and the ledger lookups;
  - the forwards and log lines the call emits.

  Lemmas cover idempotence over two calls and how the success flag is encoded. The class `CallbackHandler` holds:
  - the client table;
  - the private key;
  - the MD5 function;
  - the mutable event ledger and the log of its lookups;
  - the logs of forwarded URLs and console lines.

  Its method `IronsourceCallback` is the step-by-step pipeline. It is proved to produce exactly what `Dispatch` says.
- `calendar.dfy` (`Calendar`) holds Gregorian dates. `PreviousDay` and `NextDay` are inverse to each other. Dates render as moment's `YYYY-MM-DD`, and a parse round trip is proved.
- `reporting.dfy` (`Reporting`) holds:
  - `parseReport` as a fold (`ParseReport`);
  - the sheet row (`SheetRow`);
  - the spreadsheet as a class `Doc`, which keeps logs of header loads and appended rows;
  - the ad network's API as a class `AdNetworkApi`, which keeps a log of requests;
  - the loops `LoadAllSheets`, `FetchReports` and `WriteRows`;
  - the job `RunReporting`.
- `ecpm.dfy` (`Ecpm`) holds `HandleEcpm`, a function over the two tables. It returns the response, the queries issued, and the lines logged.

External services are abstracted as follows:

- The client and eCPM tables become maps from the queried key to the list of items the query returns. An absent key stands for `Items` coming back undefined.
- The events table becomes a map from `(clientId, eventId)` to the single item stored there. The handler only asks whether a query yields any item, so an absent key stands for both an undefined and an empty `Items`.
- `updateItem` becomes a map update.
- Outbound HTTP requests and `console.log` become append-only logs.
- MD5 and JavaScript's number-to-string conversion are function-valued parameters.
- Environment values (the private key, the ad network's credentials) are parameters.
- "Today" is an input date.

## Model

| member | source | states |
|---|---|---|
| `Common.GetClient` | handlers/ironsource.ts:6-21 | the client is missing exactly when the query yields no `Items` or an empty list; otherwise it is the first item |
| `IronSource.Dispatch` | handlers/ironsource.ts:88-128 | every path answers `200 "<eventId>:OK"`. The four exits are exclusive and taken in order: client missing, then signature mismatch (the MD5 hex of `timestamp‖eventId‖userId‖rewards‖privateKey` differs from the signature), then already in the ledger, then saved. A missing client causes one log line `ERROR: Error: Could not find client with ID: <id>`, no forward and no ledger change. The events table is looked up, once and at the inbound key, only on the duplicate and saving exits; a missing client or a bad signature never reaches it. Every other exit forwards exactly once, with `success=true` only when it saved. The ledger is unchanged unless the event is saved. A save sets only the entry at the inbound `(custom_clientId, eventId)`, to `(rewards, timestamp, userId)`, and that key was absent before |
| `IronSource.ReturnMessage` | handlers/ironsource.ts:83-86 | the acknowledgement has status 200, and its body is the event id followed by `:OK`, so the id can be read back |
| `IronSource.OnlyTheDigestIsAccepted` | handlers/ironsource.ts:65-81 | `CheckSignature` accepts a signature exactly when it equals the MD5 hex of `timestamp‖eventId‖userId‖rewards‖privateKey`; every other signature is refused |
| `IronSource.SignatureIgnoresFieldBoundaries` | handlers/ironsource.ts:72-74 | the signed fields are joined without separators, so two queries whose fields concatenate to the same text and that carry the same signature pass or fail `CheckSignature` together |
| `IronSource.SignatureBoundaryExample` | handlers/ironsource.ts:72-74 | eventId `ev1` with userId `user` and eventId `ev` with userId `1user` are indistinguishable to the check |
| `IronSource.ForwardUrl` | handlers/ironsource.ts:112 | every forwarded URL starts with the client's callback URL (`undefined` when unset) followed by `?eventId=`, and ends in `&success=true` or `&success=false` according to the flag (lines 112, 118 and 126 differ only in that flag) |
| `IronSource.ForwardUrlFlat` | handlers/ironsource.ts:126 | the forwarded URL is the template's left-to-right concatenation of the callback URL and the `eventId`, `rewards`, `timestamp`, `userId` and `success` parameters |
| `IronSource.ForwardFlagReadable` | handlers/ironsource.ts:111-127 | the `success` flag a forward carries can be read back from its URL: the URL ends in `true` exactly when the flag is true |
| `IronSource.SuccessForwardIffSaved` | handlers/ironsource.ts:111-127 | a call emits exactly one success forward when it saves, and none otherwise |
| `IronSource.RepeatedCallIsIdempotent` | handlers/ironsource.ts:116-127 | a second identical call, on the ledger the first left, leaves the ledger unchanged and never saves. It takes the duplicate exit if the first call saved; otherwise it takes the same exit as the first. The two calls together emit at most one success forward |
| `IronSource.ForwardUrlFixture` | __tests__/handlers/ironsource.ts:56-58 | the forwarded URL is the callback URL, `?eventId=…&rewards=…&timestamp=…&userId=…&success=…`, with no escaping |
| `IronSource.DispatchFixture` | __tests__/handlers/ironsource.ts:32-76 | with the fixture's client table and a matching digest, the event is saved under the inbound id `clientId`, not the stored record's `testClient`, and one success forward follows |
| `IronSource.CallbackHandler.SaveEvent` | handlers/ironsource.ts:40-63 | the upsert sets `(rewards, timestamp, userId)` at the key `(clientId, eventId)` and changes no other entry |
| `IronSource.CallbackHandler.IsEventAlreadySent` | handlers/ironsource.ts:23-38 | one query of the events table at `(clientId, eventId)` is recorded, and the answer is true exactly when the table holds an item there |
| `IronSource.CallbackHandler.IronsourceCallback` | handlers/ironsource.ts:88-128 | the pipeline's answer, new ledger, appended event-table lookups, appended forwards and appended log lines are exactly those of `Dispatch` on the ledger before the call |
| `IronSource.DeliverTwice` | handlers/ironsource.ts:116-127 | two deliveries of one event to the handler both answer `<eventId>:OK`. The ledger ends as after the first, and at most one forward reports success |
| `Calendar.FormatDate` | handlers/reporting.ts:69 | the rendering has at least ten characters. For a valid date of any year, the last five are the month and the day as two digits each, each preceded by `-`, and they read back as the month and the day |
| `Calendar.NextDay` | handlers/reporting.ts:69-70 | the day after a valid date is a valid, later date |
| `Calendar.PreviousDay` | handlers/reporting.ts:69-70 | "yesterday" is a valid date before `today`, and the day after it is `today` again |
| `Calendar.PreviousOfNext` | handlers/reporting.ts:69-70 | the previous day of the next day is the date itself |
| `Calendar.PreviousDayIsAdjacent` | handlers/reporting.ts:69-70 | no valid date lies strictly between yesterday and today |
| `Calendar.FormatParseRoundTrip` | handlers/reporting.ts:69-70 | for years 0 to 9999, the `YYYY-MM-DD` rendering parses back to the same date, so different days render differently |
| `Reporting.Revenue` | handlers/reporting.ts:34 | the inner sum of `revenue` over an app's rows is never negative when no row's revenue is negative |
| `Reporting.ParseReport` | handlers/reporting.ts:31-36 | the key set of the result is exactly the set of app keys in the input |
| `Reporting.ParseReportLastWins` | handlers/reporting.ts:33-36 | each app key maps to the revenue sum of the last report carrying it |
| `Reporting.ParseReportAssignsNotAccumulates` | handlers/reporting.ts:34 | for two reports with one app key, the second's sum is kept, and the two sums are not added |
| `Reporting.RevenueConcat` | handlers/reporting.ts:34 | every row contributes: the revenue of a concatenation is the sum of the parts' revenues |
| `Reporting.RevenueReadsOnlyRevenue` | handlers/reporting.ts:34 | the sum depends only on the `revenue` column, whatever `eCPM` or `impressions` hold |
| `Reporting.ParseReportFixture` | __tests__/handlers/reporting.spec.ts:78-97 | the fixture's rows, including the zero-eCPM one, give `appKey ↦ 0.07` |
| `Reporting.SheetRow` | handlers/reporting.ts:87-90 | the row's columns are `Date` plus the app keys. `Date` holds the start date unless an app key named `Date` overrides it, and each app column holds that app's revenue sum |
| `Reporting.ReportDay` | handlers/reporting.ts:69-70 | the report date names yesterday: for four-digit years it parses back to the day before `today` |
| `Reporting.ReportDayFixture` | __tests__/handlers/reporting.spec.ts:77 | a run on 2020-01-01 reports on `2019-12-31`, the date the test's expected report URL carries |
| `Reporting.VisitedCount` | handlers/reporting.ts:14-20 | the loop visits exactly the sheets before the first missing index: all of them exist, and the next one is missing or past the end |
| `Reporting.TitleIndex` | handlers/reporting.ts:24 | the dictionary's keys are exactly the titles of the visited sheets |
| `Reporting.TitleIndexHasEveryTitle` | handlers/reporting.ts:11-29 | every visited sheet's title is in the dictionary |
| `Reporting.TitleIndexPicksLastSheet` | handlers/reporting.ts:24 | a title maps to a visited sheet carrying it, and no later visited sheet carries it, so a later duplicate title wins |
| `Reporting.LoadAllSheets` | handlers/reporting.ts:11-29 | the result is the title dictionary of the sheets before the first missing index. `loadHeaderRow` is called once per visited sheet, in index order |
| `Reporting.Doc.LoadHeaderRow` | handlers/reporting.ts:23 | one header load of the given sheet is recorded |
| `Reporting.Doc.AddRow` | handlers/reporting.ts:91 | one row, on the given sheet, is appended |
| `Reporting.AuthRequest` | handlers/reporting.ts:38-48 | the token request goes to the auth URL; its `secretkey` header holds the secret key, its `refreshToken` header the refresh token, and it carries no `Authorization` header |
| `Reporting.StatsUrl` | handlers/reporting.ts:58 | the report URL is the stats endpoint queried first by `startDate`, and it ends with the `adSource` parameter |
| `Reporting.StatsUrlFlat` | handlers/reporting.ts:58 | the report URL is the template's left-to-right concatenation: endpoint, `?startDate=`, `&endDate=`, `&breakdown=app&ironSource`, `&adSource=` |
| `Reporting.StatsUrlFixture` | __tests__/handlers/reporting.spec.ts:77 | with `2019-12-31` as both dates and the source `ironSource`, the URL is exactly the one the test expects, unescaped |
| `Reporting.StatsRequest` | handlers/reporting.ts:57-65 | a report request goes to the report URL and carries `Authorization: Bearer <token>` and no `secretkey` header |
| `Reporting.AdNetworkApi.GetBearerToken` | handlers/reporting.ts:38-49 | one request to the auth URL with `secretkey` and `refreshToken` headers; the token is the endpoint's reply |
| `Reporting.AdNetworkApi.GetYesterdayReport` | handlers/reporting.ts:51-66 | one request to the stats URL (the start and end dates, `breakdown=app&ironSource`, the ad source) with a `Bearer` header; the reply for that URL is returned |
| `Reporting.StatsRequests` | handlers/reporting.ts:73-77 | there is one report request per network, in the networks' order, each for the single report day |
| `Reporting.StatsReplies` | handlers/reporting.ts:73-77 | the i-th reply is the API's answer to the i-th network's URL |
| `Reporting.AllReplies` | handlers/reporting.ts:73-77 | `Promise.all` succeeds exactly when every call succeeds, and then yields the replies in order |
| `Reporting.RowsWritten` | handlers/reporting.ts:86-92 | at most one row per network |
| `Reporting.RowsWrittenOnePerNetwork` | handlers/reporting.ts:86-92 | when every network has a sheet, there is one row per network, in order. Each row goes to that network's sheet and is `{Date: startDate}` overlaid by the network's parsed report |
| `Reporting.Unwritten` | handlers/reporting.ts:86-92 | the networks returned are exactly the networks without a sheet of that title |
| `Reporting.SheetedIndices` | handlers/reporting.ts:86-91 | the positions of the networks that have a sheet: strictly increasing, every one has a sheet, and no such network is missed |
| `Reporting.RowsWrittenFiltersNetworks` | handlers/reporting.ts:86-91 | the rows are the in-order filter of the networks by "has a sheet": the t-th row is the row of the t-th such network, on its sheet, so the networks without a sheet get no row |
| `Reporting.RowsAndUnwrittenPartitionNetworks` | handlers/reporting.ts:86-92 | the rows and the returned networks together number exactly the networks: each network is either written or returned, never both |
| `Reporting.RowsGoToSheetsTitledByNetwork` | handlers/reporting.ts:84-91 | each appended row lands on a sheet whose title is exactly the network's name |
| `Reporting.FetchReports` | handlers/reporting.ts:72-77 | the report requests issued are exactly `StatsRequests`, and the replies are `StatsReplies` |
| `Reporting.WriteRows` | handlers/reporting.ts:86-92 | the rows appended are exactly `RowsWritten`, and the networks returned are exactly `Unwritten` |
| `Reporting.RunReporting` | handlers/reporting.ts:68-93 | the run requests one token, then one report per entry of `AD_NETWORKS`, for yesterday as both start and end date. A failed call aborts the run before the sheets are touched. Otherwise the sheets' header rows are loaded and each network's row is appended to its sheet |
| `Ecpm.GetEcpm` | handlers/eCPM.ts:26-41 | the record is looked up by `(appKey, date)`: it is missing when the query yields no `Items` or an empty list, else it is the first item |
| `Ecpm.HandleEcpm` | handlers/eCPM.ts:43-86 | the checks run in order: client, then secret, then record. An unknown client gives 400 `{"error":"Incorrect client"}`, one query and one log line. A secret that differs from the stored one gives 400. The comparison is exact, and an absent `secret` parameter matches a client stored without a secret. The answer is `{"error":"Incorrect secret"}` and there is no record query. A missing record gives 400 `{"error":"Could not find record"}`. Otherwise the answer is 200 `{"eCPM":<value>}` |
| `Ecpm.EcpmBody` | handlers/eCPM.ts:84 | the body is `{}` exactly when the record has no `eCPM` attribute; otherwise it is `{"eCPM":` followed by the number's text and `}` |
| `Ecpm.StatusIsOkIffAllChecksPass` | handlers/eCPM.ts:53-85 | the status is 200 or 400, and it is 200 exactly when all three checks pass |
| `Ecpm.EarlyErrorsIgnoreRecords` | handlers/eCPM.ts:53-73 | when the client or the secret check fails, the answer does not depend on the eCPM table |
| `Ecpm.HandleEcpmFixture` | __tests__/handlers/eCPM.spec.ts:32-135 | the fixtures' four outcomes: success, incorrect secret, unknown client, and missing record |
| `Ecpm.SecretlessClientFixture` | handlers/eCPM.ts:66 | the comparison is strict inequality on possibly absent values: a client stored without a secret is served a request without a `secret` parameter and refused one that carries any secret |

## Left out

- `__tests__/handlers/ironsource.spec.ts` imports `handlers/ironsource` but expects a different handler from the one in `handlers/ironsource.ts`. It passes the client id as `appKey` (also the field typed at `constants.d.ts:1-17`), checks the caller's source IP, and expects log lines on the bad-signature, duplicate and wrong-IP paths. The model follows `handlers/ironsource.ts`: it reads `custom_clientId`, has no IP check, logs nothing on those paths, and forwards `success=false` after a bad signature or a duplicate.
- The reporting job's impression-weighted eCPM and its per-(app, date) aggregate upsert with 2-decimal rounding are not modelled. `__tests__/handlers/reporting.spec.ts` expects them, but `handlers/reporting.ts` does not implement them. The model follows the code: the sheet row holds unrounded revenue sums.
- Floating point: revenue and eCPM are `real`, so IEEE rounding of the JavaScript sums is not modelled.
- MD5 is a parameter, so the fixture's digest `9a9232cf…` is not derived, only assumed in `IronSource.DispatchFixture`'s precondition. JavaScript's number-to-string conversion inside `JSON.stringify` is a parameter too.
- Failures of the I/O calls themselves are not modelled. A rejected client query is caught like a missing client: `handlers/ironsource.ts:102-109` logs `ERROR: <error>` with the error's own text and answers 200, and `handlers/eCPM.ts:54-64` answers 400 `Incorrect client`. The model covers only the not-found error and its log text. A rejected events query, `updateItem` or `fetch` in the callback, or a rejected eCPM query, makes the handler reject instead of answering. This includes a `fetch` to the URL `undefined?…` when a client has no callback URL. The model renders that URL and stops there.
- IronSource.RepeatedCallIsIdempotent: the duplicate check and the save use two DynamoDB clients, one for the region in `REGION` (`handlers/ironsource.ts:24`) and one for `AWS_REGION` (`handlers/ironsource.ts:47`). The model has one events table, so it assumes both variables name the same region. If they differ, a second delivery queries a table the first never wrote, saves again and forwards `success=true` a second time. The model also assumes read-after-write consistency: every duplicate check sees every earlier save. The query at `handlers/ironsource.ts:25-31` does not ask for a consistent read, and DynamoDB reads are eventually consistent by default. So a second delivery that arrives before the first save has propagated finds no item, saves again and forwards `success=true` a second time.
- IronSource.DeliverTwice: rests on the same two assumptions as `RepeatedCallIsIdempotent`: one region, and a duplicate check that sees every earlier save.
- `node-fetch`'s URL normalisation (`http://someurl.com?…` sent as `http://someurl.com/?…`) is not modelled.
- JavaScript objects used as dictionaries are modelled as maps. They differ at the key `__proto__`. In `parseReport` (`handlers/reporting.ts:34`), a report whose app key is `__proto__` goes to the inherited setter, which ignores a number, so no key is added and the row built at lines 87-90 lacks that column. The model's `ParseReport` and `SheetRow` give it a key. In `loadAllSheets` (`handlers/reporting.ts:24`), a sheet titled `__proto__` replaces the dictionary's prototype instead of adding an entry. The model's `TitleIndex` and `LoadAllSheets` give that title a key.
- Concurrency: `Promise.all` over the report fetches and the `async` `forEach` over the networks are sequential loops.
- Reporting.WriteRows: when a network has no sheet, the source's callback throws into an unhandled promise rejection and the other networks carry on. The model skips that network and reports it in `Completed(unwritten)`. It says nothing about the rejection surfacing later.
- Time: the two clock reads for the start and end dates are taken as one `today`, and moment's time zones are not modelled.
- The Google Sheets session is not modelled: the spreadsheet client's construction, `JSON.parse` of the credentials, `useServiceAccountAuth` and `loadInfo` are I/O with no effect the model records. Sheets are identified by their index in the document.
- `process.env` values are plain string parameters. An unset private key, which the source would render as `undefined`, is not modelled.
