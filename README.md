# Discord channel export, modelled in Dafny

The repository exports the message history of one Discord channel, page
by page, through either of two backends:

- **Go WebSocket backend** (`apps/backend/main.go`).
  - `handleExport` receives a start message over the WebSocket and checks the credentials. It computes a batch ceiling `(maxMessages + 49) / 50` in 64-bit arithmetic, with 0 meaning 500.
  - It then calls `fetchBatch` once per pass, following the `before` cursor.
  - It streams `log`, `error`, `progress` and `complete` events.
  - At the end it stores the trimmed lines in the `scrapedData` table, under a download id `<channel>-<unix seconds>`.
  - `handleDownload` serves that text back.
  - The upgrader's `CheckOrigin` decides which browser origins may connect.
- **Next.js route** (`apps/web/app/api/discord-export/route.ts`).
  - `POST` runs the same loop with the ceiling `Math.ceil(maxMessages / 50)`.
  - It keeps the untrimmed messages in their exported form, with an avatar URL.
  - It answers 499 on cancellation and classifies errors by the substrings `401`, `404` and `403`.
  - Any other error keeps the partial result as a success.

The model has eight modules in seven files:

| module | file | models |
|---|---|---|
| `Wrappers` | `text.dfy` | `Option` |
| `Seqs` | `text.dfy` | two concatenation facts the loop proofs cite one step at a time |
| `Text` | `text.dfy` | Go's and ECMAScript's whitespace and trimming; substring search; `TrimPrefix`; decimal rendering |
| `Discord` | `discord.dfy` | the upstream API: raw messages, response bodies, responses (HTTP reply or thrown transport error), page requests; the page URL both backends build |
| `GoFetch` | `go_fetch.dfy` | `fetchBatch`: its filtering loop as a method, and the method itself over one response |
| `GoExport` | `go_export.dfy` | `handleExport` as functions of the request, the upstream responses and the clock: the events, the requests and the stored text; the lemmas an observer of the event stream relies on |
| `GoServer` | `go_server.dfy` | the server: `CheckOrigin`; `handleDownload`; the class `Server`, whose field `scrapedData` `HandleExport` updates in place; the batch loop `RunBatches`, proved against `GoExport` |
| `WebRoute` | `web_route.dfy` | the route: the normaliser; the error classifier; the loop `Gather` and the handler `Post`, proved against the tail-recursive specification `Run`; lemmas for every way an export ends |
| `Compare` | `compare.dfy` | where the two backends agree (the ceiling, the messages kept) and where they differ (a zero `maxMessages`, NEL and BOM) |

The upstream is a value, not a network. An export is given, as a total function from the fetch number (0, 1, 2, …) to a `Response`, what each fetch receives. The route is also given:

- whether the client's abort signal has fired when the loop checks it before each fetch;
- whether it fires during the pause after each batch.

An abort while a fetch is in flight is that fetch's own outcome: a thrown `AbortError`.

## Model

| member | source | states |
|---|---|---|
| `Text.TrimEmptyIffBlank` | apps/backend/main.go:422-423 | trimming leaves the empty string exactly when every character is whitespace (both whitespace sets) |
| `Text.TrimPrefix` | apps/backend/main.go:201 | with the prefix present, prefix + result is the path; without it, the path is unchanged |
| `Text.NatToStringRoundTrip` | apps/backend/main.go:249 | reading the decimal rendering of the Unix time back gives the time |
| `Text.NatToStringInjective` | apps/backend/main.go:249 | distinct times render differently |
| `Discord.BatchUrl` | apps/backend/main.go:381-384 | the page URL is the channel's message listing with `limit=50`; `&before=<cursor>` is added exactly when the cursor is non-empty (route.ts lines 17-18 build the same URL) |
| `Discord.BatchUrlDeterminesCursor` | apps/web/app/api/discord-export/route.ts:17-18 | two page URLs for one channel are equal only when their cursors are |
| `GoFetch.CollectLines` | apps/backend/main.go:420-426 | the filtering loop returns `Lines`: each trimmed content, in order, skipping those that trim to empty |
| `GoFetch.LinesAreTrimmed` | apps/backend/main.go:422-424 | every stored line is non-empty and starts and ends with a non-space character |
| `GoFetch.LinesAppend` | apps/backend/main.go:421-426 | normalising two stretches of a page separately and concatenating gives the lines of the whole |
| `GoFetch.FetchBatch` | apps/backend/main.go:380-432 | the request (URL for the cursor, token as Authorization); a transport error, a non-200 status and an undecodable body each give their error; an empty page gives no error and `hasMore = false`; a non-empty page gives its lines, their count and the id of its last raw message, even when every content was filtered out |
| `GoExport.Wrap64` | apps/backend/main.go:266 | Go's 64-bit `int` addition: a sum inside the int64 range is unchanged, a sum that passes the largest int64 once comes back 2^64 lower |
| `GoExport.MaxBatches` | apps/backend/main.go:234-266 | 0 means 500 (ten batches); for 0 < m <= 2^63-50 the ceiling c satisfies 50(c-1) < m <= 50c (round-up division); above that `m + 49` wraps and c < 0; a negative count gives c <= 0, in Go's truncating division |
| `GoExport.Scan` | apps/backend/main.go:268-289 | the number of passes that find a page: every fetch before it delivered, and the one at it (below the ceiling) did not |
| `GoExport.DownloadIdParts` | apps/backend/main.go:249 | the download id is the channel id, a dash and exactly the digits of the time |
| `GoExport.DownloadIdInjective` | apps/backend/main.go:249 | the download id determines both the channel id and the time, even for channel ids with dashes |
| `GoExport.InvalidRequestOnlyErrors` | apps/backend/main.go:240-246 | an empty channel id or token gives exactly one `error` event and no request |
| `GoExport.FetchesWithinCeiling` | apps/backend/main.go:266-268 | the loop processes, and requests, at most as many pages as the ceiling (none for a ceiling below 1) |
| `GoExport.ScanStopsAt` | apps/backend/main.go:275-289 | the loop stops at the first fetch that fails or returns an empty page |
| `GoExport.ScanReachesCeiling` | apps/backend/main.go:268 | when every fetch up to the ceiling delivers, the loop runs to the ceiling |
| `GoExport.AllPagesDelivered` | apps/backend/main.go:266-268 | with every fetch delivering, exactly ceiling requests are made (none for a negative ceiling): 10 for the default, 1 for any `maxMessages` from 1 to 50 |
| `GoExport.OverflowFetchesNothing` | apps/backend/main.go:266-377 | a `maxMessages` above 2^63-50 makes no request, and the stream is the opening logs, then a summary and `complete` reporting zero messages and zero batches |
| `GoExport.RequestsAt` | apps/backend/main.go:292 | the i-th page request carries the cursor of the pages before it |
| `GoExport.FetchesCursor` | apps/backend/main.go:381-384 | the first request has no cursor; each later one has the last raw id of the page before it |
| `GoExport.ExportCursor` | apps/backend/main.go:430 | cursor rule for a whole export: request i > 0 follows a delivered page i-1 and asks for messages before that page's last raw message |
| `GoExport.AppendFacts` | apps/backend/main.go:318-326 | an observer's reading of two stretches of events adds up: consistency, progress count, found sum, streamed text, complete count |
| `GoExport.PassFacts` | apps/backend/main.go:269-336 | one pass's events are consistent, add one set, its line count and its lines' text, and no `complete` |
| `GoExport.PassesFacts` | apps/backend/main.go:268-337 | the passes over all batches are consistent from set 1 and total 0; they carry one set per batch, the running total and exactly the stored text |
| `GoExport.ClosingFacts` | apps/backend/main.go:339-377 | the stop and the closing summary add exactly one `complete` event, reporting the total and the number of sets |
| `GoExport.StreamFacts` | apps/backend/main.go:256-377 | any export stream is consistent, ends with its one `complete` event, and its `progress` events deliver the stored text |
| `GoExport.ExportStream` | apps/backend/main.go:231-378 | a valid export: each `progress` event carries set numbers 1, 2, …, its line count and the running total; the last event is the only `complete`, reporting success, the total and the batches processed (`set - 1`); the streamed text is the stored text |
| `GoExport.FailureStillCompletes` | apps/backend/main.go:275-281 | a failed fetch at pass i+1 is reported as an `error` for that set six events before the end, and the export still ends with `complete` reporting success |
| `GoExport.StreamEnds` | apps/backend/main.go:339-377 | the last five events are exactly the closing summary (completed, total, batches, content length, `complete`), preceded by the last event of the opening, the passes and the stop |
| `GoExport.NoTrailingWait` | apps/backend/main.go:268-336 | the event before the closing summary is never the waiting log, and every waiting log in a valid export is followed at once by a fetching-batch log |
| `GoExport.StopEventsEnd` | apps/backend/main.go:269-289 | the stop's events exist exactly when the loop stopped below the ceiling; they are the fetching log of set k+1, then an `error` exactly when that fetch failed and the no-more-messages log otherwise |
| `GoExport.LastBeforeClosing` | apps/backend/main.go:261-336 | the last event before the summary is the stop's last event when there is a stop; otherwise the last pass's `progress` (no wait follows the pass at the ceiling), or the channel log when no pass ran |
| `GoExport.PassesWaits` | apps/backend/main.go:268-336 | within the passes every waiting log is followed by the next pass's fetching log, and the passes end with a waiting log exactly when the last pass was below the ceiling |
| `GoExport.StreamWaits` | apps/backend/main.go:261-377 | in the whole stream of a valid export, every waiting log except a last one is followed at once by a fetching-batch log |
| `GoServer.CheckOrigin` | apps/backend/main.go:20-42 | an origin is accepted exactly when it is one of the four listed origins or empty |
| `GoServer.DownloadById` | apps/backend/main.go:199-226 | for `/download/<id>`: an empty id gives 400, an id not in the table gives 404, a stored id serves exactly its stored text and channel |
| `GoServer.WriteLines` | apps/backend/main.go:311-316 | the builder's text grows by each line followed by a newline |
| `GoServer.PassStep` | apps/backend/main.go:291-326 | one more page: total, text, events and requests grow by that page's share, and the cursor becomes its last raw id |
| `GoServer.PassUpdate` | apps/backend/main.go:291-328 | the loop's state after n passes, updated by pass n+1, is the state after n+1 passes |
| `GoServer.PassEventsAsSent` | apps/backend/main.go:269-336 | a pass's events are the fetch and save logs and the `progress` event, then the wait only when another batch is allowed |
| `GoServer.Advance` | apps/backend/main.go:291-336 | one delivering pass takes the loop from the state after n passes to the state after n+1 |
| `GoServer.RunBatches` | apps/backend/main.go:268-337 | the loop's pass count, total, text, events and requests are exactly those of the processed pages and of the pass that stopped it, if any |
| `GoServer.StoppedAt` | apps/backend/main.go:275-289 | a failed fetch or an empty page after k delivering passes: k pages processed, and this pass's two events and its request close the loop |
| `GoServer.ReachedCeiling` | apps/backend/main.go:268 | the loop ran to the ceiling: nothing more is sent or requested |
| `GoServer.CeilingRequests` | apps/backend/main.go:268 | an export that ran to the ceiling made exactly the requests of its pages |
| `GoServer.ProcessedState` | apps/backend/main.go:291-326 | after the processed passes, the total, text, events, cursor and requests are those of the processed pages |
| `GoServer.CeilingProcessed` | apps/backend/main.go:268 | passes that ran the set number past the ceiling are all the export processes |
| `GoServer.Server.constructor` | apps/backend/main.go:53 | the download table starts empty |
| `GoServer.Server.HandleExport` | apps/backend/main.go:231-378 | the events and requests are those of `GoExport`; an invalid request stores nothing; a valid one stores its text, the later clock reading and the channel under its download id, replacing what was there and changing no other entry |
| `GoServer.DownloadAfterExport` | apps/backend/main.go:355-362 | after an export, downloading its id serves exactly the text its `progress` events streamed; every other download is unchanged |
| `GoServer.DistinctExportsDistinctIds` | apps/backend/main.go:249 | exports of different channels, or in different seconds, never overwrite each other |
| `WebRoute.AvatarUrlParts` | apps/web/app/api/discord-export/route.ts:86-88 | the avatar URL is the CDN base, the author id, a slash, the hash and `.png`, in that order |
| `WebRoute.AvatarUrlInjective` | apps/web/app/api/discord-export/route.ts:86-88 | for author ids without a slash, the URL determines the author id and the hash |
| `WebRoute.KeepIffNotBlank` | apps/web/app/api/discord-export/route.ts:79 | a message passes the filter exactly when its content is not all whitespace |
| `WebRoute.KeptIndicesExact` | apps/web/app/api/discord-export/route.ts:79 | the kept positions are strictly increasing and are exactly those whose message passes the filter |
| `WebRoute.NormalizeByIndices` | apps/web/app/api/discord-export/route.ts:78-91 | the i-th exported message is the exported form (untrimmed content, id, timestamp, author, avatar URL or null) of the message at the i-th kept position |
| `WebRoute.NormalizeAppend` | apps/web/app/api/discord-export/route.ts:93 | normalising pages one by one and pushing the results gives the normalisation of their concatenation |
| `WebRoute.Resolve` | apps/web/app/api/discord-export/route.ts:40-41 | the resolved credential is empty exactly when both the given one and the fallback are |
| `WebRoute.MaxBatches` | apps/web/app/api/discord-export/route.ts:56 | the ceiling c satisfies 50(c-1) < m <= 50c, which is Math.ceil(m / 50) |
| `WebRoute.DefaultCeiling` | apps/web/app/api/discord-export/route.ts:37 | an absent maxMessages gives ten batches |
| `WebRoute.FetchException` | apps/web/app/api/discord-export/route.ts:20-32 | fetchDiscordBatch throws nothing exactly for a 2xx reply whose body decodes |
| `WebRoute.ErrorFor` | apps/web/app/api/discord-export/route.ts:115-149 | the catch block returns an error reply (without details) for every verdict except keep-partial, for which it breaks |
| `WebRoute.DigitsThenText` | apps/web/app/api/discord-export/route.ts:126 | a three-digit code occurs in three digits and digit-free text exactly when it is those digits |
| `WebRoute.ClassifyHttpStatus` | apps/web/app/api/discord-export/route.ts:126-149 | for a three-digit non-2xx status with a digit-free reason phrase, the verdict is by status: 401, 404, 403, and keep-partial for every other status |
| `WebRoute.StatusCodesInMessage` | apps/web/app/api/discord-export/route.ts:29 | 401, 404 and 403 occur in the thrown message exactly when they are the status |
| `WebRoute.ContainsAfterPrefix` | apps/web/app/api/discord-export/route.ts:29 | the digit-free message prefix adds no occurrence of a status code |
| `WebRoute.Post` | apps/web/app/api/discord-export/route.ts:35-172 | the handler's reply and page requests are those of `PostOutcome` |
| `WebRoute.PassOn` | apps/web/app/api/discord-export/route.ts:93-112 | a delivered page without an abort in the pause continues the loop from the next count, with the page's last raw id as cursor |
| `WebRoute.Gather` | apps/web/app/api/discord-export/route.ts:53-161 | the loop's reply and page requests are those of `Run` from count 0, no cursor and no messages |
| `WebRoute.RequestChecks` | apps/web/app/api/discord-export/route.ts:36-48 | an unparsable body gives 500 with the parser's message; missing credentials give 400 whatever the action; a wrong action gives 400 "Invalid action"; none of these fetches |
| `WebRoute.RunShape` | apps/web/app/api/discord-export/route.ts:58-161 | from any point of the loop: at most one request per remaining batch; a success keeps every message gathered so far, counts them exactly, names the channel, and reports a batch count no larger than the requests made or the ceiling; an error is 499, 401, 404 or 403 |
| `WebRoute.PostBounds` | apps/web/app/api/discord-export/route.ts:58-161 | the handler sends no more requests than the ceiling; a success came through the export path, counts its messages exactly, reports no more batches than requests, and names the resolved channel |
| `WebRoute.NoBatches` | apps/web/app/api/discord-export/route.ts:56-58 | a ceiling of zero or less fetches nothing and succeeds with no messages |
| `WebRoute.RequestCursors` | apps/web/app/api/discord-export/route.ts:94 | one request per pass; each carries the last raw id of the page before it, and the first carries the starting cursor |
| `WebRoute.DeliveredPass` | apps/web/app/api/discord-export/route.ts:71-112 | a delivering pass appends its normalised page, moves the cursor to its last raw id and sends one request |
| `WebRoute.RunOfDelivered` | apps/web/app/api/discord-export/route.ts:93-95 | one more delivered page: its messages are appended, its last id is the cursor, and its request is appended |
| `WebRoute.FastForward` | apps/web/app/api/discord-export/route.ts:58-112 | consecutive delivering passes bring the loop to the count after them, with their pages gathered and their requests sent |
| `WebRoute.ExportCompletes` | apps/web/app/api/discord-export/route.ts:155-161 | when every pass up to the ceiling delivers, the reply holds all their normalised messages in order, counts them, reports the ceiling as `batchesFetched` and names the channel |
| `WebRoute.AfterDelivered` | apps/web/app/api/discord-export/route.ts:58-112 | the handler after k delivering passes is the loop from there, with their messages gathered and requests sent |
| `WebRoute.ExportCancelled` | apps/web/app/api/discord-export/route.ts:61-66 | an abort seen before a fetch gives 499 with no messages, and no further request |
| `WebRoute.ExportCancelledInPause` | apps/web/app/api/discord-export/route.ts:100-121 | an abort during the pause gives 499 with no messages, and no further request |
| `WebRoute.ExportEmptyPage` | apps/web/app/api/discord-export/route.ts:73-76 | an empty page after k delivering passes ends in success with their messages and `batchesFetched = k` |
| `WebRoute.ExportFetchFails` | apps/web/app/api/discord-export/route.ts:113-149 | a failed fetch: the verdict's error reply, or, for keep-partial, success with the messages gathered so far and `batchesFetched = k` |
| `WebRoute.ExportHttpError` | apps/web/app/api/discord-export/route.ts:126-149 | an HTTP error status: 401, 404 and 403 get their replies; any other status (a 429, a 500) keeps the partial result as a success |
| `WebRoute.ExportAbortedFetch` | apps/web/app/api/discord-export/route.ts:115-121 | a fetch cut short by the abort (an AbortError) gives 499 |
| `Compare.SameCeiling` | apps/backend/main.go:266 | for 0 < maxMessages <= 2^63-50 both backends have the same ceiling (route.ts line 56) |
| `Compare.OverflowCeilingDiffers` | apps/backend/main.go:266 | above 2^63-50 the Go ceiling is negative while the route's (route.ts line 56) is positive |
| `Compare.ZeroCeilingDiffers` | apps/backend/main.go:236-238 | a maxMessages of 0 gives ten batches to the Go backend and none to the route |
| `Compare.SkipSpaceAgrees` | apps/backend/main.go:422 | without NEL or BOM, Go's and ECMAScript's leading-whitespace skips agree |
| `Compare.SkipSpaceBackAgrees` | apps/backend/main.go:422 | without NEL or BOM, the trailing-whitespace skips agree |
| `Compare.TrimAgrees` | apps/backend/main.go:422 | without NEL or BOM, `strings.TrimSpace` and `String.prototype.trim` agree |
| `Compare.SameMessagesKept` | apps/backend/main.go:420-426 | on contents without NEL or BOM, the Go lines of a page are the route's kept contents, trimmed, in the same order |
| `Compare.NelDiffers` | apps/backend/main.go:422 | a lone NEL is blank to Go and kept by the route |
| `Compare.BomDiffers` | apps/web/app/api/discord-export/route.ts:79 | a lone BOM is a line to Go and dropped by the route |

## Left out

- `GoFetch.FetchBatch`: a non-200 failure keeps the status but not the response body that the Go error message quotes, because the body text is never inspected afterwards.
- Byte lengths: `ContentReady` records the length of the stored text in characters, where Go's `len` counts UTF-8 bytes. Strings are sequences of characters, and the length only appears in a log line.
- The download filename (channel id and the date of the stored timestamp), the response headers and the KB figure in the logs. These are date formatting and floating point; the served content and channel id are modelled.
- Time. The clock reading that names the download (`now`) and the later one stored with it (`storedAt`) are parameters of `HandleExport`. The 1.5 s and 1 s sleeps are not modelled; only the waiting log is, and in the route the pause's abort.
- Concurrency: `go handleExport` per start message, the WebSocket read loop, and `dataMutex`. The model treats one export at a time, with `scrapedData` a field updated in sequence.
- The WebSocket upgrade, `ReadJSON`/`WriteJSON` and their errors; write failures are ignored by the code. Also the `connected` greeting, `main`, `corsMiddleware`, the route's `GET`, and all `log.Printf` and `console.log` output.
- `handleWebSocket`'s dispatch: only a start message whose action is "export" reaches `handleExport`, so `HandleExport` does not look at the action.
- A URL that `http.NewRequest` cannot parse: its error comes back from `fetchBatch` like a transport error, and the upstream function can yield one (a `NetworkError`) at any fetch.
- Environment variables. The route's `CHANNEL_ID`/`DISCORD_TOKEN` fallbacks are the parameters `envChannelId`/`envToken`; `PORT`, `DOMAIN` and `WEBSITE_URL` only configure the listener and CORS.
- JSON beyond the modelled shapes:
  - a body that decodes to something other than an array;
  - a null `author` (the route would throw a TypeError in its map);
  - non-string fields;
  - a non-integer or string `maxMessages` in the route, whose division is then floating point;
  - a `maxMessages` outside the int64 range, which Go's JSON decoder rejects before `handleExport` runs (the field has type `GoExport.Int64`).
  - An absent or null content and an absent or null avatar are both "". A JSON `null` maxMessages behaves as 0 in `Math.ceil(null / 50)`: it is `Some(0)` here.
- The `Content-Type` request header of the route: constant, so it carries no information.
- `WebRoute.MaxBatches`: computes `Math.ceil(maxMessages / 50)` on exact integers. JavaScript divides in double precision, which can round for counts beyond 2^53; such counts are not modelled.
- `WebRoute.ExportHttpError`: the outcome by status is stated only for three-digit statuses whose reason phrase has no digits. For any other message, `WebRoute.ExportFetchFails` states the substring verdict.

## Behaviour of the code

Facts about the code that a reader of the model might not expect:

- For `maxMessages = 50` both backends compute a ceiling of 1 and fetch once, even when that page holds 50 messages and more exist (`GoExport.AllPagesDelivered`, `Compare.SameCeiling`).
- A `maxMessages` above 2^63-50 overflows `maxMessages + 49` in Go's 64-bit `int`. The ceiling is then negative, no request is made, and `complete` reports zero batches (`GoExport.OverflowFetchesNothing`, `Compare.OverflowCeilingDiffers`).
- On cancellation the route answers 499 with only an error message: the messages gathered so far are dropped (`WebRoute.ExportCancelled`, `WebRoute.ExportCancelledInPause`, `WebRoute.ExportAbortedFetch`). The Go backend has no cancellation.
- The Go backend ignores a failed write to the WebSocket and carries on, so the model's event stream is what the backend tries to send.
- After a failed fetch the Go backend sends the `error` event, then still stores the text and sends `complete` with success (`GoExport.FailureStillCompletes`).
