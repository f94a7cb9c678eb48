# Connect Utah Today: events backend and image worker, modelled in Dafny

This project models the two pieces of logic in the Connect Utah Today site.

The first is the Express backend in `public/server.js`. It proxies two event sources:
- Mobilize: it converts the `timeMin`/`timeMax` window to epoch seconds, builds the query URL, and maps each event from its first timeslot.
- Google Calendar: it builds the query URL with `encodeURIComponent` and maps each item.

Both sources are flattened to one event record. The `/api/all-events` endpoint:
- joins the two sub-requests fail-fast, as `Promise.all` does;
- concatenates Mobilize then Google events;
- sorts the result stably by date, treating a missing date as `1970-01-01`.

The backend also models two smaller rules:
- the current-month default window of `/api/calendar`;
- the required-field checks of the three CRUD routes.

The second is the Cloudflare worker in `r2-worker/src/index.js`. It fronts an R2 bucket:
- it answers CORS preflights;
- it serves `GET /<key>` from the bucket, with a content-type fallback;
- on `POST /upload` it stores the first File of the form under `<timestamp>-<name>` and returns its public URL.

Modules:
- `Wrappers`: `Option` and a sequence helper.
- `Text`: decimal text of integers (JavaScript's `${n}`) and its parser.
- `Uri`: `encodeURIComponent` (UTF-8, then percent-escapes) and the matching percent-decoder.
- `Events`: the raw Mobilize and Google shapes, the flat event, the two mappers, and the two per-source endpoints as functions of the upstream reply.
- `EventSort`: the date key with its 1970 sentinel, the stable order it specifies (`SortByDate`, a functional insertion sort), and the in-place array sort `SortInPlace`.
- `AllEvents`: how a sub-request settles, the fail-fast join, and the method that concatenates into an array and sorts it.
- `QueryUrls`: the Mobilize and Google URL builders, written as step-wise appends like the source. Each has a parser that recovers what was requested.
- `MonthWindow`: JavaScript's `new Date(y, m, d, h, mi, s)` field normalisation over local calendar time, and the default window.
- `CrudRoutes`: the validation of `GET/POST /api/opportunities` and `POST /api/organizations`. The database is a function parameter.
- `Worker`: the request dispatch `Handle` as a function of the bucket contents. The `Bucket` class holds the objects map. `Fetch` runs one request against a `Bucket`, and the first-File scan is a loop.

Four behaviours of the code are worth stating plainly, and the model keeps them:
- The aggregate fails as a whole when either source fails; it does not return the other source's events.
- A Mobilize event yields one record from its first timeslot. Later timeslots are not expanded.
- There is no sponsor allow-list.
- A missing Google API key makes `/api/google-calendar` answer 500. Through the fail-fast join, the whole aggregate then fails: it does not degrade to an empty Google list (`AllEvents.GoogleKeyMissingFailsAll`).

## Model

| member | source | states |
|---|---|---|
| Events.FirstTimeslot | public/server.js:125 | the first element of `timeslots` when there is one, otherwise the empty timeslot |
| Events.IsoFromSeconds | public/server.js:130-131 | absent or zero seconds give null; nonzero seconds whose `seconds*1000` ms lie in the Date range give exactly that instant, and any others give a RangeError |
| Events.NormalizeMobilize | public/server.js:123-137 | mapping succeeds iff both timeslot instants format; id, title, description, image, sponsor name, URL and event type are copied, and the source is `mobilize` |
| Events.NormalizeAllMobilize | public/server.js:123-138 | succeeds iff every event maps; then one record per event, in upstream order |
| Events.OnlyFirstTimeslotCounts | public/server.js:125 | timeslots after the first never change the record |
| Events.PreferDateTime | public/server.js:175-176 | `dateTime` is preferred over `date`; a missing time object gives no date |
| Events.NormalizeGoogle | public/server.js:171-182 | the id is copied as text, and summary and link are copied; a missing description becomes `''`; image is null, org is `Connect Utah Today`, type is `community`, source is `google` |
| Events.NormalizeAllGoogle | public/server.js:171-182 | one record per item, in order |
| Events.MobilizeEventsReply | public/server.js:119-144 | an upstream failure gives 500 with `Failed to fetch Mobilize events` and its message; a missing `data` gives no items; a mapping RangeError gives 500 `Invalid time value`; otherwise one mobilize record per event |
| Events.GoogleCalendarReply | public/server.js:156-188 | a missing or empty key gives 500 `Google Calendar API key not configured`, with no details; an upstream failure gives 500 with details; otherwise 200 with exactly `NormalizeAllGoogle` of the items (none when `items` is missing) |
| EventSort.DateKey | public/server.js:219-220 | a missing date sorts as the 1970 epoch; a present date sorts by its instant, which lies within the Date range |
| EventSort.SortByDateSorted | public/server.js:218-222 | the stable order is non-decreasing by date key |
| EventSort.SortByDatePermutation | public/server.js:218-222 | the stable order is a permutation of its input |
| EventSort.SortByDateStable | public/server.js:218-222 | events with equal date keys keep their input order |
| EventSort.SortedStableUnique | public/server.js:218-222 | two sorted sequences that agree on the order within every date key are equal |
| EventSort.StableSortIsSortByDate | public/server.js:218-222 | any sorted output that keeps the tie order equals `SortByDate`, so every stable sort agrees with the model |
| EventSort.InsertPermutation | public/server.js:218-222 | one insertion step adds exactly the inserted event |
| EventSort.InsertSorted | public/server.js:218-222 | one insertion step keeps the sequence sorted |
| EventSort.InsertWithDate | public/server.js:218-222 | the inserted event goes after every event with the same date |
| EventSort.InsertInPlace | public/server.js:218-222 | the array prefix becomes the insertion of `a[i]`, and the suffix is unchanged |
| EventSort.SortInPlace | public/server.js:218-222 | the array afterwards is `SortByDate` of its old contents |
| AllEvents.Settle | public/server.js:200-205 | a 200 reply resolves with its items; a 500 reply rejects with axios's status message |
| AllEvents.Received | public/server.js:209-214 | a resolved reply without `items` contributes nothing |
| AllEvents.FirstRejection | public/server.js:200-205 | there is no rejection iff both resolved; the message is one of the rejected replies' messages, or the only one's |
| AllEvents.AllEventsOf | public/server.js:200-227 | the reply is combined iff both sub-requests resolved, and then holds as many items as both together; otherwise 500 `Failed to fetch combined events` with the first rejection's message |
| AllEvents.AllEvents | public/server.js:200-227 | the reply is combined iff both sub-requests resolved; otherwise 500 `Failed to fetch combined events` with the first rejection's message |
| AllEvents.FailFast | public/server.js:200-227 | one rejection fails the whole reply, with that rejection's message |
| AllEvents.CombinedIsPermutation | public/server.js:207-215 | the combined items are a permutation of the Mobilize items plus the Google items |
| AllEvents.CombinedIsSorted | public/server.js:218-222 | the combined items are sorted by date key |
| AllEvents.CombinedTiesKeepOrder | public/server.js:207-222 | among equal dates, Mobilize items come first, each source in its own order |
| AllEvents.CombinedIsTheStableSort | public/server.js:207-222 | the combined items are the only sorted arrangement that keeps the tie order |
| AllEvents.ServerErrorMessage | public/server.js:200-205 | a 500 sub-reply rejects with `Request failed with status code 500` |
| AllEvents.GoogleKeyMissingFailsAll | public/server.js:158-227 | without a Google key the aggregate always fails |
| AllEvents.PipelineKeepsEveryEvent | public/server.js:123-222 | with a key and successful mapping, the aggregate holds exactly the mapped Mobilize events and mapped Google items (multiset equality) |
| QueryUrls.EpochSeconds | public/server.js:107-108 | an absent bound is undefined; a valid instant gives `floor(ms/1000)`; an Invalid Date gives NaN |
| QueryUrls.RequestedFilters | public/server.js:114-115 | the `gte_` clause appears iff `start` is truthy, the `lt_` clause iff `end` is truthy, `gte_` first |
| QueryUrls.MobilizeUrl | public/server.js:113-115 | the URL is the Mobilize base followed by the `ClauseText` of the requested filters, in order; its query parses back to exactly those filters |
| QueryUrls.QueryRoundTrip | public/server.js:114-115 | parsing the concatenated `ClauseText` of any filter list gives that list back |
| QueryUrls.ClauseBodyRoundTrip | public/server.js:114-115 | one clause parses back to its filter |
| QueryUrls.EpochSecondZeroDropped | public/server.js:107-115 | a bound in the first second after the epoch is dropped like an absent one |
| QueryUrls.InvalidBoundDropped | public/server.js:107-115 | an unparseable bound is dropped like an absent one |
| QueryUrls.GoogleParams | public/server.js:163-166 | the order is key, optional encoded `timeMin`, optional encoded `timeMax`, then `singleEvents=true` and `orderBy=startTime` |
| QueryUrls.GoogleUrl | public/server.js:163-166 | the URL is the encoded calendar path, then `?` and the `&`-joined parameters; when the key has no `&`, splitting the query gives the parameters back |
| QueryUrls.SplitJoin | public/server.js:163-166 | splitting the join of `&`-free parameters gives them back |
| QueryUrls.GoogleParamsHaveNoAmpersand | public/server.js:163-166 | encoded bounds and fixed parameters contain no `&` |
| Uri.Utf8 | public/server.js:163-165 | one to four bytes, and a single byte exactly for ASCII |
| Uri.EncodeChar | public/server.js:163-165 | each encoded character is unreserved or `%` |
| Uri.EncodeIsUriSafe | public/server.js:163-165 | `EncodeUriComponent` output consists of unreserved characters and `%` escapes |
| Uri.EncodeRoundTrip | public/server.js:163-165 | percent-decoding `EncodeUriComponent` of a text gives the UTF-8 bytes of the text |
| Uri.EncodeAppend | public/server.js:163-165 | the encoding of a concatenation is the concatenation of the encodings |
| Uri.EncodeUnreservedUnchanged | public/server.js:163-165 | text of unreserved characters encodes to itself |
| Uri.HexRoundTrip | public/server.js:163-165 | each hex digit of an escape decodes to its value |
| Text.IntText | public/server.js:114-115 | the decimal text is non-empty, made of digits with at most a leading `-` |
| Text.IntTextRoundTrip | public/server.js:114-115 | parsing the decimal text of an integer gives it back |
| Text.NatText | r2-worker/src/index.js:81-82 | the text of `Date.now()` in a key is a non-empty run of digits without a leading zero |
| Text.NatTextInjective | r2-worker/src/index.js:81-82 | distinct timestamps have distinct decimal texts |
| MonthWindow.DaysInMonth | public/server.js:243 | months have 28 to 31 days, and February has 29 iff the year is a leap year |
| MonthWindow.NormalizeMonth | public/server.js:242-243 | an out-of-range month index carries into the year |
| MonthWindow.NormalizeDay | public/server.js:243 | day 0 and other overflows land on a real date; an in-range day is kept |
| MonthWindow.MakeLocal | public/server.js:242-243 | the constructor's fields normalise to a real local time; a month from 0 to 11 and any day that exists in it are kept, and a year from 0 to 99 is read as 1900 plus it |
| MonthWindow.CalendarWindow | public/server.js:239-246 | both bounds pass through when both are present; otherwise both are computed |
| MonthWindow.MonthOf | public/server.js:241-243 | the start is day 1 of the current month at 00:00:00 and the end its last day at 23:59:59, December included; a clock year from 0 to 99 gives that month of 1900 plus the year |
| MonthWindow.WindowIsTheMonth | public/server.js:242-243 | a valid time lies within the window iff it is in the window's month |
| MonthWindow.MissingBoundReplacesBoth | public/server.js:240-246 | one missing bound replaces both with the month window |
| CrudRoutes.GetOpportunities | public/server.js:63-78 | it gives 400 iff `organization_id` is falsy, and then no query runs; otherwise one select with the rows' opportunities, or 500 on a database error |
| CrudRoutes.PostOpportunity | public/server.js:81-96 | it gives 400 iff either field is falsy, and then no query runs; otherwise one insert and `success: true`, or 500 |
| CrudRoutes.PostOrganization | public/server.js:273-288 | it gives 400 iff `name` is falsy, and then no query runs; otherwise one insert and the returned id, or 500 |
| CrudRoutes.ValidationComesFirst | public/server.js:63-288 | a rejected request gives the same reply whatever the database does |
| Worker.RouteOf | r2-worker/src/index.js:12-102 | OPTIONS is a preflight, GET off `/upload` is a download, POST to `/upload` is an upload, and anything else is not found |
| Worker.KeyOf | r2-worker/src/index.js:20 | the key is the path with its first character removed |
| Worker.ContentTypeOf | r2-worker/src/index.js:41 | a stored non-empty type is kept, otherwise `application/octet-stream` |
| Worker.DownloadReply | r2-worker/src/index.js:21-47 | an empty key gives 400, a missing binding 500, an absent key 404; 200 iff the key is stored, with its body and content type |
| Worker.FirstFileIndex | r2-worker/src/index.js:64-71 | none iff no entry is a File; otherwise a File entry with none before it |
| Worker.FirstFile | r2-worker/src/index.js:64-71 | the loop returns the first File entry and its field name, or nothing iff there is none |
| Worker.Handle | r2-worker/src/index.js:8-103 | the bucket changes only on a successful upload |
| Worker.Bucket.Get | r2-worker/src/index.js:33 | an object is found iff its key is stored, and it is the stored object |
| Worker.Bucket.Put | r2-worker/src/index.js:83-85 | the map gains or overwrites exactly that key |
| Worker.Fetch | r2-worker/src/index.js:8-103 | the response and the new bucket contents are those of `Handle`; a missing binding touches nothing |
| Worker.PreflightTouchesNothing | r2-worker/src/index.js:12-14 | OPTIONS gives 204 with the CORS headers and leaves the bucket as it was |
| Worker.EmptyKeyRejected | r2-worker/src/index.js:21-24 | `GET /` gives 400 `Missing key` and leaves the bucket as it was |
| Worker.OtherRoutesNotFound | r2-worker/src/index.js:17-102 | GET `/upload`, POST elsewhere and other methods give 404 untouched |
| Worker.NoFileNoWrite | r2-worker/src/index.js:73-78 | a form without a File gives 400 and the bucket is unchanged |
| Worker.UploadWritesOneKey | r2-worker/src/index.js:80-91 | an upload adds exactly the key `<timestamp>-<name>` with the file's bytes and type, and replies 200 with the image URL |
| Worker.UploadKeyIsNotUploadPath | r2-worker/src/index.js:20-82 | the path of an `UploadKey` is never `/upload` and the key is never empty, so it is served by GET |
| Worker.ImageUrlPath | r2-worker/src/index.js:20-88 | `ImageUrl` is the origin plus `/key`, and the key extracted from that path is the key |
| Worker.UploadThenDownload | r2-worker/src/index.js:20-88 | after an upload, a GET of the returned path serves the uploaded bytes with the file's type |
| Worker.UploadKeyInjective | r2-worker/src/index.js:82 | `UploadKey` determines its timestamp and file name: different ones give different keys |

## Left out

- Express, cors and dotenv wiring, `app.listen`, static files, the 404 middleware and the `console.log`/`console.error` logging of `public/server.js` are left out: they are framework plumbing and output.
- PostgreSQL, the pool and bcrypt are left out: they are foreign calls. This covers `/api/org-signin` and `GET /api/organizations`; the CRUD routes receive the database as a function from statement to reply.
- Real HTTP calls to Mobilize, Google and the backend itself are left out. Each sub-request is an input, either fetched or failed.
- The concurrency of `Promise.all` is left out. A boolean parameter says which rejection settles first when both fail.
- Date parsing, ISO text and time zones are left out. A date string is the instant it denotes, or an Invalid Date. `toISOString` keeps the instant, or raises a RangeError beyond ±8.64e15 ms. The month window works on local calendar fields; converting them to UTC text is left out.
- EventSort.SortableEvent: an event whose date is an Invalid Date is excluded by a subset type. This covers unparseable text and text naming an instant beyond ±8.64e15 ms. The `NaN` result of the comparator makes the source's order implementation-defined there.
- `/api/calendar` is modelled only by its default-window rule. Its raw passthrough is left out.
- The top-level `server.js` is left out. Its only logic, the month window, duplicates `public/server.js`.
- QueryUrls.GoogleUrl takes the calendar id as a parameter. The handler's fixed id is not a constant of the model.
- QueryUrls.GoogleUrl: the API key is inserted unencoded, as in the source. The split round trip therefore holds only for keys without `&`.
- Text.IntText: JavaScript prints numbers of magnitude 1e21 or more in exponent form. This is not modelled, because such epoch seconds lie outside the Date range.
- MonthWindow.MakeLocal: the Date range is not modelled. A local time beyond about ±275760 years is an Invalid Date in the source, and its `toISOString()` at public/server.js:244-245 throws outside the `try`; the model computes a calendar time there instead. A real clock never reaches these years.
- The worker's `Date.now()` is a natural-number parameter.
- The worker's R2 streams, `object.body?.length`, logging and failures of R2 `get`/`put` themselves are left out. The GET catch branch (`r2-worker/src/index.js:49-55`) is therefore not modelled.
- Worker.UploadThenDownload: WHATWG URL percent-encoding of the path is left out. The round trip assumes the file name is unchanged by it.
