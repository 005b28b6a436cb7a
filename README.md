# Veo3 video generator: a Dafny model

Veo3 is a browser front end for a generative video service, in two versions.
The `src/` version reaches the service only through three serverless
handlers. The root version calls the video SDK from the browser and
downloads the finished videos itself. In both, the user writes a prompt
(optionally with an image) and picks a quality. The front end starts a
generation job and polls the job's *operation* until it is done. It then
checks the finished operation and shows the resulting videos in a grid of
players.

This project models that core as Dafny:

- **Error normalisers** (`ProxyClient.GetErrorMessage`,
  `DirectClient.GetErrorMessage`): the two `getErrorMessage` functions,
  over a model of JavaScript's dynamic values (`JsValues`).
- **Data-URL split** (`DataUrl`): the string split that `fileToBase64`
  applies to the data URL of the image (RFC 2397).
- **The `src/` service** (`ProxyClient`):
  - the start request, and the `while (!operation.done)` loop as a method
    proved against the function `PollFrom`;
  - the checks on the finished operation, and the proxied URLs;
  - the proxied URLs use a real `encodeURIComponent`, the UTF-8
    percent-encoding of section 2.1 of RFC 3986 (`UriEncoding`), proved to
    decode back.
- **The root service** (`DirectClient`): the SDK parameters, the
  `pollOperation` loop, the checks, and the per-video downloads with their
  filter.
- **The three serverless handlers**: `StartGeneration`, `CheckStatus`, and
  `FetchVideo`, which includes its chunk-pump loop. They write to a mutable
  response object, `Http.ServerResponse`.
- **The two app controllers**: `SrcApp` replaces the video list on each
  request and `RootApp` prepends to it. Both are classes whose methods are
  proved against state functions. The loading-message rotation they share is
  in `AppCommon`.
- **The UI rules**:
  - `VideoGrid`: `formatDuration`, the download file name, the grid, and the
    player's play/volume/mute/ended handlers as a class;
  - `PromptForm`: the counter colours, `maxLength`, which controls a request
    disables, and the image picker as a class;
  - `Header`: the hour-of-day gradient and its default.

The network, the SDK, `JSON.parse` and the file read are parameters. A
`fetch` or an SDK call becomes the reply it gave. A loop that polls runs
against a finite script of replies, and running out of script is an
explicit outcome (`Exhausted`/`Polling`); no timeout is invented. The
progress messages a service shows come back as the sequence `messages`.

In these places the model follows what the code does:

- The `src/` normaliser does not read a plain `{message}` object. It reads
  `{error: string | {message}}`, and it never parses JSON.
- In the root service, a status query that throws becomes the fixed message
  "فشل أثناء التحقق من حالة إنشاء الفيديو.", not the normalised error. A
  done operation with an `error` fails instead of returning.
- `start-generation` rejects only a falsy prompt. A prompt of spaces
  reaches the SDK; only the front ends trim it.
- When the stream of `fetch-video` breaks after some chunks were written,
  the code does not answer 500. The `res.status(500).send(...)` in its
  `catch` meets headers that were already sent. The model leaves that
  response at status 200, unended (`FetchVideo.Streamed`).
- The split takes `split(';')[0].split(':')[1]` and `split(',')[1]`. A
  payload that contains a second comma is cut there.

## Model

| member | source | states |
|---|---|---|
| `JsValues.OptGet` | src/services/geminiService.ts:105 | optional chaining gives `undefined` on a nullish value or a missing property, and the property otherwise |
| `JsValues.Get` | api/start-generation.ts:17 | a plain property read throws exactly on `null`/`undefined`, and otherwise agrees with optional chaining |
| `JsValues.ErrorFrom` | src/services/geminiService.ts:60 | `new Error(v)` is an Error whose message is the string itself when `v` is a string |
| `JsStrings.NatToString` | components/VideoGrid.tsx:96 | `String(n)` is non-empty, all decimal digits, and without a leading zero |
| `JsStrings.IntToString` | src/services/geminiService.ts:93 | `String(n)` of a negative number is `-` followed by the digits of its magnitude |
| `JsStrings.ParseNatToString` | components/VideoGrid.tsx:96 | reading back the decimal form of `n` gives `n` |
| `JsStrings.NatToStringInjective` | components/VideoGrid.tsx:138 | different numbers have different decimal forms |
| `JsStrings.PadStart2` | components/VideoGrid.tsx:96 | `padStart(2, '0')` keeps a string of two or more characters, and otherwise pads it on the left with zeros to length 2 |
| `JsStrings.PadStart2Decimal` | components/VideoGrid.tsx:96 | padding a number's decimal form keeps its value, and a number below 100 comes out as exactly two digits |
| `JsStrings.Split` | src/services/geminiService.ts:28-29 | `split` returns at least one piece |
| `JsStrings.SplitWithout` | src/services/geminiService.ts:28-29 | a string without the separator splits into itself alone |
| `JsStrings.SplitFirst` | src/services/geminiService.ts:28-29 | the first piece runs up to the first separator, and the rest splits on its own |
| `JsStrings.TrimStart` | src/App.tsx:35 | drops the longest run of leading JavaScript white space and nothing else |
| `JsStrings.TrimEnd` | src/App.tsx:35 | drops the longest run of trailing JavaScript white space and nothing else |
| `JsStrings.TrimEmptyIffBlank` | src/App.tsx:35 | `trim()` is empty exactly when every character is white space |
| `UriEncoding.Utf8` | src/services/geminiService.ts:110 | a character encodes to one to four bytes |
| `UriEncoding.PercentEncoded` | src/services/geminiService.ts:110 | each byte becomes three characters, all of them `%` or unreserved |
| `UriEncoding.EncodeChar` | src/services/geminiService.ts:110 | one character encodes to a non-empty run of `%` and unreserved characters |
| `UriEncoding.EncodeURIComponent` | src/services/geminiService.ts:110 | the encoding holds only unreserved characters and `%` |
| `UriEncoding.DecodeUnit` | src/services/geminiService.ts:110 | a decoding step consumes between one character and what is left |
| `UriEncoding.ByteAtPercentEncoded` | src/services/geminiService.ts:110 | the `j`-th `%XY` group of an encoded byte string reads back as the `j`-th byte |
| `UriEncoding.EncodedBytes` | src/services/geminiService.ts:110 | the UTF-8 bytes of an encoded character read back from its encoding |
| `UriEncoding.DecodeTwoBytes` | src/services/geminiService.ts:110 | a two-byte character decodes back from its six-character encoding |
| `UriEncoding.DecodeThreeBytes` | src/services/geminiService.ts:110 | a three-byte character decodes back from its nine-character encoding |
| `UriEncoding.DecodeFourBytes` | src/services/geminiService.ts:110 | a supplementary character decodes back from its twelve-character encoding |
| `UriEncoding.DecodeFourUnit` | src/services/geminiService.ts:110 | four well-formed `%XY` groups decode to the code point their bits spell |
| `UriEncoding.DecodeUnitEncodeChar` | src/services/geminiService.ts:110 | decoding the encoding of one character gives that character and consumes exactly its encoding |
| `UriEncoding.DecodeEncode` | src/services/geminiService.ts:110 | `decodeURIComponent(encodeURIComponent(s)) == s` for every string |
| `UriEncoding.EncodeInjective` | src/services/geminiService.ts:110 | different links give different encodings, so different proxied URLs |
| `DataUrl.SplitDataUrlRoundTrip` | src/services/geminiService.ts:27-30 | `data:m;base64,d` splits into media type `m` and payload `d` when `m` has no `;`, `:` or `,` and `d` has no `,` |
| `DataUrl.SplitDataUrlNoComma` | services/geminiService.ts:50-53 | a data URL without a comma leaves the payload `undefined` |
| `ProxyClient.GetErrorMessage` | src/services/geminiService.ts:3-20 | an Error gives its message; `{error: {message}}` gives the message; `{error: string}` gives the string; a string gives itself; anything else gives the fallback |
| `ProxyClient.OwnErrorMessage` | src/services/geminiService.ts:120-123 | a message the service threw itself comes through the normaliser unchanged |
| `ProxyClient.ImageValue` | src/services/geminiService.ts:45-49 | the image member is `null` exactly when no file was given |
| `ProxyClient.StartBody` | src/services/geminiService.ts:55 | the start body has exactly the keys prompt, image and quality, carrying them unchanged |
| `ProxyClient.StartOperation` | src/services/geminiService.ts:58-63 | a non-ok start reply fails with the normalised error body; an ok reply gives its JSON as the operation; a rejected fetch propagates |
| `ProxyClient.StatusStep` | src/services/geminiService.ts:76-81 | a non-ok status reply fails with the status-check prefix and the normalised body; an ok reply gives the new operation |
| `ProxyClient.PollFrom` | src/services/geminiService.ts:66-82 | the loop makes at most one status check per scripted reply |
| `ProxyClient.PollDoneAtOnce` | src/services/geminiService.ts:66 | a done operation is not checked again |
| `ProxyClient.PollChecksPending` | src/services/geminiService.ts:66-74 | an operation that is not done is checked at least once, and the first check posts it |
| `ProxyClient.PollPostsLatest` | src/services/geminiService.ts:70-81 | each check posts the operation most recently received, unchanged and not done |
| `ProxyClient.PollFinishedIsLatest` | src/services/geminiService.ts:66-82 | the loop ends only with a done operation, the initial one or the last one received |
| `ProxyClient.PollLoop` | src/services/geminiService.ts:66-82 | the imperative loop ends and posts exactly as `PollFrom` says |
| `ProxyClient.PollAdvance` | src/services/geminiService.ts:70-81 | one check that resolves moves polling on to the operation it returned |
| `ProxyClient.ProxiedUrls` | src/services/geminiService.ts:103-111 | the `map` gives one entry per video, in order |
| `ProxyClient.DownloadLinks` | src/services/geminiService.ts:105-109 | there are never more links than videos |
| `ProxyClient.ProxiedUrlsInOrder` | src/services/geminiService.ts:103-112 | after the filter there is one URL per video with a link, in order, each the proxy path followed by the encoded link |
| `ProxyClient.ResolveErrorFirst` | src/services/geminiService.ts:85-88 | an operation error fails with its normalised message, before any other check |
| `ProxyClient.ResolveBlocked` | src/services/geminiService.ts:92-94 | a block reason fails with a message naming it, even when videos are present |
| `ProxyClient.ResolveNoVideos` | src/services/geminiService.ts:96-98 | an absent or empty video list fails with the no-videos message |
| `ProxyClient.ResolveVideos` | src/services/geminiService.ts:103-116 | the call fails exactly when no video has a link; otherwise the URLs follow the links in order and each decodes back to its link |
| `ProxyClient.Catch` | src/services/geminiService.ts:120-123 | every failure leaves once, as the failure prefix followed by the normalised inner message |
| `ProxyClient.PollExhaustedUsesAll` | src/services/geminiService.ts:66-82 | the loop is left still polling only after one status check per scripted reply |
| `ProxyClient.GenerateOutcome` | src/services/geminiService.ts:36-124 | a rejection carries the failure prefix; an unreadable file stops the request before any post; otherwise the start body holds the prompt, the split data URL and the quality; the messages are the opening ones, one processing message per status check and at most the success message; a resolved request started an operation, polled it to a done operation with exactly the posts recorded, and returns that operation's proxied URLs; it is left polling only when every reply was used; a start reply already done posts nothing |
| `ProxyClient.GenerateAndPollVideos` | src/services/geminiService.ts:36-124 | the method ends with the outcome, start body, status posts and messages that `ProxyClient.GenerateOutcome` describes |
| `ProxyClient.StartAndPoll` | src/services/geminiService.ts:52-118 | from the start request on, the method ends as `ProxyClient.GenerateOutcome` describes: a rejected start reply is caught with the failure prefix, otherwise the operation is polled and resolved |
| `ProxyClient.FinishRequest` | src/services/geminiService.ts:84-118 | after polling, the method adds one processing message per status check, the success message only when the done operation passes the checks, and resolves or rejects as `ProxyClient.GenerateOutcome` describes |
| `DirectClient.GetErrorMessage` | services/geminiService.ts:15-42 | an Error gives the nested `error.message` of its JSON message when truthy, else its message; an object's string `message` is given; a string gives itself; anything else gives the fallback |
| `DirectClient.GetErrorMessageIsText` | services/geminiService.ts:15-42 | the normaliser always gives a string, except a truthy nested value from an Error's JSON |
| `DirectClient.OwnErrorMessage` | services/geminiService.ts:151-155 | a message the service threw, which is not JSON, comes through unchanged |
| `DirectClient.ExpectedParams` | services/geminiService.ts:91-107 | the fixed model and count, the prompt and quality unchanged, and an image block exactly when a file was read, holding its split payload |
| `DirectClient.PollFrom` | services/geminiService.ts:59-79 | the loop makes at most one query per scripted reply |
| `DirectClient.PollDoneAtOnce` | services/geminiService.ts:61 | a done operation without error returns its response with no query |
| `DirectClient.PollQueriesLatest` | services/geminiService.ts:61-70 | each query passes the most recently received operation, which is not done, and a query that throws ends with the fixed polling error |
| `DirectClient.PollResolvesDone` | services/geminiService.ts:72-78 | a done operation fails with its normalised error when it has one, and otherwise returns its response unchanged |
| `DirectClient.PollOperation` | services/geminiService.ts:59-79 | the imperative loop ends and queries exactly as `PollFrom` says |
| `DirectClient.PollAdvance` | services/geminiService.ts:64-65 | one query that resolves moves polling on to the operation it returned |
| `DirectClient.ObjectUrl` | services/geminiService.ts:129-140 | a download gives an object URL exactly when the fetch resolved ok and the blob was made |
| `DirectClient.DownloadAll` | services/geminiService.ts:123-141 | the `map` gives one entry per video, in order |
| `DirectClient.Requested` | services/geminiService.ts:124-130 | there are never more downloads than videos |
| `DirectClient.ObjectUrls` | services/geminiService.ts:130-136 | each wanted download gives its own result, in order |
| `DirectClient.DownloadsInOrder` | services/geminiService.ts:143 | after the filter, the URLs are those of the downloads that succeeded, in video order, as `Promise.all` returns them |
| `DirectClient.Catch` | services/geminiService.ts:151-155 | every failure leaves once, as the failure prefix followed by the normalised inner message |
| `DirectClient.FinishBlocked` | services/geminiService.ts:114-116 | a block reason fails naming it, before the empty-list check |
| `DirectClient.FinishDownloads` | services/geminiService.ts:118-149 | with a non-empty list, the call fails exactly when every video yields null, and otherwise returns the URLs |
| `DirectClient.PollExhaustedUsesAll` | services/geminiService.ts:59-79 | the loop is left still polling only after one query per scripted reply |
| `DirectClient.GenerateOutcome` | services/geminiService.ts:81-156 | a rejection carries the failure prefix; an unreadable file stops the request before the SDK call; otherwise the SDK gets the expected parameters; the messages are the opening ones, one processing message per query and at most the download message; a resolved request started an operation, polled it to a response with exactly the queries recorded, requested that response's videos in list order and returns the successful downloads in that order; it is left polling only when every reply was used; an operation already done is not queried |
| `DirectClient.GenerateAndPollVideos` | services/geminiService.ts:81-156 | the method ends with the outcome, SDK parameters, queries, downloads and messages that `DirectClient.GenerateOutcome` describes |
| `DirectClient.GenerateReadFails` | services/geminiService.ts:100-102 | a file that cannot be read fails the request before any call |
| `DirectClient.GenerateStarts` | services/geminiService.ts:100-110 | once the file is read, the SDK gets the expected parameters |
| `DirectClient.StartAndPoll` | services/geminiService.ts:110-149 | from the SDK call on, the method ends as `DirectClient.GenerateOutcome` describes: a rejected call is caught with the failure prefix, otherwise the operation is polled and its videos downloaded |
| `DirectClient.FinishRequest` | services/geminiService.ts:112-149 | after polling, the method adds one processing message per query, the download message only when videos are listed, and resolves or rejects as `DirectClient.GenerateOutcome` describes |
| `Http.Query` | api/fetch-video.ts:8 | a query parameter is missing exactly when the request does not carry it |
| `Http.JsonAnswer` | api/start-generation.ts:13 | `res.status(s).json(b)` ends the response with status `s`, body `b` and nothing streamed |
| `Http.ErrorBody` | api/start-generation.ts:20 | an error body is an object whose only key `error` holds the message |
| `Http.ErrorText` | api/start-generation.ts:46 | the error's message when non-empty, and the unknown-error text for a nullish error or an empty message |
| `Http.ServerResponse.constructor` | api/fetch-video.ts:7 | a new response is untouched |
| `Http.ServerResponse.Status` | api/fetch-video.ts:11 | `res.status` changes the status code only |
| `Http.ServerResponse.SetHeader` | api/fetch-video.ts:25-27 | `res.setHeader` sets one header, only before the headers are sent |
| `Http.ServerResponse.Json` | api/start-generation.ts:42 | `res.json` sends the headers and the body and ends the response |
| `Http.ServerResponse.Send` | api/fetch-video.ts:22 | `res.send` sends the headers and the text and ends the response |
| `Http.ServerResponse.Write` | api/fetch-video.ts:38 | `res.write` appends the chunk and sends the headers |
| `Http.ServerResponse.End` | api/fetch-video.ts:40 | `res.end` ends the response and leaves the bytes written as they are |
| `StartGeneration.Destructure` | api/start-generation.ts:17 | destructuring the body throws exactly when it is `null` or `undefined` |
| `StartGeneration.ParamsFor` | api/start-generation.ts:23-37 | the fixed model and count, the prompt verbatim, the quality or `standard` when falsy, and an image block exactly when image, data and mimeType are truthy |
| `StartGeneration.Respond` | api/start-generation.ts:11-49 | 405 for a non-POST; 400 for a falsy prompt; the SDK is called exactly for a POST with a truthy prompt; then 202 with the operation or 500 with the prefixed message |
| `StartGeneration.Handler` | api/start-generation.ts:11-49 | the handler leaves the response and makes the call that `Respond` describes |
| `StartGeneration.ClientRequestAccepted` | api/start-generation.ts:17-37 | the body the `src/` client posts is refused exactly when the prompt is empty, and otherwise reaches the SDK with its prompt, quality and image |
| `StartGeneration.ClientImageFields` | api/start-generation.ts:32-37 | the image the `src/` client posts passes the handler's check exactly when both of its fields are present and non-empty |
| `StartGeneration.ErrorReachesClient` | src/services/geminiService.ts:58-61 | an error a handler answers with reaches the user as the failure prefix followed by the same message |
| `CheckStatus.Respond` | api/check-status.ts:11-32 | 405 for a non-POST; 400 without an operation or its name; otherwise the operation is forwarded unchanged and the reply is 200 with the update or 500 with the prefixed message |
| `CheckStatus.ClientPollRoundTrip` | src/services/geminiService.ts:70-81 | the `src/` client's status post forwards its operation, and the client reads the update or the prefixed failure back |
| `FetchVideo.ConcatAppend` | api/fetch-video.ts:33-39 | concatenation splits at any point of the chunk list |
| `FetchVideo.ConcatLength` | api/fetch-video.ts:33-39 | the bytes written number the sum of the chunk lengths |
| `FetchVideo.SumLengthsSnoc` | api/fetch-video.ts:33-39 | one more chunk adds its length |
| `FetchVideo.HeaderOr` | api/fetch-video.ts:25-26 | an upstream header when present and non-empty, else the fallback |
| `FetchVideo.UpstreamUrl` | api/fetch-video.ts:14 | the upstream URL is exactly the url, `&key=` and the key |
| `FetchVideo.StreamHeaders` | api/fetch-video.ts:25-27 | exactly three headers: Content-Type defaulting to `video/mp4`, Content-Length defaulting to empty, and a fixed Cache-Control |
| `FetchVideo.TextAnswer` | api/fetch-video.ts:11 | `res.status(s).send(t)` ends the response with status `s` and text `t` |
| `FetchVideo.Respond` | api/fetch-video.ts:7-50 | a url that is not a non-empty string gives 400 with no fetch; otherwise exactly the upstream URL is fetched |
| `FetchVideo.Relay` | api/fetch-video.ts:16-49 | a failed fetch gives 500; a non-ok reply passes its status on; an ok reply gets the stream headers; a missing body gives 500 |
| `FetchVideo.Streamed` | api/fetch-video.ts:29-49 | a finished stream writes every chunk in order and ends; a stream that breaks after some bytes stays unended; one that breaks at once gives 500 |
| `FetchVideo.Pump` | api/fetch-video.ts:33-39 | the loop writes the concatenation of the chunks in order, and reports a broken read |
| `FetchVideo.Handler` | api/fetch-video.ts:7-50 | the handler leaves the response and makes the fetch that `Respond` describes |
| `FetchVideo.StreamedBytes` | api/fetch-video.ts:32-40 | a finished upstream stream is answered with status 200 and exactly its bytes, in order |
| `FetchVideo.ProxyMatchesDirectDownload` | api/fetch-video.ts:14 | a URL the `src/` client builds decodes to the link, and the proxy fetches what the root client would download |
| `AppCommon.PromptBlankIffTrimEmpty` | src/App.tsx:35 | the blank-prompt test is exactly `!prompt.trim()` |
| `AppCommon.BlankCharByChar` | App.tsx:35 | a blank prompt is one made of white space only |
| `AppCommon.ErrorShown` | src/App.tsx:50 | an Error shows its message, anything else the fallback |
| `AppCommon.NextIndex` | src/App.tsx:27 | the next index stays in bounds, steps by one and wraps to 0 after the last |
| `AppCommon.IndexAfter` | src/App.tsx:25-28 | the index after any number of ticks stays in bounds |
| `AppCommon.ModSucc` | App.tsx:27 | one more tick moves the remainder one step round the cycle |
| `AppCommon.IndexAfterIsModulo` | src/App.tsx:25-28 | after `k` ticks the index is `k` modulo the number of messages |
| `AppCommon.RotationReachesEvery` | src/App.tsx:25-29 | every message is shown, and again after every full round |
| `AppCommon.Initial` | src/App.tsx:17-20 | the first render: not loading, no error, no videos, the first message |
| `AppCommon.Ticked` | src/App.tsx:26-29 | a tick shows the next message and changes nothing else |
| `AppCommon.TickedTimes` | App.tsx:26-29 | any number of ticks keeps the index in bounds |
| `AppCommon.TickedTimesRotates` | App.tsx:25-29 | `k` ticks from the first message show message `k` modulo the count, leaving loading, error and videos alone |
| `RootApp.Submitted` | App.tsx:34-42 | a blank prompt sets only the error; otherwise loading starts, the error clears and the message resets, and the videos stay |
| `RootApp.Settled` | App.tsx:44-52 | loading ends; success puts the new URLs in front of the old list; failure sets the error and keeps the list |
| `RootApp.RequestPrepends` | App.tsx:40-52 | a whole request, with any ticks, never loses a video: success prepends the new URLs, failure keeps the list |
| `RootApp.BlankPromptOnlySetsError` | App.tsx:35-38 | a blank prompt sets the error and changes nothing else |
| `RootApp.Run` | App.tsx:34-53 | one request prepends what it returned, or leaves the list alone for a blank prompt |
| `RootApp.RequestsAccumulate` | App.tsx:46 | after any run of requests the list holds every URL returned, newest request first |
| `RootApp.App.constructor` | App.tsx:13-19 | the controller starts in the initial state |
| `RootApp.App.HandleGenerate` | App.tsx:34-45 | `handleGenerate` up to its `await` makes the submitted state, and starts exactly for a non-blank prompt |
| `RootApp.App.SetLoadingMessage` | App.tsx:45 | the service's progress message replaces the shown message only |
| `RootApp.App.Tick` | App.tsx:26-29 | a tick of the interval is the next step of the rotation |
| `RootApp.App.Settle` | App.tsx:45-52 | the rest of `handleGenerate` makes the settled state |
| `RootApp.App.DismissError` | App.tsx:76 | dismissing the alert clears the error only |
| `SrcApp.Submitted` | src/App.tsx:34-43 | a blank prompt sets only the error; otherwise loading starts, the error and the videos clear and the message resets |
| `SrcApp.Settled` | src/App.tsx:45-53 | loading ends; success replaces the list with the new URLs; failure sets the error |
| `SrcApp.RequestReplaces` | src/App.tsx:40-53 | after a whole request the list is exactly what it returned, or empty with the error shown |
| `SrcApp.EmptyStateAfterRequest` | src/App.tsx:81 | after a request the empty state shows exactly when it returned no URLs, or failed with an empty message |
| `SrcApp.App.constructor` | src/App.tsx:15-21 | the controller starts in the initial state |
| `SrcApp.App.HandleGenerate` | src/App.tsx:34-46 | `handleGenerate` up to its `await` makes the submitted state, and starts exactly for a non-blank prompt |
| `SrcApp.App.SetLoadingMessage` | src/App.tsx:46 | the service's progress message replaces the shown message only |
| `SrcApp.App.Tick` | src/App.tsx:26-29 | a tick of the interval is the next step of the rotation |
| `SrcApp.App.Settle` | src/App.tsx:46-53 | the rest of `handleGenerate` makes the settled state |
| `SrcApp.App.DismissError` | src/App.tsx:77 | dismissing the alert clears the error only |
| `VideoGrid.FormatDuration` | components/VideoGrid.tsx:92-97 | a negative duration gives `00:00`, and every result has at least five characters |
| `VideoGrid.Minutes` | components/VideoGrid.tsx:94 | the whole minutes in the duration |
| `VideoGrid.RemainingSeconds` | components/VideoGrid.tsx:95 | the seconds field is below 60, and with the minutes it makes up the whole seconds |
| `VideoGrid.FormatDurationReadsBack` | components/VideoGrid.tsx:94-96 | a duration reads back as two digit fields: minutes of at least two digits, never cut, and seconds of two digits below 60 |
| `VideoGrid.DownloadFileName` | components/VideoGrid.tsx:138 | the file name is the prefix, the position counted from 1, and `.mp4` |
| `VideoGrid.DownloadFileNameInjective` | components/VideoGrid.tsx:138 | different positions give different file names |
| `VideoGrid.Grid` | components/VideoGrid.tsx:217-232 | nothing for an empty list, otherwise one player per URL, in order, with its index |
| `VideoGrid.GridFileNamesDistinct` | components/VideoGrid.tsx:226-228 | two players of one grid never save under the same name |
| `VideoGrid.PlayPauseToggled` | components/VideoGrid.tsx:54-64 | a paused video plays and any other pauses, and the state stays in step with the element |
| `VideoGrid.VolumeChanged` | components/VideoGrid.tsx:66-77 | the new volume is stored, a positive volume unmutes, and sound then comes out |
| `VideoGrid.MuteToggled` | components/VideoGrid.tsx:79-90 | muting flips; unmuting at volume 0 restores half volume, so unmuting always gives sound |
| `VideoGrid.MuteToggledTwice` | components/VideoGrid.tsx:79-90 | muting twice changes nothing unless the volume was 0 |
| `VideoGrid.Ended` | components/VideoGrid.tsx:115-121 | the end resets playing, progress and position |
| `VideoGrid.TimeUpdated` | components/VideoGrid.tsx:109-113 | with a non-zero duration the progress times the duration is 100 times the position, so it lies between 0 and 100 for a position inside the video; with a zero duration the progress is kept; nothing else changes |
| `VideoGrid.TimeUpdatedMonotone` | components/VideoGrid.tsx:109-113 | with a positive duration the progress is 0 at the start, 100 at the end and does not decrease as the position moves forward |
| `VideoGrid.MetadataLoaded` | components/VideoGrid.tsx:99-103 | the duration is set to a formatted string |
| `VideoGrid.VideoPlayer.constructor` | components/VideoGrid.tsx:46-52 | a mounted player is paused, muted and at full volume |
| `VideoGrid.VideoPlayer.TogglePlayPause` | components/VideoGrid.tsx:54-64 | the handler makes the toggled state and keeps element and state in step |
| `VideoGrid.VideoPlayer.HandleVolumeChange` | components/VideoGrid.tsx:66-77 | the handler makes the state of a volume change |
| `VideoGrid.VideoPlayer.ToggleMute` | components/VideoGrid.tsx:79-90 | the handler makes the state of a mute toggle |
| `VideoGrid.VideoPlayer.HandleEnded` | components/VideoGrid.tsx:115-121 | the handler makes the state of the end |
| `VideoGrid.VideoPlayer.HandleTimeUpdate` | components/VideoGrid.tsx:109-113 | the handler makes the state of a time update |
| `VideoGrid.VideoPlayer.HandleMetadataLoaded` | components/VideoGrid.tsx:99-103 | the handler stores the formatted duration |
| `VideoGrid.VideoPlayer.HandleDownload` | components/VideoGrid.tsx:135-142 | the link points at the video and saves it under its position's file name |
| `VideoGrid.VideoPlayer.SliderValue` | components/VideoGrid.tsx:187 | the slider shows 0 while muted and the volume otherwise |
| `VideoGrid.VideoPlayer.ShowsMutedIcon` | components/VideoGrid.tsx:177 | the muted icon shows exactly when no sound can come out |
| `PromptForm.CounterColor` | src/components/PromptForm.tsx:61-66 | over 400 shows the over colour, 361 to 400 the warning colour, and at most 360 the calm colour, each exactly |
| `PromptForm.CounterColorMonotone` | components/PromptForm.tsx:61-66 | a longer prompt never shows a calmer colour |
| `PromptForm.MaxInputLength` | src/components/PromptForm.tsx:79 | the `src/` textarea holds at most 450 characters, and the root one has no limit |
| `PromptForm.SrcOverflowBand` | src/components/PromptForm.tsx:79 | in `src/`, a prompt the textarea holds is over the limit exactly between 401 and 450 characters |
| `PromptForm.Enabled` | src/components/PromptForm.tsx:78-144 | nothing is disabled when idle; while loading only the remove-image button stays enabled |
| `PromptForm.FrozenWhileLoading` | components/PromptForm.tsx:78-123 | while loading, the textarea, quality buttons, upload, submit and file input are disabled |
| `PromptForm.Changed` | src/components/PromptForm.tsx:38-51 | a chosen file becomes the image file; no choice clears the file and the preview |
| `PromptForm.Loaded` | src/components/PromptForm.tsx:43-45 | the finished read shows its data URL as the preview and changes nothing else |
| `PromptForm.Removed` | src/components/PromptForm.tsx:53-59 | removal clears the file, the preview and the input's selection |
| `PromptForm.CancelMatchesRemove` | components/PromptForm.tsx:38-59 | cancelling the file dialog ends where removing the image does |
| `PromptForm.PickThenLoad` | src/components/PromptForm.tsx:38-46 | picking a file and letting its read finish shows that very file |
| `PromptForm.UploadLabel` | src/components/PromptForm.tsx:112 | the upload button offers to change the image exactly when a preview is shown |
| `PromptForm.ImagePicker.constructor` | src/components/PromptForm.tsx:34 | the picker starts with no image |
| `PromptForm.ImagePicker.HandleImageChange` | src/components/PromptForm.tsx:38-51 | the handler makes the state of a changed selection |
| `PromptForm.ImagePicker.HandleReadEnd` | src/components/PromptForm.tsx:43-45 | the reader's callback makes the loaded state |
| `PromptForm.ImagePicker.HandleRemoveImage` | src/components/PromptForm.tsx:53-59 | the handler makes the removed state |
| `Header.GradientForHour` | src/components/Header.tsx:16-33 | hours 5-11 morning, 12-16 afternoon, 17-20 evening, every other hour night, each exactly |
| `Header.HeadingGradient` | src/components/Header.tsx:52 | the heading always has a gradient, and a set gradient wins over the default |
| `Header.NoDefaultAfterMount` | src/components/Header.tsx:37-52 | once an hour was read the default gradient never shows |
| `Header.HeaderState.constructor` | src/components/Header.tsx:37 | before the effect, the heading shows the default gradient |
| `Header.HeaderState.Mounted` | src/components/Header.tsx:39-41 | the mount effect stores the gradient of the hour, and the heading shows it |

## Left out

- JSX markup, SVG icons and CSS classes, except the class strings that the counter, the header and the controls choose.
- `ErrorAlert`, `EmptyState`, `components/Header.tsx` and `tailwind.config.js`: static markup and styling with no logic. The condition under which `EmptyState` shows is modelled (`SrcApp.App.ShowEmptyState`).
- `LOADING_MESSAGES` lives in `constants.ts`, which is not part of this model. The controllers take the list as a non-empty constructor parameter.
- Network and SDK calls: `fetch`, `generateVideos`, `getVideosOperation` and the blob download are parameters that stand for the reply each gave.
- `JSON.parse` is a parameter. The other JSON conversions (`JSON.stringify`, `response.json()`) are the identity on the modelled values.
- The `FileReader` reads: the data URL, or the read error, is a parameter. Only the split of the data URL is modelled.
- `Blob` and `URL.createObjectURL`: one object URL per successful download is a parameter.
- `DirectClient.DownloadAll`: the download oracle is a function of the download URL, so two entries with the same link get the same download outcome. Independent fetches of one URL that end differently are not modelled.
- Timers: the 10-second poll delay and the 3-second message interval are no-ops, and a tick is a method call. `new Date().getHours()` becomes the `hour` parameter.
- The order in which the `Promise.all` downloads complete. Only the order after the join is observable, and that is modelled.
- The React render cycle: a state setter takes effect at once, and each event handler is one atomic method.
- Request overlap: the controllers model one request at a time. Overlapping submissions are not modelled.
- Console logging, and the `aria-label` and `title` strings.
- The module-level `API_KEY` checks: the handlers and the root service require a non-empty key (`apiKey != ""`).
- The rejection of `play()` under a browser's autoplay policy. The player assumes that playback starts.
- Numbers are integers in `JsValues.Value`. Fractional JSON numbers and `NaN` are not modelled.
- `VideoGrid.FormatDuration`: the `NaN` branch is not modelled, and durations are exact reals rather than doubles.
- `VideoGrid.TimeUpdated`: the progress is exact real division. Double rounding is not modelled.
- `VideoGrid.VolumeChanged`: the volume is an exact real in [0, 1], and `parseFloat` of the slider's text is not modelled.
- `VideoGrid.MetadataLoaded`: it states only the shape of the formatted duration. The value is stated by `VideoGrid.FormatDurationReadsBack`.
- `PromptForm.Loaded`: a read that finishes after the image was removed still shows its preview, as in the code.
- `encodeURIComponent` on a lone surrogate throws a URIError. Dafny's `char` holds only Unicode scalar values, so this case cannot arise in the model.
- A poll loop whose scripted replies run out ends as `Exhausted`, and the whole request then reports `Polling`. That stands for a loop still running, since the code sets no bound.
