/** The browser-side service of the root front end: it calls the video SDK
    directly, polls the operation with `pollOperation`, and downloads every
    generated video itself, turning each into an object URL.

    The SDK, `fetch`, `blob()` and `URL.createObjectURL` are oracles: the reply
    to `generateVideos`, a finite script of replies to `getVideosOperation`,
    and a function from a download URL to what downloading it gives.
    `JSON.parse` is a partial function passed in. The ten-second wait is a
    no-op; console logging is left out. */
module DirectClient {
  import opened Wrappers
  import opened JsValues
  import opened Quality
  import DataUrl

  const Model: string := "veo-2.0-generate-001"
  const NumberOfVideos: nat := 2

  const UnknownError: string := "حدث خطأ غير معروف أثناء العملية."
  const PollingFailed: string := "فشل أثناء التحقق من حالة إنشاء الفيديو."
  const FailurePrefix: string := "فشل إنشاء الفيديو: "
  const BlockedPrefix: string := "تم حظر إنشاء الفيديو لأسباب تتعلق بالسلامة ("
  const BlockedSuffix: string := "). الرجاء تجربة وصف مختلف."
  const NoVideosMessage: string := "اكتمل إنشاء الفيديو، ولكن لم يتم إرجاع أي فيديوهات. قد يكون الوصف معقدًا جدًا أو لم يتمكن النموذج من معالجته."
  const NoDownloadsMessage: string := "تم إنشاء بيانات الفيديو الوصفية، لكن فشل تحميل ملفات الفيديو النهائية."

  // Progress messages, in the order the service emits them.
  const InitMessage: string := "...جاري تهيئة عملية إنشاء الفيديو"
  const EncodingMessage: string := "...جاري تشفير الصورة للإنشاء"
  const SendingMessage: string := "...إرسال الطلب إلى نموذج VEO"
  const ProcessingMessage: string := "...جاري معالجة الفيديو، قد يستغرق هذا بضع دقائق"
  const DownloadingMessage: string := "...جاري تحميل الفيديوهات التي تم إنشاؤها"

  /** `JSON.parse`: the parsed value, or `None` where it throws. */
  type JsonParse = string -> Option<Value>

  // ----------------------------------------------------------- error shapes

  /** `parsed?.error?.message`. */
  function NestedMessage(parsed: Value): Value
  {
    OptGet(OptGet(parsed, "error"), "message")
  }

  /** `getErrorMessage`, the variant that looks for an API error serialised as
      JSON inside an Error's message. An Error gives the nested
      `error.message` of its parsed message when that is truthy, and its own
      message otherwise, whether or not the message parsed; a non-Error object
      with a string `message` gives it; a string gives itself; everything else
      gives the fixed fallback. */
  function GetErrorMessage(error: Value, parse: JsonParse): (r: Value)
    ensures error.Err? ==>
      r == (if parse(error.message).Some? && Truthy(NestedMessage(parse(error.message).value))
            then NestedMessage(parse(error.message).value)
            else Str(error.message))
    ensures error.Obj? ==>
      r == (if "message" in error.fields && error.fields["message"].Str? then error.fields["message"]
            else Str(UnknownError))
    ensures error.Str? ==> r == error
    ensures !error.Err? && !error.Obj? && !error.Str? ==> r == Str(UnknownError)
  {
    match error
    case Err(_, message) =>
      // A message that is not JSON is returned as it is.
      if parse(message).None? then Str(message)
      else if Truthy(NestedMessage(parse(message).value)) then NestedMessage(parse(message).value)
      else Str(message)
    case Obj(fields) =>
      if "message" in fields && fields["message"].Str? then fields["message"] else Str(UnknownError)
    case Str(s) => Str(s)
    case _ => Str(UnknownError)
  }

  /** The normaliser never comes back with a falsy value other than an empty
      message: its result is a string, or a truthy nested message. */
  lemma GetErrorMessageIsText(error: Value, parse: JsonParse)
    ensures var r := GetErrorMessage(error, parse);
      r.Str? || (error.Err? && Truthy(r))
  {
  }

  /** A message the service threw itself, which is not JSON, comes back
      unchanged after the prefix. */
  lemma OwnErrorMessage(m: string, parse: JsonParse)
    requires parse(m).None?
    ensures Display(GetErrorMessage(ErrorFrom(Str(m)), parse)) == m
  {
  }

  // ------------------------------------------------------------ parameters

  /** `generateVideosParams.image`; a field is `None` when the data URL split
      left it undefined. */
  datatype ImageBlock = ImageBlock(imageBytes: Option<string>, mimeType: Option<string>)

  /** `generateVideosParams`: `{ model, prompt, config: { numberOfVideos,
      quality }, image? }`. */
  datatype Params = Params(model: string, prompt: string, numberOfVideos: nat,
                           quality: VideoQuality, image: Option<ImageBlock>)

  /** The parameters `generateAndPollVideos` hands to the SDK: the fixed model
      and count, the prompt and quality unchanged, and the image block exactly
      when a file was read. */
  function ExpectedParams(prompt: string, quality: VideoQuality, dataUrl: Option<string>): (p: Params)
    ensures p.model == "veo-2.0-generate-001" && p.numberOfVideos == 2
    ensures p.prompt == prompt && p.quality == quality
    ensures p.image.Some? <==> dataUrl.Some?
    ensures dataUrl.Some? ==>
      var split := DataUrl.SplitDataUrl(dataUrl.value);
      p.image.value.imageBytes == split.data && p.image.value.mimeType == split.mimeType
  {
    Params(Model, prompt, NumberOfVideos, quality,
      if dataUrl.Some? then
        var split := DataUrl.SplitDataUrl(dataUrl.value);
        Some(ImageBlock(split.data, split.mimeType))
      else None)
  }

  // ------------------------------------------------------------- polling

  /** How `pollOperation` ends: with the done operation's `response`, with
      something thrown, or (the script of replies ran out) still polling. */
  datatype PollEnd = Responded(response: Value) | Threw(error: Value) | Exhausted(op: Value)

  datatype Poll = Poll(end: PollEnd, queried: seq<Value>)

  /** `pollOperation` from `op`, each element of `replies` being what one
      `getVideosOperation` call resolves with or throws. */
  function PollFrom(op: Value, replies: seq<Result<Value, Value>>, parse: JsonParse): (p: Poll)
    ensures |p.queried| <= |replies|
    decreases |replies|
  {
    match Get(op, "done")
    case Failure(e) => Poll(Threw(e), [])
    case Success(done) =>
      if Truthy(done) then
        var error := OptGet(op, "error");
        if Truthy(error) then Poll(Threw(ErrorFrom(GetErrorMessage(error, parse))), [])
        else Poll(Responded(OptGet(op, "response")), [])
      else if replies == [] then Poll(Exhausted(op), [])
      else match replies[0]
        case Failure(_) => Poll(Threw(NewError(PollingFailed)), [op])
        case Success(next) =>
          var rest := PollFrom(next, replies[1..], parse);
          Poll(rest.end, [op] + rest.queried)
  }

  /** An operation that is already done is returned without any query. */
  lemma PollDoneAtOnce(op: Value, replies: seq<Result<Value, Value>>, parse: JsonParse)
    requires Truthy(OptGet(op, "done")) && !Truthy(OptGet(op, "error"))
    ensures PollFrom(op, replies, parse) == Poll(Responded(OptGet(op, "response")), [])
  {
  }

  /** Every query passes the current operation: the first the given one, each
      later one exactly what the previous query resolved with. Any query that
      throws ends polling with the fixed status-check error. */
  lemma {:induction false} PollQueriesLatest(op: Value, replies: seq<Result<Value, Value>>, parse: JsonParse)
    ensures var p := PollFrom(op, replies, parse);
      && (p.queried != [] ==> p.queried[0] == op)
      && (forall i :: 0 <= i < |p.queried| ==> !IsNullish(p.queried[i]) && !Truthy(OptGet(p.queried[i], "done")))
      && (forall i :: 0 <= i < |p.queried| - 1 ==> replies[i] == Success(p.queried[i + 1]))
      && (p.queried != [] && replies[|p.queried| - 1].Failure? ==> p.end == Threw(NewError(PollingFailed)))
    decreases |replies|
  {
    var p := PollFrom(op, replies, parse);
    if p.queried != [] && replies[0].Success? {
      var next := replies[0].value;
      PollQueriesLatest(next, replies[1..], parse);
      var rest := PollFrom(next, replies[1..], parse).queried;
      forall i | 0 <= i < |p.queried| - 1
        ensures replies[i] == Success(p.queried[i + 1])
      {
        if i > 0 {
          assert replies[i] == replies[1..][i - 1];
        }
      }
      if rest != [] {
        assert replies[|p.queried| - 1] == replies[1..][|rest| - 1];
      }
    }
  }

  /** A done operation with a truthy `error` fails with its normalised
      message; otherwise its `response` is returned unchanged. */
  lemma PollResolvesDone(op: Value, replies: seq<Result<Value, Value>>, parse: JsonParse)
    requires Truthy(OptGet(op, "done"))
    ensures var error := OptGet(op, "error");
      PollFrom(op, replies, parse).end ==
        if Truthy(error) then Threw(ErrorFrom(GetErrorMessage(error, parse))) else Responded(OptGet(op, "response"))
  {
  }

  /** `pollOperation`: while the operation is not done, query it and replace it
      with the answer; then fail on its error or return its response. */
  method PollOperation(op: Value, replies: seq<Result<Value, Value>>, parse: JsonParse)
    returns (end: PollEnd, queried: seq<Value>)
    ensures Poll(end, queried) == PollFrom(op, replies, parse)
  {
    var current := op;
    queried := [];
    var i := 0;
    while true
      invariant 0 <= i <= |replies| && |queried| == i
      invariant PollFrom(op, replies, parse) == Then(queried, PollFrom(current, replies[i..], parse))
      decreases |replies| - i
    {
      var done := Get(current, "done");
      if done.Failure? {
        return Threw(done.error), queried;
      }
      if Truthy(done.value) {
        break;
      }
      if i == |replies| {
        return Exhausted(current), queried;
      }
      if replies[i].Failure? {
        return Threw(NewError(PollingFailed)), queried + [current];
      }
      PollAdvance(current, replies[i..], parse, queried);
      queried := queried + [current];
      current := replies[i].value;
      i := i + 1;
    }
    var error := OptGet(current, "error");
    if Truthy(error) {
      end := Threw(ErrorFrom(GetErrorMessage(error, parse)));
    } else {
      end := Responded(OptGet(current, "response"));
    }
  }

  /** `queried` followed by the queries of `p`. */
  function Then(queried: seq<Value>, p: Poll): Poll
  {
    Poll(p.end, queried + p.queried)
  }

  /** One query that resolves moves polling on to the operation it returned. */
  lemma PollAdvance(op: Value, replies: seq<Result<Value, Value>>, parse: JsonParse, queried: seq<Value>)
    requires Get(op, "done").Success? && !Truthy(Get(op, "done").value)
    requires replies != [] && replies[0].Success?
    ensures Then(queried, PollFrom(op, replies, parse))
         == Then(queried + [op], PollFrom(replies[0].value, replies[1..], parse))
  {
    assert queried + ([op] + PollFrom(replies[0].value, replies[1..], parse).queried)
      == queried + [op] + PollFrom(replies[0].value, replies[1..], parse).queried;
  }

  // ------------------------------------------------------------ downloads

  /** What downloading one video gives: `fetch` resolved (with `ok`, and what
      `blob()` followed by `URL.createObjectURL` gives or throws), or `fetch`
      threw. */
  datatype Download = Fetched(ok: bool, objectUrl: Result<string, Value>) | Unreachable(error: Value)

  /** `videoData?.video?.uri`. */
  function LinkOf(entry: Value): Value
  {
    OptGet(OptGet(entry, "video"), "uri")
  }

  /** `${downloadLink}&key=${API_KEY}`. */
  function DownloadUrl(link: Value, apiKey: string): string
  {
    Display(link) + "&key=" + apiKey
  }

  /** What one download leaves after lines 128-140: its object URL, or
      `null` when the fetch is not ok or anything in it throws. */
  function ObjectUrl(d: Download): (r: Option<string>)
    ensures r.Some? <==> d.Fetched? && d.ok && d.objectUrl.Success?
    ensures r.Some? ==> r.value == d.objectUrl.value
  {
    match d
    case Unreachable(_) => None
    case Fetched(ok, objectUrl) =>
      if !ok then None
      else match objectUrl
        case Failure(_) => None
        case Success(url) => Some(url)
  }

  /** Lines 123-141 for one entry: `null` when the link is missing, else
      what its download leaves. */
  function DownloadEntry(entry: Value, apiKey: string, download: string -> Download): Option<string>
  {
    var link := LinkOf(entry);
    if !Truthy(link) then None else ObjectUrl(download(DownloadUrl(link, apiKey)))
  }

  /** The `map` over `generatedVideos`, joined back in list order. */
  function DownloadAll(entries: seq<Value>, apiKey: string, download: string -> Download): (r: seq<Option<string>>)
    ensures |r| == |entries| && forall i :: 0 <= i < |entries| ==> r[i] == DownloadEntry(entries[i], apiKey, download)
  {
    if entries == [] then [] else [DownloadEntry(entries[0], apiKey, download)] + DownloadAll(entries[1..], apiKey, download)
  }

  /** The download URLs requested, one per entry with a link, in list order. */
  function Requested(entries: seq<Value>, apiKey: string): (r: seq<string>)
    ensures |r| <= |entries|
  {
    if entries == [] then []
    else if Truthy(LinkOf(entries[0])) then [DownloadUrl(LinkOf(entries[0]), apiKey)] + Requested(entries[1..], apiKey)
    else Requested(entries[1..], apiKey)
  }

  /** What each of the `wanted` downloads leaves, in the same order. */
  function ObjectUrls(wanted: seq<string>, download: string -> Download): (r: seq<Option<string>>)
    ensures |r| == |wanted| && forall k :: 0 <= k < |wanted| ==> r[k] == ObjectUrl(download(wanted[k]))
  {
    if wanted == [] then [] else [ObjectUrl(download(wanted[0]))] + ObjectUrls(wanted[1..], download)
  }

  /** After the `filter`, the object URLs are those of the requested downloads
      that succeeded, in the order of the requests. */
  lemma {:induction false} DownloadsInOrder(entries: seq<Value>, apiKey: string, download: string -> Download)
    ensures Somes(DownloadAll(entries, apiKey, download)) == Somes(ObjectUrls(Requested(entries, apiKey), download))
  {
    if entries != [] {
      var all := DownloadAll(entries, apiKey, download);
      var rest := DownloadAll(entries[1..], apiKey, download);
      assert all == [all[0]] + rest;
      assert Somes(all) == (if all[0].Some? then [all[0].value] else []) + Somes(rest);
      DownloadsInOrder(entries[1..], apiKey, download);
      var link := LinkOf(entries[0]);
      if Truthy(link) {
        var wanted := Requested(entries, apiKey);
        var objects := ObjectUrls(wanted, download);
        assert wanted[1..] == Requested(entries[1..], apiKey);
        assert objects == [objects[0]] + ObjectUrls(wanted[1..], download);
      }
    }
  }

  // --------------------------------------------------------- whole request

  datatype Outcome = Resolved(urls: seq<string>) | Rejected(message: string) | Polling(op: Value)

  /** Lines 151-155: everything thrown leaves as one Error whose message is the
      prefix followed by the normalised inner error. */
  function Catch(e: Value, parse: JsonParse): (o: Outcome)
    ensures o.Rejected? && |o.message| >= |FailurePrefix|
    ensures o.message[..|FailurePrefix|] == FailurePrefix
    ensures o.message[|FailurePrefix|..] == Display(GetErrorMessage(e, parse))
  {
    Rejected(FailurePrefix + Display(GetErrorMessage(e, parse)))
  }

  /** The outcome, the parameters given to `generateVideos` (if it was called),
      the operations queried, the download URLs requested and the progress
      messages shown. */
  datatype Run = Run(outcome: Outcome, call: Option<Params>, queried: seq<Value>,
                     requested: seq<string>, messages: seq<string>)

  /** Lines 114-149, on the response `pollOperation` returned. */
  function Finish(response: Value, apiKey: string, download: string -> Download): (r: Result<seq<string>, Value>)
  {
    var reason := OptGet(OptGet(response, "promptFeedback"), "blockReason");
    var generated := OptGet(response, "generatedVideos");
    if Truthy(reason) then Failure(NewError(BlockedPrefix + Display(reason) + BlockedSuffix))
    else if !Truthy(generated) || OptGet(generated, "length") == Num(0) then Failure(NewError(NoVideosMessage))
    else if !generated.Arr? then Failure(TypeError("response.generatedVideos.map is not a function"))
    else
      var urls := Somes(DownloadAll(generated.items, apiKey, download));
      if urls == [] then Failure(NewError(NoDownloadsMessage)) else Success(urls)
  }

  /** A block reason fails naming it, before the empty-list check. */
  lemma FinishBlocked(response: Value, apiKey: string, download: string -> Download)
    requires Truthy(OptGet(OptGet(response, "promptFeedback"), "blockReason"))
    ensures var reason := OptGet(OptGet(response, "promptFeedback"), "blockReason");
      Finish(response, apiKey, download) == Failure(NewError(BlockedPrefix + Display(reason) + BlockedSuffix))
  {
  }

  /** With no block reason and a non-empty list, the call succeeds exactly when
      some download produced a URL, and then returns those URLs in order. */
  lemma FinishDownloads(response: Value, apiKey: string, download: string -> Download)
    requires !Truthy(OptGet(OptGet(response, "promptFeedback"), "blockReason"))
    requires OptGet(response, "generatedVideos").Arr? && OptGet(response, "generatedVideos").items != []
    ensures var entries := OptGet(response, "generatedVideos").items;
      var urls := Somes(DownloadAll(entries, apiKey, download));
      && (urls == [] <==> Finish(response, apiKey, download) == Failure(NewError(NoDownloadsMessage)))
      && (urls == [] <==> forall i :: 0 <= i < |entries| ==> DownloadEntry(entries[i], apiKey, download).None?)
      && (urls != [] ==> Finish(response, apiKey, download) == Success(urls))
  {
  }

  /** What follows `pollOperation` (lines 112-149, and the `catch`). */
  function AfterPoll(params: Params, shown: seq<string>, p: Poll, apiKey: string,
                     download: string -> Download, parse: JsonParse): Run
  {
    var polled := shown + Repeat(ProcessingMessage, |p.queried|);
    match p.end
    case Threw(e) => Run(Catch(e, parse), Some(params), p.queried, [], polled)
    case Exhausted(op) => Run(Polling(op), Some(params), p.queried, [], polled)
    case Responded(response) =>
      var generated := OptGet(response, "generatedVideos");
      var listed := !Truthy(OptGet(OptGet(response, "promptFeedback"), "blockReason"))
        && Truthy(generated) && OptGet(generated, "length") != Num(0);
      var shownAll := polled + (if listed then [DownloadingMessage] else []);
      var requested := if listed && generated.Arr? then Requested(generated.items, apiKey) else [];
      match Finish(response, apiKey, download)
      case Failure(e) => Run(Catch(e, parse), Some(params), p.queried, requested, shownAll)
      case Success(urls) => Run(Resolved(urls), Some(params), p.queried, requested, shownAll)
  }

  /** The whole of `generateAndPollVideos`, as a function of the file read
      (`None` without a file), the SDK's replies and the downloads. */
  function Generate(prompt: string, imageRead: Option<Result<string, Value>>, quality: VideoQuality,
                    apiKey: string, generated: Result<Value, Value>, replies: seq<Result<Value, Value>>,
                    download: string -> Download, parse: JsonParse): Run
  {
    var early := [InitMessage] + (if imageRead.Some? then [EncodingMessage] else []);
    if imageRead.Some? && imageRead.value.Failure? then
      Run(Catch(imageRead.value.error, parse), None, [], [], early)
    else
      var params := ExpectedParams(prompt, quality, if imageRead.Some? then Some(imageRead.value.value) else None);
      Started(params, early + [SendingMessage], generated, replies, apiKey, download, parse)
  }

  /** The request from the `generateVideos` call on, with `params` passed
      and `shown` the progress messages so far. */
  function Started(params: Params, shown: seq<string>, generated: Result<Value, Value>,
                   replies: seq<Result<Value, Value>>, apiKey: string, download: string -> Download,
                   parse: JsonParse): Run
  {
    match generated
    case Failure(e) => Run(Catch(e, parse), Some(params), [], [], shown)
    case Success(op) => AfterPoll(params, shown, PollFrom(op, replies, parse), apiKey, download, parse)
  }

  /** `generateAndPollVideos`: builds the parameters, adding the image block
      in place when a file is given, starts the job, polls it and downloads
      the videos; every throw goes to the one `catch`. */
  method GenerateAndPollVideos(prompt: string, imageRead: Option<Result<string, Value>>, quality: VideoQuality,
                               apiKey: string, generated: Result<Value, Value>, replies: seq<Result<Value, Value>>,
                               download: string -> Download, parse: JsonParse)
    returns (outcome: Outcome, call: Option<Params>, queried: seq<Value>, requested: seq<string>, messages: seq<string>)
    requires apiKey != ""
    ensures Run(outcome, call, queried, requested, messages)
         == Generate(prompt, imageRead, quality, apiKey, generated, replies, download, parse)
  {
    messages := [InitMessage];
    call, queried, requested := None, [], [];
    var params := Params(Model, prompt, NumberOfVideos, quality, None);
    if imageRead.Some? {
      messages := messages + [EncodingMessage];
      if imageRead.value.Failure? {
        outcome := Catch(imageRead.value.error, parse);
        GenerateReadFails(prompt, imageRead, quality, apiKey, generated, replies, download, parse);
        return;
      }
      var split := DataUrl.SplitDataUrl(imageRead.value.value);
      params := params.(image := Some(ImageBlock(split.data, split.mimeType)));
    }
    messages := messages + [SendingMessage];
    call := Some(params);
    assert params == ExpectedParams(prompt, quality, if imageRead.Some? then Some(imageRead.value.value) else None);
    assert messages == [InitMessage] + (if imageRead.Some? then [EncodingMessage] else []) + [SendingMessage];
    GenerateStarts(prompt, imageRead, quality, apiKey, generated, replies, download, parse);
    outcome, queried, requested, messages := StartAndPoll(params, messages, generated, replies, apiKey, download, parse);
  }

  /** A file that cannot be read fails the request before any call. */
  lemma GenerateReadFails(prompt: string, imageRead: Option<Result<string, Value>>, quality: VideoQuality,
                          apiKey: string, generated: Result<Value, Value>, replies: seq<Result<Value, Value>>,
                          download: string -> Download, parse: JsonParse)
    requires imageRead.Some? && imageRead.value.Failure?
    ensures Generate(prompt, imageRead, quality, apiKey, generated, replies, download, parse)
         == Run(Catch(imageRead.value.error, parse), None, [], [], [InitMessage, EncodingMessage])
  {
  }

  /** Once the file (if any) is read, the request goes on from the
      `generateVideos` call with the expected parameters. */
  lemma GenerateStarts(prompt: string, imageRead: Option<Result<string, Value>>, quality: VideoQuality,
                       apiKey: string, generated: Result<Value, Value>, replies: seq<Result<Value, Value>>,
                       download: string -> Download, parse: JsonParse)
    requires imageRead.Some? ==> imageRead.value.Success?
    ensures Generate(prompt, imageRead, quality, apiKey, generated, replies, download, parse)
         == Started(ExpectedParams(prompt, quality, if imageRead.Some? then Some(imageRead.value.value) else None),
                    [InitMessage] + (if imageRead.Some? then [EncodingMessage] else []) + [SendingMessage],
                    generated, replies, apiKey, download, parse)
  {
  }

  /** `pollOperation` runs out of replies only after one query per reply. */
  lemma {:induction false} PollExhaustedUsesAll(op: Value, replies: seq<Result<Value, Value>>, parse: JsonParse)
    requires PollFrom(op, replies, parse).end.Exhausted?
    ensures |PollFrom(op, replies, parse).queried| == |replies|
    decreases |replies|
  {
    if replies != [] {
      PollExhaustedUsesAll(replies[0].value, replies[1..], parse);
    }
  }

  /** What a whole request comes to, for every file read, SDK reply and
      download. A rejection always carries the failure prefix. A file that
      cannot be read stops the request before the SDK is called; otherwise
      `generateVideos` gets the expected parameters. The messages are the
      fixed opening, one processing message per query and at most the
      download message after them. The request resolves only when
      `generateVideos` gave an operation, polling it ended with a response
      after exactly the queries recorded, and that response's videos were
      requested in list order and yielded the URLs returned, which are the
      successful downloads in the order requested; it is left polling only
      once every scripted reply was used. An operation that is already done
      is not queried. */
  lemma GenerateOutcome(prompt: string, imageRead: Option<Result<string, Value>>, quality: VideoQuality,
                        apiKey: string, generated: Result<Value, Value>, replies: seq<Result<Value, Value>>,
                        download: string -> Download, parse: JsonParse)
    ensures var r := Generate(prompt, imageRead, quality, apiKey, generated, replies, download, parse);
      var early := [InitMessage] + (if imageRead.Some? then [EncodingMessage] else []);
      var started := early + [SendingMessage] + Repeat(ProcessingMessage, |r.queried|);
      && (r.outcome.Rejected? ==>
            |r.outcome.message| >= |FailurePrefix| && r.outcome.message[..|FailurePrefix|] == FailurePrefix)
      && (r.call.None? <==> imageRead.Some? && imageRead.value.Failure?)
      && (r.call.None? ==> r.outcome.Rejected? && r.queried == [] && r.requested == [] && r.messages == early)
      && (r.call.Some? ==>
            && r.call.value == ExpectedParams(prompt, quality, if imageRead.Some? then Some(imageRead.value.value) else None)
            && (r.messages == started || r.messages == started + [DownloadingMessage]))
      && (r.outcome.Polling? ==>
            generated.Success? && |r.queried| == |replies| && r.requested == [] && r.messages == started)
      && (r.outcome.Resolved? ==>
            && generated.Success?
            && var p := PollFrom(generated.value, replies, parse);
               && p.end.Responded? && p.queried == r.queried
               && Finish(p.end.response, apiKey, download) == Success(r.outcome.urls)
               && OptGet(p.end.response, "generatedVideos").Arr?
               && r.requested == Requested(OptGet(p.end.response, "generatedVideos").items, apiKey)
               && r.outcome.urls == Somes(ObjectUrls(r.requested, download))
               && r.messages == started + [DownloadingMessage])
      && (r.call.Some? && generated.Success? && Truthy(OptGet(generated.value, "done")) ==> r.queried == [])
  {
    if !(imageRead.Some? && imageRead.value.Failure?) && generated.Success? {
      var p := PollFrom(generated.value, replies, parse);
      if p.end.Exhausted? {
        PollExhaustedUsesAll(generated.value, replies, parse);
      }
      if p.end.Responded? {
        var videos := OptGet(p.end.response, "generatedVideos");
        if videos.Arr? {
          DownloadsInOrder(videos.items, apiKey, download);
        }
      }
    }
  }

  /** Takes the started operation (or the call's rejection), polls it and
      downloads the videos. */
  method StartAndPoll(params: Params, shown: seq<string>, generated: Result<Value, Value>,
                      replies: seq<Result<Value, Value>>, apiKey: string, download: string -> Download,
                      parse: JsonParse)
    returns (outcome: Outcome, queried: seq<Value>, requested: seq<string>, messages: seq<string>)
    ensures Run(outcome, Some(params), queried, requested, messages)
         == Started(params, shown, generated, replies, apiKey, download, parse)
  {
    messages, queried, requested := shown, [], [];
    if generated.Failure? {
      outcome := Catch(generated.error, parse);
      return;
    }
    var end;
    end, queried := PollOperation(generated.value, replies, parse);
    outcome, requested, messages := FinishRequest(params, messages, end, queried, apiKey, download, parse);
  }

  /** The rest of `generateAndPollVideos` once polling has ended: the checks
      on the response and the downloads. */
  method FinishRequest(params: Params, shown: seq<string>, end: PollEnd, queried: seq<Value>, apiKey: string,
                       download: string -> Download, parse: JsonParse)
    returns (outcome: Outcome, requested: seq<string>, messages: seq<string>)
    ensures Run(outcome, Some(params), queried, requested, messages)
         == AfterPoll(params, shown, Poll(end, queried), apiKey, download, parse)
  {
    requested := [];
    messages := shown + Repeat(ProcessingMessage, |queried|);
    match end {
      case Threw(e) =>
        outcome := Catch(e, parse);
      case Exhausted(op) =>
        outcome := Polling(op);
      case Responded(response) =>
        var reason := OptGet(OptGet(response, "promptFeedback"), "blockReason");
        var videos := OptGet(response, "generatedVideos");
        if Truthy(reason) {
          outcome := Catch(NewError(BlockedPrefix + Display(reason) + BlockedSuffix), parse);
        } else if !Truthy(videos) || OptGet(videos, "length") == Num(0) {
          outcome := Catch(NewError(NoVideosMessage), parse);
        } else {
          messages := messages + [DownloadingMessage];
          if !videos.Arr? {
            outcome := Catch(TypeError("response.generatedVideos.map is not a function"), parse);
          } else {
            requested := Requested(videos.items, apiKey);
            var urls := Somes(DownloadAll(videos.items, apiKey, download));
            if urls == [] {
              outcome := Catch(NewError(NoDownloadsMessage), parse);
            } else {
              outcome := Resolved(urls);
            }
          }
        }
    }
  }
}
