/** The browser-side service of the `src/` front end: it reaches the video
    model only through the three serverless endpoints. `generateAndPollVideos`
    posts the request to `/api/start-generation`, posts the operation to
    `/api/check-status` until it is done, checks the finished operation and
    turns every generated video into a URL of `/api/fetch-video`.

    The network is an oracle: the reply to the start request and a finite script
    of replies to the status checks. The ten-second wait between checks is a
    no-op; console logging is left out. */
module ProxyClient {
  import opened Wrappers
  import opened JsValues
  import DataUrl
  import UriEncoding
  import opened Quality

  const UnknownError: string := "حدث خطأ غير معروف."
  const FailurePrefix: string := "فشل إنشاء الفيديو: "
  const StatusCheckPrefix: string := "فشل التحقق من حالة الإنشاء: "
  const BlockedPrefix: string := "تم حظر إنشاء الفيديو لأسباب تتعلق بالسلامة ("
  const BlockedSuffix: string := "). الرجاء تجربة وصف مختلف."
  const NoVideosMessage: string := "اكتمل إنشاء الفيديو، ولكن لم يتم إرجاع أي فيديوهات."
  const NoUrlsMessage: string := "تم إنشاء بيانات الفيديو الوصفية، لكن فشل الحصول على روابط الفيديو النهائية."
  const ProxyPath: string := "/api/fetch-video?url="

  // Progress messages, in the order the service emits them.
  const InitMessage: string := "...جاري تهيئة عملية إنشاء الفيديو"
  const EncodingMessage: string := "...جاري تشفير الصورة للإنشاء"
  const SendingMessage: string := "...إرسال الطلب إلى الخادم"
  const ProcessingMessage: string := "...جاري معالجة الفيديو، قد يستغرق هذا بضع دقائق"
  const SucceededMessage: string := "...تم إنشاء الفيديوهات بنجاح"

  // ----------------------------------------------------------- error shapes

  /** `getErrorMessage`: an Error gives its message; an object whose `error`
      is an object with a `message` gives that message (whatever its type);
      an object whose `error` is a string gives that string; a string gives
      itself; everything else gives the fixed fallback. */
  function GetErrorMessage(error: Value): (r: Value)
    ensures error.Err? ==> r == Str(error.message)
    ensures error.Str? ==> r == error
    ensures error.Obj? && "error" in error.fields ==>
      var inner := error.fields["error"];
      r == (if inner.Obj? && "message" in inner.fields then inner.fields["message"]
            else if inner.Err? then Str(inner.message)
            else if inner.Str? then inner
            else Str(UnknownError))
    ensures !error.Err? && !error.Str? && !(error.Obj? && "error" in error.fields) ==> r == Str(UnknownError)
  {
    match error
    case Err(_, message) => Str(message)
    case Obj(fields) =>
      if "error" in fields then
        match fields["error"]
        // An Error instance is an object that has its own `message`.
        case Obj(inner) => if "message" in inner then inner["message"] else Str(UnknownError)
        case Err(_, message) => Str(message)
        case Str(s) => Str(s)
        case _ => Str(UnknownError)
      else Str(UnknownError)
    case Str(s) => Str(s)
    case _ => Str(UnknownError)
  }

  /** A message that the service itself threw with `new Error(m)` comes back
      unchanged, so the final message holds it once, after the prefix. */
  lemma OwnErrorMessage(m: string)
    ensures Display(GetErrorMessage(ErrorFrom(Str(m)))) == m
  {
  }

  // ---------------------------------------------------------- start request

  /** The `image` member of the request body: `null` without a file, otherwise
      the split data URL, where `JSON.stringify` drops undefined fields. */
  function ImageValue(payload: Option<DataUrl.ImagePayload>): (v: Value)
    ensures payload.None? <==> v == Null
  {
    match payload
    case None => Null
    case Some(p) =>
      Obj((if p.mimeType.Some? then map["mimeType" := Str(p.mimeType.value)] else map[])
        + (if p.data.Some? then map["data" := Str(p.data.value)] else map[]))
  }

  /** `{ prompt, image: imagePayload, quality }`, the body posted to
      `/api/start-generation`. */
  function StartBody(prompt: string, payload: Option<DataUrl.ImagePayload>, quality: VideoQuality): (body: Value)
    ensures body.Obj? && body.fields.Keys == {"prompt", "image", "quality"}
    ensures OptGet(body, "prompt") == Str(prompt)
    ensures OptGet(body, "quality") == Str(Name(quality))
    ensures OptGet(body, "image") == ImageValue(payload)
  {
    Obj(map["prompt" := Str(prompt), "image" := ImageValue(payload), "quality" := Str(Name(quality))])
  }

  // ------------------------------------------------------- network replies

  /** What `fetch` resolved with: `ok`, and what `response.json()` resolves
      with or rejects with. */
  datatype Reply = Reply(ok: bool, json: Result<Value, Value>)

  /** A `fetch` call: it resolves with a reply or rejects. */
  type Fetched = Result<Reply, Value>

  /** Lines 52-63: the initial operation, or what is thrown. A non-ok reply
      throws an Error carrying the normalised body. */
  function StartOperation(start: Fetched): (r: Result<Value, Value>)
    ensures start.Success? && !start.value.ok && start.value.json.Success? ==>
      r == Failure(ErrorFrom(GetErrorMessage(start.value.json.value)))
    ensures start.Success? && start.value.ok ==> r == start.value.json
    ensures start.Failure? ==> r == Failure(start.error)
  {
    match start
    case Failure(e) => Failure(e)
    case Success(Reply(ok, json)) =>
      if ok then json
      else match json
        case Failure(e) => Failure(e)
        case Success(data) => Failure(ErrorFrom(GetErrorMessage(data)))
  }

  /** Lines 70-81: one status check. A non-ok reply throws an Error whose
      message is the status-check prefix followed by the normalised body;
      otherwise the reply body is the new operation. */
  function StatusStep(reply: Fetched): (r: Result<Value, Value>)
    ensures reply.Success? && !reply.value.ok && reply.value.json.Success? ==>
      r == Failure(NewError(StatusCheckPrefix + Display(GetErrorMessage(reply.value.json.value))))
    ensures reply.Success? && reply.value.ok ==> r == reply.value.json
    ensures reply.Failure? ==> r == Failure(reply.error)
  {
    match reply
    case Failure(e) => Failure(e)
    case Success(Reply(ok, json)) =>
      if ok then json
      else match json
        case Failure(e) => Failure(e)
        case Success(data) => Failure(NewError(StatusCheckPrefix + Display(GetErrorMessage(data))))
  }

  // ------------------------------------------------------------ poll loop

  /** How the loop ends: with a done operation, with something thrown, or
      (an artefact of the finite script) still polling `op`. */
  datatype PollEnd = Finished(op: Value) | Threw(error: Value) | Exhausted(op: Value)

  /** The loop's end and the operations it posted, one per status check. */
  datatype Poll = Poll(end: PollEnd, sent: seq<Value>)

  /** The polling loop of lines 66-82 run from `op` against `replies`. */
  function PollFrom(op: Value, replies: seq<Fetched>): (p: Poll)
    ensures |p.sent| <= |replies|
    decreases |replies|
  {
    match Get(op, "done")
    case Failure(e) => Poll(Threw(e), [])
    case Success(done) =>
      if Truthy(done) then Poll(Finished(op), [])
      else if replies == [] then Poll(Exhausted(op), [])
      else match StatusStep(replies[0])
        case Failure(e) => Poll(Threw(e), [op])
        case Success(next) =>
          var rest := PollFrom(next, replies[1..]);
          Poll(rest.end, [op] + rest.sent)
  }

  /** A done operation is not checked again. */
  lemma PollDoneAtOnce(op: Value, replies: seq<Fetched>)
    requires Truthy(OptGet(op, "done"))
    ensures PollFrom(op, replies) == Poll(Finished(op), [])
  {
  }

  /** An operation that is not done is checked at least once when a reply is
      available, and the first check posts it unchanged. */
  lemma PollChecksPending(op: Value, replies: seq<Fetched>)
    requires !IsNullish(op) && !Truthy(OptGet(op, "done")) && replies != []
    ensures PollFrom(op, replies).sent != [] && PollFrom(op, replies).sent[0] == op
  {
  }

  /** Every status check posts the operation most recently received, unchanged:
      the first is the initial operation, each later one is exactly the body of
      the previous successful reply. Every posted operation was not done. */
  lemma {:induction false} PollPostsLatest(op: Value, replies: seq<Fetched>)
    ensures var sent := PollFrom(op, replies).sent;
      && (sent != [] ==> sent[0] == op)
      && (forall i :: 0 <= i < |sent| ==> !IsNullish(sent[i]) && !Truthy(OptGet(sent[i], "done")))
      && (forall i :: 0 <= i < |sent| - 1 ==> replies[i] == Success(Reply(true, Success(sent[i + 1]))))
    decreases |replies|
  {
    var p := PollFrom(op, replies);
    if p.sent != [] && StatusStep(replies[0]).Success? {
      var next := StatusStep(replies[0]).value;
      PollPostsLatest(next, replies[1..]);
      var rest := PollFrom(next, replies[1..]).sent;
      assert p.sent == [op] + rest;
      forall i | 0 <= i < |p.sent| - 1
        ensures replies[i] == Success(Reply(true, Success(p.sent[i + 1])))
      {
        if i == 0 {
          assert rest[0] == next;
        } else {
          assert replies[i] == replies[1..][i - 1];
        }
      }
    }
  }

  /** The loop leaves with a done operation only; it is the initial operation
      when nothing was posted, and the body of the last reply otherwise. */
  lemma {:induction false} PollFinishedIsLatest(op: Value, replies: seq<Fetched>)
    requires PollFrom(op, replies).end.Finished?
    ensures var p := PollFrom(op, replies);
      && Truthy(OptGet(p.end.op, "done"))
      && (p.sent == [] ==> p.end.op == op)
      && (p.sent != [] ==> replies[|p.sent| - 1] == Success(Reply(true, Success(p.end.op))))
    decreases |replies|
  {
    var p := PollFrom(op, replies);
    if p.sent != [] {
      var next := StatusStep(replies[0]).value;
      PollFinishedIsLatest(next, replies[1..]);
      var rest := PollFrom(next, replies[1..]).sent;
      if rest != [] {
        assert replies[|p.sent| - 1] == replies[1..][|rest| - 1];
      }
    }
  }

  // ------------------------------------------------------------ resolution

  /** `videoData?.video?.uri`. */
  function LinkOf(entry: Value): Value
  {
    OptGet(OptGet(entry, "video"), "uri")
  }

  /** Lines 104-111: the proxied URL of one entry, or `null`. */
  function ProxiedUrl(entry: Value): Option<string>
  {
    var link := LinkOf(entry);
    if Truthy(link) then Some(ProxyPath + UriEncoding.EncodeURIComponent(Display(link))) else None
  }

  /** `generatedVideos.map(...)` with the callback of lines 104-111. */
  function ProxiedUrls(entries: seq<Value>): (r: seq<Option<string>>)
    ensures |r| == |entries| && forall i :: 0 <= i < |entries| ==> r[i] == ProxiedUrl(entries[i])
  {
    if entries == [] then [] else [ProxiedUrl(entries[0])] + ProxiedUrls(entries[1..])
  }

  /** The download links of the entries that have one, in their order: the
      reference against which the resolved URLs are stated. */
  function DownloadLinks(entries: seq<Value>): (links: seq<string>)
    ensures |links| <= |entries|
  {
    if entries == [] then []
    else if Truthy(LinkOf(entries[0])) then [Display(LinkOf(entries[0]))] + DownloadLinks(entries[1..])
    else DownloadLinks(entries[1..])
  }

  /** The checks of lines 92 and 96 that come before the success message. */
  predicate PassesChecks(op: Value)
  {
    var response := OptGet(op, "response");
    var generated := OptGet(response, "generatedVideos");
    && !Truthy(OptGet(op, "error"))
    && !Truthy(OptGet(OptGet(response, "promptFeedback"), "blockReason"))
    && Truthy(generated) && OptGet(generated, "length") != Num(0)
  }

  /** Lines 85-116, applied to the finished operation: the URLs, or what is
      thrown. */
  function ResolveProxied(op: Value): (r: Result<seq<string>, Value>)
  {
    var error := OptGet(op, "error");
    var response := OptGet(op, "response");
    var reason := OptGet(OptGet(response, "promptFeedback"), "blockReason");
    var generated := OptGet(response, "generatedVideos");
    if Truthy(error) then Failure(ErrorFrom(GetErrorMessage(error)))
    else if Truthy(reason) then Failure(NewError(BlockedPrefix + Display(reason) + BlockedSuffix))
    else if !Truthy(generated) || OptGet(generated, "length") == Num(0) then Failure(NewError(NoVideosMessage))
    else if !generated.Arr? then Failure(TypeError("response.generatedVideos.map is not a function"))
    else
      var urls := Somes(ProxiedUrls(generated.items));
      if urls == [] then Failure(NewError(NoUrlsMessage)) else Success(urls)
  }

  /** The map-then-filter keeps exactly the entries that have a link, in
      order, each as its proxied URL. */
  lemma {:induction false} ProxiedUrlsInOrder(entries: seq<Value>)
    ensures var urls := Somes(ProxiedUrls(entries));
      var links := DownloadLinks(entries);
      && |urls| == |links|
      && forall k :: 0 <= k < |urls| ==> urls[k] == ProxyPath + UriEncoding.EncodeURIComponent(links[k])
  {
    if entries != [] {
      var mapped := ProxiedUrls(entries);
      assert mapped[1..] == ProxiedUrls(entries[1..]);
      ProxiedUrlsInOrder(entries[1..]);
    }
  }

  /** The error of the operation wins over everything else. */
  lemma ResolveErrorFirst(op: Value)
    requires Truthy(OptGet(op, "error"))
    ensures ResolveProxied(op) == Failure(ErrorFrom(GetErrorMessage(OptGet(op, "error"))))
  {
  }

  /** A block reason fails naming the reason, even when videos were returned. */
  lemma ResolveBlocked(op: Value)
    requires !Truthy(OptGet(op, "error"))
    requires Truthy(OptGet(OptGet(OptGet(op, "response"), "promptFeedback"), "blockReason"))
    ensures var reason := OptGet(OptGet(OptGet(op, "response"), "promptFeedback"), "blockReason");
      ResolveProxied(op) == Failure(NewError(BlockedPrefix + Display(reason) + BlockedSuffix))
  {
  }

  /** A done operation with no error, no block reason and an absent or empty
      video list fails with the empty-result message. */
  lemma ResolveNoVideos(op: Value)
    requires !Truthy(OptGet(op, "error"))
    requires !Truthy(OptGet(OptGet(OptGet(op, "response"), "promptFeedback"), "blockReason"))
    requires var generated := OptGet(OptGet(op, "response"), "generatedVideos");
      !Truthy(generated) || generated == Arr([])
    ensures ResolveProxied(op) == Failure(NewError(NoVideosMessage))
  {
  }

  /** Over a list of videos that passed the checks, resolution succeeds exactly
      when some entry has a link; the URLs are then the proxied links in the
      order of the list, and each one's query decodes back to its link. */
  lemma ResolveVideos(op: Value)
    requires PassesChecks(op)
    requires OptGet(OptGet(op, "response"), "generatedVideos").Arr?
    ensures var links := DownloadLinks(OptGet(OptGet(op, "response"), "generatedVideos").items);
      var r := ResolveProxied(op);
      && (links == [] <==> r == Failure(NewError(NoUrlsMessage)))
      && (links != [] ==>
            && r.Success? && |r.value| == |links|
            && (forall k :: 0 <= k < |links| ==>
                  && r.value[k] == ProxyPath + UriEncoding.EncodeURIComponent(links[k])
                  && UriEncoding.DecodeURIComponent(r.value[k][|ProxyPath|..]) == Some(links[k])))
  {
    var entries := OptGet(OptGet(op, "response"), "generatedVideos").items;
    ProxiedUrlsInOrder(entries);
    var links := DownloadLinks(entries);
    forall k | 0 <= k < |links|
      ensures UriEncoding.DecodeURIComponent((ProxyPath + UriEncoding.EncodeURIComponent(links[k]))[|ProxyPath|..]) == Some(links[k])
    {
      assert (ProxyPath + UriEncoding.EncodeURIComponent(links[k]))[|ProxyPath|..] == UriEncoding.EncodeURIComponent(links[k]);
      UriEncoding.DecodeEncode(links[k]);
    }
  }

  // --------------------------------------------------------- whole request

  /** What the caller of `generateAndPollVideos` observes: the URLs, the
      rejection's message, or (when the script of replies ran out) the
      operation still being polled. */
  datatype Outcome = Resolved(urls: seq<string>) | Rejected(message: string) | Polling(op: Value)

  /** Lines 120-123: everything thrown inside the `try` leaves as one Error
      whose message is the prefix followed by the normalised inner error. */
  function Catch(e: Value): (o: Outcome)
    ensures o.Rejected? && |o.message| >= |FailurePrefix|
    ensures o.message[..|FailurePrefix|] == FailurePrefix
    ensures o.message[|FailurePrefix|..] == Display(GetErrorMessage(e))
  {
    Rejected(FailurePrefix + Display(GetErrorMessage(e)))
  }

  /** The outcome together with what the service sent and showed. */
  datatype Run = Run(outcome: Outcome, startBody: Option<Value>, sent: seq<Value>, messages: seq<string>)

  /** What follows the poll loop (lines 84-118), given the loop's result. */
  function AfterPoll(body: Value, shown: seq<string>, p: Poll): Run
  {
    var polled := shown + Repeat(ProcessingMessage, |p.sent|);
    match p.end
    case Threw(e) => Run(Catch(e), Some(body), p.sent, polled)
    case Exhausted(last) => Run(Polling(last), Some(body), p.sent, polled)
    case Finished(final) =>
      var checked := polled + (if PassesChecks(final) then [SucceededMessage] else []);
      match ResolveProxied(final)
      case Failure(e) => Run(Catch(e), Some(body), p.sent, checked)
      case Success(urls) => Run(Resolved(urls), Some(body), p.sent, checked)
  }

  /** The whole of `generateAndPollVideos`, as a function of the file read
      (`None` when no file was chosen), the start reply and the status replies. */
  function Generate(prompt: string, imageRead: Option<Result<string, Value>>, quality: VideoQuality,
                    start: Fetched, replies: seq<Fetched>): Run
  {
    var early := [InitMessage] + (if imageRead.Some? then [EncodingMessage] else []);
    if imageRead.Some? && imageRead.value.Failure? then
      Run(Catch(imageRead.value.error), None, [], early)
    else
      var payload := if imageRead.Some? then Some(DataUrl.SplitDataUrl(imageRead.value.value)) else None;
      var body := StartBody(prompt, payload, quality);
      Started(body, early + [SendingMessage], start, replies)
  }

  /** The request from the start call on, with `body` posted and `shown` the
      progress messages so far. */
  function Started(body: Value, shown: seq<string>, start: Fetched, replies: seq<Fetched>): Run
  {
    match StartOperation(start)
    case Failure(e) => Run(Catch(e), Some(body), [], shown)
    case Success(op) => AfterPoll(body, shown, PollFrom(op, replies))
  }

  /** The `while (!operation.done)` loop of lines 66-82: it posts the current
      operation and replaces it with the reply until it is done. */
  method PollLoop(op: Value, replies: seq<Fetched>) returns (end: PollEnd, sent: seq<Value>)
    ensures Poll(end, sent) == PollFrom(op, replies)
  {
    var operation := op;
    sent := [];
    var i := 0;
    while true
      invariant 0 <= i <= |replies| && |sent| == i
      invariant PollFrom(op, replies) == Then(sent, PollFrom(operation, replies[i..]))
      decreases |replies| - i
    {
      var done := Get(operation, "done");
      if done.Failure? {
        return Threw(done.error), sent;
      }
      if Truthy(done.value) {
        return Finished(operation), sent;
      }
      if i == |replies| {
        return Exhausted(operation), sent;
      }
      var step := StatusStep(replies[i]);
      if step.Failure? {
        return Threw(step.error), sent + [operation];
      }
      PollAdvance(operation, replies[i..], sent);
      sent := sent + [operation];
      operation := step.value;
      i := i + 1;
    }
  }

  /** `sent` followed by the posts of `p`. */
  function Then(sent: seq<Value>, p: Poll): Poll
  {
    Poll(p.end, sent + p.sent)
  }

  /** One status check that resolves moves polling on to its operation. */
  lemma PollAdvance(op: Value, replies: seq<Fetched>, sent: seq<Value>)
    requires Get(op, "done").Success? && !Truthy(Get(op, "done").value)
    requires replies != [] && StatusStep(replies[0]).Success?
    ensures Then(sent, PollFrom(op, replies)) == Then(sent + [op], PollFrom(StatusStep(replies[0]).value, replies[1..]))
  {
    assert sent + ([op] + PollFrom(StatusStep(replies[0]).value, replies[1..]).sent)
      == sent + [op] + PollFrom(StatusStep(replies[0]).value, replies[1..]).sent;
  }

  /** The loop runs out of replies only after one status check per reply. */
  lemma {:induction false} PollExhaustedUsesAll(op: Value, replies: seq<Fetched>)
    requires PollFrom(op, replies).end.Exhausted?
    ensures |PollFrom(op, replies).sent| == |replies|
    decreases |replies|
  {
    if replies != [] {
      PollExhaustedUsesAll(StatusStep(replies[0]).value, replies[1..]);
    }
  }

  /** What a whole request comes to, for every file read, start reply and
      script of status replies. A rejection always carries the failure
      prefix. A file that cannot be read stops the request before anything is
      posted; otherwise the start request carries the prompt, the split data
      URL and the quality. The messages are the fixed opening, one processing
      message per status check and at most the success message after them.
      The request resolves only when the start reply gave an operation, polling
      it ended with a done operation after exactly the posts recorded, and that
      operation's links resolved to the URLs returned; it is left polling only
      once every scripted reply was used. A start reply that is already done
      posts nothing. */
  lemma GenerateOutcome(prompt: string, imageRead: Option<Result<string, Value>>, quality: VideoQuality,
                        start: Fetched, replies: seq<Fetched>)
    ensures var r := Generate(prompt, imageRead, quality, start, replies);
      var early := [InitMessage] + (if imageRead.Some? then [EncodingMessage] else []);
      var started := early + [SendingMessage] + Repeat(ProcessingMessage, |r.sent|);
      && (r.outcome.Rejected? ==>
            |r.outcome.message| >= |FailurePrefix| && r.outcome.message[..|FailurePrefix|] == FailurePrefix)
      && (r.startBody.None? <==> imageRead.Some? && imageRead.value.Failure?)
      && (r.startBody.None? ==> r.outcome.Rejected? && r.sent == [] && r.messages == early)
      && (r.startBody.Some? ==>
            && r.startBody.value == StartBody(prompt, if imageRead.Some? then Some(DataUrl.SplitDataUrl(imageRead.value.value)) else None, quality)
            && (r.messages == started || r.messages == started + [SucceededMessage]))
      && (r.outcome.Polling? ==>
            StartOperation(start).Success? && |r.sent| == |replies| && r.messages == started)
      && (r.outcome.Resolved? ==>
            && StartOperation(start).Success?
            && var p := PollFrom(StartOperation(start).value, replies);
               && p.end.Finished? && p.sent == r.sent
               && ResolveProxied(p.end.op) == Success(r.outcome.urls)
               && r.messages == started + [SucceededMessage])
      && (r.startBody.Some? && StartOperation(start).Success? && Truthy(OptGet(StartOperation(start).value, "done")) ==>
            r.sent == [])
  {
    if !(imageRead.Some? && imageRead.value.Failure?) && StartOperation(start).Success? {
      var op := StartOperation(start).value;
      if PollFrom(op, replies).end.Exhausted? {
        PollExhaustedUsesAll(op, replies);
      }
      if Truthy(OptGet(op, "done")) {
        PollDoneAtOnce(op, replies);
      }
    }
  }

  /** `generateAndPollVideos`: the `try` block, with every throw sent to the
      `catch` of lines 120-123. */
  method GenerateAndPollVideos(prompt: string, imageRead: Option<Result<string, Value>>, quality: VideoQuality,
                               start: Fetched, replies: seq<Fetched>)
    returns (outcome: Outcome, startBody: Option<Value>, sent: seq<Value>, messages: seq<string>)
    ensures Run(outcome, startBody, sent, messages) == Generate(prompt, imageRead, quality, start, replies)
  {
    messages := [InitMessage];
    startBody := None;
    sent := [];
    var payload: Option<DataUrl.ImagePayload> := None;
    if imageRead.Some? {
      messages := messages + [EncodingMessage];
      if imageRead.value.Failure? {
        outcome := Catch(imageRead.value.error);
        return;
      }
      payload := Some(DataUrl.SplitDataUrl(imageRead.value.value));
    }
    messages := messages + [SendingMessage];
    startBody := Some(StartBody(prompt, payload, quality));
    assert messages == [InitMessage] + (if imageRead.Some? then [EncodingMessage] else []) + [SendingMessage];
    outcome, sent, messages := StartAndPoll(startBody.value, messages, start, replies);
  }

  /** Posts the start request, polls the operation and resolves the links. */
  method StartAndPoll(body: Value, shown: seq<string>, start: Fetched, replies: seq<Fetched>)
    returns (outcome: Outcome, sent: seq<Value>, messages: seq<string>)
    ensures Run(outcome, Some(body), sent, messages) == Started(body, shown, start, replies)
  {
    messages, sent := shown, [];
    var started := StartOperation(start);
    if started.Failure? {
      outcome := Catch(started.error);
      return;
    }
    var end;
    end, sent := PollLoop(started.value, replies);
    outcome, messages := FinishRequest(body, messages, end, sent);
  }

  /** The rest of `generateAndPollVideos` once polling has ended: the checks
      on the final operation and the proxied links. */
  method FinishRequest(body: Value, shown: seq<string>, end: PollEnd, sent: seq<Value>)
    returns (outcome: Outcome, messages: seq<string>)
    ensures Run(outcome, Some(body), sent, messages) == AfterPoll(body, shown, Poll(end, sent))
  {
    // One progress message per status check.
    messages := shown + Repeat(ProcessingMessage, |sent|);
    match end {
      case Threw(e) =>
        outcome := Catch(e);
      case Exhausted(last) =>
        outcome := Polling(last);
      case Finished(operation) =>
        if PassesChecks(operation) {
          messages := messages + [SucceededMessage];
        }
        var resolved := ResolveProxied(operation);
        if resolved.Failure? {
          outcome := Catch(resolved.error);
        } else {
          outcome := Resolved(resolved.value);
        }
    }
  }
}
