/** `api/fetch-video`: streams a generated video from the model's storage to
    the browser, adding the API key the browser must not see. `fetch`,
    `response.text()` and the body reader are oracles: what `fetch` resolves
    with or throws, and the chunks the reader yields before it reports `done`
    or fails. */
module FetchVideo {
  import opened Wrappers
  import opened JsValues
  import opened Http
  import ProxyClient
  import DirectClient
  import UriEncoding

  const UrlRequired: string := "URL query parameter is required."
  const UpstreamFailedPrefix: string := "Failed to fetch video from source: "
  const NoStream: string := "Video stream could not be retrieved from the source."
  const ProxyFailed: string := "Error proxying video."
  const DefaultContentType: string := "video/mp4"
  const CacheControl: string := "public, max-age=86400"

  /** How the reader stops: `done`, or a read that rejects. */
  datatype StreamEnd = Finished | Broken(error: Value)

  /** The upstream body: the chunks read, in order, and how reading ended. */
  datatype Stream = Stream(chunks: seq<seq<byte>>, end: StreamEnd)

  /** What `fetch(videoUrl)` resolves with: `ok`, `status`, `statusText`, what
      `text()` gives, the two headers read (`None` for `null`) and the body
      (`None` for `null`). */
  datatype Upstream = Upstream(ok: bool, status: int, statusText: string, text: Result<string, Value>,
                               contentType: Option<string>, contentLength: Option<string>,
                               body: Option<Stream>)

  /** The chunks one after the other. */
  function Concat(chunks: seq<seq<byte>>): seq<byte>
  {
    if chunks == [] then [] else Concat(chunks[..|chunks| - 1]) + chunks[|chunks| - 1]
  }

  /** Concatenation splits at any point of the chunk list. */
  lemma {:induction false} ConcatAppend(a: seq<seq<byte>>, b: seq<seq<byte>>)
    ensures Concat(a + b) == Concat(a) + Concat(b)
    decreases |b|
  {
    if b == [] {
      assert a + b == a;
    } else {
      var front := b[..|b| - 1];
      assert (a + b)[..|a + b| - 1] == a + front;
      assert (a + b)[|a + b| - 1] == b[|b| - 1];
      ConcatAppend(a, front);
      assert Concat(a) + Concat(front) + b[|b| - 1] == Concat(a) + (Concat(front) + b[|b| - 1]);
    }
  }

  /** Every byte written comes from exactly one chunk: the total length is the
      sum of the chunk lengths. */
  lemma {:induction false} ConcatLength(chunks: seq<seq<byte>>)
    ensures |Concat(chunks)| == SumLengths(chunks)
  {
    if chunks != [] {
      ConcatLength(chunks[..|chunks| - 1]);
      SumLengthsSnoc(chunks[..|chunks| - 1], chunks[|chunks| - 1]);
      assert chunks[..|chunks| - 1] + [chunks[|chunks| - 1]] == chunks;
    }
  }

  function SumLengths(chunks: seq<seq<byte>>): nat
  {
    if chunks == [] then 0 else |chunks[0]| + SumLengths(chunks[1..])
  }

  lemma {:induction false} SumLengthsSnoc(chunks: seq<seq<byte>>, c: seq<byte>)
    ensures SumLengths(chunks + [c]) == SumLengths(chunks) + |c|
  {
    if chunks != [] {
      assert (chunks + [c])[1..] == chunks[1..] + [c];
      SumLengthsSnoc(chunks[1..], c);
    }
  }

  /** `headers.get(name) || fallback`. */
  function HeaderOr(value: Option<string>, fallback: string): (s: string)
    ensures value.Some? && value.value != "" ==> s == value.value
    ensures value.None? || value.value == "" ==> s == fallback
  {
    if value.Some? && value.value != "" then value.value else fallback
  }

  /** `typeof url === 'string' && url`: the url parameter given once and not
      empty. */
  predicate UsableUrl(q: QueryValue)
  {
    q.Single? && q.s != ""
  }

  /** `${url}&key=${API_KEY}`. */
  function UpstreamUrl(url: string, apiKey: string): (u: string)
    ensures |u| == |url| + 5 + |apiKey| && u[..|url|] == url && u[|url|..] == "&key=" + apiKey
  {
    url + "&key=" + apiKey
  }

  /** The three headers of lines 25-27, on the untouched response. */
  function StreamHeaders(up: Upstream): (h: map<string, string>)
    ensures h.Keys == {"Content-Type", "Content-Length", "Cache-Control"}
    ensures h["Content-Type"] == HeaderOr(up.contentType, DefaultContentType)
    ensures h["Content-Length"] == HeaderOr(up.contentLength, "")
    ensures h["Cache-Control"] == "public, max-age=86400"
  {
    map[]["Content-Type" := HeaderOr(up.contentType, DefaultContentType)]
         ["Content-Length" := HeaderOr(up.contentLength, "")]
         ["Cache-Control" := CacheControl]
  }

  /** A response finished with `res.status(status).send(text)` after the given
      headers were set. */
  function TextAnswer(status: int, headers: map<string, string>, text: string): (a: Answer)
    ensures a.ended && a.written == [] && a.payload == Some(TextBody(text)) && a.status == status
  {
    Answer(status, headers, Some(TextBody(text)), [], true, true)
  }

  /** The response the handler leaves, and the URL it fetched (if any). */
  datatype Proxied = Proxied(answer: Answer, fetched: Option<string>)

  /** The handler as a function of the request, the key and the upstream. */
  function Respond(req: Request, apiKey: string, fetch: string -> Result<Upstream, Value>): (p: Proxied)
    ensures !UsableUrl(Query(req, "url")) ==> p == Proxied(TextAnswer(400, map[], UrlRequired), None)
    ensures UsableUrl(Query(req, "url")) ==> p.fetched == Some(UpstreamUrl(Query(req, "url").s, apiKey))
  {
    var q := Query(req, "url");
    if !UsableUrl(q) then Proxied(TextAnswer(400, map[], UrlRequired), None)
    else
      var videoUrl := UpstreamUrl(q.s, apiKey);
      Proxied(Relay(fetch(videoUrl)), Some(videoUrl))
  }

  /** Lines 16-49, given what `fetch` gave. */
  function Relay(fetched: Result<Upstream, Value>): (a: Answer)
    ensures fetched.Failure? ==> a == TextAnswer(500, map[], ProxyFailed)
    ensures fetched.Success? && !fetched.value.ok ==>
      a == if fetched.value.text.Success?
           then TextAnswer(fetched.value.status, map[], UpstreamFailedPrefix + fetched.value.statusText)
           else TextAnswer(500, map[], ProxyFailed)
    ensures fetched.Success? && fetched.value.ok ==> a.headers == StreamHeaders(fetched.value)
    ensures fetched.Success? && fetched.value.ok && fetched.value.body.None? ==>
      a == TextAnswer(500, StreamHeaders(fetched.value), NoStream)
  {
    match fetched
    case Failure(_) => TextAnswer(500, map[], ProxyFailed)
    case Success(up) =>
      if !up.ok then
        if up.text.Success? then TextAnswer(up.status, map[], UpstreamFailedPrefix + up.statusText)
        else TextAnswer(500, map[], ProxyFailed)
      else
        var headers := StreamHeaders(up);
        match up.body
        case None => TextAnswer(500, headers, NoStream)
        case Some(stream) => Streamed(headers, stream)
  }

  /** The response after the pump of lines 32-40: every chunk written in
      order, then `end()`. A read that rejects before anything was written is
      answered with 500; once bytes have gone out the headers are sent, the
      `send` of the `catch` throws, and the response is left open. */
  function Streamed(headers: map<string, string>, stream: Stream): (a: Answer)
    ensures stream.end.Finished? ==> a == Answer(200, headers, None, Concat(stream.chunks), true, true)
    ensures stream.end.Broken? && stream.chunks != [] ==> a == Answer(200, headers, None, Concat(stream.chunks), true, false)
    ensures stream.end.Broken? && stream.chunks == [] ==> a == TextAnswer(500, headers, ProxyFailed)
  {
    var pumped := Concat(stream.chunks);
    match stream.end
    case Finished => Answer(200, headers, None, pumped, true, true)
    case Broken(_) =>
      if stream.chunks == [] then TextAnswer(500, headers, ProxyFailed)
      else Answer(200, headers, None, pumped, true, false)
  }

  /** The `while (true)` loop of lines 33-39: write each chunk as it is
      read, and stop at `done` or at a read that rejects. */
  method Pump(stream: Stream, res: ServerResponse) returns (broken: bool)
    requires res.Valid() && !res.ended && res.payload.None?
    modifies res
    ensures broken == stream.end.Broken?
    ensures res.Valid() && !res.ended && res.payload.None?
    ensures res.written == old(res.written) + Concat(stream.chunks)
    ensures res.statusCode == old(res.statusCode) && res.headers == old(res.headers)
    ensures res.headersSent == (old(res.headersSent) || stream.chunks != [])
  {
    var i := 0;
    while i < |stream.chunks|
      invariant 0 <= i <= |stream.chunks|
      invariant res.Valid() && !res.ended && res.payload.None?
      invariant res.written == old(res.written) + Concat(stream.chunks[..i])
      invariant res.statusCode == old(res.statusCode) && res.headers == old(res.headers)
      invariant res.headersSent == (old(res.headersSent) || i > 0)
    {
      res.Write(stream.chunks[i]);
      ConcatAppend(stream.chunks[..i], [stream.chunks[i]]);
      assert stream.chunks[..i + 1] == stream.chunks[..i] + [stream.chunks[i]];
      assert Concat([stream.chunks[i]]) == Concat([]) + stream.chunks[i];
      i := i + 1;
    }
    assert stream.chunks[..i] == stream.chunks;
    broken := stream.end.Broken?;
  }

  /** `handler(req, res)`. */
  method Handler(req: Request, apiKey: string, fetch: string -> Result<Upstream, Value>, res: ServerResponse)
    returns (fetched: Option<string>)
    requires apiKey != ""
    requires res.Valid() && res.State() == Untouched
    modifies res
    ensures res.Valid() && Proxied(res.State(), fetched) == Respond(req, apiKey, fetch)
  {
    var url := Query(req, "url");
    if !url.Single? || url.s == "" {
      res.Status(400);
      res.Send(UrlRequired);
      return None;
    }
    var videoUrl := url.s + "&key=" + apiKey;
    fetched := Some(videoUrl);
    var reply := fetch(videoUrl);
    if reply.Failure? {
      res.Status(500);
      res.Send(ProxyFailed);
      return;
    }
    var up := reply.value;
    if !up.ok {
      if up.text.Failure? {
        res.Status(500);
        res.Send(ProxyFailed);
      } else {
        res.Status(up.status);
        res.Send(UpstreamFailedPrefix + up.statusText);
      }
      return;
    }
    res.SetHeader("Content-Type", HeaderOr(up.contentType, DefaultContentType));
    res.SetHeader("Content-Length", HeaderOr(up.contentLength, ""));
    res.SetHeader("Cache-Control", CacheControl);
    if up.body.None? {
      res.Status(500);
      res.Send(NoStream);
      return;
    }
    var broken := Pump(up.body.value, res);
    if !broken {
      res.End();
    } else if !res.headersSent {
      res.Status(500);
      res.Send(ProxyFailed);
    }
  }

  /** A streamed answer carries exactly the upstream bytes, in order, under
      the upstream's status-independent headers. */
  lemma StreamedBytes(req: Request, apiKey: string, fetch: string -> Result<Upstream, Value>, chunks: seq<seq<byte>>)
    requires UsableUrl(Query(req, "url"))
    requires var reply := fetch(UpstreamUrl(Query(req, "url").s, apiKey));
      reply.Success? && reply.value.ok && reply.value.body == Some(Stream(chunks, Finished))
    ensures var a := Respond(req, apiKey, fetch).answer;
      && a.status == 200 && a.ended && a.payload.None?
      && a.written == Concat(chunks) && |a.written| == SumLengths(chunks)
      && a.headers["Cache-Control"] == CacheControl
  {
    ConcatLength(chunks);
  }

  /** A URL the `src/` client produced for a string video link reaches this handler,
      once the query is decoded, as that link, and the upstream URL is then
      exactly the one the root client downloads from directly. */
  lemma ProxyMatchesDirectDownload(entry: Value, apiKey: string, fetch: string -> Result<Upstream, Value>)
    requires ProxyClient.ProxiedUrl(entry).Some? && ProxyClient.LinkOf(entry).Str?
    ensures var url := ProxyClient.ProxiedUrl(entry).value;
      var decoded := UriEncoding.DecodeURIComponent(url[|ProxyClient.ProxyPath|..]);
      && url[..|ProxyClient.ProxyPath|] == ProxyClient.ProxyPath
      && decoded.Some?
      && Respond(Request("GET", Undefined, map["url" := Single(decoded.value)]), apiKey, fetch).fetched
         == Some(DirectClient.DownloadUrl(DirectClient.LinkOf(entry), apiKey))
  {
    var link := Display(ProxyClient.LinkOf(entry));
    var url := ProxyClient.ProxiedUrl(entry).value;
    assert url == ProxyClient.ProxyPath + UriEncoding.EncodeURIComponent(link);
    assert url[|ProxyClient.ProxyPath|..] == UriEncoding.EncodeURIComponent(link);
    UriEncoding.DecodeEncode(link);
    assert ProxyClient.LinkOf(entry) == DirectClient.LinkOf(entry);
  }
}
