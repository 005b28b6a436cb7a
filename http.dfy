/** The part of the serverless runtime the three handlers use: the incoming
    request, and the response object they write the status, headers and body
    to. */
module Http {
  import opened Wrappers
  import opened JsValues

  newtype byte = x: int | 0 <= x < 256

  /** One value of `req.query`: absent, given once, or given several times. */
  datatype QueryValue = Missing | Single(s: string) | Multiple(items: seq<string>)

  /** An incoming request: its method (`verb`), its parsed JSON body and its query. */
  datatype Request = Request(verb: string, body: Value, query: map<string, QueryValue>)

  /** `req.query[name]`. */
  function Query(req: Request, name: string): (q: QueryValue)
    ensures q.Missing? <==> name !in req.query || req.query[name].Missing?
  {
    if name in req.query then req.query[name] else Missing
  }

  /** A body sent in one piece: by `res.json(v)` or by `res.send(text)`. */
  datatype Payload = JsonBody(json: Value) | TextBody(text: string)

  /** Everything a handler can leave in a response. */
  datatype Answer = Answer(status: int, headers: map<string, string>, payload: Option<Payload>,
                           written: seq<byte>, headersSent: bool, ended: bool)

  /** A response nobody has touched yet. */
  const Untouched: Answer := Answer(200, map[], None, [], false, false)

  /** A response completed with `res.status(status).json(body)`. */
  function JsonAnswer(status: int, body: Value): (a: Answer)
    ensures a.ended && a.written == [] && a.payload == Some(JsonBody(body)) && a.status == status
  {
    Answer(status, map[], Some(JsonBody(body)), [], true, true)
  }

  /** `{ error: message }`, the body of every JSON error reply. */
  function ErrorBody(message: string): (v: Value)
    ensures v.Obj? && v.fields.Keys == {"error"} && OptGet(v, "error") == Str(message)
  {
    Obj(map["error" := Str(message)])
  }

  const MethodNotAllowed: string := "Method Not Allowed"
  const UnknownError: string := "An unknown error occurred."

  /** `error?.message || "An unknown error occurred."`, as a template literal
      inserts it. */
  function ErrorText(error: Value): (s: string)
    ensures error.Err? && error.message != "" ==> s == error.message
    ensures error.Obj? && "message" in error.fields && error.fields["message"].Str? && error.fields["message"].s != "" ==>
      s == error.fields["message"].s
    ensures IsNullish(error) || (error.Err? && error.message == "") ==> s == UnknownError
  {
    var message := OptGet(error, "message");
    if Truthy(message) then Display(message) else UnknownError
  }

  /** The response object (`VercelResponse`). Headers become fixed once the
      first byte leaves; `json` and `send` finish the response. */
  class ServerResponse {
    var statusCode: int
    var headers: map<string, string>
    var payload: Option<Payload>
    var written: seq<byte>
    var headersSent: bool
    var ended: bool

    /** Finishing sends the headers; a one-piece body is the whole body. */
    predicate Valid()
      reads this
    {
      && (ended ==> headersSent)
      && (payload.Some? ==> ended && written == [])
    }

    /** The response as a value. */
    function State(): (a: Answer)
      reads this
      ensures a.status == statusCode && a.written == written && a.ended == ended
    {
      Answer(statusCode, headers, payload, written, headersSent, ended)
    }

    constructor ()
      ensures Valid() && State() == Untouched
    {
      statusCode := 200;
      headers := map[];
      payload := None;
      written := [];
      headersSent := false;
      ended := false;
    }

    /** `res.status(code)`. */
    method Status(code: int)
      modifies this
      ensures State() == old(State()).(status := code)
    {
      statusCode := code;
    }

    /** `res.setHeader(name, value)`: refused once the headers are sent. */
    method SetHeader(name: string, value: string)
      requires !headersSent
      modifies this
      ensures State() == old(State()).(headers := old(headers)[name := value])
    {
      headers := headers[name := value];
    }

    /** `res.json(body)`. */
    method Json(body: Value)
      requires Valid() && !headersSent && written == []
      modifies this
      ensures Valid()
      ensures State() == old(State()).(payload := Some(JsonBody(body)), headersSent := true, ended := true)
    {
      payload := Some(JsonBody(body));
      headersSent := true;
      ended := true;
    }

    /** `res.send(text)`. */
    method Send(text: string)
      requires Valid() && !headersSent && written == []
      modifies this
      ensures Valid()
      ensures State() == old(State()).(payload := Some(TextBody(text)), headersSent := true, ended := true)
    {
      payload := Some(TextBody(text));
      headersSent := true;
      ended := true;
    }

    /** `res.write(chunk)`: sends the headers first if need be. */
    method Write(chunk: seq<byte>)
      requires Valid() && !ended && payload.None?
      modifies this
      ensures Valid()
      ensures State() == old(State()).(written := old(written) + chunk, headersSent := true)
    {
      written := written + chunk;
      headersSent := true;
    }

    /** `res.end()`. */
    method End()
      requires Valid() && payload.None?
      modifies this
      ensures Valid()
      ensures State() == old(State()).(headersSent := true, ended := true)
    {
      headersSent := true;
      ended := true;
    }
  }
}
