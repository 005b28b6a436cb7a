/** `api/check-status`: forwards the operation it is given to the SDK and
    answers with the refreshed operation. The SDK call is an oracle: what
    `getVideosOperation` resolves with or throws. */
module CheckStatus {
  import opened Wrappers
  import opened JsValues
  import opened Http
  import ProxyClient

  const OperationRequired: string := "Operation object is required"
  const FailedPrefix: string := "Failed to check status: "

  /** The one JSON reply, and the operation handed to `getVideosOperation`. */
  datatype Checked = Checked(reply: Answer, forwarded: Option<Value>)

  /** A request the handler forwards: a POST whose body has a truthy
      `operation` with a truthy `name`. */
  predicate Forwardable(req: Request)
  {
    var operation := OptGet(req.body, "operation");
    req.verb == "POST" && !IsNullish(req.body) && Truthy(operation) && Truthy(OptGet(operation, "name"))
  }

  /** `handler(req, res)` as a function of the request and the SDK's answer. */
  function Respond(req: Request, query: Result<Value, Value>): (c: Checked)
    ensures c.reply.ended && c.reply.payload.Some? && c.reply.payload.value.JsonBody?
    ensures req.verb != "POST" ==> c == Checked(JsonAnswer(405, ErrorBody(MethodNotAllowed)), None)
    ensures c.forwarded.Some? <==> Forwardable(req)
    ensures req.verb == "POST" && !IsNullish(req.body) && !Forwardable(req) ==>
      c.reply == JsonAnswer(400, ErrorBody(OperationRequired))
    ensures req.verb == "POST" && IsNullish(req.body) ==> c.reply.status == 500
    ensures Forwardable(req) ==>
      && c.forwarded == Some(OptGet(req.body, "operation"))
      && c.reply == match query
           case Success(op) => JsonAnswer(200, op)
           case Failure(e) => JsonAnswer(500, ErrorBody(FailedPrefix + ErrorText(e)))
  {
    if req.verb != "POST" then Checked(JsonAnswer(405, ErrorBody(MethodNotAllowed)), None)
    // `const { operation } = req.body` throws on a nullish body.
    else if IsNullish(req.body) then
      var e := TypeError("Cannot destructure property 'operation' of 'req.body' as it is " + Display(req.body) + ".");
      Checked(JsonAnswer(500, ErrorBody(FailedPrefix + ErrorText(e))), None)
    else
      var operation := OptGet(req.body, "operation");
      if !Truthy(operation) || !Truthy(OptGet(operation, "name")) then
        Checked(JsonAnswer(400, ErrorBody(OperationRequired)), None)
      else match query
        case Success(op) => Checked(JsonAnswer(200, op), Some(operation))
        case Failure(e) => Checked(JsonAnswer(500, ErrorBody(FailedPrefix + ErrorText(e))), Some(operation))
  }

  /** The `{ operation }` body the `src/` client posts for an operation with a
      name is forwarded unchanged, and the refreshed operation comes back as
      the client's next operation; a failure reaches the client as the
      status-check prefix followed by this handler's message. */
  lemma ClientPollRoundTrip(op: Value, query: Result<Value, Value>)
    requires Truthy(OptGet(op, "name"))
    ensures var c := Respond(Request("POST", Obj(map["operation" := op]), map[]), query);
      && c.forwarded == Some(op)
      && (query.Success? ==>
            ProxyClient.StatusStep(Success(ProxyClient.Reply(true, Success(c.reply.payload.value.json)))) == query)
      && (query.Failure? ==>
            ProxyClient.StatusStep(Success(ProxyClient.Reply(false, Success(c.reply.payload.value.json))))
              == Failure(NewError(ProxyClient.StatusCheckPrefix + FailedPrefix + ErrorText(query.error))))
  {
    var req := Request("POST", Obj(map["operation" := op]), map[]);
    assert OptGet(req.body, "operation") == op && Forwardable(req);
    if query.Failure? {
      var text := FailedPrefix + ErrorText(query.error);
      assert Respond(req, query).reply == JsonAnswer(500, ErrorBody(text));
      assert ProxyClient.GetErrorMessage(ErrorBody(text)) == Str(text);
      assert ProxyClient.StatusCheckPrefix + text == ProxyClient.StatusCheckPrefix + FailedPrefix + ErrorText(query.error);
    }
  }
}
