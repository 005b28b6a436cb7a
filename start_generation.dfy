/** `api/start-generation`: validates the request, starts a generation job
    with the SDK and answers with the job's initial operation. The SDK call
    is an oracle: what `generateVideos` resolves with or throws. */
module StartGeneration {
  import opened Wrappers
  import opened JsValues
  import opened Http
  import Quality
  import DataUrl
  import ProxyClient

  const PromptRequired: string := "Prompt is required"
  const FailedPrefix: string := "Failed to start video generation: "
  const Model: string := "veo-2.0-generate-001"
  const NumberOfVideos: nat := 2
  const DefaultQuality: string := "standard"

  /** `generateVideosParams.image`. */
  datatype ImageBlock = ImageBlock(imageBytes: Value, mimeType: Value)

  /** `generateVideosParams`: `{ model, prompt, config: { numberOfVideos,
      quality }, image? }`, with the request's values as they came. */
  datatype Params = Params(model: string, prompt: Value, numberOfVideos: nat, quality: Value, image: Option<ImageBlock>)

  /** `const { prompt, image, quality } = req.body`: destructuring `null` or
      `undefined` throws V8's TypeError. */
  function Destructure(body: Value): (r: Result<(Value, Value, Value), Value>)
    ensures r.Failure? <==> IsNullish(body)
  {
    if IsNullish(body) then
      Failure(TypeError("Cannot destructure property 'prompt' of 'req.body' as it is " + Display(body) + "."))
    else Success((OptGet(body, "prompt"), OptGet(body, "image"), OptGet(body, "quality")))
  }

  /** Lines 23-37: the fixed model and count, the prompt as given, the quality
      or `'standard'` when it is falsy, and the image block exactly when the
      image and both its fields are truthy. */
  function ParamsFor(prompt: Value, image: Value, quality: Value): (p: Params)
    ensures p.model == "veo-2.0-generate-001" && p.numberOfVideos == 2 && p.prompt == prompt
    ensures p.quality == (if Truthy(quality) then quality else Str("standard"))
    ensures p.image.Some? <==> Truthy(image) && Truthy(OptGet(image, "data")) && Truthy(OptGet(image, "mimeType"))
    ensures p.image.Some? ==> p.image.value.imageBytes == OptGet(image, "data") && p.image.value.mimeType == OptGet(image, "mimeType")
  {
    Params(Model, prompt, NumberOfVideos, if Truthy(quality) then quality else Str(DefaultQuality),
      if Truthy(image) && Truthy(OptGet(image, "data")) && Truthy(OptGet(image, "mimeType"))
      then Some(ImageBlock(OptGet(image, "data"), OptGet(image, "mimeType")))
      else None)
  }

  /** The response, and the parameters `generateVideos` was called with. */
  datatype Handled = Handled(answer: Answer, call: Option<Params>)

  /** The handler as a function of the request and of the SDK's answer. */
  function Respond(req: Request, generate: Result<Value, Value>): (h: Handled)
    // Exactly one JSON body is sent, whatever happens.
    ensures h.answer.ended && h.answer.payload.Some? && h.answer.payload.value.JsonBody?
    ensures req.verb != "POST" ==> h == Handled(JsonAnswer(405, ErrorBody(MethodNotAllowed)), None)
    ensures h.call.Some? <==> req.verb == "POST" && !IsNullish(req.body) && Truthy(OptGet(req.body, "prompt"))
    ensures req.verb == "POST" && !IsNullish(req.body) && !Truthy(OptGet(req.body, "prompt")) ==>
      h.answer == JsonAnswer(400, ErrorBody(PromptRequired))
    ensures req.verb == "POST" && IsNullish(req.body) ==> h.answer.status == 500
    ensures h.call.Some? ==>
      && h.call.value == ParamsFor(OptGet(req.body, "prompt"), OptGet(req.body, "image"), OptGet(req.body, "quality"))
      && h.answer == match generate
           case Success(op) => JsonAnswer(202, op)
           case Failure(e) => JsonAnswer(500, ErrorBody(FailedPrefix + ErrorText(e)))
  {
    if req.verb != "POST" then Handled(JsonAnswer(405, ErrorBody(MethodNotAllowed)), None)
    else match Destructure(req.body)
      case Failure(e) => Handled(JsonAnswer(500, ErrorBody(FailedPrefix + ErrorText(e))), None)
      case Success((prompt, image, quality)) =>
        if !Truthy(prompt) then Handled(JsonAnswer(400, ErrorBody(PromptRequired)), None)
        else
          var params := ParamsFor(prompt, image, quality);
          match generate
          case Success(op) => Handled(JsonAnswer(202, op), Some(params))
          case Failure(e) => Handled(JsonAnswer(500, ErrorBody(FailedPrefix + ErrorText(e))), Some(params))
  }

  /** `handler(req, res)`: builds the parameters, adding the image block in
      place, and writes the one reply to `res`. */
  method Handler(req: Request, generate: Result<Value, Value>, res: ServerResponse) returns (call: Option<Params>)
    requires res.Valid() && res.State() == Untouched
    modifies res
    ensures res.Valid() && Handled(res.State(), call) == Respond(req, generate)
  {
    call := None;
    if req.verb != "POST" {
      res.Status(405);
      res.Json(ErrorBody(MethodNotAllowed));
      return;
    }
    var destructured := Destructure(req.body);
    if destructured.Failure? {
      res.Status(500);
      res.Json(ErrorBody(FailedPrefix + ErrorText(destructured.error)));
      return;
    }
    var (prompt, image, quality) := destructured.value;
    if !Truthy(prompt) {
      res.Status(400);
      res.Json(ErrorBody(PromptRequired));
      return;
    }
    var params := Params(Model, prompt, NumberOfVideos, if Truthy(quality) then quality else Str(DefaultQuality), None);
    if Truthy(image) && Truthy(OptGet(image, "data")) && Truthy(OptGet(image, "mimeType")) {
      params := params.(image := Some(ImageBlock(OptGet(image, "data"), OptGet(image, "mimeType"))));
    }
    call := Some(params);
    match generate {
      case Success(op) =>
        res.Status(202);
        res.Json(op);
      case Failure(e) =>
        res.Status(500);
        res.Json(ErrorBody(FailedPrefix + ErrorText(e)));
    }
  }

  /** The image block the body of the `src/` client leads to: present when
      the data URL split found both fields and neither is empty. */
  function ClientImage(payload: Option<DataUrl.ImagePayload>): Option<ImageBlock>
  {
    if payload.Some? && payload.value.mimeType.Some? && payload.value.data.Some?
       && payload.value.mimeType.value != "" && payload.value.data.value != ""
    then Some(ImageBlock(Str(payload.value.data.value), Str(payload.value.mimeType.value)))
    else None
  }

  /** The body the `src/` client posts is accepted whenever the prompt is
      non-empty: the SDK gets the prompt and the chosen quality unchanged (the
      default never applies) and the image the client read; an empty prompt
      is refused with 400 before the SDK is called. */
  lemma ClientRequestAccepted(prompt: string, payload: Option<DataUrl.ImagePayload>, quality: Quality.VideoQuality,
                              generate: Result<Value, Value>)
    ensures var h := Respond(Request("POST", ProxyClient.StartBody(prompt, payload, quality), map[]), generate);
      && (prompt == "" <==> h.answer == JsonAnswer(400, ErrorBody(PromptRequired)))
      && (prompt != "" ==> h.call == Some(Params(Model, Str(prompt), 2, Str(Quality.Name(quality)), ClientImage(payload))))
  {
    var body := ProxyClient.StartBody(prompt, payload, quality);
    assert !IsNullish(body) && OptGet(body, "prompt") == Str(prompt);
    if prompt != "" {
      ClientImageFields(payload);
      assert Truthy(OptGet(body, "quality"));
    }
  }

  /** The image member the `src/` client posts passes the handler's checks
      exactly when `ClientImage` says so, with the same two fields. */
  lemma ClientImageFields(payload: Option<DataUrl.ImagePayload>)
    ensures var image := ProxyClient.ImageValue(payload);
      && (ClientImage(payload).Some? <==> Truthy(image) && Truthy(OptGet(image, "data")) && Truthy(OptGet(image, "mimeType")))
      && (ClientImage(payload).Some? ==>
            ClientImage(payload).value == ImageBlock(OptGet(image, "data"), OptGet(image, "mimeType")))
  {
    if payload.Some? {
      var image := ProxyClient.ImageValue(payload);
      var p := payload.value;
      assert OptGet(image, "data") == (if p.data.Some? then Str(p.data.value) else Undefined);
      assert OptGet(image, "mimeType") == (if p.mimeType.Some? then Str(p.mimeType.value) else Undefined);
    }
  }

  /** Every JSON error this handler answers with reaches the user of the
      `src/` client as its own message, after the client's prefix. */
  lemma ErrorReachesClient(message: string)
    ensures ProxyClient.StartOperation(Success(ProxyClient.Reply(false, Success(ErrorBody(message)))))
         == Failure(NewError(message))
    ensures ProxyClient.Catch(NewError(message)) == ProxyClient.Rejected(ProxyClient.FailurePrefix + message)
  {
  }
}
