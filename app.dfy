/** The controller of the root front end (`App.tsx`): videos accumulate,
    newest request first. `handleGenerate` is split at its `await` as in the
    `src/` controller; `LOADING_MESSAGES` is given to the constructor. */
module RootApp {
  import opened Wrappers
  import opened JsValues
  import opened AppCommon
  import JsStrings

  /** The state after `handleGenerate` reaches the service call, or returns
      early on a blank prompt; the videos on screen stay. */
  function Submitted(s: Screen, prompt: string, messages: seq<string>): (t: Screen)
    requires messages != []
    ensures t.videos == s.videos
    ensures PromptBlank(prompt) ==> t == s.(error := Some(PromptMissing))
    ensures !PromptBlank(prompt) ==>
      t.isLoading && t.error.None? && t.loadingMessage == messages[0] && t.messageIndex == 0
  {
    if PromptBlank(prompt) then s.(error := Some(PromptMissing))
    else s.(isLoading := true, error := None, loadingMessage := messages[0], messageIndex := 0)
  }

  /** The state after the service's promise settled: the returned URLs go in
      front of the list, or the rejection becomes the error. */
  function Settled(s: Screen, result: Result<seq<string>, Value>): (t: Screen)
    ensures !t.isLoading && t.loadingMessage == s.loadingMessage && t.messageIndex == s.messageIndex
    ensures result.Success? ==> t.videos == result.value + s.videos && t.error == s.error
    ensures result.Failure? ==> t.videos == s.videos && t.error == Some(ErrorShown(result.error))
  {
    match result
    case Success(urls) => s.(videos := urls + s.videos, isLoading := false)
    case Failure(err) => s.(error := Some(ErrorShown(err)), isLoading := false)
  }

  /** One accepted request, with any number of ticks while it runs. */
  function Request(s: Screen, prompt: string, messages: seq<string>, ticks: nat,
                   result: Result<seq<string>, Value>): Screen
    requires messages != [] && s.messageIndex < |messages|
  {
    Settled(TickedTimes(Submitted(s, prompt, messages), messages, ticks), result)
  }

  /** A request never loses a video: the earlier list stays, unchanged and
      in order, behind the new URLs (none on failure). */
  lemma RequestPrepends(s: Screen, prompt: string, messages: seq<string>, ticks: nat,
                        result: Result<seq<string>, Value>)
    requires messages != [] && s.messageIndex < |messages| && !PromptBlank(prompt)
    ensures var t := Request(s, prompt, messages, ticks, result);
      && !t.isLoading
      && (result.Success? ==> t.videos == result.value + s.videos && t.error.None?)
      && (result.Failure? ==> t.videos == s.videos && t.error == Some(ErrorShown(result.error)))
  {
    TickedTimesRotates(Submitted(s, prompt, messages), messages, ticks);
  }

  /** A blank prompt changes nothing but the error. */
  lemma BlankPromptOnlySetsError(s: Screen, prompt: string, messages: seq<string>)
    requires messages != [] && PromptBlank(prompt)
    ensures var t := Submitted(s, prompt, messages);
      t.isLoading == s.isLoading && t.videos == s.videos && t.loadingMessage == s.loadingMessage
      && t.error == Some(PromptMissing)
  {
  }

  /** What one settled request adds to the front of the list. */
  function Added(result: Result<seq<string>, Value>): seq<string>
  {
    if result.Success? then result.value else []
  }

  /** One request from its submission until it settles; a blank prompt is
      refused and adds nothing. */
  function Run(s: Screen, prompt: string, messages: seq<string>, result: Result<seq<string>, Value>): (t: Screen)
    requires messages != []
    ensures t.videos == (if PromptBlank(prompt) then s.videos else Added(result) + s.videos)
  {
    if PromptBlank(prompt) then Submitted(s, prompt, messages)
    else Settled(Submitted(s, prompt, messages), result)
  }

  /** The requests in turn, each settling before the next is made; the ticks
      in between do not touch the videos. */
  function Requests(s: Screen, prompts: seq<string>, messages: seq<string>,
                    results: seq<Result<seq<string>, Value>>): Screen
    requires messages != [] && |prompts| == |results|
    decreases |results|
  {
    if results == [] then s
    else Requests(Run(s, prompts[0], messages, results[0]), prompts[1..], messages, results[1..])
  }

  /** The URLs of the accepted requests that succeeded, newest first. */
  function NewestFirst(prompts: seq<string>, results: seq<Result<seq<string>, Value>>): seq<string>
    requires |prompts| == |results|
  {
    if results == [] then []
    else NewestFirst(prompts[1..], results[1..]) + (if PromptBlank(prompts[0]) then [] else Added(results[0]))
  }

  /** After any run of requests the list holds every URL returned, the latest
      request's first, followed by what was there at the start. */
  lemma {:induction false} RequestsAccumulate(s: Screen, prompts: seq<string>, messages: seq<string>,
                                              results: seq<Result<seq<string>, Value>>)
    requires messages != [] && |prompts| == |results|
    ensures Requests(s, prompts, messages, results).videos == NewestFirst(prompts, results) + s.videos
    decreases |results|
  {
    if results != [] {
      var next := Run(s, prompts[0], messages, results[0]);
      RequestsAccumulate(next, prompts[1..], messages, results[1..]);
    }
  }

  class App {
    const messages: seq<string>
    var isLoading: bool
    var error: Option<string>
    var videos: seq<string>
    var loadingMessage: string
    var messageIndex: nat

    predicate Valid()
      reads this
    {
      messages != [] && messageIndex < |messages|
    }

    function State(): Screen
      reads this
    {
      Screen(isLoading, error, videos, loadingMessage, messageIndex)
    }

    constructor (loadingMessages: seq<string>)
      requires loadingMessages != []
      ensures Valid() && messages == loadingMessages && State() == Initial(loadingMessages)
    {
      messages := loadingMessages;
      isLoading, error, videos := false, None, [];
      loadingMessage, messageIndex := loadingMessages[0], 0;
    }

    /** `handleGenerate` up to its `await`; `started` says whether the
        service is called. */
    method HandleGenerate(prompt: string) returns (started: bool)
      requires Valid()
      modifies this
      ensures Valid() && started == !PromptBlank(prompt)
      ensures State() == Submitted(old(State()), prompt, messages)
    {
      PromptBlankIffTrimEmpty(prompt);
      if JsStrings.Trim(prompt) == "" {
        error := Some(PromptMissing);
        return false;
      }
      isLoading := true;
      error := None;
      loadingMessage := messages[0];
      // The effect that starts the interval begins its count at 0.
      messageIndex := 0;
      started := true;
    }

    /** `setLoadingMessage`, as the service calls it. */
    method SetLoadingMessage(message: string)
      modifies this
      ensures State() == old(State()).(loadingMessage := message)
    {
      loadingMessage := message;
    }

    /** One tick of the interval, which exists only while loading. */
    method Tick()
      requires Valid() && isLoading
      modifies this
      ensures Valid() && State() == Ticked(old(State()), messages)
    {
      messageIndex := (messageIndex + 1) % |messages|;
      loadingMessage := messages[messageIndex];
    }

    /** The rest of `handleGenerate`: `setGeneratedVideos(prev => [...videoUrls,
        ...prev])` on success. */
    method Settle(result: Result<seq<string>, Value>)
      requires Valid()
      modifies this
      ensures Valid() && State() == Settled(old(State()), result)
    {
      match result {
        case Success(urls) =>
          videos := urls + videos;
        case Failure(err) =>
          error := Some(if err.Err? then err.message else UnknownError);
      }
      isLoading := false;
    }

    /** The alert's dismiss button. */
    method DismissError()
      modifies this
      ensures State() == old(State()).(error := None)
    {
      error := None;
    }
  }
}
