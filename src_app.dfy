/** The controller of the `src/` front end (`src/App.tsx`): a new request
    replaces the list of videos. `handleGenerate` is split at its `await`:
    `HandleGenerate` runs up to the call into the service and `Settle` runs
    when the service's promise settles; in between, the service may set the
    loading message and the interval may tick. `LOADING_MESSAGES` is given
    to the constructor. */
module SrcApp {
  import opened Wrappers
  import opened JsValues
  import opened AppCommon
  import JsStrings

  /** The state after `handleGenerate` reaches the service call, or returns
      early on a blank prompt. */
  function Submitted(s: Screen, prompt: string, messages: seq<string>): (t: Screen)
    requires messages != []
    ensures PromptBlank(prompt) ==> t == s.(error := Some(PromptMissing))
    ensures !PromptBlank(prompt) ==>
      t.isLoading && t.error.None? && t.videos == [] && t.loadingMessage == messages[0] && t.messageIndex == 0
  {
    if PromptBlank(prompt) then s.(error := Some(PromptMissing))
    else Screen(true, None, [], messages[0], 0)
  }

  /** The state after the service's promise settled: the returned URLs
      replace the list, or the rejection becomes the error; loading stops
      either way. */
  function Settled(s: Screen, result: Result<seq<string>, Value>): (t: Screen)
    ensures !t.isLoading && t.loadingMessage == s.loadingMessage && t.messageIndex == s.messageIndex
    ensures result.Success? ==> t.videos == result.value && t.error == s.error
    ensures result.Failure? ==> t.videos == s.videos && t.error == Some(ErrorShown(result.error))
  {
    match result
    case Success(urls) => s.(videos := urls, isLoading := false)
    case Failure(err) => s.(error := Some(ErrorShown(err)), isLoading := false)
  }

  /** A whole accepted request, whatever was on screen before: success shows
      exactly the new URLs and no error; failure shows the error and no
      videos, since the old ones were cleared when the request started. */
  lemma RequestReplaces(s: Screen, prompt: string, messages: seq<string>, ticks: nat,
                        result: Result<seq<string>, Value>)
    requires messages != [] && !PromptBlank(prompt)
    ensures var t := Settled(TickedTimes(Submitted(s, prompt, messages), messages, ticks), result);
      && !t.isLoading
      && (result.Success? ==> t.videos == result.value && t.error.None?)
      && (result.Failure? ==> t.videos == [] && t.error == Some(ErrorShown(result.error)))
  {
    TickedTimesRotates(Submitted(s, prompt, messages), messages, ticks);
  }

  /** After a request settles, the empty state shows exactly when it
      returned no URLs (success) or failed with an empty message. */
  lemma EmptyStateAfterRequest(s: Screen, prompt: string, messages: seq<string>, ticks: nat,
                               result: Result<seq<string>, Value>)
    requires messages != [] && !PromptBlank(prompt)
    ensures var t := Settled(TickedTimes(Submitted(s, prompt, messages), messages, ticks), result);
      (EmptyStateShown(t.isLoading, t.error, t.videos)
       <==> (result.Success? && result.value == []) || (result.Failure? && ErrorShown(result.error) == ""))
  {
    RequestReplaces(s, prompt, messages, ticks, result);
  }

  class App {
    const messages: seq<string>
    var isLoading: bool
    var error: Option<string>
    var videos: seq<string>
    var loadingMessage: string
    var messageIndex: nat

    predicate Valid()
      reads this
    {
      messages != [] && messageIndex < |messages|
    }

    function State(): Screen
      reads this
    {
      Screen(isLoading, error, videos, loadingMessage, messageIndex)
    }

    constructor (loadingMessages: seq<string>)
      requires loadingMessages != []
      ensures Valid() && messages == loadingMessages && State() == Initial(loadingMessages)
    {
      messages := loadingMessages;
      isLoading, error, videos := false, None, [];
      loadingMessage, messageIndex := loadingMessages[0], 0;
    }

    /** `handleGenerate` up to its `await`; `started` says whether the
        service is called. */
    method HandleGenerate(prompt: string) returns (started: bool)
      requires Valid()
      modifies this
      ensures Valid() && started == !PromptBlank(prompt)
      ensures State() == Submitted(old(State()), prompt, messages)
    {
      PromptBlankIffTrimEmpty(prompt);
      if JsStrings.Trim(prompt) == "" {
        error := Some(PromptMissing);
        return false;
      }
      isLoading := true;
      error := None;
      videos := [];
      loadingMessage := messages[0];
      // The effect that starts the interval begins its count at 0.
      messageIndex := 0;
      started := true;
    }

    /** `setLoadingMessage`, as the service calls it. */
    method SetLoadingMessage(message: string)
      modifies this
      ensures State() == old(State()).(loadingMessage := message)
    {
      loadingMessage := message;
    }

    /** One tick of the interval, which exists only while loading. */
    method Tick()
      requires Valid() && isLoading
      modifies this
      ensures Valid() && State() == Ticked(old(State()), messages)
    {
      messageIndex := (messageIndex + 1) % |messages|;
      loadingMessage := messages[messageIndex];
    }

    /** The rest of `handleGenerate`, once the service settled. */
    method Settle(result: Result<seq<string>, Value>)
      requires Valid()
      modifies this
      ensures Valid() && State() == Settled(old(State()), result)
    {
      match result {
        case Success(urls) =>
          videos := urls;
        case Failure(err) =>
          error := Some(if err.Err? then err.message else UnknownError);
      }
      isLoading := false;
    }

    /** The alert's dismiss button. */
    method DismissError()
      modifies this
      ensures State() == old(State()).(error := None)
    {
      error := None;
    }

    /** `!isLoading && !error && generatedVideos.length === 0`. */
    predicate ShowEmptyState()
      reads this
    {
      EmptyStateShown(isLoading, error, videos)
    }
  }
}
