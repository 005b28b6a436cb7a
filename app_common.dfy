/** What the two front-end controllers (`src/App.tsx` and `App.tsx`) share:
    the prompt check, how a rejection becomes the shown error, and the
    rotation of the loading messages. */
module AppCommon {
  import opened Wrappers
  import opened JsValues
  import JsStrings

  const PromptMissing: string := "الرجاء إدخال وصف لإنشاء الفيديو."
  const UnknownError: string := "حدث خطأ غير معروف."

  /** A prompt made of white space only, character by character. */
  predicate PromptBlank(prompt: string)
  {
    prompt == [] || (JsStrings.IsJsWhitespace(prompt[0]) && PromptBlank(prompt[1..]))
  }

  /** `!prompt.trim()` holds exactly for the blank prompts. */
  lemma {:induction false} PromptBlankIffTrimEmpty(prompt: string)
    ensures PromptBlank(prompt) <==> JsStrings.Trim(prompt) == ""
  {
    BlankCharByChar(prompt);
    JsStrings.TrimEmptyIffBlank(prompt);
  }

  lemma {:induction false} BlankCharByChar(prompt: string)
    ensures PromptBlank(prompt) <==> JsStrings.IsBlank(prompt)
  {
    if prompt != [] {
      BlankCharByChar(prompt[1..]);
      assert forall i :: 1 <= i < |prompt| ==> prompt[i] == prompt[1..][i - 1];
    }
  }

  /** `err instanceof Error ? err.message : 'حدث خطأ غير معروف.'`. */
  function ErrorShown(err: Value): (s: string)
    ensures err.Err? ==> s == err.message
    ensures !err.Err? ==> s == UnknownError
  {
    if err.Err? then err.message else UnknownError
  }

  /** `(messageIndex + 1) % LOADING_MESSAGES.length`. */
  function NextIndex(i: nat, n: nat): (j: nat)
    requires n > 0
    ensures j < n
    ensures i + 1 < n ==> j == i + 1
    ensures i + 1 == n ==> j == 0
  {
    (i + 1) % n
  }

  /** The index after `k` ticks of the interval, which starts at 0. */
  function IndexAfter(k: nat, n: nat): (i: nat)
    requires n > 0
    ensures i < n
  {
    if k == 0 then 0 else NextIndex(IndexAfter(k - 1, n), n)
  }

  /** The remainder is the one of any decomposition `a == q * n + r`. */
  lemma ModOfDecomposition(a: int, n: int, q: int, r: int)
    requires n > 0 && 0 <= r < n && a == q * n + r
    ensures a % n == r
  {
    var d := q - a / n;
    assert d * n == a % n - r;
    MultipleBounds(d, n);
  }

  /** A non-zero multiple of `n` is at least `n` away from zero. */
  lemma {:induction false} MultipleBounds(d: int, n: int)
    requires n > 0
    ensures d > 0 ==> d * n >= n
    ensures d < 0 ==> d * n <= -n
    decreases if d < 0 then -d else d
  {
    if d > 1 {
      MultipleBounds(d - 1, n);
      assert d * n == (d - 1) * n + n;
    } else if d < -1 {
      MultipleBounds(d + 1, n);
      assert d * n == (d + 1) * n - n;
    }
  }

  /** Adding one moves the remainder one step round the cycle. */
  lemma ModSucc(a: nat, n: nat)
    requires n > 0
    ensures (a + 1) % n == NextIndex(a % n, n)
  {
    var q, r := a / n, a % n;
    if r + 1 == n {
      ModOfDecomposition(a + 1, n, q + 1, 0);
    } else {
      ModOfDecomposition(a + 1, n, q, r + 1);
    }
  }

  /** The rotation counts the ticks modulo the number of messages. */
  lemma {:induction false} IndexAfterIsModulo(k: nat, n: nat)
    requires n > 0
    ensures IndexAfter(k, n) == k % n
  {
    if k > 0 {
      IndexAfterIsModulo(k - 1, n);
      ModSucc(k - 1, n);
    }
  }

  /** Every message is shown: message `j` after `j` ticks, and again after
      every full round. */
  lemma RotationReachesEvery(j: nat, rounds: nat, n: nat)
    requires j < n
    ensures IndexAfter(j + rounds * n, n) == j
  {
    IndexAfterIsModulo(j + rounds * n, n);
    ModOfDecomposition(j + rounds * n, n, rounds, j);
  }

  /** The controller's state: `isLoading`, `error`, `generatedVideos`,
      `loadingMessage`, and the index the loading interval has reached. */
  datatype Screen = Screen(isLoading: bool, error: Option<string>, videos: seq<string>,
                           loadingMessage: string, messageIndex: nat)

  /** The state on first render. */
  function Initial(messages: seq<string>): (s: Screen)
    requires messages != []
    ensures !s.isLoading && s.error.None? && s.videos == [] && s.loadingMessage == messages[0]
  {
    Screen(false, None, [], messages[0], 0)
  }

  /** One tick of the loading interval: the next message in the rotation. */
  function Ticked(s: Screen, messages: seq<string>): (t: Screen)
    requires messages != [] && s.messageIndex < |messages|
    ensures t.messageIndex < |messages| && t.loadingMessage == messages[t.messageIndex]
    ensures t.messageIndex == NextIndex(s.messageIndex, |messages|)
    ensures t.isLoading == s.isLoading && t.error == s.error && t.videos == s.videos
  {
    var i := NextIndex(s.messageIndex, |messages|);
    s.(messageIndex := i, loadingMessage := messages[i])
  }

  /** `k` ticks from the start of loading show message `k % n`. */
  function TickedTimes(s: Screen, messages: seq<string>, k: nat): (t: Screen)
    requires messages != [] && s.messageIndex < |messages|
    ensures t.messageIndex < |messages|
    decreases k
  {
    if k == 0 then s else Ticked(TickedTimes(s, messages, k - 1), messages)
  }

  /** After loading starts at message 0, the `k`-th tick shows message
      `k % n`, and the videos and error stay as they were. */
  lemma {:induction false} TickedTimesRotates(s: Screen, messages: seq<string>, k: nat)
    requires messages != [] && s.messageIndex == 0
    ensures var t := TickedTimes(s, messages, k);
      && t.messageIndex == IndexAfter(k, |messages|) == k % |messages|
      && (k > 0 ==> t.loadingMessage == messages[k % |messages|])
      && t.videos == s.videos && t.error == s.error && t.isLoading == s.isLoading
  {
    IndexAfterIsModulo(k, |messages|);
    if k > 0 {
      TickedTimesRotates(s, messages, k - 1);
    }
  }

  /** When the empty state shows: not loading, no error (`null` or an empty
      message, both falsy) and no videos. */
  predicate EmptyStateShown(isLoading: bool, error: Option<string>, videos: seq<string>)
  {
    !isLoading && (error.None? || error.value == "") && videos == []
  }
}
