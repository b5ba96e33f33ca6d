/** The worker's `invoke` endpoint: it builds the chat request, calls the
    inference backend, and stores one summary line under the job id. */
module Worker {
  import opened Wrappers
  import opened Text
  import opened Store

  /** `OUTPUT_TOKENS` when the environment does not set it. */
  const DefaultOutputTokens: int := 500

  const ModelName: string := "deepseek-ai/DeepSeek-R1-Distill-Qwen-32B"

  const SystemContent: string :=
    "You are a helpful assistant designed to extract structured data from documents."

  /** The text placed before the prompt in the user message. */
  const ExtractionInstruction: string :=
    "Please extract the invoice number and invoice date from the following document text: "

  /** The prefix `invoke` gives the text of a failed backend call. */
  const ErrorPrefix: string := "Error: "

  datatype ChatMessage = ChatMessage(role: string, content: string)

  /** The body posted to the backend; `minTokens` is an optional field of its
      API that the worker leaves unset. The sampling temperature is not modelled. */
  datatype ChatRequest = ChatRequest(
    model: string,
    messages: seq<ChatMessage>,
    maxTokens: int,
    minTokens: Option<int>,
    ignoreEos: bool)

  /** What the backend call comes to: the first choice's message content when it is
      a string, a reply whose content is JSON `null` (the chat API allows it), or the
      text of the exception raised by the post, the status check or the JSON access. */
  datatype BackendOutcome = Success(content: string) | NullContent | Failure(error: string)

  /** What `invoke` returns to its caller: the JSON body, or the `TypeError` that
      `len(None)` raises after the try, which the server turns into a 500 reply. */
  datatype InvokeResponse = InvokeResponse(status: string, inferenceTime: string) | LengthOfNone

  /** The request `invoke` sends for `prompt`. */
  function BuildRequest(prompt: string, outputTokens: int): ChatRequest
  {
    ChatRequest(
      ModelName,
      [ChatMessage("system", SystemContent), ChatMessage("user", ExtractionInstruction + prompt)],
      outputTokens,
      None,
      true)
  }

  /** The document text a request carries: its user message after the instruction. */
  function PromptOf(req: ChatRequest): Option<string>
  {
    if |req.messages| == 2 && req.messages[0] == ChatMessage("system", SystemContent)
       && req.messages[1].role == "user"
       && |ExtractionInstruction| <= |req.messages[1].content|
       && req.messages[1].content[..|ExtractionInstruction|] == ExtractionInstruction
    then Some(req.messages[1].content[|ExtractionInstruction|..])
    else None
  }

  /** The request carries the prompt verbatim after the fixed messages, asks for
      exactly `outputTokens` as its maximum, disables early stopping and sets no minimum. */
  lemma RequestCarriesPrompt(prompt: string, outputTokens: int)
    ensures PromptOf(BuildRequest(prompt, outputTokens)) == Some(prompt)
    ensures BuildRequest(prompt, outputTokens).maxTokens == outputTokens
    ensures BuildRequest(prompt, outputTokens).ignoreEos
    ensures BuildRequest(prompt, outputTokens).minTokens == None
    ensures BuildRequest(prompt, outputTokens).model == ModelName
  {
    var content := ExtractionInstruction + prompt;
    assert content[..|ExtractionInstruction|] == ExtractionInstruction;
    assert content[|ExtractionInstruction|..] == prompt;
  }

  /** Distinct prompts give distinct requests. */
  lemma RequestInjective(p1: string, p2: string, outputTokens: int)
    requires BuildRequest(p1, outputTokens) == BuildRequest(p2, outputTokens)
    ensures p1 == p2
  {
    RequestCarriesPrompt(p1, outputTokens);
    RequestCarriesPrompt(p2, outputTokens);
  }

  /** `generated_text` after the try/except; `None` is Python's `None`. */
  function GeneratedText(outcome: BackendOutcome): Option<string>
  {
    match outcome
    case Success(content) => Some(content)
    case NullContent => None
    case Failure(error) => Some(ErrorPrefix + error)
  }

  /** The length reported for a failed call counts the seven characters of "Error: ";
      a null content has no length. */
  lemma GeneratedLength(outcome: BackendOutcome)
    ensures GeneratedText(outcome).None? <==> outcome.NullContent?
    ensures outcome.Success? ==> |GeneratedText(outcome).value| == |outcome.content|
    ensures outcome.Failure? ==> |GeneratedText(outcome).value| == 7 + |outcome.error|
  {
  }

  /** `final_result`, with `elapsed` the already formatted seconds. */
  function Summary(elapsed: string, outputLen: nat): string
  {
    "Inference Time: " + elapsed + "s | Output Length: " + NatToString(outputLen) + " chars"
  }

  /** The text `:.4f` produces for a wall-clock difference: digits and a decimal
      point, with a leading `-` when the clock stepped back. */
  predicate IsTimeText(t: string)
  {
    |t| > 0 && forall k :: 0 <= k < |t| ==> IsDigit(t[k]) || t[k] == '.' || (k == 0 && t[k] == '-')
  }

  /** Splitting a summary at `|` gives exactly two fields, the time part and the
      length part, and the digits between " Output Length: " and " chars" read back
      as the length. */
  lemma SummaryFields(elapsed: string, outputLen: nat)
    requires '|' !in elapsed
    ensures var fields := Split(Summary(elapsed, outputLen), '|');
      |fields| == 2
      && fields[0] == "Inference Time: " + elapsed + "s "
      && |fields[1]| >= 22
      && fields[1][..16] == " Output Length: " && fields[1][|fields[1]| - 6..] == " chars"
      && (forall k :: 16 <= k < |fields[1]| - 6 ==> IsDigit(fields[1][k]))
      && DecimalValue(fields[1][16..|fields[1]| - 6]) == outputLen
  {
    var head := "Inference Time: " + elapsed + "s ";
    var tail := " Output Length: " + NatToString(outputLen) + " chars";
    assert Summary(elapsed, outputLen) == head + ['|'] + tail;
    assert '|' !in head by {
      assert forall k :: 0 <= k < |elapsed| ==> head[k + 16] == elapsed[k];
    }
    LengthField(outputLen);
    SplitJoined(head, '|', tail);
  }

  /** The part of a summary after its `|`: no `|`, and the digits between the fixed
      texts read back as the length. */
  lemma LengthField(outputLen: nat)
    ensures var tail := " Output Length: " + NatToString(outputLen) + " chars";
      '|' !in tail && |tail| >= 22
      && tail[..16] == " Output Length: " && tail[|tail| - 6..] == " chars"
      && (forall k :: 16 <= k < |tail| - 6 ==> IsDigit(tail[k]))
      && DecimalValue(tail[16..|tail| - 6]) == outputLen
  {
    var digits := NatToString(outputLen);
    var tail := " Output Length: " + digits + " chars";
    assert forall k :: 0 <= k < |digits| ==> tail[k + 16] == digits[k];
    assert tail[16..|tail| - 6] == digits;
    DecimalRoundTrip(outputLen);
  }

  /** A text that a reader would take for an error report. */
  predicate StartsWithError(s: string)
  {
    |s| >= 6 && s[..6] == "Error:"
  }

  /** A summary is never empty and never starts with "Error:", on either path. */
  lemma SummaryNotError(elapsed: string, outputLen: nat)
    ensures Summary(elapsed, outputLen) != ""
    ensures !StartsWithError(Summary(elapsed, outputLen))
  {
    assert Summary(elapsed, outputLen)[0] == 'I';
  }

  /** The results after `invoke`: exactly one key, the payload's job id, is set, unless
      the content was null, in which case `len` raises before the write and nothing is set. */
  function AfterInvoke(s: StoreState, payload: Job, backend: ChatRequest -> BackendOutcome,
                       elapsed: string, outputTokens: int): StoreState
  {
    match GeneratedText(backend(BuildRequest(payload.prompt, outputTokens)))
    case None => s
    case Some(text) => StoreState(s.queue, s.results[payload.id := Summary(elapsed, |text|)])
  }

  /** `invoke`: `backend` answers the request, `elapsed` is the measured time. */
  method Invoke(store: JobStore, payload: Job, backend: ChatRequest -> BackendOutcome,
                elapsed: string, outputTokens: int) returns (response: InvokeResponse)
    modifies store
    ensures store.State() == AfterInvoke(old(store.State()), payload, backend, elapsed, outputTokens)
    ensures response == if backend(BuildRequest(payload.prompt, outputTokens)).NullContent?
                        then LengthOfNone else InvokeResponse("processed", elapsed)
  {
    var request := BuildRequest(payload.prompt, outputTokens);
    var generatedText: Option<string> := Some("");
    match backend(request) {
      case Success(content) =>
        generatedText := Some(content);
      case NullContent =>
        generatedText := None;
      case Failure(error) =>
        generatedText := Some(ErrorPrefix + error);
    }
    if generatedText.None? {
      response := LengthOfNone;
      return;
    }
    var outputLen := |generatedText.value|;
    var finalResult := Summary(elapsed, outputLen);
    store.results := store.results[payload.id := finalResult];
    response := InvokeResponse("processed", elapsed);
  }
}
