/**
 * The parts of the conversation controller that only compute values: the
 * prompt builder, the request sent to the chat service, the response mapper
 * and the ambient API-key swap around the service call.
 */
module ChatProtocol {
  import opened Wrappers
  import opened Strings

  /** `Defaults.WelcomeMessage`: defined outside the files modelled; only equality with it matters. */
  const WelcomeMessage: string

  const UnknownError := "Unknown error."

  /** The role and text of one transcript message, as the prompt builder reads it. */
  datatype Turn = Turn(role: Option<string>, text: Option<string>)

  /** One entry of the provider payload (`ChatMessage`). */
  datatype PromptEntry = PromptEntry(role: Option<string>, content: Option<string>)

  /**
   * The content sent for the message at index 0: the directions (or "" when
   * there are none) in place of an unedited welcome text, otherwise the text itself.
   */
  function FirstContent(text: Option<string>, directions: Option<string>): Option<string> {
    if text != Some(WelcomeMessage) then text else Some(directions.GetOr(""))
  }

  /** The reference definition of the prompt: one entry per turn, in order. */
  function BuildPrompt(turns: seq<Turn>, directions: Option<string>): seq<PromptEntry> {
    seq(|turns|, i requires 0 <= i < |turns| =>
      PromptEntry(turns[i].role, if i == 0 then FirstContent(turns[0].text, directions) else turns[i].text))
  }

  /** The turns passed through unchanged. */
  function Verbatim(turns: seq<Turn>): seq<PromptEntry> {
    seq(|turns|, i requires 0 <= i < |turns| => PromptEntry(turns[i].role, turns[i].text))
  }

  /**
   * The prompt has one entry per message in transcript order, each with the
   * message's role; every entry after the first carries its text verbatim.
   */
  lemma PromptKeepsTranscript(turns: seq<Turn>, directions: Option<string>)
    ensures var p := BuildPrompt(turns, directions);
      && |p| == |turns|
      && (forall i :: 0 <= i < |p| ==> p[i].role == turns[i].role)
      && (forall i :: 1 <= i < |p| ==> p[i].content == turns[i].text)
  {
  }

  /** Index 0 carries the directions exactly when its text is the welcome text. */
  lemma PromptFirstEntry(turns: seq<Turn>, directions: Option<string>)
    requires turns != []
    ensures var c := BuildPrompt(turns, directions)[0].content;
      && (turns[0].text == Some(WelcomeMessage) ==> c == Some(directions.GetOr("")))
      && (turns[0].text != Some(WelcomeMessage) ==> c == turns[0].text)
  {
  }

  /**
   * The welcome rule is the only rewrite: a prompt is the verbatim transcript
   * with at most its first entry's content replaced.
   */
  lemma {:induction false} PromptIsVerbatimButFirst(turns: seq<Turn>, directions: Option<string>)
    requires turns != []
    ensures BuildPrompt(turns, directions)
      == [PromptEntry(turns[0].role, FirstContent(turns[0].text, directions))] + Verbatim(turns[1..])
    ensures turns[0].text != Some(WelcomeMessage) ==> BuildPrompt(turns, directions) == Verbatim(turns)
  {
    var p := BuildPrompt(turns, directions);
    var q := [PromptEntry(turns[0].role, FirstContent(turns[0].text, directions))] + Verbatim(turns[1..]);
    assert |p| == |q|;
    forall i | 0 <= i < |p| ensures p[i] == q[i] {
      if i > 0 {
        assert q[i] == Verbatim(turns[1..])[i - 1];
      }
    }
  }

  /** The payload for the chat service (`ChatServiceSettings`); decimals are reals. */
  datatype ChatRequest = ChatRequest(
    model: Option<string>,
    messages: seq<PromptEntry>,
    suffix: Option<string>,
    temperature: real,
    maxTokens: int,
    topP: real,
    stop: Option<seq<string>>)

  /**
   * The request built from the settings' model, temperature and token limit:
   * no suffix, no stop sequences and top-p fixed at 1.0 whatever the settings say.
   */
  function RequestFor(model: Option<string>, temperature: real, maxTokens: int, prompt: seq<PromptEntry>): (r: ChatRequest)
    ensures r.messages == prompt && r.topP == 1.0 && r.suffix == None && r.stop == None
    ensures r.model == model && r.temperature == temperature && r.maxTokens == maxTokens
  {
    ChatRequest(model, prompt, None, temperature, maxTokens, 1.0, None)
  }

  /**
   * What the service call produced, as the controller sees it once every
   * exception (cancellation included) has been swallowed into "no response".
   */
  datatype TransportOutcome =
      /** No response: a null one, or an exception swallowed. */
    | NoResponse
      /** A `ChatResponseError`, with `Error?.Message`. */
    | ErrorResponse(errorMessage: Option<string>)
      /** A `ChatResponseSuccess`, with `Choices?.FirstOrDefault()?.Message?.Content`. */
    | SuccessResponse(firstContent: Option<string>)
      /** A response of neither kind. */
    | OtherResponse

  /** `ChatResultViewModel`. */
  datatype ChatResult = ChatResult(message: Option<string>, isError: bool)

  /** The response mapper: every outcome yields a result; only absent and error responses are errors. */
  function MapResponse(outcome: TransportOutcome): (r: ChatResult)
    ensures r.isError <==> outcome.NoResponse? || outcome.ErrorResponse?
    ensures outcome.NoResponse? ==> r.message == Some(UnknownError)
    ensures outcome.ErrorResponse? ==> r.message == Some(outcome.errorMessage.GetOr(UnknownError))
    ensures outcome.SuccessResponse? ==> r.message.Some? && Trimmed(r.message.value)
    ensures outcome.SuccessResponse? && outcome.firstContent.Some? ==> r.message == Some(Trim(outcome.firstContent.value))
    ensures outcome == SuccessResponse(None) ==> r.message == Some("")
    ensures outcome.OtherResponse? ==> r.message == None
  {
    match outcome
    case NoResponse => ChatResult(Some(UnknownError), true)
    case ErrorResponse(m) => ChatResult(Some(m.GetOr(UnknownError)), true)
    case SuccessResponse(c) => ChatResult(Some(if c.Some? then Trim(c.value) else ""), false)
    case OtherResponse => ChatResult(None, false)
  }

  /** A successful response's text is its first choice's content with the surrounding white space removed. */
  lemma SuccessTextIsTrimmedContent(ws: string, content: string, ws': string)
    requires AllWhiteSpace(ws) && Trimmed(content) && AllWhiteSpace(ws')
    ensures MapResponse(SuccessResponse(Some(ws + content + ws'))) == ChatResult(Some(content), false)
  {
    TrimUnique(ws, content, ws');
  }

  /**
   * The ambient API-key variable around the service call. With no chat
   * service the variable is not touched. A non-blank per-chat key replaces it
   * for the call, and the prior value is put back only when it was not blank.
   */
  function ApiKeyDuringCall(serviceFound: bool, prior: Option<string>, apiKey: Option<string>): Option<string> {
    if serviceFound && !IsNullOrWhiteSpace(apiKey) then apiKey else prior
  }

  function ApiKeyAfterCall(serviceFound: bool, prior: Option<string>, apiKey: Option<string>): (after: Option<string>)
    ensures !IsNullOrWhiteSpace(prior) ==> after == prior
    ensures serviceFound && !IsNullOrWhiteSpace(apiKey) && IsNullOrWhiteSpace(prior) ==> after == apiKey
    ensures (!serviceFound || IsNullOrWhiteSpace(apiKey)) ==> after == prior
  {
    var during := ApiKeyDuringCall(serviceFound, prior, apiKey);
    if serviceFound && !IsNullOrWhiteSpace(apiKey) && !IsNullOrWhiteSpace(prior) then prior else during
  }
}
