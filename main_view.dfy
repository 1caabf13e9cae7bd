/**
 * The legacy UI's send controller (`MainViewModel`): a transcript in which
 * every prompt message links to the message holding its completion.
 */
module MainView {
  import opened Wrappers
  import opened Strings

  const WelcomeText := "Hi! I'm Clippy, your Windows Assistant. Would you like to get some assistance?"
  const DefaultTemperature := 0.6
  const DefaultMaxTokens := 100

  /** `SettingsViewModel`, reduced to the two values the controller reads. */
  class Settings {
    var temperature: real
    var maxTokens: int

    constructor (temperature: real, maxTokens: int)
      ensures this.temperature == temperature && this.maxTokens == maxTokens
    {
      this.temperature := temperature;
      this.maxTokens := maxTokens;
    }
  }

  /** `MessageViewModel`: the typed prompt, the shown text, two flags and the link to the result message. */
  class Message {
    var prompt: Option<string>
    var message: Option<string>
    var isSent: bool
    var isAwaiting: bool
    var result: Message?

    constructor ()
      ensures prompt == None && message == None && !isSent && !isAwaiting && result == null
    {
      prompt, message, isSent, isAwaiting, result := None, None, false, false, null;
    }
  }

  /** What the completion call produced. */
  datatype CompletionOutcome =
      /** The call threw; nothing around it catches the exception. */
    | ServiceThrew
      /** A null response. */
    | NullResponse
      /** No choices, or a null first choice. */
    | NoChoice
      /** The first choice, with its `Text`. */
    | FirstChoice(text: Option<string>)

  /** The arguments of the completion call. */
  datatype CompletionRequest = CompletionRequest(prompt: string, temperature: real, maxTokens: int)

  /**
   * The value `Choices?.FirstOrDefault()?.Text.Trim()` gives the result
   * message, or `None` when `Send` throws before it has one: the call itself
   * threw, or evaluating the expression throws a null-reference exception (a
   * null response, or a first choice whose text is null).
   */
  function ResultText(outcome: CompletionOutcome): (r: Option<Option<string>>)
    ensures r.None? <==> outcome.ServiceThrew? || outcome.NullResponse? || outcome == FirstChoice(None)
    ensures outcome.NoChoice? ==> r == Some(None)
    ensures outcome.FirstChoice? && outcome.text.Some? ==> r == Some(Some(Trim(outcome.text.value)))
  {
    match outcome
    case ServiceThrew => None
    case NullResponse => None
    case NoChoice => Some(None)
    case FirstChoice(t) => if t.Some? then Some(Some(Trim(t.value))) else None
  }

  /** A first choice's text becomes the result message with the surrounding white space removed. */
  lemma ResultTextIsTrimmedChoice(ws: string, text: string, ws': string)
    requires AllWhiteSpace(ws) && Trimmed(text) && AllWhiteSpace(ws')
    ensures ResultText(FirstChoice(Some(ws + text + ws'))) == Some(Some(text))
  {
    TrimUnique(ws, text, ws');
  }

  class MainViewModel {
    var messages: Option<seq<Message>>
    var currentMessage: Message?
    var settings: Settings?
    var isEnabled: bool

    /** Seeds the transcript with the unsent welcome message and the default settings. */
    constructor ()
      ensures settings != null && fresh(settings)
      ensures settings.temperature == DefaultTemperature && settings.maxTokens == DefaultMaxTokens
      ensures messages.Some? && |messages.value| == 1 && fresh(messages.value[0])
      ensures var w := messages.value[0];
        w.prompt == Some("") && w.message == Some(WelcomeText) && !w.isSent && !w.isAwaiting && w.result == null
      ensures currentMessage == messages.value[0] && isEnabled
    {
      settings := new Settings(DefaultTemperature, DefaultMaxTokens);
      isEnabled := true;
      var welcome := new Message();
      welcome.prompt := Some("");
      welcome.message := Some(WelcomeText);
      welcome.isSent := false;
      messages := Some([welcome]);
      currentMessage := welcome;
    }

    function Temperature(): real
      reads this, settings
    {
      if settings == null then DefaultTemperature else settings.temperature
    }

    function MaxTokens(): int
      reads this, settings
    {
      if settings == null then DefaultMaxTokens else settings.maxTokens
    }

    /** Whether `Send` gets past its two guards. */
    predicate Sends(sendMessage: Message)
      reads this, sendMessage
    {
      messages.Some? && !IsNullOrEmpty(sendMessage.prompt)
    }

    /**
     * The first phase of `Send`: disable, mark the sent message, pick or
     * append the prompt message, move the prompt into it and mark it awaiting.
     */
    method BeginSend(sendMessage: Message) returns (promptMessage: Message)
      requires messages.Some?
      modifies this, sendMessage
      ensures !isEnabled && settings == old(settings) && currentMessage == promptMessage
      ensures old(sendMessage.result) != null ==> promptMessage == sendMessage && messages == old(messages)
      ensures old(sendMessage.result) == null ==>
        && fresh(promptMessage) && messages == Some(old(messages).value + [promptMessage])
        && promptMessage.result == null
        && sendMessage.prompt == old(sendMessage.prompt) && sendMessage.message == old(sendMessage.message)
        && sendMessage.isAwaiting == old(sendMessage.isAwaiting) && sendMessage.result == old(sendMessage.result)
      ensures sendMessage.isSent && sendMessage.result == old(sendMessage.result)
      ensures promptMessage.message == old(sendMessage.prompt) && promptMessage.prompt == Some("")
      ensures promptMessage.isSent && promptMessage.isAwaiting
    {
      isEnabled := false;
      sendMessage.isSent := true;
      if sendMessage.result != null {
        promptMessage := sendMessage;
      } else {
        promptMessage := new Message();
        messages := Some(messages.value + [promptMessage]);
      }
      promptMessage.message := sendMessage.prompt;
      promptMessage.prompt := Some("");
      promptMessage.isSent := true;
      currentMessage := promptMessage;
      promptMessage.isAwaiting := true;
    }

    /** The second phase: reuse the linked result message, marking it sent, or append an unsent one. */
    method AttachResult(linked: Message?) returns (resultMessage: Message)
      requires messages.Some?
      modifies this, linked
      ensures settings == old(settings) && isEnabled == old(isEnabled) && currentMessage == old(currentMessage)
      ensures linked != null ==>
        && resultMessage == linked && messages == old(messages) && resultMessage.isSent
        && resultMessage.prompt == old(linked.prompt) && resultMessage.message == old(linked.message)
        && resultMessage.isAwaiting == old(linked.isAwaiting) && resultMessage.result == old(linked.result)
      ensures linked == null ==>
        && fresh(resultMessage) && messages == Some(old(messages).value + [resultMessage])
        && resultMessage.prompt == None && resultMessage.message == None
        && !resultMessage.isSent && !resultMessage.isAwaiting && resultMessage.result == null
    {
      if linked == null {
        var created := new Message();
        created.isSent := false;
        messages := Some(messages.value + [created]);
        resultMessage := created;
      } else {
        resultMessage := linked;
        resultMessage.isSent := true;
      }
    }

    /** The last phase: show the completion text, link the prompt to its result and re-enable. */
    method FinishSend(promptMessage: Message, resultMessage: Message, text: Option<string>)
      modifies this, promptMessage, resultMessage
      ensures messages == old(messages) && settings == old(settings) && isEnabled
      ensures currentMessage == resultMessage && resultMessage.message == text && resultMessage.prompt == Some("")
      ensures !promptMessage.isAwaiting && promptMessage.result == resultMessage
      ensures promptMessage.isSent == old(promptMessage.isSent) && resultMessage.isSent == old(resultMessage.isSent)
      ensures promptMessage != resultMessage ==>
        && promptMessage.message == old(promptMessage.message) && promptMessage.prompt == old(promptMessage.prompt)
        && resultMessage.isAwaiting == old(resultMessage.isAwaiting) && resultMessage.result == old(resultMessage.result)
    {
      resultMessage.message := text;
      resultMessage.prompt := Some("");
      currentMessage := resultMessage;
      promptMessage.isAwaiting := false;
      promptMessage.result := resultMessage;
      isEnabled := true;
    }

    /**
     * `Send`. A fresh send (no linked result) appends a prompt message and a
     * result message; a re-send reuses the linked result message. `faulted`
     * says that the call or reading its response threw, leaving the controller
     * disabled with the prompt message still awaiting; when the call itself
     * threw, no result message has been appended or marked sent.
     */
    method Send(sendMessage: Message, outcome: CompletionOutcome)
      returns (request: Option<CompletionRequest>, faulted: bool)
      modifies this, sendMessage, sendMessage.result
      ensures !old(Sends(sendMessage)) ==>
        && request == None && !faulted && unchanged(this) && unchanged(sendMessage)
        && (old(sendMessage.result) != null ==> unchanged(old(sendMessage.result)))
      ensures old(Sends(sendMessage)) ==>
        && request == Some(CompletionRequest(old(sendMessage.prompt).value, old(Temperature()), old(MaxTokens())))
        && faulted == ResultText(outcome).None?
        && isEnabled == !faulted && settings == old(settings) && messages.Some?
      // a fresh send
      ensures old(Sends(sendMessage)) && old(sendMessage.result) == null ==>
        && |messages.value| == |old(messages).value| + (if outcome.ServiceThrew? then 1 else 2)
        && messages.value[..|old(messages).value|] == old(messages).value
        && var pm := messages.value[|old(messages).value|];
          && fresh(pm) && pm.message == old(sendMessage.prompt) && pm.prompt == Some("") && pm.isSent
          && pm.isAwaiting == faulted && (faulted ==> pm.result == null && currentMessage == pm)
          && sendMessage.isSent && sendMessage.prompt == old(sendMessage.prompt)
          && sendMessage.message == old(sendMessage.message)
          && sendMessage.isAwaiting == old(sendMessage.isAwaiting) && sendMessage.result == null
      ensures old(Sends(sendMessage)) && old(sendMessage.result) == null && !outcome.ServiceThrew? ==>
        && |messages.value| == |old(messages).value| + 2
        && var pm, rm := messages.value[|old(messages).value|], messages.value[|old(messages).value| + 1];
          && fresh(rm) && pm != rm
          && !rm.isSent && !rm.isAwaiting && rm.result == null
          && rm.message == (if faulted then None else ResultText(outcome).value)
          && rm.prompt == (if faulted then None else Some(""))
          && (!faulted ==> pm.result == rm && currentMessage == rm)
      // a re-send: `sendMessage` is the prompt message and its result message is reused
      ensures old(Sends(sendMessage)) && old(sendMessage.result) != null ==>
        && messages == old(messages)
        && var rm := old(sendMessage.result);
          && (!outcome.ServiceThrew? ==> rm.isSent)
          && (outcome.ServiceThrew? && rm != sendMessage ==> rm.isSent == old(rm.isSent))
          && sendMessage.isSent && sendMessage.prompt == Some("")
          && sendMessage.isAwaiting == faulted
          && sendMessage.result == rm
          && sendMessage.message == (if rm == sendMessage && !faulted then ResultText(outcome).value
                                     else old(sendMessage.prompt))
          && currentMessage == (if faulted then sendMessage else rm)
          && (!faulted ==> rm.message == ResultText(outcome).value && rm.prompt == Some(""))
          && (rm != sendMessage ==> rm.isAwaiting == old(rm.isAwaiting) && rm.result == old(rm.result))
          && (rm != sendMessage && faulted ==> rm.message == old(rm.message) && rm.prompt == old(rm.prompt))
    {
      request, faulted := None, false;
      if messages.None? {
        return;
      }
      if IsNullOrEmpty(sendMessage.prompt) {
        return;
      }
      var linked := sendMessage.result;
      var prompt := sendMessage.prompt.value;
      var promptMessage := BeginSend(sendMessage);

      // the completion call
      request := Some(CompletionRequest(prompt, Temperature(), MaxTokens()));
      if outcome.ServiceThrew? {
        // the exception escapes `Send`
        faulted := true;
        return;
      }

      var resultMessage := AttachResult(linked);
      var text := ResultText(outcome);
      if text.None? {
        // the null-reference exception escapes `Send`
        faulted := true;
        return;
      }
      FinishSend(promptMessage, resultMessage, text.value);
    }
  }
}
