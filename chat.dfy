/**
 * The conversation controller (`ChatViewModel`): an ordered transcript of
 * message objects, a current-message pointer, an enabled flag, the settings
 * and the cancellation source of the request in flight.
 *
 * The awaited service call is an input: the `TransportOutcome` it produced
 * and whether cancellation was requested while it was outstanding.
 */
module Chat {
  import opened Wrappers
  import opened Strings
  import opened ChatMessages
  import opened ChatProtocol

  /** `Defaults.TextMessageFormat`: defined outside the files modelled. */
  const TextMessageFormat: string

  const SendingText := "Sending..."
  const SystemRole := "system"
  const UserRole := "user"
  const AssistantRole := "assistant"

  /** The fields of the chat settings, as one value; decimals are reals. */
  datatype SettingsData = SettingsData(
    directions: Option<string>,
    temperature: real,
    topP: real,
    presencePenalty: real,
    frequencyPenalty: real,
    maxTokens: int,
    apiKey: Option<string>,
    model: Option<string>,
    format: Option<string>)

  /** `ChatSettingsViewModel`: a record of mutable fields the controller only reads. */
  class ChatSettings {
    var directions: Option<string>
    var temperature: real
    var topP: real
    var presencePenalty: real
    var frequencyPenalty: real
    var maxTokens: int
    var apiKey: Option<string>
    var model: Option<string>
    var format: Option<string>

    function Data(): SettingsData
      reads this
    {
      SettingsData(directions, temperature, topP, presencePenalty, frequencyPenalty, maxTokens, apiKey, model, format)
    }

    constructor (d: SettingsData)
      ensures Data() == d
    {
      directions, temperature, topP := d.directions, d.temperature, d.topP;
      presencePenalty, frequencyPenalty, maxTokens := d.presencePenalty, d.frequencyPenalty, d.maxTokens;
      apiKey, model, format := d.apiKey, d.model, d.format;
    }

    /** A fresh settings object with the same fields. */
    method Copy() returns (c: ChatSettings)
      ensures fresh(c) && c.Data() == Data()
    {
      c := new ChatSettings(Data());
    }
  }

  /** The role and text of each message, in order. */
  function Turns(ms: seq<ChatMessage>): seq<Turn>
    reads ms
  {
    seq(|ms|, i reads ms requires 0 <= i < |ms| => Turn(ms[i].role, ms[i].message))
  }

  /** The position of the first occurrence of `m`. */
  function IndexOf(ms: seq<ChatMessage>, m: ChatMessage): (i: nat)
    requires m in ms
    ensures i < |ms| && ms[i] == m && m !in ms[..i]
  {
    if ms[0] == m then 0 else 1 + IndexOf(ms[1..], m)
  }

  /**
   * `Collection.Remove`: the list without the first occurrence of `m` (by
   * reference), the others in their order; unchanged when `m` is absent.
   */
  function RemoveFirst(ms: seq<ChatMessage>, m: ChatMessage): (r: seq<ChatMessage>)
    ensures m !in ms ==> r == ms
    ensures m in ms ==> r == ms[..IndexOf(ms, m)] + ms[IndexOf(ms, m) + 1..]
  {
    if m in ms then ms[..IndexOf(ms, m)] + ms[IndexOf(ms, m) + 1..] else ms
  }

  /**
   * Removing a present message shortens the list by one, takes out one
   * occurrence of it and nothing else, and keeps the others in order.
   */
  lemma RemoveFirstRemovesOne(ms: seq<ChatMessage>, m: ChatMessage)
    requires m in ms
    ensures var r := RemoveFirst(ms, m);
      && |r| == |ms| - 1
      && multiset(r) == multiset(ms) - multiset{m}
      && (forall k :: 0 <= k < IndexOf(ms, m) ==> r[k] == ms[k])
      && (forall k :: IndexOf(ms, m) <= k < |r| ==> r[k] == ms[k + 1])
  {
    var i := IndexOf(ms, m);
    var before, after := ms[..i], ms[i + 1..];
    assert RemoveFirst(ms, m) == before + after;
    assert ms == before + [m] + after;
    assert multiset(ms) == multiset(before) + multiset{m} + multiset(after);
    forall k | i <= k < |before + after| ensures (before + after)[k] == ms[k + 1] {
      assert (before + after)[k] == after[k - i];
    }
  }

  /** The position of the last occurrence of `m`, if any. */
  function LastIndexOf(ms: seq<ChatMessage>, m: ChatMessage?): (r: Option<nat>)
    ensures r.None? <==> m !in ms
    ensures r.Some? ==> r.value < |ms| && ms[r.value] == m && m !in ms[r.value + 1..]
  {
    if |ms| == 0 then None
    else if ms[|ms| - 1] == m then Some(|ms| - 1)
    else
      var r := LastIndexOf(ms[..|ms| - 1], m);
      assert ms == ms[..|ms| - 1] + [ms[|ms| - 1]];
      r
  }

  /** Extending a list by one element moves its last occurrence of `m` only onto that element. */
  lemma LastIndexOfStep(ms: seq<ChatMessage>, i: nat, m: ChatMessage?)
    requires i < |ms|
    ensures LastIndexOf(ms[..i + 1], m) == if ms[i] == m then Some(i) else LastIndexOf(ms[..i], m)
  {
    assert ms[..i + 1][..i] == ms[..i];
  }

  /** The copy standing at position `k`, or null for no position. */
  function CopyAt(copies: seq<ChatMessage>, k: Option<nat>): ChatMessage? {
    if k.Some? && k.value < |copies| then copies[k.value] else null
  }

  /**
   * One step of the copy loop: after copying `ms[i]`, the copy standing where
   * `m` last occurs in `ms[..i + 1]` is the new copy when `ms[i]` is `m`, and
   * otherwise the one found before.
   */
  lemma CopyAtStep(ms: seq<ChatMessage>, i: nat, m: ChatMessage?, prev: seq<ChatMessage>, copy: ChatMessage)
    requires i < |ms| && |prev| == i
    ensures CopyAt(prev + [copy], LastIndexOf(ms[..i + 1], m))
         == if ms[i] == m then copy else CopyAt(prev, LastIndexOf(ms[..i], m))
  {
    LastIndexOfStep(ms, i, m);
  }

  /** The assistant placeholder while its response is outstanding. */
  const AwaitingPlaceholder :=
    Blank.(role := Some(AssistantRole), message := Some(SendingText), format := Some(TextMessageFormat),
           canRemove := true, isAwaiting := true, hasSendAction := true)

  /** The assistant message once resolved with `result` under the settings' format. */
  function ResolvedPlaceholder(result: ChatResult, format: Option<string>): MessageData {
    AwaitingPlaceholder.(message := result.message, isError := result.isError, format := format,
                         isAwaiting := false, isSent := true)
  }

  /** The empty, unsent, removable user message that invites the next turn. */
  function UserSlot(format: Option<string>): MessageData {
    Blank.(role := Some(UserRole), message := Some(""), format := format, canRemove := true, hasSendAction := true)
  }

  /** No message of the transcript is awaiting a response. */
  predicate NoneAwaiting(ds: seq<MessageData>) {
    forall k :: 0 <= k < |ds| ==> !ds[k].isAwaiting
  }

  /**
   * At most one message awaits: starting from a transcript where none does,
   * while the call is outstanding exactly the appended placeholder awaits,
   * and each of the tails a send cycle can append (the resolved placeholder,
   * the user slot, or both) leaves none awaiting.
   */
  lemma {:induction false} CycleKeepsNoneAwaiting(ds: seq<MessageData>, result: ChatResult, format: Option<string>)
    requires NoneAwaiting(ds)
    ensures var during := ds + [AwaitingPlaceholder];
      forall k :: 0 <= k < |during| ==> (during[k].isAwaiting <==> k == |ds|)
    ensures NoneAwaiting(ds + [ResolvedPlaceholder(result, format)])
    ensures NoneAwaiting(ds + [UserSlot(format)])
    ensures NoneAwaiting(ds + [ResolvedPlaceholder(result, format), UserSlot(format)])
  {
    var during := ds + [AwaitingPlaceholder];
    forall k | 0 <= k < |during| ensures during[k].isAwaiting <==> k == |ds| {
      if k < |ds| { assert during[k] == ds[k]; }
    }
    var both := ds + [ResolvedPlaceholder(result, format), UserSlot(format)];
    forall k | 0 <= k < |both| ensures !both[k].isAwaiting {
      if k < |ds| { assert both[k] == ds[k]; }
    }
  }

  class ChatViewModel {
    var name: Option<string>
    var settings: ChatSettings?
    var messages: seq<ChatMessage>
    var currentMessage: ChatMessage?
    var isEnabled: bool
    /** `_cts`: `None` is null; `Some(b)` is a live source whose cancellation-requested flag is `b`. */
    var cts: Option<bool>

    constructor ()
      ensures name == None && settings == null && messages == [] && currentMessage == null
      ensures isEnabled && cts == None
    {
      name, settings, messages, currentMessage := None, null, [], null;
      isEnabled, cts := true, None;
    }

    constructor WithSettings(s: ChatSettings)
      ensures name == None && settings == s && messages == [] && currentMessage == null
      ensures isEnabled && cts == None
    {
      name, settings, messages, currentMessage := None, s, [], null;
      isEnabled, cts := true, None;
    }

    /** The constructor taking the settings' values, with the source's defaults. */
    constructor WithDefaults(
      directions: string := "You are a helpful assistant.",
      temperature: real := 0.7,
      topP: real := 1.0,
      presencePenalty: real := 0.0,
      frequencyPenalty: real := 0.0,
      maxTokens: int := 2000,
      apiKey: Option<string> := None,
      model: string := "gpt-3.5-turbo")
      ensures name == None && messages == [] && currentMessage == null && isEnabled && cts == None
      ensures settings != null && fresh(settings)
      ensures settings.Data() == SettingsData(Some(directions), temperature, topP, presencePenalty,
                                              frequencyPenalty, maxTokens, apiKey, Some(model), None)
    {
      name, messages, currentMessage := None, [], null;
      isEnabled, cts := true, None;
      settings := new ChatSettings(SettingsData(Some(directions), temperature, topP, presencePenalty,
                                                frequencyPenalty, maxTokens, apiKey, Some(model), None));
    }

    /** `Settings?.Directions`. */
    function Directions(): Option<string>
      reads this, settings
    {
      if settings == null then None else settings.directions
    }

    /** Whether a send cycle passes validation. */
    predicate CanSend(sendMessage: ChatMessage, onlyAddMessage: bool)
      reads this, sendMessage
    {
      settings != null && (onlyAddMessage || !IsNullOrEmpty(sendMessage.message))
    }

    /** Installs this conversation's send action on `message`. */
    method SetMessageActions(message: ChatMessage)
      modifies message
      ensures message.Data() == old(message.Data()).(hasSendAction := true)
    {
      message.SetSendAction(true);
    }

    /**
     * The removal policy. Removing an awaiting message first requests
     * cancellation. A removable message is taken out of the list; then the
     * last message left is marked unsent, and also not removable when two
     * messages remain.
     */
    method Remove(message: ChatMessage)
      modifies this, messages
      ensures cts == if old(message.isAwaiting) && old(cts).Some? then Some(true) else old(cts)
      ensures name == old(name) && settings == old(settings)
      ensures currentMessage == old(currentMessage) && isEnabled == old(isEnabled)
      ensures messages == if old(message.canRemove) then RemoveFirst(old(messages), message) else old(messages)
      ensures !old(message.canRemove) ==> unchanged(messages)
      ensures old(message.canRemove) ==> LastUnsent(old(messages), messages)
    {
      if message.isAwaiting && cts.Some? {
        // `_cts?.Cancel()`
        cts := Some(true);
      }
      if message.canRemove {
        ghost var before := messages;
        messages := RemoveFirst(messages, message);
        UnsendLast(before);
      }
    }

    /**
     * The other messages of `before` are unchanged; the last message of
     * `after`, if any, is unsent and, when two remain, not removable.
     */
    twostate predicate LastUnsent(before: seq<ChatMessage>, after: seq<ChatMessage>)
      reads before, after
    {
      && (after != [] ==>
            var last := after[|after| - 1];
            last.Data() == old(last.Data()).(isSent := false, canRemove := |after| != 2 && old(last.canRemove)))
      && forall m :: m in before && (after == [] || m != after[|after| - 1]) ==> m.Data() == old(m.Data())
    }

    /** After a removal: the last message becomes unsent, and not removable when two messages remain. */
    method UnsendLast(ghost before: seq<ChatMessage>)
      modifies messages
      ensures LastUnsent(before, messages)
    {
      if messages != [] {
        var last := messages[|messages| - 1];
        last.isSent := false;
        if |messages| == 2 {
          last.canRemove := false;
        }
      }
    }

    /**
     * `CreateChatMessages`: the prompt for the current transcript and
     * directions, built entry by entry.
     */
    method CreateChatMessages() returns (prompt: seq<PromptEntry>)
      ensures prompt == BuildPrompt(Turns(messages), Directions())
    {
      ghost var spec := BuildPrompt(Turns(messages), Directions());
      prompt := [];
      var i := 0;
      while i < |messages|
        invariant 0 <= i <= |messages|
        invariant |prompt| == i
        invariant forall k :: 0 <= k < i ==> prompt[k] == spec[k]
      {
        var message := messages[i];
        if i == 0 {
          var content := Some(Directions().GetOr(""));
          if message.message != Some(WelcomeMessage) {
            content := message.message;
          }
          prompt := prompt + [PromptEntry(message.role, content)];
        } else {
          prompt := prompt + [PromptEntry(message.role, message.message)];
        }
        i := i + 1;
      }
    }

    /**
     * `SendAsync(ChatMessage[], token)`: no result without settings;
     * otherwise the request built from the settings and the mapped response.
     */
    function SendPrompt(prompt: seq<PromptEntry>, outcome: TransportOutcome): (r: Option<(ChatRequest, ChatResult)>)
      reads this, settings
      ensures r.None? <==> settings == null
      ensures r.Some? ==> r.value.0 == RequestFor(settings.model, settings.temperature, settings.maxTokens, prompt)
      ensures r.Some? ==> r.value.1 == MapResponse(outcome)
    {
      if settings == null then None
      else Some((RequestFor(settings.model, settings.temperature, settings.maxTokens, prompt), MapResponse(outcome)))
    }

    /** Appends the "Sending..." assistant placeholder and makes it current. */
    method AppendAwaitingPlaceholder() returns (placeholder: ChatMessage)
      modifies this
      ensures fresh(placeholder) && placeholder.Data() == AwaitingPlaceholder
      ensures messages == old(messages) + [placeholder] && currentMessage == placeholder
      ensures name == old(name) && settings == old(settings) && isEnabled == old(isEnabled) && cts == old(cts)
    {
      placeholder := new ChatMessage();
      placeholder.role := Some(AssistantRole);
      placeholder.message := Some(SendingText);
      placeholder.isSent := false;
      placeholder.canRemove := true;
      placeholder.isAwaiting := true;
      placeholder.format := Some(TextMessageFormat);
      SetMessageActions(placeholder);
      messages := messages + [placeholder];
      currentMessage := placeholder;
    }

    /** Writes the response into the placeholder and marks it resolved and sent. */
    method ResolvePlaceholder(placeholder: ChatMessage, result: Option<ChatResult>)
      requires settings != null
      modifies placeholder
      ensures var r := result.GetOr(ChatResult(Some(UnknownError), true));
        placeholder.Data() == old(placeholder.Data()).(message := r.message, isError := r.isError,
                                                      format := settings.format, isAwaiting := false, isSent := true)
    {
      if result.None? {
        placeholder.message := Some(UnknownError);
        placeholder.isError := true;
      } else {
        placeholder.message := result.value.message;
        placeholder.isError := result.value.isError;
      }
      placeholder.format := settings.format;
      placeholder.isAwaiting := false;
      placeholder.isSent := true;
    }

    /**
     * `CreateResultMessageAsync`: without settings nothing happens; otherwise
     * the placeholder is appended, the prompt is sent and the placeholder is
     * resolved with the mapped response.
     */
    method CreateResultMessage(prompt: seq<PromptEntry>, outcome: TransportOutcome)
      returns (result: Option<ChatResult>, request: Option<ChatRequest>)
      modifies this
      ensures name == old(name) && settings == old(settings) && isEnabled == old(isEnabled) && cts == old(cts)
      ensures settings == null ==> result == None && request == None && messages == old(messages)
      ensures settings == null ==> currentMessage == old(currentMessage)
      ensures settings != null ==>
        && result == Some(MapResponse(outcome))
        && request == Some(RequestFor(settings.model, settings.temperature, settings.maxTokens, prompt))
        && |messages| == |old(messages)| + 1 && messages[..|old(messages)|] == old(messages)
        && fresh(messages[|old(messages)|]) && currentMessage == messages[|old(messages)|]
        && messages[|old(messages)|].Data() == ResolvedPlaceholder(MapResponse(outcome), settings.format)
    {
      result, request := None, None;
      if settings == null {
        return;
      }
      var placeholder := AppendAwaitingPlaceholder();
      var response := SendPrompt(prompt, outcome);
      result, request := Some(response.value.1), Some(response.value.0);
      ResolvePlaceholder(placeholder, result);
    }

    /** Appends the next empty user message and makes it current. */
    method AppendUserSlot()
      requires settings != null
      modifies this
      ensures name == old(name) && settings == old(settings) && isEnabled == old(isEnabled) && cts == old(cts)
      ensures |messages| == |old(messages)| + 1 && messages[..|old(messages)|] == old(messages)
      ensures fresh(messages[|old(messages)|]) && messages[|old(messages)|].Data() == UserSlot(settings.format)
      ensures currentMessage == messages[|old(messages)|]
    {
      var next := new ChatMessage();
      next.role := Some(UserRole);
      next.message := Some("");
      next.isSent := false;
      next.canRemove := true;
      next.format := settings.format;
      SetMessageActions(next);
      messages := messages + [next];
      currentMessage := next;
    }

    /**
     * The request part of a send cycle: build the prompt, open a cancellation
     * source, append and resolve the assistant message, then note whether
     * cancellation was requested and release the source.
     */
    method RequestResponse(outcome: TransportOutcome, cancelRequested: bool)
      returns (isError: bool, isCanceled: bool, request: ChatRequest)
      requires settings != null
      modifies this
      ensures name == old(name) && settings == old(settings) && isEnabled == old(isEnabled) && cts == None
      ensures isError == MapResponse(outcome).isError && isCanceled == cancelRequested
      ensures request == RequestFor(settings.model, settings.temperature, settings.maxTokens,
                                    old(BuildPrompt(Turns(messages), Directions())))
      ensures |messages| == |old(messages)| + 1 && messages[..|old(messages)|] == old(messages)
      ensures fresh(messages[|old(messages)|]) && currentMessage == messages[|old(messages)|]
      ensures messages[|old(messages)|].Data() == ResolvedPlaceholder(MapResponse(outcome), settings.format)
    {
      var chatPrompt := CreateChatMessages();
      cts := Some(false);
      var result, sent := CreateResultMessage(chatPrompt, outcome);
      isError := result.None? || result.value.isError;
      request := sent.value;
      // a cancellation requested while the call was outstanding
      cts := Some(cancelRequested);
      isCanceled := cts.value;
      cts := None;
    }

    /**
     * The send cycle (`SendAsync(message, onlyAddMessage)`); the result is
     * `isError`. A cycle that fails validation changes nothing. Otherwise the
     * sent message becomes sent and removable; unless `onlyAddMessage`, the
     * resolved assistant message is appended; the user slot is appended
     * unless cancellation was requested. Past validation, only a cancelled
     * cycle can report an error, and then it reports the mapped response's
     * error flag.
     */
    method SendAsync(sendMessage: ChatMessage, onlyAddMessage: bool, outcome: TransportOutcome, cancelRequested: bool)
      returns (isError: bool, request: Option<ChatRequest>)
      modifies this, sendMessage
      ensures !old(CanSend(sendMessage, onlyAddMessage)) ==>
        isError && request == None && unchanged(this) && unchanged(sendMessage)
      ensures old(CanSend(sendMessage, onlyAddMessage)) ==>
        && name == old(name) && settings == old(settings) && isEnabled
        && sendMessage.Data() == old(sendMessage.Data()).(canRemove := true, isSent := true)
        && |messages| == |old(messages)| + (if onlyAddMessage || cancelRequested then 1 else 2)
        && messages[..|old(messages)|] == old(messages)
        && isError == (!onlyAddMessage && cancelRequested && MapResponse(outcome).isError)
      ensures old(CanSend(sendMessage, onlyAddMessage)) && onlyAddMessage ==>
        request == None && cts == old(cts)
      ensures old(CanSend(sendMessage, onlyAddMessage)) && !onlyAddMessage ==>
        && cts == None
        && request == Some(RequestFor(settings.model, settings.temperature, settings.maxTokens,
                                      old(BuildPrompt(Turns(messages), Directions()))))
        && fresh(messages[|old(messages)|])
        && messages[|old(messages)|].Data() == ResolvedPlaceholder(MapResponse(outcome), settings.format)
      ensures old(CanSend(sendMessage, onlyAddMessage)) && !onlyAddMessage && cancelRequested ==>
        currentMessage == messages[|old(messages)|]
      ensures old(CanSend(sendMessage, onlyAddMessage)) && (onlyAddMessage || !cancelRequested) ==>
        && fresh(messages[|messages| - 1])
        && messages[|messages| - 1].Data() == UserSlot(settings.format)
        && currentMessage == messages[|messages| - 1]
    {
      isError, request := true, None;
      if settings == null {
        return;
      }
      if IsNullOrEmpty(sendMessage.message) && !onlyAddMessage {
        return;
      }
      ghost var prompt := BuildPrompt(Turns(messages), Directions());
      isEnabled := false;
      sendMessage.canRemove := true;
      sendMessage.isSent := true;
      assert BuildPrompt(Turns(messages), Directions()) == prompt by {
        assert Turns(messages) == old(Turns(messages));
      }
      var isCanceled := false;
      if !onlyAddMessage {
        var sent;
        isError, isCanceled, sent := RequestResponse(outcome, cancelRequested);
        request := Some(sent);
      }
      if !isCanceled {
        AppendUserSlot();
        isError := false;
      }
      isEnabled := true;
    }

    /** Appends a message with the given role and text and every other field at its default. */
    method AddMessage(role: string, message: Option<string>)
      modifies this
      ensures |messages| == |old(messages)| + 1 && messages[..|old(messages)|] == old(messages)
      ensures fresh(messages[|old(messages)|])
      ensures messages[|old(messages)|].Data() == Blank.(role := Some(role), message := message)
      ensures name == old(name) && settings == old(settings) && currentMessage == old(currentMessage)
      ensures isEnabled == old(isEnabled) && cts == old(cts)
    {
      var m := new ChatMessage();
      m.role := Some(role);
      m.message := message;
      messages := messages + [m];
    }

    method AddSystemMessage(message: Option<string>) returns (self: ChatViewModel)
      modifies this
      ensures self == this
      ensures |messages| == |old(messages)| + 1 && messages[..|old(messages)|] == old(messages)
      ensures fresh(messages[|old(messages)|])
      ensures messages[|old(messages)|].Data() == Blank.(role := Some(SystemRole), message := message)
      ensures name == old(name) && settings == old(settings) && currentMessage == old(currentMessage)
      ensures isEnabled == old(isEnabled) && cts == old(cts)
    {
      AddMessage(SystemRole, message);
      self := this;
    }

    method AddUserMessage(message: Option<string>) returns (self: ChatViewModel)
      modifies this
      ensures self == this
      ensures |messages| == |old(messages)| + 1 && messages[..|old(messages)|] == old(messages)
      ensures fresh(messages[|old(messages)|])
      ensures messages[|old(messages)|].Data() == Blank.(role := Some(UserRole), message := message)
      ensures name == old(name) && settings == old(settings) && currentMessage == old(currentMessage)
      ensures isEnabled == old(isEnabled) && cts == old(cts)
    {
      AddMessage(UserRole, message);
      self := this;
    }

    method AddAssistantMessage(message: Option<string>) returns (self: ChatViewModel)
      modifies this
      ensures self == this
      ensures |messages| == |old(messages)| + 1 && messages[..|old(messages)|] == old(messages)
      ensures fresh(messages[|old(messages)|])
      ensures messages[|old(messages)|].Data() == Blank.(role := Some(AssistantRole), message := message)
      ensures name == old(name) && settings == old(settings) && currentMessage == old(currentMessage)
      ensures isEnabled == old(isEnabled) && cts == old(cts)
    {
      AddMessage(AssistantRole, message);
      self := this;
    }

    /**
     * `CopyMessages`: a fresh, pairwise distinct copy of every message, in
     * order, and the copy standing where the current message last occurs.
     */
    method CopyMessages() returns (copies: seq<ChatMessage>, current: ChatMessage?)
      ensures |copies| == |messages|
      ensures forall i :: 0 <= i < |copies| ==> fresh(copies[i]) && copies[i].Data() == messages[i].Data()
      ensures forall i, j :: 0 <= i < j < |copies| ==> copies[i] != copies[j]
      ensures current == CopyAt(copies, LastIndexOf(messages, currentMessage))
    {
      copies, current := [], null;
      ghost var ms := messages;
      ghost var fields := seq(|ms|, k requires 0 <= k < |ms| reads ms => ms[k].Data());
      for i := 0 to |messages|
        invariant |copies| == i
        invariant forall k :: 0 <= k < i ==> fresh(copies[k]) && copies[k].Data() == fields[k]
        invariant forall k, l :: 0 <= k < l < i ==> copies[k] != copies[l]
        invariant current == CopyAt(copies, LastIndexOf(messages[..i], currentMessage))
      {
        var message := messages[i];
        assert message.Data() == fields[i];
        label BeforeCopy:
        var copy := message.Copy();
        assert forall k :: 0 <= k < i ==> copies[k].Data() == old@BeforeCopy(copies[k].Data());
        CopyAtStep(messages, i, currentMessage, copies, copy);
        ghost var prev := copies;
        copies := copies + [copy];
        assert forall k :: 0 <= k < i ==> copies[k] == prev[k];
        if message == currentMessage {
          current := copy;
        }
      }
      assert messages[..|messages|] == messages;
      assert forall k :: 0 <= k < |messages| ==> messages[k].Data() == fields[k];
    }

    /**
     * `Copy`: a fresh conversation with the same name, a copy of the settings,
     * copies of the messages and its current message pointing into the copies.
     */
    method Copy() returns (c: ChatViewModel)
      ensures fresh(c) && c.name == name
      ensures settings == null ==> c.settings == null
      ensures settings != null ==> c.settings != null && fresh(c.settings) && c.settings.Data() == settings.Data()
      ensures |c.messages| == |messages|
      ensures forall i :: 0 <= i < |c.messages| ==> fresh(c.messages[i]) && c.messages[i].Data() == messages[i].Data()
      ensures forall i, j :: 0 <= i < j < |c.messages| ==> c.messages[i] != c.messages[j]
      ensures c.currentMessage == CopyAt(c.messages, LastIndexOf(messages, currentMessage))
      ensures c.isEnabled && c.cts == None
    {
      c := new ChatViewModel();
      c.name := name;
      if settings != null {
        var s := settings.Copy();
        c.settings := s;
      }
      var copies, current := CopyMessages();
      c.messages := copies;
      c.currentMessage := current;
    }
  }

  /**
   * At most one message awaits, stated of a conversation: a send cycle
   * started when no message of the transcript awaits leaves none awaiting.
   */
  method SendKeepsNoneAwaiting(c: ChatViewModel, sendMessage: ChatMessage, onlyAddMessage: bool,
                               outcome: TransportOutcome, cancelRequested: bool)
    returns (isError: bool)
    requires forall k :: 0 <= k < |c.messages| ==> !c.messages[k].isAwaiting
    modifies c, sendMessage
    ensures forall k :: 0 <= k < |c.messages| ==> !c.messages[k].isAwaiting
  {
    ghost var before := c.messages;
    ghost var started := c.CanSend(sendMessage, onlyAddMessage);
    var request;
    isError, request := c.SendAsync(sendMessage, onlyAddMessage, outcome, cancelRequested);
    if started {
      assert c.messages[..|before|] == before;
      forall k | 0 <= k < |c.messages| ensures !c.messages[k].isAwaiting {
        if k < |before| {
          assert c.messages[k] == before[k];
          assert !old(before[k].isAwaiting);
        } else if k == |before| && !onlyAddMessage {
          assert c.messages[k].Data() == ResolvedPlaceholder(MapResponse(outcome), c.settings.format);
        } else {
          assert c.messages[k].Data() == UserSlot(c.settings.format);
        }
      }
    }
  }
}
