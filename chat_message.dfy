/**
 * One transcript entry (`ChatMessageViewModel`): a record of mutable fields
 * and a small edit state machine driven by the UI's commands.
 */
module ChatMessages {
  import opened Wrappers
  import opened Strings

  /** The fields of a message, as one value; `hasSendAction` says whether a send delegate is installed. */
  datatype MessageData = MessageData(
    role: Option<string>,
    message: Option<string>,
    format: Option<string>,
    isSent: bool,
    isAwaiting: bool,
    isError: bool,
    canRemove: bool,
    isEditing: bool,
    hasSendAction: bool)

  /** The fields of a newly constructed message: every string null, every flag false, no send action. */
  const Blank := MessageData(None, None, None, false, false, false, false, false, false)

  /** The status strings the edit command recognises. */
  const EditStatus := "Edit"
  const CancelStatus := "Cancel"
  const NewLineStatus := "NewLine"

  // The transitions of the edit state machine, on values.

  function Editing(d: MessageData): MessageData {
    if !d.isEditing && d.isSent then d.(isEditing := true) else d
  }

  function Canceled(d: MessageData): MessageData {
    if d.isEditing then d.(isEditing := false) else d
  }

  function NewLined(d: MessageData): MessageData {
    // C# string concatenation treats a null operand as ""
    if !d.isSent then d.(message := Some(d.message.GetOr("") + NewLine)) else d
  }

  function Edited(d: MessageData, status: Option<string>): MessageData {
    if status == Some(EditStatus) then Editing(d)
    else if status == Some(CancelStatus) then Canceled(d)
    else if status == Some(NewLineStatus) then NewLined(d)
    else d
  }

  /** The send command: the new fields, and whether the installed send action is invoked. */
  function Sent(d: MessageData): (MessageData, bool) {
    if d.hasSendAction then (d.(isEditing := false), !d.isSent) else (d, false)
  }

  /** "Edit" starts editing exactly when the message is sent and not already editing; it touches nothing else. */
  lemma EditStartsOnlyOnSent(d: MessageData)
    ensures Edited(d, Some(EditStatus)).isEditing <==> d.isEditing || d.isSent
    ensures Edited(d, Some(EditStatus)).(isEditing := d.isEditing) == d
  {
  }

  /** "Cancel" leaves the message not editing and touches nothing else. */
  lemma CancelOnlyClearsEditing(d: MessageData)
    ensures Edited(d, Some(CancelStatus)) == d.(isEditing := false)
  {
  }

  /** Starting an edit and cancelling it returns a message to where it was. */
  lemma EditThenCancel(d: MessageData)
    requires !d.isEditing
    ensures Edited(Edited(d, Some(EditStatus)), Some(CancelStatus)) == d
  {
  }

  /** "NewLine" extends an unsent message's text by exactly the newline and changes no other field. */
  lemma NewLineAppends(d: MessageData)
    ensures var e := Edited(d, Some(NewLineStatus));
      && e.(message := d.message) == d
      && (d.isSent ==> e == d)
      && (!d.isSent ==> e.message.Some? && e.message.value == d.message.GetOr("") + NewLine)
  {
  }

  /** A status other than the three recognised ones is ignored. */
  lemma UnknownStatusIgnored(d: MessageData, status: Option<string>)
    requires status !in {Some(EditStatus), Some(CancelStatus), Some(NewLineStatus)}
    ensures Edited(d, status) == d
  {
  }

  /** No edit command changes the role, the format or the send-protocol flags. */
  lemma EditKeepsProtocolState(d: MessageData, status: Option<string>)
    ensures var e := Edited(d, status);
      && e.role == d.role && e.format == d.format
      && e.isSent == d.isSent && e.isAwaiting == d.isAwaiting && e.isError == d.isError
      && e.canRemove == d.canRemove && e.hasSendAction == d.hasSendAction
  {
  }

  /**
   * The send command invokes the send action exactly when one is installed and
   * the message is unsent; it only ever clears `isEditing`, and only when an
   * action is installed.
   */
  lemma SendInvokesOnlyUnsent(d: MessageData)
    ensures Sent(d).1 <==> d.hasSendAction && !d.isSent
    ensures Sent(d).0 == d.(isEditing := d.isEditing && !d.hasSendAction)
  {
  }

  class ChatMessage {
    var role: Option<string>
    var message: Option<string>
    var format: Option<string>
    var isSent: bool
    var isAwaiting: bool
    var isError: bool
    var canRemove: bool
    var isEditing: bool
    var hasSendAction: bool

    function Data(): MessageData
      reads this
    {
      MessageData(role, message, format, isSent, isAwaiting, isError, canRemove, isEditing, hasSendAction)
    }

    constructor ()
      ensures Data() == Blank
    {
      role, message, format := None, None, None;
      isSent, isAwaiting, isError, canRemove, isEditing := false, false, false, false, false;
      hasSendAction := false;
    }

    /** Installs (or, with `false`, removes) the send delegate. */
    method SetSendAction(installed: bool)
      modifies this
      ensures Data() == old(Data()).(hasSendAction := installed)
    {
      hasSendAction := installed;
    }

    /**
     * The send command. Invoking the installed action (the conversation's send
     * cycle) is the caller's step: `invokeSend` says whether it happens.
     */
    method SendAction() returns (invokeSend: bool)
      modifies this
      ensures (Data(), invokeSend) == Sent(old(Data()))
    {
      invokeSend := false;
      if hasSendAction {
        isEditing := false;
        if !isSent {
          invokeSend := true;
        }
      }
    }

    method EditAction(status: Option<string>)
      modifies this
      ensures Data() == Edited(old(Data()), status)
    {
      if status == Some(EditStatus) {
        EditingState();
      } else if status == Some(CancelStatus) {
        CanceledState();
      } else if status == Some(NewLineStatus) {
        NewLineState();
      }
    }

    method EditingState()
      modifies this
      ensures Data() == Editing(old(Data()))
    {
      if !isEditing && isSent {
        isEditing := true;
      }
    }

    method CanceledState()
      modifies this
      ensures Data() == Canceled(old(Data()))
    {
      if isEditing {
        isEditing := false;
      }
    }

    method NewLineState()
      modifies this
      ensures Data() == NewLined(old(Data()))
    {
      if !isSent {
        message := Some(message.GetOr("") + NewLine);
      }
    }

    /** Sets the role, ignoring null. */
    method SetRoleAction(newRole: Option<string>)
      modifies this
      ensures Data() == if newRole.Some? then old(Data()).(role := newRole) else old(Data())
    {
      if newRole.Some? {
        role := newRole;
      }
    }

    /** Sets the format, ignoring null. */
    method SetFormatAction(newFormat: Option<string>)
      modifies this
      ensures Data() == if newFormat.Some? then old(Data()).(format := newFormat) else old(Data())
    {
      if newFormat.Some? {
        format := newFormat;
      }
    }

    /** A fresh message with the same fields. */
    method Copy() returns (c: ChatMessage)
      ensures fresh(c) && c.Data() == Data()
    {
      c := new ChatMessage();
      c.role, c.message, c.format := role, message, format;
      c.isSent, c.isAwaiting, c.isError, c.canRemove, c.isEditing := isSent, isAwaiting, isError, canRemove, isEditing;
      c.hasSendAction := hasSendAction;
    }
  }
}
