/**
  The chat panel's input: the message buffer, its send handlers and the `disabled` attributes
  of the textarea and the send button. The panel forwards a message to the page through
  `onSendMessage`; here the forwarded message is the handler's result.
*/
module ChatInput {
  import opened Wrappers
  import opened JsText

  /** What the browser delivers to the panel's controls. */
  datatype UiEvent =
    | Typed(value: string)
    | KeyDown(key: string, shiftKey: bool)
    | SendClicked

  /** The textarea's `disabled` attribute. */
  predicate TextareaDisabled(isLoading: bool) {
    isLoading
  }

  class ChatPanel {
    /** The textarea's controlled value. */
    var message: string

    constructor ()
      ensures message == ""
    {
      message := "";
    }

    /** The send button's `disabled` attribute. */
    predicate SendButtonDisabled(isLoading: bool): (r: bool)
      reads this
      ensures r <==> isLoading || forall t :: 0 <= t < |message| ==> IsSpace(message[t])
    {
      BlankIffAllSpace(message);
      isLoading || IsBlank(message)
    }

    /** The textarea's `onChange`: the buffer becomes the textarea's new value. */
    method OnChange(value: string)
      modifies this
      ensures message == value
    {
      message := value;
    }

    /**
      `handleSend`: a buffer that is not blank is forwarded as typed, without trimming, and
      the buffer is cleared; a blank buffer is neither forwarded nor cleared.
    */
    method HandleSend() returns (sent: Option<string>)
      modifies this
      ensures sent.Some? <==> !IsBlank(old(message))
      ensures sent.Some? ==> sent.value == old(message) && message == ""
      ensures sent.None? ==> message == old(message)
    {
      if !IsBlank(message) {
        sent := Some(message);
        message := "";
      } else {
        sent := None;
      }
    }

    /**
      `handleKeyPress`: Enter without Shift suppresses the default newline and sends; every
      other key is left to the textarea.
    */
    method HandleKeyPress(key: string, shiftKey: bool) returns (sent: Option<string>, defaultPrevented: bool)
      modifies this
      ensures defaultPrevented <==> key == "Enter" && !shiftKey
      ensures !defaultPrevented ==> sent == None && message == old(message)
      ensures defaultPrevented ==> (sent.Some? <==> !IsBlank(old(message)))
      ensures sent.Some? ==> sent.value == old(message) && message == ""
      ensures defaultPrevented && sent.None? ==> message == old(message)
    {
      if key == "Enter" && !shiftKey {
        defaultPrevented := true;
        sent := HandleSend();
      } else {
        defaultPrevented := false;
        sent := None;
      }
    }

    /**
      One event as the browser delivers it: a disabled control receives no events, so while
      the page is loading nothing is typed and nothing is sent.
    */
    method Dispatch(event: UiEvent, isLoading: bool) returns (sent: Option<string>)
      modifies this
      ensures isLoading ==> sent == None && message == old(message)
      ensures sent.Some? ==> !IsBlank(sent.value) && sent.value == old(message) && message == ""
      ensures event.Typed? && !isLoading ==> message == event.value && sent == None
      ensures event.SendClicked? && !isLoading ==>
                (sent.Some? <==> !IsBlank(old(message))) && (sent.None? ==> message == old(message))
      ensures event.KeyDown? && !isLoading ==>
                (sent.Some? <==> event.key == "Enter" && !event.shiftKey && !IsBlank(old(message)))
      ensures event.KeyDown? && !isLoading && sent.None? ==> message == old(message)
    {
      sent := None;
      match event {
        case Typed(value) =>
          if !TextareaDisabled(isLoading) {
            OnChange(value);
          }
        case KeyDown(key, shiftKey) =>
          if !TextareaDisabled(isLoading) {
            var prevented;
            sent, prevented := HandleKeyPress(key, shiftKey);
          }
        case SendClicked =>
          if !SendButtonDisabled(isLoading) {
            sent := HandleSend();
          }
      }
    }
  }
}
