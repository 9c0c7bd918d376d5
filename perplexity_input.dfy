/** The search-style input of the demo page: a guarded, trimming send and a
    primary button that is either Send or the recording toggle. */
module PerplexityInput {

  import opened Wrappers
  import opened Text

  /** Which primary button is rendered. */
  datatype PrimaryButton = SendButton | RecordButton

  class Input {
    var message: string
    var isRecording: bool

    constructor ()
      ensures message == "" && !isRecording
    {
      message := "";
      isRecording := false;
    }

    /** `message.trim() ? <Send/> : <Record/>`. */
    function Primary(): (b: PrimaryButton)
      reads this
      ensures b == SendButton <==> !IsBlank(message)
    {
      if IsBlank(message) then RecordButton else SendButton
    }

    /** `handleInput`. */
    method Type(text: string)
      modifies this`message
      ensures message == text
    {
      message := text;
    }

    /** `handleSend`: only a non-blank message of an enabled input is sent, and
        it is sent trimmed; the buffer is then cleared. */
    method Send(disabled: bool) returns (sent: Option<string>)
      modifies this`message
      ensures sent.Some? <==> !IsBlank(old(message)) && !disabled
      ensures sent.Some? ==> sent.value == Trim(old(message)) && sent.value != []
      ensures message == if sent.Some? then "" else old(message)
    {
      if !IsBlank(message) && !disabled {
        sent := Some(Trim(message));
        message := "";
      } else {
        sent := None;
      }
    }

    /** `handleKeyDown`: Enter without Shift sends. */
    method KeyDown(key: string, shift: bool, disabled: bool) returns (sent: Option<string>)
      modifies this`message
      ensures key == "Enter" && !shift ==>
                (sent.Some? <==> !IsBlank(old(message)) && !disabled)
                && (sent.Some? ==> sent.value == Trim(old(message)))
                && message == (if sent.Some? then "" else old(message))
      ensures !(key == "Enter" && !shift) ==> sent == None && message == old(message)
    {
      sent := None;
      if key == "Enter" && !shift {
        sent := Send(disabled);
      }
    }

    /** `toggleRecording`; toggling twice restores the flag. */
    method ToggleRecording()
      modifies this`isRecording
      ensures isRecording == !old(isRecording)
    {
      isRecording := !isRecording;
    }

    /** A click on the primary button: Send sends (its `disabled` prop mirrors
        the guard), the recording toggle flips the flag. */
    method PrimaryClick(disabled: bool) returns (sent: Option<string>)
      modifies this
      ensures old(Primary()) == SendButton ==>
                isRecording == old(isRecording)
                && (sent.Some? <==> !disabled)
                && (sent.Some? ==> sent.value == Trim(old(message)))
                && message == (if sent.Some? then "" else old(message))
      ensures old(Primary()) == RecordButton ==>
                isRecording == !old(isRecording) && sent == None && message == old(message)
    {
      if Primary() == SendButton {
        sent := Send(disabled);
      } else {
        ToggleRecording();
        sent := None;
      }
    }
  }
}
