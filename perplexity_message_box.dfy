/** The message box of the layout demo: like the search-style input, but it
    sends the buffer untrimmed and has no disabled state. */
module PerplexityMessageBox {

  import opened Wrappers
  import opened Text

  class MessageBox {
    var message: string
    var isRecording: bool

    constructor ()
      ensures message == "" && !isRecording
    {
      message := "";
      isRecording := false;
    }

    /** The textarea's `onChange`. */
    method Type(text: string)
      modifies this`message
      ensures message == text
    {
      message := text;
    }

    /** `handleSend`: a buffer that is not blank is emitted as typed, surrounding
        whitespace included, and cleared; a blank one emits nothing. */
    method Send() returns (sent: Option<string>)
      modifies this`message
      ensures sent.Some? <==> !IsBlank(old(message))
      ensures sent.Some? ==> sent.value == old(message)
      ensures message == if sent.Some? then "" else old(message)
    {
      if !IsBlank(message) {
        sent := Some(message);
        message := "";
      } else {
        sent := None;
      }
    }

    /** `handleKeyDown`: Enter without Shift sends. */
    method KeyDown(key: string, shift: bool) returns (sent: Option<string>)
      modifies this`message
      ensures key == "Enter" && !shift ==>
                (sent.Some? <==> !IsBlank(old(message)))
                && (sent.Some? ==> sent.value == old(message))
                && message == (if sent.Some? then "" else old(message))
      ensures !(key == "Enter" && !shift) ==> sent == None && message == old(message)
    {
      sent := None;
      if key == "Enter" && !shift {
        sent := Send();
      }
    }

    /** The primary button: `message.trim() ? handleSend : () => setIsRecording(!isRecording)`. */
    method PrimaryClick() returns (sent: Option<string>)
      modifies this
      ensures !IsBlank(old(message)) ==>
                sent == Some(old(message)) && message == "" && isRecording == old(isRecording)
      ensures IsBlank(old(message)) ==>
                sent == None && message == old(message) && isRecording == !old(isRecording)
    {
      if !IsBlank(message) {
        sent := Send();
      } else {
        isRecording := !isRecording;
        sent := None;
      }
    }
  }
}
