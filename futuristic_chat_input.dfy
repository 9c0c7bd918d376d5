/** The main chat surface's input box: a message buffer with a guarded send,
    Enter-to-send, file upload and a recording toggle. */
module FuturisticChatInput {

  import opened Wrappers
  import opened Text

  /** A call of `onSendMessage`: the content and, for an upload, the file. */
  datatype Outgoing = Outgoing(content: string, file: Option<string>)

  const UploadPrefix: string := "Uploaded file: "

  class ChatInput {
    var message: string
    var isRecording: bool

    constructor ()
      ensures message == "" && !isRecording
    {
      message := "";
      isRecording := false;
    }

    /** The guard of `handleSend`. */
    predicate CanSend(disabled: bool)
      reads this
    {
      !IsBlank(message) && !disabled
    }

    /** The send button, rendered with `disabled={!message.trim() || disabled}`. */
    predicate SendButtonEnabled(disabled: bool)
      reads this
    {
      !(IsBlank(message) || disabled)
    }

    /** The textarea's `onChange`. */
    method Type(text: string)
      modifies this`message
      ensures message == text
    {
      message := text;
    }

    /** `handleSend`: emits the trimmed buffer and clears it when the buffer is
        not blank and the input is enabled; otherwise does nothing. Enabling
        the send button is the same condition. */
    method Send(disabled: bool) returns (sent: Option<Outgoing>)
      modifies this`message
      ensures sent.Some? <==> old(CanSend(disabled))
      ensures sent.Some? <==> old(SendButtonEnabled(disabled))
      ensures sent.Some? ==> sent.value == Outgoing(Trim(old(message)), None) && sent.value.content != []
      ensures message == if sent.Some? then "" else old(message)
    {
      if !IsBlank(message) && !disabled {
        sent := Some(Outgoing(Trim(message), None));
        message := "";
      } else {
        sent := None;
      }
    }

    /** `handleKeyDown`: Enter without Shift sends; every other key is left to
        the textarea. */
    method KeyDown(key: string, shift: bool, disabled: bool) returns (sent: Option<Outgoing>)
      modifies this`message
      ensures key == "Enter" && !shift ==>
                (sent.Some? <==> old(CanSend(disabled)))
                && (sent.Some? ==> sent.value == Outgoing(Trim(old(message)), None))
                && message == (if sent.Some? then "" else old(message))
      ensures !(key == "Enter" && !shift) ==> sent == None && message == old(message)
    {
      sent := None;
      if key == "Enter" && !shift {
        sent := Send(disabled);
      }
    }

    /** `handleFileSelect`: announces the first chosen file; the buffer is not
        touched. */
    method FileSelect(file: Option<string>) returns (sent: Option<Outgoing>)
      ensures file.None? ==> sent == None
      ensures file.Some? ==>
                sent.Some? && sent.value.file == file && |sent.value.content| >= |UploadPrefix|
                && sent.value.content[..|UploadPrefix|] == UploadPrefix
                && sent.value.content[|UploadPrefix|..] == file.value
    {
      if file.Some? {
        sent := Some(Outgoing(UploadPrefix + file.value, file));
      } else {
        sent := None;
      }
    }

    /** The microphone button. */
    method ToggleRecording()
      modifies this`isRecording
      ensures isRecording == !old(isRecording)
    {
      isRecording := !isRecording;
    }
  }
}
