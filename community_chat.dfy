/**
 * A community's chat panel: it shows the messages it is given and owns
 * only the draft, which a send hands to its owner trimmed and then clears.
 */
module CommunityChat {
  import opened Text
  import opened Wrappers

  datatype Message = Message(id: string, userName: string, content: string, timePosted: string)

  /** The panel: the `messages` prop, read only, and the `newMessage` draft. */
  class CommunityChatPanel {
    const communityName: string
    const messages: seq<Message>
    var newMessage: string

    constructor (communityName: string, messages: seq<Message>)
      ensures this.communityName == communityName && this.messages == messages && newMessage == ""
    {
      this.communityName := communityName;
      this.messages := messages;
      newMessage := "";
    }

    method SetNewMessage(text: string)
      modifies this
      ensures newMessage == text
    {
      newMessage := text;
    }

    /**
     * `handleSend`: a draft with something besides white space goes to
     * `onSendMessage` trimmed and the draft is cleared; otherwise nothing
     * happens. The messages shown are a constant of the panel.
     */
    method HandleSend() returns (sent: Option<string>)
      modifies this
      ensures sent.Some? <==> !AllWhitespace(old(newMessage))
      ensures sent.Some? ==> sent.value == Trim(old(newMessage)) && sent.value != "" && newMessage == ""
      ensures sent.None? ==> newMessage == old(newMessage)
    {
      BlankIffAllWhitespace(newMessage);
      if IsBlank(newMessage) {
        sent := None;
      } else {
        TrimmedNotBlank(newMessage);
        sent := Some(Trim(newMessage));
        newMessage := "";
      }
    }

    /** `disabled={!newMessage.trim()}` on the send button, the same test the send starts with. */
    function SendDisabled(): (disabled: bool)
      reads this
      ensures disabled <==> AllWhitespace(newMessage)
    {
      BlankIffAllWhitespace(newMessage);
      IsBlank(newMessage)
    }
  }
}
