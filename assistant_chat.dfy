/**
 * The assistant chat screen: it takes what its composer sends, appends the
 * user's message, shows the typing indicator, and later appends one fixed
 * assistant reply. The reply timer is a separate step, `DeliverReply`;
 * message ids and timestamps are parameters.
 */
module AssistantChat {
  import opened Text
  import opened Wrappers
  import opened ChatComposer

  datatype Message = Message(id: string, text: string, isUser: bool, timestamp: int)

  const FixedReply := "I'm here to help! What would you like to discuss?"

  /** `content.find(item => item.type === 'text')`: the first text item, if any. */
  function FirstText(content: seq<ContentItem>): (found: Option<ContentItem>)
    ensures found.Some? ==> found.value.kind == TextContent && found.value in content
    ensures found.None? <==> forall i :: 0 <= i < |content| ==> content[i].kind != TextContent
    decreases |content|
  {
    if content == [] then None
    else if content[0].kind == TextContent then Some(content[0])
    else FirstText(content[1..])
  }

  /** The item found comes before every other text item. */
  lemma {:induction false} FirstTextIsFirst(content: seq<ContentItem>)
    requires FirstText(content).Some?
    ensures exists i ::
      (0 <= i < |content| && content[i] == FirstText(content).value &&
       forall j :: 0 <= j < i ==> content[j].kind != TextContent)
    decreases |content|
  {
    if content[0].kind != TextContent {
      FirstTextIsFirst(content[1..]);
      var i :| 0 <= i < |content[1..]| && content[1..][i] == FirstText(content[1..]).value
        && forall j :: 0 <= j < i ==> content[1..][j].kind != TextContent;
      assert content[i + 1] == FirstText(content).value;
      assert forall j :: 0 <= j < i + 1 ==> content[j].kind != TextContent by {
        forall j | 0 <= j < i + 1
          ensures content[j].kind != TextContent
        {
          if j > 0 {
            assert content[j] == content[1..][j - 1];
          }
        }
      }
    } else {
      assert content[0] == FirstText(content).value;
    }
  }

  /** `if (!textContent?.text) return`: the text to post, unless there is no text item or its text is missing or empty. */
  function SentText(content: seq<ContentItem>): (text: Option<string>)
    ensures text.Some? ==> text.value != ""
    ensures text.Some? <==>
      (FirstText(content).Some? && FirstText(content).value.text.Some? && FirstText(content).value.text.value != "")
  {
    match FirstText(content)
    case None => None
    case Some(item) => if item.text.Some? && item.text.value != "" then item.text else None
  }

  /** What the composer sends for non-blank input arrives here as the trimmed text. */
  lemma ComposerToScreen(input: string)
    requires !IsBlank(input)
    ensures SentText(Outgoing(input).value) == Some(Trim(input))
  {
    TrimmedNotBlank(input);
  }

  /** The screen's `messages` and `isTyping` state, and how many reply timers are running. */
  class ChatScreen {
    var messages: seq<Message>
    var isTyping: bool
    var pendingReplies: nat

    constructor ()
      ensures messages == [] && !isTyping && pendingReplies == 0
    {
      messages := [];
      isTyping := false;
      pendingReplies := 0;
    }

    /**
     * `handleSend`: with a usable text item, append the user's message,
     * raise the typing flag and start one reply timer; otherwise change
     * nothing.
     */
    method HandleSend(content: seq<ContentItem>, id: string, now: int)
      modifies this
      ensures SentText(content).None? ==>
        messages == old(messages) && isTyping == old(isTyping) && pendingReplies == old(pendingReplies)
      ensures SentText(content).Some? ==>
        messages == old(messages) + [Message(id, SentText(content).value, true, now)]
        && isTyping && pendingReplies == old(pendingReplies) + 1
    {
      var textContent := FirstText(content);
      if textContent.None? || textContent.value.text.None? || textContent.value.text.value == "" {
        return;
      }
      messages := messages + [Message(id, textContent.value.text.value, true, now)];
      isTyping := true;
      pendingReplies := pendingReplies + 1;
    }

    /** A reply timer fires: append the fixed assistant reply and lower the typing flag. */
    method DeliverReply(id: string, now: int)
      requires pendingReplies > 0
      modifies this
      ensures messages == old(messages) + [Message(id, FixedReply, false, now)]
      ensures !isTyping && pendingReplies == old(pendingReplies) - 1
    {
      messages := messages + [Message(id, FixedReply, false, now)];
      isTyping := false;
      pendingReplies := pendingReplies - 1;
    }

    /** The composer's `setIsTyping`, handed down as a prop: typing in the field raises or lowers the same flag. */
    method SetIsTyping(typing: bool)
      modifies this
      ensures isTyping == typing
      ensures messages == old(messages) && pendingReplies == old(pendingReplies)
    {
      isTyping := typing;
    }
  }
}
