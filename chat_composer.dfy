/**
 * The message composer shared by the assistant chat and the normal chat:
 * a text field, a send handler that hands a single trimmed text item to its
 * owner, and a change handler that reports whether anything is typed. The
 * normal chat's variant adds one right-hand button that sends when there is
 * something to send and otherwise announces a feature still to come.
 */
module ChatComposer {
  import opened Text
  import opened Wrappers

  datatype ContentKind = TextContent | FileContent

  /** One item of an outgoing message: `{ type, text?, file? }`. */
  datatype ContentItem = ContentItem(kind: ContentKind, text: Option<string>, file: Option<string>)

  /** What `handleSend` hands to `onSend` for the typed text: nothing for blank input, else one trimmed text item. */
  function Outgoing(input: string): (sent: Option<seq<ContentItem>>)
    ensures sent.None? <==> IsBlank(input)
    ensures sent.Some? ==>
      (|sent.value| == 1 && sent.value[0].kind == TextContent
       && sent.value[0].text == Some(Trim(input)) && sent.value[0].file.None?)
  {
    if IsBlank(input) then None else Some([ContentItem(TextContent, Some(Trim(input)), None)])
  }

  /** The text item sent is non-empty and already trimmed: sending it through a composer again would send it unchanged. */
  lemma OutgoingTextIsTrimmed(input: string)
    requires !IsBlank(input)
    ensures var t := Outgoing(input).value[0].text.value;
      t != "" && Trim(t) == t && Outgoing(t) == Outgoing(input)
  {
    TrimmedNotBlank(input);
    TrimIdempotent(input);
  }

  /** `setIsTyping(text.length > 0)`: any character counts, so a lone space reports typing yet is not sendable. */
  function TypingReported(text: string): (typing: bool)
    ensures typing <==> text != ""
  {
    |text| > 0
  }

  lemma SpaceIsTypingButNotSendable()
    ensures TypingReported(" ") && Outgoing(" ").None?
  {
    assert TrimStart(" ") == "" by {
      assert IsWhitespace(" "[0]);
      assert LeadingSpace(" ") == 1;
    }
  }

  /** Which handler the right-hand button of the normal chat runs; its icon follows the same test. */
  datatype ButtonAction = Send | ComingSoon

  function RightButton(input: string): (action: ButtonAction)
    ensures action == Send <==> Outgoing(input).Some?
  {
    if !IsBlank(input) then Send else ComingSoon
  }

  /** The composer's `inputText` state. */
  class Composer {
    var inputText: string

    constructor ()
      ensures inputText == ""
    {
      inputText := "";
    }

    /** `handleSend`: send the trimmed text and clear the field; blank input is kept and nothing is sent. */
    method HandleSend() returns (sent: Option<seq<ContentItem>>)
      modifies this
      ensures sent == Outgoing(old(inputText))
      ensures sent.Some? ==> inputText == ""
      ensures sent.None? ==> inputText == old(inputText)
    {
      if IsBlank(inputText) {
        sent := None;
        return;
      }
      sent := Some([ContentItem(TextContent, Some(Trim(inputText)), None)]);
      inputText := "";
    }

    /** `handleChangeText`: store the text as typed and report whether it is non-empty. */
    method HandleChangeText(text: string) returns (typing: bool)
      modifies this
      ensures inputText == text
      ensures typing == TypingReported(text)
    {
      inputText := text;
      typing := |text| > 0;
    }

    /**
     * The normal chat's right-hand button: `handleSend` when the trimmed
     * text is non-empty, otherwise the "coming soon" alert, which changes no
     * state.
     */
    method PressRightButton() returns (sent: Option<seq<ContentItem>>, comingSoon: bool)
      modifies this
      ensures comingSoon <==> RightButton(old(inputText)) == ComingSoon
      ensures sent == Outgoing(old(inputText))
      ensures comingSoon ==> inputText == old(inputText)
      ensures !comingSoon ==> inputText == ""
    {
      if !IsBlank(inputText) {
        sent := HandleSend();
        comingSoon := false;
      } else {
        sent := None;
        comingSoon := true;
      }
    }
  }
}
