/**
 * A card of the home grid. Pressing it opens a quick-reply sheet; a reply
 * with something besides white space closes the sheet and opens the chat
 * with the reply; dismissing the sheet throws the draft away.
 */
module BentoCard {
  import opened Text
  import opened Wrappers

  datatype CardType = Voice | TextNote | Picture | Reminder

  datatype CardData = CardData(id: string, cardType: CardType, title: string, content: string, time: string, color: string)

  /** The target of `router.push`: the chat screen, replying to a card with a first message. */
  datatype ChatRoute = ChatRoute(pathname: string, replyTo: string, initialMessage: string)

  /** One card and its `isModalVisible` and `replyText` state. */
  class BentoCardView {
    const card: CardData
    var isModalVisible: bool
    var replyText: string

    constructor (card: CardData)
      ensures this.card == card && !isModalVisible && replyText == ""
    {
      this.card := card;
      isModalVisible := false;
      replyText := "";
    }

    /** `handlePress`, once the press animation has finished: the sheet opens with the draft as it was. */
    method HandlePress()
      modifies this
      ensures isModalVisible && replyText == old(replyText)
    {
      isModalVisible := true;
    }

    /** The reply field's `onChangeText`. */
    method SetReplyText(text: string)
      modifies this
      ensures replyText == text && isModalVisible == old(isModalVisible)
    {
      replyText := text;
    }

    /**
     * `handleSubmit`: a reply with something besides white space hides the
     * sheet and opens the chat with the card's id and the trimmed reply;
     * the draft itself is kept. A blank reply changes nothing.
     */
    method HandleSubmit() returns (route: Option<ChatRoute>)
      modifies this
      ensures route.Some? <==> !AllWhitespace(old(replyText))
      ensures route.Some? ==>
        route.value == ChatRoute("/chat", card.id, Trim(old(replyText)))
        && route.value.initialMessage != "" && !isModalVisible
      ensures route.None? ==> isModalVisible == old(isModalVisible)
      ensures replyText == old(replyText)
    {
      BlankIffAllWhitespace(replyText);
      if IsBlank(replyText) {
        route := None;
      } else {
        TrimmedNotBlank(replyText);
        isModalVisible := false;
        route := Some(ChatRoute("/chat", card.id, Trim(replyText)));
      }
    }

    /** `closeModal`, from the backdrop, the back button or the field losing focus: hide the sheet and drop the draft. */
    method CloseModal()
      modifies this
      ensures !isModalVisible && replyText == ""
    {
      isModalVisible := false;
      replyText := "";
    }
  }
}
