/**
 * The dark chat screen. Its messages live in the hosted database, modelled
 * here as a store from conversation id to the conversation's messages in
 * the order they were written. A send writes the user's trimmed text,
 * clears the field and raises the typing flag; a reply timer later writes
 * one canned line of the bot's personality and lowers the flag. The random
 * pick, the fresh message ids and the clock are parameters.
 */
module DarkChat {
  import opened Text
  import opened Wrappers

  datatype Role = User | Assistant

  /** A creation time, reduced to the two things the screen reads from it: the local calendar day and the instant. */
  datatype Stamp = Stamp(localDay: int, millis: int)

  datatype Message = Message(id: string, content: string, role: Role, createdAt: Stamp)

  /** The per-conversation message store `db.transact` writes to. */
  class MessageStore {
    var conversations: map<string, seq<Message>>

    constructor ()
      ensures conversations == map[]
    {
      conversations := map[];
    }

    /** The messages linked to `chatId`, oldest first; none for an unknown conversation. */
    function Thread(chatId: string): seq<Message>
      reads this
    {
      if chatId in conversations then conversations[chatId] else []
    }

    /**
     * `addToChat`: store exactly one message with this content and role,
     * linked to `chatId`, and return its fresh id.
     */
    method AddToChat(content: string, role: Role, chatId: string, newId: string, now: Stamp) returns (id: string)
      modifies this
      ensures id == newId
      ensures conversations == old(conversations)[chatId := old(Thread(chatId)) + [Message(newId, content, role, now)]]
      ensures Thread(chatId) == old(Thread(chatId)) + [Message(newId, content, role, now)]
      ensures forall c :: c != chatId ==> Thread(c) == old(Thread(c))
    {
      conversations := conversations[chatId := Thread(chatId) + [Message(newId, content, role, now)]];
      id := newId;
    }
  }

  /** `getBotName`: the five personalities by id, Ara for any other id. */
  function GetBotName(id: string): (name: string)
    ensures id == "1" ==> name == "Ara"
    ensures id == "2" ==> name == "GenZ"
    ensures id == "3" ==> name == "Poet"
    ensures id == "4" ==> name == "Chef"
    ensures id == "5" ==> name == "Teacher"
    ensures id !in {"1", "2", "3", "4", "5"} ==> name == "Ara"
  {
    if id == "1" then "Ara"
    else if id == "2" then "GenZ"
    else if id == "3" then "Poet"
    else if id == "4" then "Chef"
    else if id == "5" then "Teacher"
    else "Ara"
  }

  /** `personalityResponses`: two canned lines for each of the five personality ids. */
  const PersonalityResponses: map<string, seq<string>> := map[
    "1" := ["I'm here to help! What would you like to discuss?", "That's an interesting topic. Let me share some thoughts..."],
    "2" := ["No cap fr fr, what's good?", "That's so based! I'm vibing with what you're saying."],
    "3" := ["What words shall dance upon the page today?", "The universe speaks through us, a symphony of thought..."],
    "4" := ["Would you like a recipe suggestion based on that?", "I know many delightful dishes that incorporate those ingredients."],
    "5" := ["Let's explore that topic together. What aspect interests you most?", "I have several resources that might help with that question."]
  ]

  /** `personalityResponses[botId] || personalityResponses['1']`: the bot's own lines, Ara's for an unknown id. */
  function ResponsesFor(botId: string): (lines: seq<string>)
    ensures |lines| == 2
    ensures botId in PersonalityResponses ==> lines == PersonalityResponses[botId]
    ensures botId !in PersonalityResponses ==> lines == PersonalityResponses["1"]
  {
    if botId in PersonalityResponses then PersonalityResponses[botId] else PersonalityResponses["1"]
  }

  /**
   * The header name and the reply table fall back together: a bot is
   * called Ara exactly when its id is '1' or has no lines of its own, that
   * is, exactly when it answers with Ara's lines by lookup or by default.
   */
  lemma NameMatchesResponses(botId: string)
    ensures GetBotName(botId) == "Ara" <==> botId == "1" || botId !in PersonalityResponses
    ensures GetBotName(botId) == "Ara" ==> ResponsesFor(botId) == ResponsesFor("1")
  {
  }

  /** `{ chatId = '1' }`: the default applies only when the prop is absent. */
  function ChatIdProp(chatId: Option<string>): (id: string)
    ensures chatId.Some? ==> id == chatId.value
    ensures chatId.None? ==> id == "1"
  {
    if chatId.Some? then chatId.value else "1"
  }

  /** `params.id || chatId`: a non-empty route id wins, else the conversation id. */
  function BotId(routeId: Option<string>, chatId: string): (id: string)
    ensures routeId.Some? && routeId.value != "" ==> id == routeId.value
    ensures routeId.None? || routeId.value == "" ==> id == chatId
  {
    if routeId.Some? && routeId.value != "" then routeId.value else chatId
  }

  /**
   * The personality follows the route while the messages follow `chatId`:
   * opened on route "3" without a chat id, the screen talks like the Poet
   * but reads and writes conversation "1".
   */
  lemma RouteSetsPersonalityNotConversation()
    ensures ChatIdProp(None) == "1"
    ensures GetBotName(BotId(Some("3"), ChatIdProp(None))) == "Poet"
  {
  }

  /** The date header above message `i`: the first message, or one dated on another day than its predecessor. */
  predicate ShowsDate(ms: seq<Message>, i: nat)
    requires i < |ms|
  {
    i == 0 || ms[i].createdAt.localDay != ms[i - 1].createdAt.localDay
  }

  predicate DaysInOrder(ms: seq<Message>) {
    forall i, j :: 0 <= i < j < |ms| ==> ms[i].createdAt.localDay <= ms[j].createdAt.localDay
  }

  /** For messages in date order, a header appears exactly above the first message of each day. */
  lemma DateHeaderMarksFirstOfDay(ms: seq<Message>, i: nat)
    requires DaysInOrder(ms) && i < |ms|
    ensures ShowsDate(ms, i) <==> forall j :: 0 <= j < i ==> ms[j].createdAt.localDay != ms[i].createdAt.localDay
  {
    if i > 0 && ShowsDate(ms, i) {
      forall j | 0 <= j < i
        ensures ms[j].createdAt.localDay != ms[i].createdAt.localDay
      {
        assert ms[j].createdAt.localDay <= ms[i - 1].createdAt.localDay;
      }
    }
  }

  /** The dark chat screen: its conversation, its personality, and its `inputText` and `isTyping` state. */
  class DarkChatScreen {
    const chatId: string
    const botId: string
    const store: MessageStore
    var inputText: string
    var isTyping: bool
    var pendingReplies: nat

    /** The typing indicator is only up while a reply is on its way. */
    ghost predicate Valid()
      reads this
    {
      isTyping ==> pendingReplies > 0
    }

    constructor (chatIdProp: Option<string>, routeId: Option<string>, store: MessageStore)
      ensures chatId == ChatIdProp(chatIdProp) && botId == BotId(routeId, chatId) && this.store == store
      ensures inputText == "" && !isTyping && pendingReplies == 0 && Valid()
    {
      chatId := ChatIdProp(chatIdProp);
      botId := BotId(routeId, ChatIdProp(chatIdProp));
      this.store := store;
      inputText := "";
      isTyping := false;
      pendingReplies := 0;
    }

    /** The list the screen renders: the conversation's messages. */
    function Messages(): seq<Message>
      reads this, store
    {
      store.Thread(chatId)
    }

    /** `disabled={!inputText.trim()}` on the send button: the very test `handleSend` starts with. */
    function SendDisabled(): (disabled: bool)
      reads this
      ensures disabled <==> AllWhitespace(inputText)
    {
      BlankIffAllWhitespace(inputText);
      IsBlank(inputText)
    }

    method SetInputText(text: string)
      modifies this
      ensures inputText == text && isTyping == old(isTyping) && pendingReplies == old(pendingReplies)
    {
      inputText := text;
    }

    /**
     * `handleSend`: blank input changes nothing; otherwise one user message
     * with the trimmed text is written to this conversation, the field is
     * cleared, the typing flag goes up and one reply is scheduled.
     */
    method HandleSend(newId: string, now: Stamp)
      requires Valid()
      modifies this, store
      ensures Valid()
      ensures SendDisabled()
      ensures old(SendDisabled()) ==>
        store.conversations == old(store.conversations) && inputText == old(inputText)
        && isTyping == old(isTyping) && pendingReplies == old(pendingReplies)
      ensures !old(SendDisabled()) ==>
        Messages() == old(Messages()) + [Message(newId, Trim(old(inputText)), User, now)]
        && (forall c :: c != chatId ==> store.Thread(c) == old(store.Thread(c)))
        && inputText == "" && isTyping && pendingReplies == old(pendingReplies) + 1
    {
      if IsBlank(inputText) {
        return;
      }
      var _ := store.AddToChat(Trim(inputText), User, chatId, newId, now);
      inputText := "";
      isTyping := true;
      pendingReplies := pendingReplies + 1;
      assert AllWhitespace(inputText);
    }

    /** The reply timer fires: one of the personality's lines is written as the assistant's, and the flag goes down. */
    method DeliverReply(choice: nat, newId: string, now: Stamp)
      requires Valid() && pendingReplies > 0
      requires choice < |ResponsesFor(botId)|
      modifies this, store
      ensures Valid()
      ensures Messages() == old(Messages()) + [Message(newId, ResponsesFor(botId)[choice], Assistant, now)]
      ensures forall c :: c != chatId ==> store.Thread(c) == old(store.Thread(c))
      ensures !isTyping && pendingReplies == old(pendingReplies) - 1 && inputText == old(inputText)
    {
      var _ := store.AddToChat(ResponsesFor(botId)[choice], Assistant, chatId, newId, now);
      isTyping := false;
      pendingReplies := pendingReplies - 1;
    }
  }
}
