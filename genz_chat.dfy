/**
 * The GenZ chat screen: a send appends the user's text as typed (the blank
 * test trims, the stored text does not), clears the field and starts one
 * reply timer; each timer appends one of eight canned replies. The random
 * pick is the `choice` parameter, ids and timestamps are parameters too.
 */
module GenZChat {
  import opened Text

  datatype Message = Message(id: string, text: string, isUser: bool, timestamp: int)

  /** The eight canned replies, in the order of the source table. */
  datatype Reply =
    | LiterallyMe | TotallyGetIt | Periodt | SlayQueen
    | NoCapDetected | SpeakingFacts | FrFrNoCap | VibeCheck

  function Responses(): (r: seq<Reply>)
    ensures |r| == 8
  {
    [LiterallyMe, TotallyGetIt, Periodt, SlayQueen, NoCapDetected, SpeakingFacts, FrFrNoCap, VibeCheck]
  }

  function ReplyText(r: Reply): string {
    match r
    case LiterallyMe => "literally me rn"
    case TotallyGetIt => "omg bestie I totally get what you're saying! that's exactly how I've been feeling lately and it's like nobody else understands but you just GET IT fr fr"
    case Periodt => "periodt"
    case SlayQueen => "slay queen! you're absolutely spitting facts and I'm here for every single word of it. keep that energy because you're literally changing lives rn"
    case NoCapDetected => "no cap detected"
    case SpeakingFacts => "based and redpilled fr fr, you're speaking straight facts and everyone needs to hear this. the way you just explained that was absolutely perfect"
    case FrFrNoCap => "fr fr no cap"
    case VibeCheck => "vibe check passed 100%, you're literally radiating the most immaculate energy rn and I'm totally here for it. keep blessing us with these god tier takes"
  }

  /** `messages`, `inputText`, and the number of reply timers still to fire. */
  class GenZChatScreen {
    var messages: seq<Message>
    var inputText: string
    var pendingReplies: nat

    /**
     * Every reply answers an earlier send (one per send, counting the timers
     * still running), every reply is a canned text, and no user message is blank.
     */
    ghost predicate Valid()
      reads this
    {
      UserCount(messages) == ReplyCount(messages) + pendingReplies
      && WellFormed(messages)
    }

    constructor ()
      ensures messages == [] && inputText == "" && pendingReplies == 0 && Valid()
    {
      messages := [];
      inputText := "";
      pendingReplies := 0;
    }

    /** `onChangeText`: the field takes the text as typed. */
    method SetInputText(text: string)
      modifies this
      ensures inputText == text && messages == old(messages) && pendingReplies == old(pendingReplies)
    {
      inputText := text;
    }

    /**
     * `handleSend`: blank input changes nothing; otherwise the untrimmed text
     * is appended as the user's message, the field is cleared and one reply
     * is scheduled.
     */
    method HandleSend(id: string, now: int)
      requires Valid()
      modifies this
      ensures Valid()
      ensures IsBlank(old(inputText)) ==>
        messages == old(messages) && inputText == old(inputText) && pendingReplies == old(pendingReplies)
      ensures !IsBlank(old(inputText)) ==>
        messages == old(messages) + [Message(id, old(inputText), true, now)]
        && inputText == "" && pendingReplies == old(pendingReplies) + 1
    {
      if IsBlank(inputText) {
        return;
      }
      CountAppend(messages, Message(id, inputText, true, now));
      AppendKeepsWellFormed(messages, Message(id, inputText, true, now));
      messages := messages + [Message(id, inputText, true, now)];
      inputText := "";
      pendingReplies := pendingReplies + 1;
    }

    /** A reply timer fires: append canned reply number `choice` as a non-user message. */
    method DeliverReply(choice: nat, id: string, now: int)
      requires Valid() && pendingReplies > 0
      requires choice < |Responses()|
      modifies this
      ensures Valid()
      ensures messages == old(messages) + [Message(id, ReplyText(Responses()[choice]), false, now)]
      ensures inputText == old(inputText) && pendingReplies == old(pendingReplies) - 1
    {
      CountAppend(messages, Message(id, ReplyText(Responses()[choice]), false, now));
      AppendKeepsWellFormed(messages, Message(id, ReplyText(Responses()[choice]), false, now));
      messages := messages + [Message(id, ReplyText(Responses()[choice]), false, now)];
      pendingReplies := pendingReplies - 1;
    }
  }

  function UserCount(ms: seq<Message>): nat
    decreases |ms|
  {
    if ms == [] then 0 else UserCount(ms[..|ms| - 1]) + (if ms[|ms| - 1].isUser then 1 else 0)
  }

  function ReplyCount(ms: seq<Message>): nat
    decreases |ms|
  {
    if ms == [] then 0 else ReplyCount(ms[..|ms| - 1]) + (if ms[|ms| - 1].isUser then 0 else 1)
  }

  /** Appending one message adds it to exactly one of the two counts. */
  lemma {:induction false} CountAppend(ms: seq<Message>, m: Message)
    ensures UserCount(ms + [m]) == UserCount(ms) + (if m.isUser then 1 else 0)
    ensures ReplyCount(ms + [m]) == ReplyCount(ms) + (if m.isUser then 0 else 1)
  {
    assert (ms + [m])[..|ms|] == ms;
  }

  /** A message as the screen appends it: a user's text is never blank, a reply is one of the canned texts. */
  predicate Appendable(m: Message) {
    if m.isUser then !IsBlank(m.text) else exists r: Reply :: m.text == ReplyText(r)
  }

  predicate WellFormed(ms: seq<Message>) {
    forall i :: 0 <= i < |ms| ==> Appendable(ms[i])
  }

  /** Appending one appendable message keeps the list well formed and the earlier messages in place. */
  lemma {:induction false} AppendKeepsWellFormed(ms: seq<Message>, m: Message)
    requires WellFormed(ms) && Appendable(m)
    ensures WellFormed(ms + [m])
    ensures (ms + [m])[..|ms|] == ms
  {
    assert forall i :: 0 <= i < |ms| ==> (ms + [m])[i] == ms[i];
  }
}
