/**
 * The personality picker: four cards in a horizontal pager, a selection
 * that starts on the first card, a tap that selects a card and scrolls it
 * into place, and a button that hands the selection on.
 */
module PersonalitySelect {

  datatype Personality = Personality(id: string, name: string)

  /** `PERSONALITIES`, without the descriptions, which `Description` gives. */
  function Personalities(): (ps: seq<Personality>)
    ensures |ps| == 4
  {
    [ Personality("playful", "Playful"),
      Personality("professional", "Professional"),
      Personality("wise", "Wise"),
      Personality("caring", "Caring") ]
  }

  /** The text under a card's name. */
  function Description(id: string): string {
    if id == "playful" then "Fun, energetic, and always ready for a laugh. Perfect for casual chats and creative brainstorming."
    else if id == "professional" then "Focused, efficient, and straight to the point. Ideal for work-related tasks and productivity."
    else if id == "wise" then "Thoughtful, insightful, and philosophical. Great for deep conversations and learning."
    else if id == "caring" then "Empathetic, supportive, and understanding. Perfect for emotional support and personal growth."
    else ""
  }

  /** The ids of the cards, in order. */
  function Ids(ps: seq<Personality>): (ids: seq<string>)
    ensures |ids| == |ps|
    ensures forall i :: 0 <= i < |ps| ==> ids[i] == ps[i].id
  {
    seq(|ps|, i requires 0 <= i < |ps| => ps[i].id)
  }

  predicate Distinct(ids: seq<string>) {
    forall i, j :: 0 <= i < j < |ids| ==> ids[i] != ids[j]
  }

  /** The card ids, in card order. */
  const PersonalityIds: seq<string> := ["playful", "professional", "wise", "caring"]

  /** The four cards have four different ids, the first being "playful". */
  lemma PersonalityIdsDistinct()
    ensures Ids(Personalities()) == PersonalityIds
    ensures Distinct(PersonalityIds)
  {
    var ids := Ids(Personalities());
    assert ids == PersonalityIds;
    assert "playful"[1] != "professional"[1] && "playful"[0] != "wise"[0] && "playful"[0] != "caring"[0];
    assert "professional"[0] != "wise"[0] && "professional"[0] != "caring"[0] && "wise"[0] != "caring"[0];
  }

  /** `findIndex(p => p.id === id)`: the first card with this id, or -1 when there is none. */
  function FindIndex(ids: seq<string>, id: string): (i: int)
    ensures -1 <= i < |ids|
    ensures i == -1 <==> id !in ids
    ensures i >= 0 ==> ids[i] == id && forall j :: 0 <= j < i ==> ids[j] != id
    decreases |ids|
  {
    if ids == [] then -1
    else if ids[0] == id then 0
    else
      var i := FindIndex(ids[1..], id);
      assert id in ids <==> id in ids[1..] by {
        assert ids == [ids[0]] + ids[1..];
      }
      if i == -1 then -1 else i + 1
  }

  /** With distinct ids, the card found for the id at position i is card i. */
  lemma {:induction false} FindIndexOfDistinct(ids: seq<string>, i: nat)
    requires Distinct(ids) && i < |ids|
    ensures FindIndex(ids, ids[i]) == i
    decreases i
  {
    if i > 0 {
      assert ids[0] != ids[i];
      assert Distinct(ids[1..]) by {
        forall a, b | 0 <= a < b < |ids[1..]|
          ensures ids[1..][a] != ids[1..][b]
        {
          assert ids[a + 1] != ids[b + 1];
        }
      }
      assert ids[1..][i - 1] == ids[i];
      FindIndexOfDistinct(ids[1..], i - 1);
    }
  }

  const CardMargin := 16

  /** `index * (CARD_WIDTH + CARD_MARGIN)` with `CARD_WIDTH = SCREEN_WIDTH - 48`. */
  function ScrollOffset(index: int, screenWidth: int): int {
    index * (screenWidth - 48 + CardMargin)
  }

  /** On a screen wider than 32 points the card offsets strictly grow with the card index. */
  lemma {:induction false} OffsetIncreasing(i: int, j: int, screenWidth: int)
    requires i < j && screenWidth > 32
    ensures ScrollOffset(i, screenWidth) < ScrollOffset(j, screenWidth)
    decreases j - i
  {
    var step := screenWidth - 32;
    assert ScrollOffset(i + 1, screenWidth) == ScrollOffset(i, screenWidth) + step by {
      assert (i + 1) * step == i * step + step;
    }
    if i + 1 < j {
      OffsetIncreasing(i + 1, j, screenWidth);
    }
  }

  /** The picker's `selectedId`, and the offset it last asked the pager to scroll to. */
  class PersonalitySelectScreen {
    var selectedId: string
    var scrollTarget: int

    /** The selection is always one of the cards. */
    ghost predicate Valid()
      reads this
    {
      selectedId in PersonalityIds
    }

    constructor ()
      ensures selectedId == Personalities()[0].id && selectedId == "playful"
      ensures scrollTarget == 0 && Valid()
    {
      selectedId := Personalities()[0].id;
      scrollTarget := 0;
    }

    /**
     * `handlePersonalitySelect`: select the card and scroll to its offset.
     * A tap always comes from a card, so the selection stays one of the cards.
     */
    method HandlePersonalitySelect(id: string, screenWidth: int)
      modifies this
      ensures selectedId == id
      ensures scrollTarget == ScrollOffset(FindIndex(PersonalityIds, id), screenWidth)
      ensures id in PersonalityIds ==> Valid() && 0 <= FindIndex(PersonalityIds, id) < 4
      ensures forall k :: 0 <= k < |PersonalityIds| && PersonalityIds[k] == id ==> scrollTarget == ScrollOffset(k, screenWidth)
    {
      PersonalityIdsDistinct();
      forall k | 0 <= k < |PersonalityIds| && PersonalityIds[k] == id
        ensures FindIndex(PersonalityIds, id) == k
      {
        FindIndexOfDistinct(PersonalityIds, k);
      }
      selectedId := id;
      var index := FindIndex(PersonalityIds, id);
      scrollTarget := ScrollOffset(index, screenWidth);
    }

    /** The "let's go!" press: `onNext(selectedId)`. */
    method PressLetsGo() returns (forwarded: string)
      requires Valid()
      ensures forwarded == selectedId
      ensures forwarded in PersonalityIds
    {
      forwarded := selectedId;
    }
  }
}
