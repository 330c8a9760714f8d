/**
 * The reflection home screen: a mood strip whose icons come from a fixed
 * table, and a reflection sheet opened from the prompt card or the
 * floating button.
 */
module Homescreen {

  /** The `moodIcons` table. */
  const MoodIcons: map<string, string> := map[
    "joyful" := "laugh-beam",
    "peaceful" := "smile",
    "focused" := "glasses",
    "grateful" := "heart",
    "inspired" := "star"
  ]

  /** `renderMoodIcon`: the table's icon, and "smile" for any mood it does not list. */
  function RenderMoodIcon(mood: string): (icon: string)
    ensures mood in MoodIcons ==> icon == MoodIcons[mood]
    ensures mood !in MoodIcons ==> icon == "smile"
  {
    if mood in MoodIcons && MoodIcons[mood] != "" then MoodIcons[mood] else "smile"
  }

  /** The "smile" icon stands for a peaceful mood and for every mood the table does not know. */
  lemma SmileMeansPeacefulOrUnknown(mood: string)
    ensures RenderMoodIcon(mood) == "smile" <==> mood == "peaceful" || mood !in MoodIcons
  {
    if mood in MoodIcons && mood != "peaceful" {
      assert mood in {"joyful", "focused", "grateful", "inspired"};
    }
  }

  /** The moods of `moodHistory`, Monday to Friday. */
  function MoodHistory(): seq<string> {
    ["joyful", "peaceful", "focused", "grateful", "inspired"]
  }

  /** Every mood in the history has its own entry in the table, and no two days share an icon. */
  lemma HistoryMoodsHaveIcons()
    ensures forall i :: 0 <= i < |MoodHistory()| ==> MoodHistory()[i] in MoodIcons
    ensures forall i, j :: 0 <= i < j < |MoodHistory()| ==> RenderMoodIcon(MoodHistory()[i]) != RenderMoodIcon(MoodHistory()[j])
  {
  }

  /** `reflectionPrompts`. */
  function ReflectionPrompts(): (ps: seq<string>)
    ensures |ps| == 4
  {
    [ "What's bringing you joy today?",
      "Share a small win from yesterday",
      "What are you looking forward to?",
      "Name three things you're grateful for" ]
  }

  /** The screen's `isInputModalVisible`, `inputText` and `currentPrompt` state. */
  class HomeScreen {
    var isInputModalVisible: bool
    var inputText: string
    var currentPrompt: string

    constructor ()
      ensures !isInputModalVisible && inputText == "" && currentPrompt == ReflectionPrompts()[0]
    {
      isInputModalVisible := false;
      inputText := "";
      currentPrompt := ReflectionPrompts()[0];
    }

    /** `handlePromptPress`, and the floating button's press, which does the same. */
    method OpenInputModal()
      modifies this
      ensures isInputModalVisible && inputText == old(inputText) && currentPrompt == old(currentPrompt)
    {
      isInputModalVisible := true;
    }

    /** The sheet's `onChangeText`. */
    method SetInputText(text: string)
      modifies this
      ensures inputText == text
      ensures isInputModalVisible == old(isInputModalVisible) && currentPrompt == old(currentPrompt)
    {
      inputText := text;
    }

    /** `onRequestClose` and the close button: the sheet hides and the typed text stays for next time. */
    method CloseInputModal()
      modifies this
      ensures !isInputModalVisible && inputText == old(inputText) && currentPrompt == old(currentPrompt)
    {
      isInputModalVisible := false;
    }

    /** "Save Reflection": the sheet hides and the text is cleared; it is not stored anywhere. */
    method SaveReflection()
      modifies this
      ensures !isInputModalVisible && inputText == "" && currentPrompt == old(currentPrompt)
    {
      isInputModalVisible := false;
      inputText := "";
    }
  }
}
