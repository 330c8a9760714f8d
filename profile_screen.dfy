/**
 * The profile editor: a name field, two preference switches, a friends list
 * that the add button grows, and a feedback field that submitting clears.
 */
module ProfileEditor {

  datatype Preferences = Preferences(darkMode: bool, notifications: bool, language: string)

  /** `{ ...preferences, darkMode: !preferences.darkMode }`. */
  function FlipDarkMode(p: Preferences): (q: Preferences)
    ensures q.darkMode == !p.darkMode
    ensures q.notifications == p.notifications && q.language == p.language
  {
    p.(darkMode := !p.darkMode)
  }

  /** `{ ...preferences, notifications: !preferences.notifications }`. */
  function FlipNotifications(p: Preferences): (q: Preferences)
    ensures q.notifications == !p.notifications
    ensures q.darkMode == p.darkMode && q.language == p.language
  {
    p.(notifications := !p.notifications)
  }

  /** Each switch undoes itself, and the two switches do not interfere. */
  lemma FlipsUndoAndCommute(p: Preferences)
    ensures FlipDarkMode(FlipDarkMode(p)) == p
    ensures FlipNotifications(FlipNotifications(p)) == p
    ensures FlipDarkMode(FlipNotifications(p)) == FlipNotifications(FlipDarkMode(p))
  {
  }

  const NewFriend := "New Friend"

  /** The screen's `name`, `preferences`, `friends` and `feedback` state. */
  class ProfileScreen {
    var name: string
    var preferences: Preferences
    var friends: seq<string>
    var feedback: string

    /** Every friend on the list was put there by the add button. */
    ghost predicate Valid()
      reads this
    {
      forall i :: 0 <= i < |friends| ==> friends[i] == NewFriend
    }

    constructor ()
      ensures name == "Your Name"
      ensures preferences == Preferences(true, true, "English")
      ensures friends == [] && feedback == ""
      ensures Valid()
    {
      name := "Your Name";
      preferences := Preferences(true, true, "English");
      friends := [];
      feedback := "";
    }

    /** The name field's `onChangeText`. */
    method SetName(text: string)
      modifies this
      ensures name == text
      ensures preferences == old(preferences) && friends == old(friends) && feedback == old(feedback)
    {
      name := text;
    }

    /** The feedback field's `onChangeText`. */
    method SetFeedback(text: string)
      modifies this
      ensures feedback == text
      ensures name == old(name) && preferences == old(preferences) && friends == old(friends)
    {
      feedback := text;
    }

    /** `handleAddFriend`: one "New Friend" at the end, the earlier entries kept in place. */
    method HandleAddFriend()
      requires Valid()
      modifies this
      ensures Valid()
      ensures friends == old(friends) + [NewFriend]
      ensures |friends| == |old(friends)| + 1 && friends[..|old(friends)|] == old(friends)
      ensures name == old(name) && preferences == old(preferences) && feedback == old(feedback)
    {
      friends := friends + [NewFriend];
      assert friends[..|friends| - 1] == old(friends);
    }

    /** `handleSubmitFeedback`: the text is cleared and nothing is stored. */
    method HandleSubmitFeedback()
      modifies this
      ensures feedback == ""
      ensures name == old(name) && preferences == old(preferences) && friends == old(friends)
    {
      feedback := "";
    }

    /** The dark-mode row's press. */
    method PressDarkMode()
      modifies this
      ensures preferences == FlipDarkMode(old(preferences))
      ensures name == old(name) && friends == old(friends) && feedback == old(feedback)
    {
      preferences := preferences.(darkMode := !preferences.darkMode);
    }

    /** The notifications row's press. */
    method PressNotifications()
      modifies this
      ensures preferences == FlipNotifications(old(preferences))
      ensures name == old(name) && friends == old(friends) && feedback == old(feedback)
    {
      preferences := preferences.(notifications := !preferences.notifications);
    }
  }
}
