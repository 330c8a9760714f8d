/**
 * The username onboarding step: every edit is lower-cased and stripped down
 * to `[a-z0-9_]`, the error line shows what `validateUsername` says about
 * the result, and "next" forwards the name only when there is nothing to say.
 */
module UsernameInput {
  import opened Text
  import opened Wrappers

  const TooShort := "Username must be at least 3 characters"
  const TooLong := "Username must be less than 15 characters"
  const BadCharacter := "Username can only contain letters, numbers, and underscores"

  /** A character of the class `[a-zA-Z0-9_]` the validator accepts. */
  predicate IsWordChar(c: char) {
    'a' <= c <= 'z' || 'A' <= c <= 'Z' || IsDigit(c) || c == '_'
  }

  /** A character of the class `[a-z0-9_]` the sanitiser keeps. */
  predicate IsUsernameChar(c: char) {
    'a' <= c <= 'z' || IsDigit(c) || c == '_'
  }

  predicate AllUsernameChars(s: string) {
    forall k :: 0 <= k < |s| ==> IsUsernameChar(s[k])
  }

  /** `validateUsername`: the first rule broken, in the order length-too-short, too-long, character class; "" when none is. */
  function Validate(value: string): string {
    if |value| < 3 then TooShort
    else if |value| > 15 then TooLong
    else if !(forall k :: 0 <= k < |value| ==> IsWordChar(value[k])) then BadCharacter
    else ""
  }

  /** A name passes exactly when it has 3 to 15 characters, all from `[a-zA-Z0-9_]`; a 15-character name passes. */
  lemma {:induction false} ValidateAccepts(value: string)
    ensures Validate(value) == "" <==>
      3 <= |value| <= 15 && forall k :: 0 <= k < |value| ==> IsWordChar(value[k])
  {
    assert TooShort != "" && TooLong != "" && BadCharacter != "";
  }

  /** `.replace(/[^a-z0-9_]/g, '')`: drops every character outside `[a-z0-9_]`, keeping the order of the rest. */
  function KeepUsernameChars(s: string): (r: string)
    ensures AllUsernameChars(r) && |r| <= |s|
    decreases |s|
  {
    if s == [] then []
    else if IsUsernameChar(s[0]) then
      var rest := KeepUsernameChars(s[1..]);
      assert forall k :: 1 <= k < 1 + |rest| ==> ([s[0]] + rest)[k] == rest[k - 1];
      [s[0]] + rest
    else KeepUsernameChars(s[1..])
  }

  /** The sanitising expression of `handleUsernameChange`: lower-case, then strip. */
  function Sanitize(text: string): (r: string)
    ensures AllUsernameChars(r) && |r| <= |text|
  {
    KeepUsernameChars(ToLower(text))
  }

  lemma {:induction false} KeepAllUsernameChars(s: string)
    requires AllUsernameChars(s)
    ensures KeepUsernameChars(s) == s
    decreases |s|
  {
    if s != [] {
      KeepAllUsernameChars(s[1..]);
    }
  }

  /** Sanitising a sanitised name changes nothing, so the field is stable under re-edits. */
  lemma {:induction false} SanitizeIdempotent(text: string)
    ensures Sanitize(Sanitize(text)) == Sanitize(text)
  {
    var r := Sanitize(text);
    assert ToLower(r) == r;
    KeepAllUsernameChars(r);
  }

  /** A sanitised name never draws the character-class error: only length errors remain. */
  lemma {:induction false} SanitizedNeverBadCharacter(text: string)
    ensures Validate(Sanitize(text)) != BadCharacter
    ensures Validate(Sanitize(text)) == "" <==> 3 <= |Sanitize(text)| <= 15
  {
    ValidateAccepts(Sanitize(text));
    assert TooShort != BadCharacter && TooLong != BadCharacter;
  }

  /** Characters that are already lower-case letters, digits or underscores survive sanitising unchanged. */
  lemma {:induction false} SanitizeKeepsUsername(name: string)
    requires AllUsernameChars(name)
    ensures Sanitize(name) == name
  {
    assert ToLower(name) == name;
    KeepAllUsernameChars(name);
  }

  /** Stripping two pieces of text strips each piece on its own. */
  lemma {:induction false} KeepAppend(a: string, b: string)
    ensures KeepUsernameChars(a + b) == KeepUsernameChars(a) + KeepUsernameChars(b)
    decreases |a|
  {
    if a == [] {
      assert a + b == b;
    } else {
      assert (a + b)[0] == a[0];
      assert (a + b)[1..] == a[1..] + b;
      KeepAppend(a[1..], b);
    }
  }

  /** Sanitising works character by character: a concatenation sanitises to the concatenation. */
  lemma {:induction false} SanitizeAppend(a: string, b: string)
    ensures Sanitize(a + b) == Sanitize(a) + Sanitize(b)
  {
    assert ToLower(a + b) == ToLower(a) + ToLower(b);
    KeepAppend(ToLower(a), ToLower(b));
  }

  /**
   * One character is first lower-cased and then kept exactly when the
   * lower-cased character is in `[a-z0-9_]`: "A" becomes "a", "-" vanishes.
   */
  lemma {:induction false} SanitizeChar(c: char)
    ensures Sanitize([c]) == if IsUsernameChar(LowerChar(c)) then [LowerChar(c)] else []
  {
    assert ToLower([c]) == [LowerChar(c)];
    assert [LowerChar(c)][1..] == [];
  }

  /** Capital letters are kept as their lower-case letters: "Ab_1" sanitises to "ab_1". */
  lemma SanitizeLowercases()
    ensures Sanitize("Ab_1") == "ab_1"
  {
    SanitizeAppend("A", "b_1");
    SanitizeChar('A');
    SanitizeKeepsUsername("b_1");
  }

  /** The username screen: its `username` and `error` state. */
  class UsernameInputScreen {
    var username: string
    var error: string

    /** The error line always shows the validator's verdict on the stored name, except before the first edit. */
    ghost predicate Valid()
      reads this
    {
      AllUsernameChars(username)
      && (error == Validate(username) || (username == "" && error == ""))
    }

    constructor ()
      ensures username == "" && error == "" && Valid()
    {
      username := "";
      error := "";
    }

    /** `handleUsernameChange`: store the sanitised text and its validation message. */
    method HandleUsernameChange(text: string)
      modifies this
      ensures username == Sanitize(text)
      ensures error == Validate(username)
      ensures Valid()
    {
      var sanitized := Sanitize(text);
      username := sanitized;
      error := Validate(sanitized);
    }

    /** `handleSubmit`: forward the name when it validates, otherwise show the message. */
    method HandleSubmit() returns (next: Option<string>)
      requires Valid()
      modifies this
      ensures Valid()
      ensures username == old(username)
      ensures next.Some? <==> Validate(username) == ""
      ensures next.Some? ==> next.value == username && 3 <= |username| <= 15 && AllUsernameChars(username)
      ensures next.Some? ==> error == old(error)
      ensures next.None? ==> error == Validate(username)
    {
      var validationError := Validate(username);
      if validationError == "" {
        ValidateAccepts(username);
        next := Some(username);
      } else {
        error := validationError;
        next := None;
      }
    }

    /** `disabled={!!error || !username}` on the "next" button. */
    function ButtonDisabled(): (disabled: bool)
      reads this
      ensures Valid() ==> (disabled <==> Validate(username) != "")
    {
      assert Validate("") == TooShort;
      error != "" || username == ""
    }
  }
}
