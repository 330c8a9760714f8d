/**
 * The phone-number onboarding step. Both copies of the screen share one
 * formatter, `formatPhoneNumber`, which turns whatever was typed into the US
 * layout "(ddd) ddd-dddd"; submitting forwards the bare digits once there
 * are ten of them.
 */
module PhoneId {
  import opened Text
  import opened Wrappers

  /** `formatPhoneNumber`: keeps the digits and lays out at most ten of them. */
  function Format(value: string): (r: string)
    ensures |r| <= 14
  {
    if value == "" then value
    else
      var d := Digits(value);
      if |d| < 4 then d
      else if |d| < 7 then "(" + d[..3] + ") " + d[3..]
      else "(" + d[..3] + ") " + d[3..6] + "-" + d[6..Min(|d|, 10)]
  }

  /**
   * Where the punctuation goes: fewer than four digits stand bare; from four
   * on, the area code is wrapped as "(ddd) "; from seven on, a '-' follows the
   * next three digits. Every other position holds a digit.
   */
  lemma {:induction false} FormatLayout(value: string)
    ensures var d := Digits(value); var r := Format(value);
      && (|d| < 4 ==> r == d)
      && (4 <= |d| < 7 ==>
            |r| == |d| + 3 && r[0] == '(' && r[4] == ')' && r[5] == ' '
            && forall k :: 0 <= k < |r| && k != 0 && k != 4 && k != 5 ==> IsDigit(r[k]))
      && (7 <= |d| ==>
            |r| == Min(|d|, 10) + 4 && r[0] == '(' && r[4] == ')' && r[5] == ' ' && r[9] == '-'
            && forall k :: 0 <= k < |r| && k != 0 && k != 4 && k != 5 && k != 9 ==> IsDigit(r[k]))
  {
  }

  /** The punctuation of the short layout contributes no digit. */
  lemma {:induction false} DigitsOfShortLayout(a: string, b: string)
    requires AllDigits(a) && AllDigits(b)
    ensures Digits("(" + a + ") " + b) == a + b
  {
    DigitsOfDigits(a);
    DigitsOfDigits(b);
    assert "(" + a == "" + "(" + a;
    DigitsSkip("", "(", a);
    assert ") "[0] == ')' && ") "[1] == ' ';
    DigitsSkip("(" + a, ") ", b);
  }

  /** The punctuation of the full layout contributes no digit. */
  lemma {:induction false} DigitsOfFullLayout(a: string, b: string, c: string)
    requires AllDigits(a) && AllDigits(b) && AllDigits(c)
    ensures Digits("(" + a + ") " + b + "-" + c) == a + b + c
  {
    DigitsOfShortLayout(a, b);
    DigitsOfDigits(c);
    DigitsSkip("(" + a + ") " + b, "-", c);
  }

  /** The digits of the formatted text are exactly the first ten (or fewer) digits typed, in order. */
  lemma {:induction false} FormatDigits(value: string)
    ensures var d := Digits(value); Digits(Format(value)) == d[..Min(|d|, 10)]
  {
    var d := Digits(value);
    if value != [] && |d| >= 7 {
      var m := Min(|d|, 10);
      DigitsOfFullLayout(d[..3], d[3..6], d[6..m]);
      assert d[..3] + d[3..6] + d[6..m] == d[..m];
    } else if value != [] && |d| >= 4 {
      DigitsOfShortLayout(d[..3], d[3..]);
      assert d[..3] + d[3..] == d;
    } else if value != [] {
      DigitsOfDigits(d);
    }
  }

  /** Only an empty input, or one without a digit, formats to the empty text. */
  lemma {:induction false} FormatEmpty(value: string)
    ensures Format(value) == "" <==> Digits(value) == ""
  {
    if value == "" {
      assert Digits(value) == "";
    }
  }

  /** Re-formatting the text field's own content changes nothing: each edit is formatted again safely. */
  lemma {:induction false} FormatIdempotent(value: string)
    ensures Format(Format(value)) == Format(value)
  {
    var d := Digits(value);
    var r := Format(value);
    FormatDigits(value);
    if r != "" {
      var e := Digits(r);
      assert e == d[..Min(|d|, 10)];
      if |d| >= 7 {
        assert e[..3] == d[..3] && e[3..6] == d[3..6] && e[6..Min(|e|, 10)] == d[6..Min(|d|, 10)];
      }
    }
  }

  /** What `handleSubmit` forwards to `onNext` for the text field's content, if anything. */
  function Submission(phoneNumber: string): Option<string> {
    var raw := Digits(phoneNumber);
    if |raw| >= 10 then Some(raw) else None
  }

  /**
   * Typing `text` and submitting forwards exactly the first ten digits typed,
   * and only when at least ten were typed.
   */
  lemma {:induction false} SubmitAfterTyping(text: string)
    ensures var d := Digits(text);
      Submission(Format(text)) == if |d| >= 10 then Some(d[..10]) else None
  {
    FormatDigits(text);
  }

  /** The phone-number screen: its text field state `phoneNumber`. */
  class PhoneIdScreen {
    var phoneNumber: string

    /** What the text field can hold: a formatted number of at most ten digits. */
    ghost predicate Valid()
      reads this
    {
      Format(phoneNumber) == phoneNumber && |Digits(phoneNumber)| <= 10
    }

    constructor ()
      ensures phoneNumber == "" && Valid()
    {
      phoneNumber := "";
    }

    /** `handlePhoneChange`: the field stores the formatted text, never the raw keystrokes. */
    method HandlePhoneChange(text: string)
      modifies this
      ensures phoneNumber == Format(text)
      ensures Valid()
    {
      FormatIdempotent(text);
      FormatDigits(text);
      phoneNumber := Format(text);
    }

    /** `handleSubmit`: `onNext` receives the digits once there are ten; then there are exactly ten. */
    method HandleSubmit() returns (next: Option<string>)
      ensures next == Submission(phoneNumber)
      ensures next.Some? <==> |Digits(phoneNumber)| >= 10
      ensures next.Some? ==> AllDigits(next.value)
      ensures next.Some? && Valid() ==> |next.value| == 10
    {
      var raw := Digits(phoneNumber);
      if |raw| >= 10 {
        next := Some(raw);
      } else {
        next := None;
      }
    }

    /**
     * `disabled={!phoneNumber.length}` on the continue button: it is enabled
     * as soon as one digit is stored, well before the ten that the submit
     * handler waits for.
     */
    function SubmitDisabled(): (disabled: bool)
      reads this
      ensures Valid() ==> (disabled <==> Digits(phoneNumber) == "")
      ensures !disabled && |Digits(phoneNumber)| < 10 ==> Submission(phoneNumber).None?
    {
      FormatEmpty(phoneNumber);
      |phoneNumber| == 0
    }
  }
}
