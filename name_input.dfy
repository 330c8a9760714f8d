/**
 * The name step of onboarding: the typed name is handed on trimmed, and
 * only when it has something besides white space.
 */
module NameInput {
  import opened Text
  import opened Wrappers

  /** `handleSubmit`: `onNext(name.trim())` when `name.trim()` is non-empty; the stored name is not touched. */
  function Submission(name: string): (next: Option<string>)
    ensures next.Some? <==> !AllWhitespace(name)
    ensures next.Some? ==> next.value != "" && next.value == Trim(name) && Trim(next.value) == next.value
  {
    BlankIffAllWhitespace(name);
    if IsBlank(name) then None
    else
      TrimmedNotBlank(name);
      TrimIdempotent(name);
      Some(Trim(name))
  }

  /** `disabled={!name.trim()}` on the next button. */
  function NextDisabled(name: string): (disabled: bool)
    ensures disabled <==> Submission(name).None?
  {
    IsBlank(name)
  }

  /** A name of spaces, tabs or line breaks is never handed on. */
  lemma WhitespaceNameNotForwarded(name: string)
    requires forall i :: 0 <= i < |name| ==> IsWhitespace(name[i])
    ensures Submission(name) == None && NextDisabled(name)
  {
  }
}
