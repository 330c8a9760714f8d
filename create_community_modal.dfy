/**
 * The "create community" form: two text fields, and a create button that
 * is enabled, and acts, only when both fields hold something besides white
 * space. Its owner receives the trimmed values and is asked to close it.
 */
module CreateCommunityModal {
  import opened Text
  import opened Wrappers

  /** What `onCreateCommunity` receives. */
  datatype NewCommunity = NewCommunity(name: string, description: string)

  /** `name.trim() && description.trim()`: the test `handleCreate` starts with. */
  predicate CanCreate(name: string, description: string) {
    !IsBlank(name) && !IsBlank(description)
  }

  /** The form's `name` and `description` state. */
  class CreateCommunityForm {
    var name: string
    var description: string

    constructor ()
      ensures name == "" && description == ""
    {
      name := "";
      description := "";
    }

    method SetName(text: string)
      modifies this
      ensures name == text && description == old(description)
    {
      name := text;
    }

    method SetDescription(text: string)
      modifies this
      ensures description == text && name == old(name)
    {
      description := text;
    }

    /**
     * `handleCreate`: with both fields filled, hand over the trimmed values,
     * clear both fields and call `onClose`; otherwise do nothing at all.
     */
    method HandleCreate() returns (created: Option<NewCommunity>, close: bool)
      modifies this
      ensures created.Some? <==> CanCreate(old(name), old(description))
      ensures close <==> created.Some?
      ensures created.Some? ==>
        created.value == NewCommunity(Trim(old(name)), Trim(old(description))) && name == "" && description == ""
      ensures created.None? ==> name == old(name) && description == old(description)
    {
      if !IsBlank(name) && !IsBlank(description) {
        created := Some(NewCommunity(Trim(name), Trim(description)));
        name := "";
        description := "";
        close := true;
      } else {
        created := None;
        close := false;
      }
    }

    /** `disabled={!name.trim() || !description.trim()}` on the create button. */
    function CreateDisabled(): (disabled: bool)
      reads this
      ensures disabled <==> !CanCreate(name, description)
    {
      IsBlank(name) || IsBlank(description)
    }
  }

  /** The values handed over are non-empty and already trimmed, so the owner never sees a blank name. */
  lemma CreatedValuesTrimmed(name: string, description: string)
    requires CanCreate(name, description)
    ensures Trim(name) != "" && Trim(description) != ""
    ensures CanCreate(Trim(name), Trim(description))
    ensures Trim(Trim(name)) == Trim(name) && Trim(Trim(description)) == Trim(description)
  {
    TrimmedNotBlank(name);
    TrimmedNotBlank(description);
    TrimIdempotent(name);
    TrimIdempotent(description);
  }
}
