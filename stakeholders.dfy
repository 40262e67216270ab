/** The stakeholder editor (src/components/user-story/StakeholderInput.tsx):
    a text buffer, a list of stakeholder names that the form owns and this
    component replaces, an add action that appends the trimmed buffer, and a
    remove action by position. */
module Stakeholders {
  import opened JsText

  /** `s.filter((_, i) => i !== index)`: every element but the one at
      `index`, in order; an index outside the list removes nothing. */
  function WithoutIndex(s: seq<string>, index: int): (r: seq<string>)
    ensures 0 <= index < |s| ==> r == s[..index] + s[index + 1..] && |r| == |s| - 1
    ensures !(0 <= index < |s|) ==> r == s
  {
    if s == [] then []
    else
      var rest := WithoutIndex(s[1..], index - 1);
      if index == 0 then rest else [s[0]] + rest
  }

  /** A name the add action can produce: non-blank and trimmed. */
  predicate WellFormedName(name: string) {
    name != [] && IsTrimmed(name)
  }

  class StakeholderInput {
    /** The form's list, replaced through `setStakeholders`. */
    var stakeholders: seq<string>
    /** The text buffer. */
    var stakeholderInput: string
    const disabled: bool

    /** Every listed name came out of the add action. */
    ghost predicate Valid()
      reads this
    {
      forall i :: 0 <= i < |stakeholders| ==> WellFormedName(stakeholders[i])
    }

    /** The editor as the form first shows it: no stakeholders, empty buffer. */
    constructor (disabled: bool)
      ensures Valid()
      ensures stakeholders == [] && stakeholderInput == "" && this.disabled == disabled
    {
      stakeholders := [];
      stakeholderInput := "";
      this.disabled := disabled;
    }

    /** The add button's `disabled`: `!stakeholderInput.trim() || disabled` */
    predicate AddButtonDisabled()
      reads this
    {
      Trim(stakeholderInput) == [] || disabled
    }

    /** The input's `onChange`. */
    method Type(value: string)
      modifies this`stakeholderInput
      ensures stakeholderInput == value
    {
      stakeholderInput := value;
    }

    /** `addStakeholder`: a blank buffer changes nothing; otherwise the trimmed
        buffer is appended and the buffer is cleared. */
    method AddStakeholder()
      requires Valid()
      modifies this`stakeholders, this`stakeholderInput
      ensures Valid()
      ensures AllWhitespace(old(stakeholderInput)) ==>
                stakeholders == old(stakeholders) && stakeholderInput == old(stakeholderInput)
      ensures !AllWhitespace(old(stakeholderInput)) ==>
                stakeholders == old(stakeholders) + [Trim(old(stakeholderInput))] && stakeholderInput == ""
    {
      TrimEmptyIff(stakeholderInput);
      var name := Trim(stakeholderInput);
      if name == [] {
        return;
      }
      stakeholders := stakeholders + [name];
      stakeholderInput := "";
    }

    /** `removeStakeholder(index)` */
    method RemoveStakeholder(index: int)
      requires Valid()
      modifies this`stakeholders
      ensures Valid()
      ensures stakeholders == WithoutIndex(old(stakeholders), index)
    {
      stakeholders := WithoutIndex(stakeholders, index);
    }

    /** `handleStakeholderKeyDown`: only the Enter key adds. */
    method HandleKeyDown(key: string)
      requires Valid()
      modifies this`stakeholders, this`stakeholderInput
      ensures Valid()
      ensures key != "Enter" ==>
                stakeholders == old(stakeholders) && stakeholderInput == old(stakeholderInput)
      ensures key == "Enter" && AllWhitespace(old(stakeholderInput)) ==>
                stakeholders == old(stakeholders) && stakeholderInput == old(stakeholderInput)
      ensures key == "Enter" && !AllWhitespace(old(stakeholderInput)) ==>
                stakeholders == old(stakeholders) + [Trim(old(stakeholderInput))] && stakeholderInput == ""
    {
      if key == "Enter" {
        AddStakeholder();
      }
    }
  }

  /** The add button is disabled exactly when the buffer holds only
      whitespace or the whole editor is disabled. */
  lemma AddButtonDisabledIff(editor: StakeholderInput)
    ensures editor.AddButtonDisabled() <==> AllWhitespace(editor.stakeholderInput) || editor.disabled
  {
    TrimEmptyIff(editor.stakeholderInput);
  }
}
