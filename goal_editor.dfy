/**
 * The inline editor of one goal (calories or protein): a pencil button opens
 * it, Save hands a positive number to `onUpdateGoal`, Cancel closes it.
 */
module GoalEditor {
  import opened Wrappers
  import opened Parsing

  /** What `handleSave` accepts: `parseFloat` of the text, a number above zero. */
  function SavedValue(text: string): (v: Option<real>)
    ensures v.Some? <==> ParseFloat(text).Some? && ParseFloat(text).value > 0.0
    ensures v.Some? ==> v.value == ParseFloat(text).value && v.value > 0.0
  {
    match ParseFloat(text)
    case Some(x) => if x > 0.0 then Some(x) else None
    case None => None
  }

  /** Zero is refused, and so is text without a digit. */
  lemma ZeroAndBlankRefused(text: string)
    requires forall i :: 0 <= i < |text| ==> !IsDigit(text[i])
    ensures SavedValue(NatToString(0)) == None
    ensures SavedValue(text) == None
  {
    ParseFloatNatToString(0);
    ParseNeedsADigit(text);
  }

  /** Any positive whole number typed in is saved as that number. */
  lemma PositiveWholeSaved(n: nat)
    requires n > 0
    ensures SavedValue(NatToString(n)) == Some(n as real)
  {
    ParseFloatNatToString(n);
  }

  class Editor {
    var isEditing: bool
    var newGoal: string

    constructor ()
      ensures !isEditing && newGoal == ""
    {
      isEditing := false;
      newGoal := "";
    }

    /** The pencil button. */
    method StartEditing()
      modifies this
      ensures isEditing && newGoal == old(newGoal)
    {
      isEditing := true;
    }

    /** Cancel: the editor closes and keeps what was typed. */
    method Cancel()
      modifies this
      ensures !isEditing && newGoal == old(newGoal)
    {
      isEditing := false;
    }

    method SetNewGoal(text: string)
      modifies this
      ensures newGoal == text && isEditing == old(isEditing)
    {
      newGoal := text;
    }

    /**
     * `handleSave`: nothing for a non-number or a value not above zero;
     * otherwise `onUpdateGoal(value)` is awaited and, when it resolves
     * (`updated`), the editor closes and its text is cleared. A rejected
     * update throws past both setters and leaves the editor as it was.
     */
    method HandleSave(updated: bool) returns (update: Option<real>)
      modifies this
      ensures update == SavedValue(old(newGoal))
      ensures update.Some? && updated ==> !isEditing && newGoal == ""
      ensures !(update.Some? && updated) ==> isEditing == old(isEditing) && newGoal == old(newGoal)
    {
      update := SavedValue(newGoal);
      if update.None? {
        return;
      }
      if !updated {
        return;
      }
      isEditing := false;
      newGoal := "";
    }
  }
}
