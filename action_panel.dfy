/**
 * The action panel (`action-panel.tsx`): an action type, an instruction and a
 * Process button whose work is only simulated by two chained timeouts.
 */
module ActionPanel {
  import opened Text

  /** The Process button's `disabled` expression. */
  predicate ProcessDisabled(instruction: string, isProcessing: bool, isComplete: bool) {
    IsBlank(instruction) || isProcessing || isComplete
  }

  /** The button is enabled exactly when the trimmed instruction is non-empty
      and the panel is neither processing nor showing completion. */
  lemma ProcessEnabledIff(instruction: string, isProcessing: bool, isComplete: bool)
    ensures !ProcessDisabled(instruction, isProcessing, isComplete) <==>
            TrimmedNonEmpty(instruction) && !isProcessing && !isComplete
  {
    BlankIffTrimEmpty(instruction);
  }

  /** `instruction.trim() !== ""`. */
  predicate TrimmedNonEmpty(s: string) {
    Trim(s) != []
  }

  class Panel {
    var actionType: string
    var instruction: string
    var isProcessing: bool
    var isComplete: bool
    /** The 2 s timeout scheduled by a submit has not fired yet. */
    var processTimeoutPending: bool
    /** The 3 s timeout scheduled by the 2 s one has not fired yet. */
    var resetTimeoutPending: bool

    /** Processing shows exactly while the first timeout is pending, the
        completion exactly while the second is, and never both at once. */
    ghost predicate Valid()
      reads this
    {
      (isProcessing <==> processTimeoutPending) &&
      (isComplete <==> resetTimeoutPending) &&
      !(isProcessing && isComplete)
    }

    /** The Process button can be clicked. */
    predicate ProcessEnabled()
      reads this
    {
      !ProcessDisabled(instruction, isProcessing, isComplete)
    }

    constructor ()
      ensures Valid() && actionType == "document" && instruction == "" && !isProcessing && !isComplete
    {
      actionType, instruction := "document", "";
      isProcessing, isComplete := false, false;
      processTimeoutPending, resetTimeoutPending := false, false;
    }

    /** The radio group's `onValueChange`. */
    method SetActionType(value: string)
      requires Valid()
      modifies this
      ensures Valid() && actionType == value
      ensures instruction == old(instruction) && isProcessing == old(isProcessing) && isComplete == old(isComplete)
      ensures processTimeoutPending == old(processTimeoutPending) && resetTimeoutPending == old(resetTimeoutPending)
    {
      actionType := value;
    }

    /** The textarea's `onChange`. */
    method SetInstruction(value: string)
      requires Valid()
      modifies this
      ensures Valid() && instruction == value
      ensures actionType == old(actionType) && isProcessing == old(isProcessing) && isComplete == old(isComplete)
      ensures processTimeoutPending == old(processTimeoutPending) && resetTimeoutPending == old(resetTimeoutPending)
    {
      instruction := value;
    }

    /** `handleSubmit`, reached through the Process button, which is disabled
        while processing or complete: a blank instruction changes nothing;
        otherwise processing starts and the first timeout is scheduled. The
        action type is neither read nor changed. */
    method HandleSubmit() returns (started: bool)
      requires Valid() && !isProcessing && !isComplete
      modifies this
      ensures Valid()
      ensures started <==> !IsBlank(instruction)
      // a click starts processing exactly when the button was enabled
      ensures started <==> old(ProcessEnabled())
      ensures started ==> isProcessing && processTimeoutPending
      ensures !started ==> !isProcessing && !processTimeoutPending
      ensures !isComplete && !resetTimeoutPending
      ensures actionType == old(actionType) && instruction == old(instruction)
    {
      if IsBlank(instruction) {
        return false;
      }
      isProcessing := true;
      processTimeoutPending := true;
      started := true;
    }

    /** The 2 s timeout: processing ends, completion shows, and the 3 s timeout
        is scheduled. */
    method ProcessTimeout()
      requires Valid() && processTimeoutPending
      modifies this
      ensures Valid() && !isProcessing && isComplete
      ensures !processTimeoutPending && resetTimeoutPending
      ensures actionType == old(actionType) && instruction == old(instruction)
    {
      isProcessing, isComplete := false, true;
      processTimeoutPending, resetTimeoutPending := false, true;
    }

    /** The 3 s timeout: completion is hidden and the instruction is cleared. */
    method ResetTimeout()
      requires Valid() && resetTimeoutPending
      modifies this
      ensures Valid() && !isComplete && instruction == ""
      ensures !isProcessing && !processTimeoutPending && !resetTimeoutPending
      ensures actionType == old(actionType)
    {
      isComplete, instruction := false, "";
      resetTimeoutPending := false;
    }
  }
}
