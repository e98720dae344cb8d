/** The assign dialog: a selected user id kept as text, submitted as a
    number, after which the dialog asks to be closed. */
module AssignUserModal {
  import opened Common
  import opened Decimal

  /** The callbacks a submit makes, in order. `OnSubmit`'s id is `None`
      when `Number` gives NaN. */
  datatype Callback = OnSubmit(userId: Option<int>) | OnClose

  /** `initialUserId ? String(initialUserId) : undefined`. */
  function InitialSelection(initialUserId: int): (selection: Option<string>)
    ensures selection.Some? <==> initialUserId != 0
  {
    if initialUserId != 0 then Some(IntToString(initialUserId)) else None
  }

  /** `handleSubmit`: with a non-empty selection, `onSubmit(Number(selection))`
      then `onClose`; otherwise no callback at all. */
  function SubmitCalls(selection: Option<string>): (calls: seq<Callback>)
    ensures calls == [] <==> !Truthy(selection)
    ensures calls != [] ==> calls == [OnSubmit(NumberOf(selection.value)), OnClose]
  {
    if Truthy(selection) then [OnSubmit(NumberOf(selection.value)), OnClose] else []
  }

  /** Submitting the untouched dialog of an assigned task hands back the very
      id it was opened with; an unassigned task's dialog submits nothing. */
  lemma UnchangedSubmitReturnsInitialId(initialUserId: int)
    ensures initialUserId != 0 ==> SubmitCalls(InitialSelection(initialUserId)) == [OnSubmit(Some(initialUserId)), OnClose]
    ensures initialUserId == 0 ==> SubmitCalls(InitialSelection(initialUserId)) == []
  {
    IntRoundTrip(initialUserId);
  }

  /** Choosing a user from the list (its value is `String(u.id)`) submits
      that user's id. */
  lemma ChosenUserIsSubmitted(userId: int)
    ensures SubmitCalls(Some(IntToString(userId))) == [OnSubmit(Some(userId)), OnClose]
  {
    IntRoundTrip(userId);
  }

  class AssignForm {
    var selectedUserId: Option<string>

    constructor (initialUserId: int)
      ensures selectedUserId == InitialSelection(initialUserId)
    {
      selectedUserId := InitialSelection(initialUserId);
    }

    /** The select's `onValueChange`. */
    method Choose(value: string)
      modifies this`selectedUserId
      ensures selectedUserId == Some(value)
    {
      selectedUserId := Some(value);
    }

    /** `handleSubmit`; the selection itself is left as it is. */
    method Submit() returns (calls: seq<Callback>)
      ensures calls == SubmitCalls(selectedUserId)
      ensures calls != [] ==> calls[0].OnSubmit? && calls[|calls| - 1] == OnClose
    {
      calls := SubmitCalls(selectedUserId);
    }
  }
}
