/** The add-note screen's state holder. */
module AddNote {
  import opened Results
  import opened Model

  datatype AddNoteUiState = AddNoteUiState(
    title: string,
    description: string,
    date: string,
    time: string,
    isLoading: bool,
    isNoteAdded: bool,
    errorMessage: Option<string>)

  const InitialState := AddNoteUiState("", "", "", "", false, false, None)

  datatype AddNoteUiIntent =
    | EnterTitle(title: string)
    | EnterDescription(description: string)
    | EnterDate(date: string)
    | EnterTime(time: string)
    | SubmitNote

  datatype AddNoteUiEffect = NavigateBack | ShowError(message: string)

  const FillAllFields := "Please fill in all fields"
  const AddNoteFailed := "Error adding note"

  /** The note a submit sends: the form's fields, a fresh id, status TODO and
      no owner (the repository stamps one). */
  function SubmittedNote(s: AddNoteUiState, generatedId: string): (n: Note)
    ensures n.id == generatedId && n.status == Todo && n.userId == ""
    ensures n.title == s.title && n.description == s.description
    ensures n.date == s.date && n.time == s.time
  {
    DefaultNote(generatedId).(title := s.title, description := s.description, date := s.date, time := s.time)
  }

  class AddNoteViewModel {
    var uiState: AddNoteUiState
    /** Every effect sent to the screen, oldest first. */
    var effects: seq<AddNoteUiEffect>
    /** Every note handed to `addNote`, oldest first. */
    var calls: seq<Note>

    /** The note counts as added exactly when the screen has been told to go
        back; the state holder never sets an error message of its own. */
    ghost predicate Valid()
      reads this
    {
      && (uiState.isNoteAdded <==> NavigateBack in effects)
      && uiState.errorMessage == None
      && forall n :: n in calls ==> !IsBlank(n.title) && !IsBlank(n.description) && n.status == Todo
    }

    constructor ()
      ensures Valid()
      ensures uiState == InitialState && effects == [] && calls == []
    {
      uiState := InitialState;
      effects := [];
      calls := [];
    }

    /** `generatedId` is the id `Note()` would draw for a submitted note. */
    method HandleIntent(intent: AddNoteUiIntent, generatedId: string)
      requires Valid()
      modifies this
      ensures Valid()
      ensures intent.EnterTitle? ==>
                uiState == old(uiState).(title := intent.title) && effects == old(effects) && calls == old(calls)
      ensures intent.EnterDescription? ==>
                uiState == old(uiState).(description := intent.description) && effects == old(effects) && calls == old(calls)
      ensures intent.EnterDate? ==>
                uiState == old(uiState).(date := intent.date) && effects == old(effects) && calls == old(calls)
      ensures intent.EnterTime? ==>
                uiState == old(uiState).(time := intent.time) && effects == old(effects) && calls == old(calls)
      ensures intent.SubmitNote? && (IsBlank(old(uiState).title) || IsBlank(old(uiState).description)) ==>
                && uiState == old(uiState)
                && effects == old(effects) + [ShowError(FillAllFields)]
                && calls == old(calls)
      ensures intent.SubmitNote? && !IsBlank(old(uiState).title) && !IsBlank(old(uiState).description) ==>
                && uiState == old(uiState).(isLoading := true)
                && effects == old(effects)
                && calls == old(calls) + [SubmittedNote(old(uiState), generatedId)]
    {
      match intent
      case EnterTitle(t) => uiState := uiState.(title := t);
      case EnterDescription(d) => uiState := uiState.(description := d);
      case EnterDate(d) => uiState := uiState.(date := d);
      case EnterTime(t) => uiState := uiState.(time := t);
      case SubmitNote => SubmitNote(generatedId);
    }

    method SubmitNote(generatedId: string)
      requires Valid()
      modifies this
      ensures Valid()
      ensures IsBlank(old(uiState).title) || IsBlank(old(uiState).description) ==>
                && uiState == old(uiState)
                && effects == old(effects) + [ShowError(FillAllFields)]
                && calls == old(calls)
      ensures !IsBlank(old(uiState).title) && !IsBlank(old(uiState).description) ==>
                && uiState == old(uiState).(isLoading := true)
                && effects == old(effects)
                && calls == old(calls) + [SubmittedNote(old(uiState), generatedId)]
    {
      var current := uiState;
      if IsBlank(current.title) || IsBlank(current.description) {
        effects := effects + [ShowError(FillAllFields)];
        return;
      }
      uiState := uiState.(isLoading := true);
      calls := calls + [SubmittedNote(current, generatedId)];
    }

    /** `addNote` succeeded: the form is cleared and the screen goes back. */
    method OnAddNoteSuccess()
      requires Valid()
      modifies this
      ensures Valid()
      ensures uiState == old(uiState).(isLoading := false, isNoteAdded := true,
                                       title := "", description := "", date := "", time := "")
      ensures effects == old(effects) + [NavigateBack] && calls == old(calls)
    {
      uiState := uiState.(isLoading := false, isNoteAdded := true,
                          title := "", description := "", date := "", time := "");
      effects := effects + [NavigateBack];
    }

    /** `addNote` failed: the form is kept and the exception's message shown. */
    method OnAddNoteFailure(message: Option<string>)
      requires Valid()
      modifies this
      ensures Valid()
      ensures uiState == old(uiState).(isLoading := false)
      ensures effects == old(effects) + [ShowError(message.GetOr(AddNoteFailed))] && calls == old(calls)
    {
      uiState := uiState.(isLoading := false);
      effects := effects + [ShowError(message.GetOr(AddNoteFailed))];
    }
  }
}
