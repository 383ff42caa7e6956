/** The edit-note screen's state holder. */
module EditNote {
  import opened Results
  import opened Model

  datatype EditNoteUiState = EditNoteUiState(
    noteId: string,
    title: string,
    description: string,
    date: string,
    time: string,
    status: NoteStatus,
    isLoading: bool,
    isNoteUpdated: bool,
    errorMessage: Option<string>)

  const InitialState := EditNoteUiState("", "", "", "", "", Todo, false, false, None)

  datatype EditNoteUiIntent =
    | EnterTitle(title: string)
    | EnterDescription(description: string)
    | EnterDate(date: string)
    | EnterTime(time: string)
    | UpdateStatus(status: NoteStatus)
    | SubmitNote

  datatype EditNoteUiEffect = NavigateBack | ShowError(message: string)

  /** The repository calls the state holder makes. */
  datatype EditNoteCall = GetNoteByIdCall(noteId: string) | UpdateNoteCall(note: Note)

  const FillAllFields := "Please fill in all fields"
  const LoadFailed := "Error loading note"
  const UpdateFailed := "Error updating note"

  /** The note a submit sends: the loaded id and the edited fields. The owner
      is left at its default "", so the repository decides it. */
  function EditedNote(s: EditNoteUiState): (n: Note)
    ensures n.id == s.noteId && n.status == s.status && n.userId == ""
    ensures n.title == s.title && n.description == s.description
    ensures n.date == s.date && n.time == s.time
  {
    Note(s.noteId, s.title, s.description, s.date, s.time, s.status, "")
  }

  class EditNoteViewModel {
    var uiState: EditNoteUiState
    var effects: seq<EditNoteUiEffect>
    var calls: seq<EditNoteCall>

    /** The note counts as updated exactly when the screen has been told to go
        back; every update sent had a title and a description and no owner. */
    ghost predicate Valid()
      reads this
    {
      && (uiState.isNoteUpdated <==> NavigateBack in effects)
      && uiState.errorMessage == None
      && forall c :: c in calls && c.UpdateNoteCall? ==>
           !IsBlank(c.note.title) && !IsBlank(c.note.description) && c.note.userId == ""
    }

    constructor ()
      ensures Valid()
      ensures uiState == InitialState && effects == [] && calls == []
    {
      uiState := InitialState;
      effects := [];
      calls := [];
    }

    method LoadNoteDetails(noteId: string)
      requires Valid()
      modifies this
      ensures Valid()
      ensures uiState == old(uiState).(isLoading := true)
      ensures effects == old(effects) && calls == old(calls) + [GetNoteByIdCall(noteId)]
    {
      uiState := uiState.(isLoading := true);
      calls := calls + [GetNoteByIdCall(noteId)];
    }

    /** The note arrived: its fields fill the form (its owner is not kept). */
    method OnNoteLoaded(note: Note)
      requires Valid()
      modifies this
      ensures Valid()
      ensures uiState == old(uiState).(noteId := note.id, title := note.title, description := note.description,
                                       date := note.date, time := note.time, status := note.status,
                                       isLoading := false)
      ensures effects == old(effects) && calls == old(calls)
    {
      uiState := uiState.(noteId := note.id, title := note.title, description := note.description,
                          date := note.date, time := note.time, status := note.status,
                          isLoading := false);
    }

    /** The load failed: an error is shown and the loading flag stays set. */
    method OnNoteLoadFailure()
      requires Valid()
      modifies this
      ensures Valid()
      ensures uiState == old(uiState)
      ensures effects == old(effects) + [ShowError(LoadFailed)] && calls == old(calls)
    {
      effects := effects + [ShowError(LoadFailed)];
    }

    method HandleIntent(intent: EditNoteUiIntent)
      requires Valid()
      modifies this
      ensures Valid()
      ensures !intent.SubmitNote? ==> effects == old(effects) && calls == old(calls)
      ensures intent.EnterTitle? ==> uiState == old(uiState).(title := intent.title)
      ensures intent.EnterDescription? ==> uiState == old(uiState).(description := intent.description)
      ensures intent.EnterDate? ==> uiState == old(uiState).(date := intent.date)
      ensures intent.EnterTime? ==> uiState == old(uiState).(time := intent.time)
      ensures intent.UpdateStatus? ==> uiState == old(uiState).(status := intent.status)
      ensures intent.SubmitNote? && (IsBlank(old(uiState).title) || IsBlank(old(uiState).description)) ==>
                && uiState == old(uiState)
                && effects == old(effects) + [ShowError(FillAllFields)]
                && calls == old(calls)
      ensures intent.SubmitNote? && !IsBlank(old(uiState).title) && !IsBlank(old(uiState).description) ==>
                && uiState == old(uiState).(isLoading := true)
                && effects == old(effects)
                && calls == old(calls) + [UpdateNoteCall(EditedNote(old(uiState)))]
    {
      match intent
      case EnterTitle(t) => uiState := uiState.(title := t);
      case EnterDescription(d) => uiState := uiState.(description := d);
      case EnterDate(d) => uiState := uiState.(date := d);
      case EnterTime(t) => uiState := uiState.(time := t);
      case UpdateStatus(s) => uiState := uiState.(status := s);
      case SubmitNote => UpdateNote();
    }

    method UpdateNote()
      requires Valid()
      modifies this
      ensures Valid()
      ensures IsBlank(old(uiState).title) || IsBlank(old(uiState).description) ==>
                && uiState == old(uiState)
                && effects == old(effects) + [ShowError(FillAllFields)]
                && calls == old(calls)
      ensures !IsBlank(old(uiState).title) && !IsBlank(old(uiState).description) ==>
                && uiState == old(uiState).(isLoading := true)
                && effects == old(effects)
                && calls == old(calls) + [UpdateNoteCall(EditedNote(old(uiState)))]
    {
      var current := uiState;
      if IsBlank(current.title) || IsBlank(current.description) {
        effects := effects + [ShowError(FillAllFields)];
        return;
      }
      uiState := uiState.(isLoading := true);
      calls := calls + [UpdateNoteCall(EditedNote(current))];
    }

    /** `updateNote` succeeded: the edited fields stay and the screen goes back. */
    method OnUpdateSuccess()
      requires Valid()
      modifies this
      ensures Valid()
      ensures uiState == old(uiState).(isLoading := false, isNoteUpdated := true)
      ensures effects == old(effects) + [NavigateBack] && calls == old(calls)
    {
      uiState := uiState.(isLoading := false, isNoteUpdated := true);
      effects := effects + [NavigateBack];
    }

    method OnUpdateFailure(message: Option<string>)
      requires Valid()
      modifies this
      ensures Valid()
      ensures uiState == old(uiState).(isLoading := false)
      ensures effects == old(effects) + [ShowError(message.GetOr(UpdateFailed))] && calls == old(calls)
    {
      uiState := uiState.(isLoading := false);
      effects := effects + [ShowError(message.GetOr(UpdateFailed))];
    }
  }
}
