/** The home screen's state holder: the signed-in user's profile and notes,
    status changes, deletion, navigation and logout. */
module Home {
  import opened Results
  import opened Model

  datatype HomeUiState = HomeUiState(
    notes: seq<Note>,
    isLoading: bool,
    errorMessage: Option<string>,
    userProfile: Option<User>)

  const InitialState := HomeUiState([], false, None, None)

  datatype HomeUiIntent =
    | LoadNotes
    | AddNote
    | UpdateNoteStatus(noteId: string, newStatus: NoteStatus)
    | DeleteNote(noteId: string)
    | EditNote(noteId: string)
    | Logout

  datatype HomeUiEffect =
    | NavigateToEditNote(noteId: string)
    | NavigateToAddNote
    | NavigateToLogin
    | ShowError(message: string)

  /** The repository calls the state holder makes. */
  datatype HomeCall =
    | ListenForUserData
    | GetAllNotes
    | UpdateNoteStatusCall(noteId: string, newStatus: NoteStatus)
    | DeleteNoteCall(noteId: string)
    | SignOut

  const ProfileLoadFailed := "Error loading user profile"
  const NotesLoadFailed := "Error loading notes"
  const StatusUpdateFailed := "Error updating note status"
  const DeleteFailed := "Error deleting note"
  const LogoutFailed := "Logout failed"

  /** Every error text the home screen can show. */
  predicate IsHomeError(message: string) {
    message in {ProfileLoadFailed, NotesLoadFailed, StatusUpdateFailed, DeleteFailed, LogoutFailed}
  }

  class HomeViewModel {
    var uiState: HomeUiState
    var effects: seq<HomeUiEffect>
    var calls: seq<HomeCall>

    /** Errors shown or stored are always one of the fixed texts, and the
        stored one comes only from a failed load. */
    ghost predicate Valid()
      reads this
    {
      && (uiState.errorMessage.Some? ==> uiState.errorMessage.value in {ProfileLoadFailed, NotesLoadFailed})
      && forall e :: e in effects && e.ShowError? ==> IsHomeError(e.message)
    }

    /** `init`: the profile load and the notes load both start. */
    constructor ()
      ensures Valid()
      ensures uiState == InitialState.(isLoading := true)
      ensures effects == [] && calls == [ListenForUserData, GetAllNotes]
    {
      uiState := InitialState;
      effects := [];
      calls := [];
      new;
      LoadUserProfile();
      HandleIntent(HomeUiIntent.LoadNotes);
    }

    method LoadUserProfile()
      requires Valid()
      modifies this
      ensures Valid()
      ensures uiState == old(uiState).(isLoading := true)
      ensures effects == old(effects) && calls == old(calls) + [ListenForUserData]
    {
      uiState := uiState.(isLoading := true);
      calls := calls + [ListenForUserData];
    }

    method OnUserDataLoaded(user: User)
      requires Valid()
      modifies this
      ensures Valid()
      ensures uiState == old(uiState).(userProfile := Some(user), isLoading := false)
      ensures effects == old(effects) && calls == old(calls)
    {
      uiState := uiState.(userProfile := Some(user), isLoading := false);
    }

    method OnUserDataFailure()
      requires Valid()
      modifies this
      ensures Valid()
      ensures uiState == old(uiState).(isLoading := false, errorMessage := Some(ProfileLoadFailed))
      ensures effects == old(effects) + [ShowError(ProfileLoadFailed)] && calls == old(calls)
    {
      uiState := uiState.(isLoading := false, errorMessage := Some(ProfileLoadFailed));
      effects := effects + [ShowError(ProfileLoadFailed)];
    }

    /** Intents only start work: none edits the notes list, and navigation
        intents emit exactly their effect. */
    method HandleIntent(intent: HomeUiIntent)
      requires Valid()
      modifies this
      ensures Valid()
      ensures uiState == if intent.LoadNotes? then old(uiState).(isLoading := true) else old(uiState)
      ensures intent.LoadNotes? ==> effects == old(effects) && calls == old(calls) + [GetAllNotes]
      ensures intent.AddNote? ==> effects == old(effects) + [NavigateToAddNote] && calls == old(calls)
      ensures intent.EditNote? ==>
                effects == old(effects) + [NavigateToEditNote(intent.noteId)] && calls == old(calls)
      ensures intent.UpdateNoteStatus? ==>
                effects == old(effects) && calls == old(calls) + [UpdateNoteStatusCall(intent.noteId, intent.newStatus)]
      ensures intent.DeleteNote? ==> effects == old(effects) && calls == old(calls) + [DeleteNoteCall(intent.noteId)]
      ensures intent.Logout? ==> effects == old(effects) && calls == old(calls) + [SignOut]
    {
      match intent
      case LoadNotes => this.LoadNotes();
      case AddNote => effects := effects + [NavigateToAddNote];
      case UpdateNoteStatus(id, s) => calls := calls + [UpdateNoteStatusCall(id, s)];
      case DeleteNote(id) => calls := calls + [DeleteNoteCall(id)];
      case EditNote(id) => effects := effects + [NavigateToEditNote(id)];
      case Logout => calls := calls + [SignOut];
    }

    method LoadNotes()
      requires Valid()
      modifies this
      ensures Valid()
      ensures uiState == old(uiState).(isLoading := true)
      ensures effects == old(effects) && calls == old(calls) + [GetAllNotes]
    {
      uiState := uiState.(isLoading := true);
      calls := calls + [GetAllNotes];
    }

    /** The list is replaced wholesale by what the repository returned. */
    method OnNotesLoaded(notes: seq<Note>)
      requires Valid()
      modifies this
      ensures Valid()
      ensures uiState == old(uiState).(notes := notes, isLoading := false)
      ensures effects == old(effects) && calls == old(calls)
    {
      uiState := uiState.(notes := notes, isLoading := false);
    }

    /** The old list is kept and the error stored, without an effect. */
    method OnNotesLoadFailure()
      requires Valid()
      modifies this
      ensures Valid()
      ensures uiState == old(uiState).(isLoading := false, errorMessage := Some(NotesLoadFailed))
      ensures effects == old(effects) && calls == old(calls)
    {
      uiState := uiState.(isLoading := false, errorMessage := Some(NotesLoadFailed));
    }

    /** A status change that succeeded reloads the list from the repository. */
    method OnStatusUpdated()
      requires Valid()
      modifies this
      ensures Valid()
      ensures uiState == old(uiState).(isLoading := true) && uiState.notes == old(uiState).notes
      ensures effects == old(effects) && calls == old(calls) + [GetAllNotes]
    {
      LoadNotes();
    }

    method OnStatusUpdateFailure()
      requires Valid()
      modifies this
      ensures Valid()
      ensures uiState == old(uiState)
      ensures effects == old(effects) + [ShowError(StatusUpdateFailed)] && calls == old(calls)
    {
      effects := effects + [ShowError(StatusUpdateFailed)];
    }

    /** A deletion that succeeded reloads the list from the repository. */
    method OnNoteDeleted()
      requires Valid()
      modifies this
      ensures Valid()
      ensures uiState == old(uiState).(isLoading := true) && uiState.notes == old(uiState).notes
      ensures effects == old(effects) && calls == old(calls) + [GetAllNotes]
    {
      LoadNotes();
    }

    method OnDeleteFailure()
      requires Valid()
      modifies this
      ensures Valid()
      ensures uiState == old(uiState)
      ensures effects == old(effects) + [ShowError(DeleteFailed)] && calls == old(calls)
    {
      effects := effects + [ShowError(DeleteFailed)];
    }

    method OnSignedOut()
      requires Valid()
      modifies this
      ensures Valid()
      ensures uiState == old(uiState)
      ensures effects == old(effects) + [NavigateToLogin] && calls == old(calls)
    {
      effects := effects + [NavigateToLogin];
    }

    method OnSignOutFailure()
      requires Valid()
      modifies this
      ensures Valid()
      ensures uiState == old(uiState)
      ensures effects == old(effects) + [ShowError(LogoutFailed)] && calls == old(calls)
    {
      effects := effects + [ShowError(LogoutFailed)];
    }
  }
}
