# Firebase Notes: a verified model of the app's logic

A Dafny model of the logic of FirebaseNotesProject, an Android note-taking app.
Users sign up or sign in, write notes with a title, description, date and time,
and move each note between the TODO, In Progress and Done tabs. Each user sees
only their own notes.

The model covers three parts:

- **The screens' state holders** (splash, login, sign-up, home, add note, edit
  note). Each is a class holding one immutable UI-state record (a datatype),
  a log of the one-shot effects it has emitted and a log of the repository
  calls it has issued. Each user intent is a `HandleIntent` method. Each
  asynchronous repository reply is an explicit `On...` method. Every method
  states the whole new state, the effects it appends and the calls it issues.
  Every class keeps a `Valid()` invariant: for example, a note counts as added
  exactly when NavigateBack has been emitted, and sign-up is only ever requested
  with a non-empty image URL.
- **The notes stores.** The document-store repository is a class over a
  `map<string, Note>` collection, with the signed-in user as an `Option`. It
  stamps the user's id onto added notes, keeps an existing owner on update,
  refuses to work when nobody is signed in, and lists only the caller's notes.
  The realtime-tree repository does the same operations with no owner handling.
  Both keep every note under its own id. An empty note id is refused by the
  document store; in the realtime tree it addresses the `notes` node itself,
  so writing or deleting there replaces or removes every note.
- **The home screen's tabs.** These are a pure, order-preserving filter of the
  note list by status, plus the empty-tab message and the actions each note
  item dispatches.

Modules: `Results` (Option, Result, backend faults), `Model` (Note, NoteStatus,
User, Kotlin's `isBlank`), `HomeTabs`, `FirestoreNotes`, `RealtimeNotes`,
`AddNote`, `EditNote`, `Home`, `SignUp`, `Login`, `Splash`.

Conventions:

- Kotlin's nullable exception message is an `Option<string>`. `message ?: "..."`
  is `GetOr`.
- An exception thrown by the backend inside a repository's `try` is the
  `fault` parameter. A failing write leaves the store unchanged.
- Random note ids (`UUID.randomUUID()`) are parameters supplied by the caller.

## Model

| member | source | states |
|---|---|---|
| Results.MessageText | app/src/main/java/com/instant/firebasenotesproject/signup/SignUpViewModel.kt:73 | a nullable exception message renders as its text, or as "null" when absent, as in a Kotlin string template |
| Model.DefaultNote | app/src/main/java/com/instant/firebasenotesproject/model/Note.kt:5-13 | a defaulted note has the given (generated) id, empty title, description, date and time, status TODO and no owner ("") |
| Model.IsWhitespace | app/src/main/java/com/instant/firebasenotesproject/addnote/AddNoteViewModel.kt:40 | the JVM whitespace test behind `isBlank`: space, tab, line feed, carriage return and the no-break spaces count as whitespace; ASCII letters and digits and the zero-width characters do not |
| Model.BlankIffTrimmedEmpty | app/src/main/java/com/instant/firebasenotesproject/editnote/EditNoteViewModel.kt:61 | a field is blank exactly when trimming its leading whitespace (`trimStart`) leaves nothing, so a field with any visible character passes the check |
| HomeTabs.FilterByStatus | app/src/main/java/com/instant/firebasenotesproject/home/HomeScreen.kt:188 | the filtered list holds exactly the notes of the list that have the given status, and is no longer than the list |
| HomeTabs.FilterPreservesOrder | app/src/main/java/com/instant/firebasenotesproject/home/HomeScreen.kt:186-204 | each filtered list is a subsequence of the state's notes: relative order is kept |
| HomeTabs.FilterCounts | app/src/main/java/com/instant/firebasenotesproject/home/HomeScreen.kt:186-204 | a note occurs in the filtered list as often as in the whole list when its status matches, and never otherwise |
| HomeTabs.TabNotes | app/src/main/java/com/instant/firebasenotesproject/home/HomeScreen.kt:186-204 | page 0 lists exactly the TODO notes, page 1 the IN_PROGRESS notes, page 2 the DONE notes, each in list order |
| HomeTabs.AtMostOneTab | app/src/main/java/com/instant/firebasenotesproject/home/HomeScreen.kt:188-200 | a note listed on two pages is listed on one page only: the three filters are mutually exclusive |
| HomeTabs.TabsPartitionAtMost | app/src/main/java/com/instant/firebasenotesproject/home/HomeScreen.kt:186-204 | the three tabs together list at most as many notes as the state holds |
| HomeTabs.TabLabel | app/src/main/java/com/instant/firebasenotesproject/home/HomeScreen.kt:189-201 | pages 0, 1 and 2 are labelled "TODO", "In Progress" and "Done", each non-empty |
| HomeTabs.EmptyTabMessage | app/src/main/java/com/instant/firebasenotesproject/home/HomeScreen.kt:233 | the empty-tab text is "There are no ", then the tab's label, then " notes" |
| HomeTabs.TabContent | app/src/main/java/com/instant/firebasenotesproject/home/HomeScreen.kt:226-244 | a tab shows the empty-tab message exactly when its filtered list is empty, and otherwise that list |
| HomeTabs.ItemDispatch | app/src/main/java/com/instant/firebasenotesproject/home/HomeScreen.kt:244-255 | a note item dispatches the home view model's own UpdateNoteStatus, EditNote or DeleteNote intent, exactly one per action, carrying that note's id (and the chosen status) |
| HomeTabs.StatusChangesUnrestricted | app/src/main/java/com/instant/firebasenotesproject/home/HomeScreen.kt:304-337 | from any note, every status on the menu can be chosen: no TODO, In Progress, Done order is enforced |
| FirestoreNotes.StampOwner | app/src/main/java/com/instant/firebasenotesproject/repository/NotesRepositoryImpl.kt:30 | the stamped note is owned by the given user and agrees with the original on every other field |
| FirestoreNotes.OwnerOnUpdate | app/src/main/java/com/instant/firebasenotesproject/repository/NotesRepositoryImpl.kt:52-56 | an update keeps a non-empty owner unchanged, even one that is not the current user, and gives an ownerless note the current user; no other field changes |
| FirestoreNotes.ForeignUpdateKeepsOwner | app/src/main/java/com/instant/firebasenotesproject/repository/NotesRepositoryImpl.kt:52-56 | a note stamped for one user and updated by another still belongs to the first user and not to the second |
| FirestoreNotes.NotesRepositoryImpl.constructor | app/src/main/java/com/instant/firebasenotesproject/repository/NotesRepositoryImpl.kt:13-18 | the store starts from a collection whose documents sit under their own ids, with the given signed-in user |
| FirestoreNotes.NotesRepositoryImpl.AddNote | app/src/main/java/com/instant/firebasenotesproject/repository/NotesRepositoryImpl.kt:21-40 | signed out: failure "User is not logged in", nothing written; an empty id: the SDK's invalid-reference failure, nothing written; backend error: that failure, nothing written; otherwise success and exactly key note.id changes, to the note stamped with the current uid |
| FirestoreNotes.NotesRepositoryImpl.UpdateNote | app/src/main/java/com/instant/firebasenotesproject/repository/NotesRepositoryImpl.kt:43-65 | signed out: failure, nothing written; an empty id: the invalid-reference failure, nothing written; otherwise exactly key note.id is overwritten with the note whose owner OwnerOnUpdate decides |
| FirestoreNotes.NotesRepositoryImpl.GetNoteById | app/src/main/java/com/instant/firebasenotesproject/repository/NotesRepositoryImpl.kt:69-85 | an empty id fails with the invalid-reference error; otherwise succeeds exactly when the key is stored, returning the stored note, and an absent key fails with "Note not found"; no sign-in needed |
| FirestoreNotes.NotesRepositoryImpl.UpdateNoteStatus | app/src/main/java/com/instant/firebasenotesproject/repository/NotesRepositoryImpl.kt:88-96 | only the status of that one note changes; no sign-in or ownership check; an empty id or a missing document is refused and nothing changes |
| FirestoreNotes.NotesRepositoryImpl.DeleteNote | app/src/main/java/com/instant/firebasenotesproject/repository/NotesRepositoryImpl.kt:99-106 | removes exactly that key, whoever owns it; no sign-in check; an empty id is refused and nothing changes |
| FirestoreNotes.NotesRepositoryImpl.GetAllNotes | app/src/main/java/com/instant/firebasenotesproject/repository/NotesRepositoryImpl.kt:109-130 | signed out: failure "User is not logged in"; otherwise the listing holds exactly the stored notes owned by the current uid, no id twice |
| FirestoreNotes.AddedNoteIsListedForItsOwner | app/src/main/java/com/instant/firebasenotesproject/repository/NotesRepositoryImpl.kt:30-124 | after a signed-in add of a note with a non-empty id, the owner's listing holds the stamped note and only notes owned by that user |
| FirestoreNotes.SignedOutChangesNothing | app/src/main/java/com/instant/firebasenotesproject/repository/NotesRepositoryImpl.kt:22-114 | signed out, add, update and list all fail with "User is not logged in" and the collection is unchanged |
| RealtimeNotes.WithStatus | app/src/main/java/com/instant/firebasenotesproject/repository/NotesRepositoryImplFirebaseDatabase.kt:144-147 | writing the status child keeps every other field of a stored note; under a key without a whole note it leaves a status-only child; either way the child reads back as an object with the new status |
| RealtimeNotes.Decode | app/src/main/java/com/instant/firebasenotesproject/repository/NotesRepositoryImplFirebaseDatabase.kt:59 | a child holding a whole note reads back as that note; a status-only child reads back as a default note (generated id, empty fields, no owner) carrying that status |
| RealtimeNotes.StatusName | app/src/main/java/com/instant/firebasenotesproject/repository/NotesRepositoryImplFirebaseDatabase.kt:147 | a status is stored as its enum name, and that name reads back as the same status |
| RealtimeNotes.FieldsOf | app/src/main/java/com/instant/firebasenotesproject/repository/NotesRepositoryImplFirebaseDatabase.kt:30 | a note written at the `notes` node itself turns the node into exactly the seven note properties, each a text value |
| RealtimeNotes.NotesRepositoryImplFirebaseDatabase.constructor | app/src/main/java/com/instant/firebasenotesproject/repository/NotesRepositoryImplFirebaseDatabase.kt:19-24 | the tree starts with the given children, every whole note under its own id |
| RealtimeNotes.NotesRepositoryImplFirebaseDatabase.AddNote | app/src/main/java/com/instant/firebasenotesproject/repository/NotesRepositoryImplFirebaseDatabase.kt:27-37 | an id with a forbidden path character fails and writes nothing; a backend error writes nothing; otherwise the note is stored unchanged under note.id (only that key changes), or, for the empty id, replaces the whole node; no sign-in check, no owner stamping |
| RealtimeNotes.NotesRepositoryImplFirebaseDatabase.UpdateNote | app/src/main/java/com/instant/firebasenotesproject/repository/NotesRepositoryImplFirebaseDatabase.kt:40-50 | as AddNote: the whole record at note.id is overwritten with the given note, the empty id overwriting the whole node; a forbidden path character or a backend error writes nothing |
| RealtimeNotes.NotesRepositoryImplFirebaseDatabase.GetNoteById | app/src/main/java/com/instant/firebasenotesproject/repository/NotesRepositoryImplFirebaseDatabase.kt:53-71 | succeeds exactly when the key holds an object, returning it decoded (a whole note keeps its key as id); an absent key fails with "Note not found", a text child with the conversion error; the empty id reads the whole node as one note |
| RealtimeNotes.NotesRepositoryImplFirebaseDatabase.UpdateNoteStatus | app/src/main/java/com/instant/firebasenotesproject/repository/NotesRepositoryImplFirebaseDatabase.kt:141-153 | writes only the status of that note: every other field and every other child is unchanged; the empty id writes a text `status` child of the node itself; a forbidden path character fails and changes nothing |
| RealtimeNotes.NotesRepositoryImplFirebaseDatabase.DeleteNote | app/src/main/java/com/instant/firebasenotesproject/repository/NotesRepositoryImplFirebaseDatabase.kt:156-163 | removes exactly that key; the empty id removes every note; a forbidden path character fails and changes nothing |
| RealtimeNotes.NotesRepositoryImplFirebaseDatabase.GetAllNotes | app/src/main/java/com/instant/firebasenotesproject/repository/NotesRepositoryImplFirebaseDatabase.kt:166-174 | any text child fails the whole listing with the conversion error; otherwise one decoded note per child, each child exactly once, whoever owns it, and every whole note listed carries its own key as id |
| RealtimeNotes.DecodeAll | app/src/main/java/com/instant/firebasenotesproject/repository/NotesRepositoryImplFirebaseDatabase.kt:168-169 | the decoded list pairs each position with a distinct key: every child is read exactly once and each note is the decoding of its own child |
| RealtimeNotes.StatusWriteOnAbsentKey | app/src/main/java/com/instant/firebasenotesproject/repository/NotesRepositoryImplFirebaseDatabase.kt:144-147 | a status write under an absent key creates a child that reads back as a default note carrying that status, with a generated id rather than the key |
| RealtimeNotes.WholeNodeRoundTrip | app/src/main/java/com/instant/firebasenotesproject/repository/NotesRepositoryImplFirebaseDatabase.kt:30-59 | a note written at the `notes` node itself reads back from there as the same note |
| RealtimeNotes.EmptyIdWriteReplacesAllNotes | app/src/main/java/com/instant/firebasenotesproject/repository/NotesRepositoryImplFirebaseDatabase.kt:43-169 | an update of a note with an empty id leaves no stored note: the listing then fails, and the node reads back as the written note |
| AddNote.SubmittedNote | app/src/main/java/com/instant/firebasenotesproject/addnote/AddNoteViewModel.kt:49-56 | the submitted note carries the form's title, description, date and time, status TODO, a generated id and no owner |
| AddNote.AddNoteViewModel.constructor | app/src/main/java/com/instant/firebasenotesproject/addnote/AddNoteViewModel.kt:22-26 | starts from the default state with no effects and no calls |
| AddNote.AddNoteViewModel.HandleIntent | app/src/main/java/com/instant/firebasenotesproject/addnote/AddNoteViewModel.kt:28-36 | each Enter intent replaces exactly its own field and emits nothing; SubmitNote runs the submit (next row); isNoteAdded holds exactly when NavigateBack was emitted |
| AddNote.AddNoteViewModel.SubmitNote | app/src/main/java/com/instant/firebasenotesproject/addnote/AddNoteViewModel.kt:38-56 | a blank title or description emits ShowError("Please fill in all fields") and changes no state and calls nothing; otherwise isLoading is set and addNote gets the submitted note |
| AddNote.AddNoteViewModel.OnAddNoteSuccess | app/src/main/java/com/instant/firebasenotesproject/addnote/AddNoteViewModel.kt:58-67 | isLoading false, isNoteAdded true, the four text fields cleared, NavigateBack emitted |
| AddNote.AddNoteViewModel.OnAddNoteFailure | app/src/main/java/com/instant/firebasenotesproject/addnote/AddNoteViewModel.kt:68-74 | isLoading false, fields kept, ShowError with the message or "Error adding note" |
| EditNote.EditedNote | app/src/main/java/com/instant/firebasenotesproject/editnote/EditNoteViewModel.kt:70-78 | the sent note carries the state's noteId, fields and status, with the default empty owner |
| EditNote.EditNoteViewModel.constructor | app/src/main/java/com/instant/firebasenotesproject/editnote/EditNoteViewModel.kt:21-25 | starts from the default state with no effects and no calls |
| EditNote.EditNoteViewModel.LoadNoteDetails | app/src/main/java/com/instant/firebasenotesproject/editnote/EditNoteViewModel.kt:27-30 | sets isLoading and requests that note id |
| EditNote.EditNoteViewModel.OnNoteLoaded | app/src/main/java/com/instant/firebasenotesproject/editnote/EditNoteViewModel.kt:31-40 | copies id, title, description, date, time and status from the note and clears isLoading |
| EditNote.EditNoteViewModel.OnNoteLoadFailure | app/src/main/java/com/instant/firebasenotesproject/editnote/EditNoteViewModel.kt:41-43 | emits ShowError("Error loading note") and leaves the state, isLoading included, unchanged |
| EditNote.EditNoteViewModel.HandleIntent | app/src/main/java/com/instant/firebasenotesproject/editnote/EditNoteViewModel.kt:48-57 | Enter and UpdateStatus intents replace exactly one field and emit nothing; SubmitNote runs UpdateNote; isNoteUpdated holds exactly when NavigateBack was emitted |
| EditNote.EditNoteViewModel.UpdateNote | app/src/main/java/com/instant/firebasenotesproject/editnote/EditNoteViewModel.kt:59-78 | a blank title or description emits ShowError("Please fill in all fields") with the state unchanged; otherwise isLoading is set and updateNote gets the edited note |
| EditNote.EditNoteViewModel.OnUpdateSuccess | app/src/main/java/com/instant/firebasenotesproject/editnote/EditNoteViewModel.kt:80-82 | isLoading false, isNoteUpdated true, fields kept, NavigateBack emitted |
| EditNote.EditNoteViewModel.OnUpdateFailure | app/src/main/java/com/instant/firebasenotesproject/editnote/EditNoteViewModel.kt:83-85 | isLoading false, ShowError with the message or "Error updating note" |
| Home.HomeViewModel.constructor | app/src/main/java/com/instant/firebasenotesproject/home/HomeViewModel.kt:33-36 | construction starts the profile load and the notes load, in that order, with isLoading set |
| Home.HomeViewModel.LoadUserProfile | app/src/main/java/com/instant/firebasenotesproject/home/HomeViewModel.kt:38-41 | sets isLoading and requests the user data |
| Home.HomeViewModel.OnUserDataLoaded | app/src/main/java/com/instant/firebasenotesproject/home/HomeViewModel.kt:42-43 | sets userProfile and clears isLoading |
| Home.HomeViewModel.OnUserDataFailure | app/src/main/java/com/instant/firebasenotesproject/home/HomeViewModel.kt:44-50 | clears isLoading, sets errorMessage "Error loading user profile" and emits the same ShowError |
| Home.HomeViewModel.HandleIntent | app/src/main/java/com/instant/firebasenotesproject/home/HomeViewModel.kt:55-116 | LoadNotes sets isLoading and requests the notes; AddNote and EditNote emit only their navigation (EditNote with the same id); status change, delete and logout only issue their call; no intent edits the notes list |
| Home.HomeViewModel.LoadNotes | app/src/main/java/com/instant/firebasenotesproject/home/HomeViewModel.kt:67-70 | sets isLoading and requests all notes |
| Home.HomeViewModel.OnNotesLoaded | app/src/main/java/com/instant/firebasenotesproject/home/HomeViewModel.kt:71-72 | replaces notes wholesale with the result and clears isLoading |
| Home.HomeViewModel.OnNotesLoadFailure | app/src/main/java/com/instant/firebasenotesproject/home/HomeViewModel.kt:73-78 | keeps the old notes, clears isLoading, sets "Error loading notes", emits nothing |
| Home.HomeViewModel.OnStatusUpdated | app/src/main/java/com/instant/firebasenotesproject/home/HomeViewModel.kt:86-87 | a successful status update triggers a reload; the notes list itself is untouched |
| Home.HomeViewModel.OnStatusUpdateFailure | app/src/main/java/com/instant/firebasenotesproject/home/HomeViewModel.kt:88-90 | emits ShowError("Error updating note status") and leaves the state unchanged |
| Home.HomeViewModel.OnNoteDeleted | app/src/main/java/com/instant/firebasenotesproject/home/HomeViewModel.kt:97-98 | a successful delete triggers a reload; the notes list itself is untouched |
| Home.HomeViewModel.OnDeleteFailure | app/src/main/java/com/instant/firebasenotesproject/home/HomeViewModel.kt:99-101 | emits ShowError("Error deleting note") and leaves the state unchanged |
| Home.HomeViewModel.OnSignedOut | app/src/main/java/com/instant/firebasenotesproject/home/HomeViewModel.kt:121-122 | emits NavigateToLogin, state unchanged |
| Home.HomeViewModel.OnSignOutFailure | app/src/main/java/com/instant/firebasenotesproject/home/HomeViewModel.kt:123-124 | emits ShowError("Logout failed"), state unchanged |
| SignUp.SignUpRequest | app/src/main/java/com/instant/firebasenotesproject/signup/SignUpViewModel.kt:95-104 | the sign-up request passes the state's email, password, names, job title, date and time with the uploaded URL |
| SignUp.SignUpViewModel.constructor | app/src/main/java/com/instant/firebasenotesproject/signup/SignUpViewModel.kt:17-21 | starts from the default state with no effects and no calls |
| SignUp.SignUpViewModel.HandleIntent | app/src/main/java/com/instant/firebasenotesproject/signup/SignUpViewModel.kt:23-35 | each Enter or SelectProfileImage intent updates only its own field; SubmitSignUp runs the submit (next row); sign-up is only ever requested with a non-empty URL |
| SignUp.SignUpViewModel.SubmitSignUp | app/src/main/java/com/instant/firebasenotesproject/signup/SignUpViewModel.kt:37-52 | no image: errorMessage "Please select a profile image", isLoading false, no upload; with an image: isLoading true and the upload starts |
| SignUp.SignUpViewModel.OnImageUploaded | app/src/main/java/com/instant/firebasenotesproject/signup/SignUpViewModel.kt:57-68 | an empty URL clears isLoading and sets "Image upload failed: URL is empty." with no sign-up; a non-empty URL requests sign-up from the current form |
| SignUp.SignUpViewModel.OnImageUploadFailure | app/src/main/java/com/instant/firebasenotesproject/signup/SignUpViewModel.kt:69-75 | clears isLoading and sets "Image upload failed: " followed by the message |
| SignUp.SignUpViewModel.SignUpUser | app/src/main/java/com/instant/firebasenotesproject/signup/SignUpViewModel.kt:81-103 | an empty URL is refused with its own error; a non-empty one requests sign-up from the form |
| SignUp.SignUpViewModel.OnSignedUp | app/src/main/java/com/instant/firebasenotesproject/signup/SignUpViewModel.kt:105-106 | a successful sign-up requests the user data, state unchanged |
| SignUp.SignUpViewModel.OnSignUpFailure | app/src/main/java/com/instant/firebasenotesproject/signup/SignUpViewModel.kt:107-110 | clears isLoading and sets errorMessage to the (nullable) exception message |
| SignUp.SignUpViewModel.OnUserDataLoaded | app/src/main/java/com/instant/firebasenotesproject/signup/SignUpViewModel.kt:119-120 | emits NavigateToHome(firstName, jobTitle) |
| SignUp.SignUpViewModel.OnUserDataFailure | app/src/main/java/com/instant/firebasenotesproject/signup/SignUpViewModel.kt:121-122 | sets errorMessage and leaves isLoading as it was |
| Login.LoginViewModel.constructor | app/src/main/java/com/instant/firebasenotesproject/signin/LoginViewModel.kt:20-25 | starts from the default state with no effects and no calls |
| Login.LoginViewModel.HandleIntent | app/src/main/java/com/instant/firebasenotesproject/signin/LoginViewModel.kt:28-42 | EnterEmail and EnterPassword replace only their field; SubmitLogin runs the submit (next row); the only effect ever emitted is NavigateToHome |
| Login.LoginViewModel.SubmitLogin | app/src/main/java/com/instant/firebasenotesproject/signin/LoginViewModel.kt:45-52 | sets isLoading, keeps any earlier errorMessage, signs in with the state's email and password without validation |
| Login.LoginViewModel.OnSignedIn | app/src/main/java/com/instant/firebasenotesproject/signin/LoginViewModel.kt:53-56 | isLoading is cleared and set again, and the user data is requested |
| Login.LoginViewModel.OnSignInFailure | app/src/main/java/com/instant/firebasenotesproject/signin/LoginViewModel.kt:57-62 | isLoading false and errorMessage the exception message |
| Login.LoginViewModel.FetchUserDataAndNavigate | app/src/main/java/com/instant/firebasenotesproject/signin/LoginViewModel.kt:68-72 | sets isLoading and requests the user data |
| Login.LoginViewModel.OnUserDataLoaded | app/src/main/java/com/instant/firebasenotesproject/signin/LoginViewModel.kt:73-75 | clears isLoading and emits NavigateToHome(firstName, jobTitle) |
| Login.LoginViewModel.OnUserDataFailure | app/src/main/java/com/instant/firebasenotesproject/signin/LoginViewModel.kt:76-80 | clears isLoading and sets the error |
| Splash.SplashScreenViewModel.constructor | app/src/main/java/com/instant/firebasenotesproject/splash/SplashScreenViewModel.kt:20-25 | starts not loading, with no effects and no calls |
| Splash.SplashScreenViewModel.HandleIntent | app/src/main/java/com/instant/firebasenotesproject/splash/SplashScreenViewModel.kt:28-32 | CheckUserStatus runs the check (next row); once the check is requested isLoading stays true |
| Splash.SplashScreenViewModel.CheckUserStatus | app/src/main/java/com/instant/firebasenotesproject/splash/SplashScreenViewModel.kt:35-39 | replaces the state with one whose isLoading is true and asks whether a user is signed in |
| Splash.SplashScreenViewModel.OnLoginStatus | app/src/main/java/com/instant/firebasenotesproject/splash/SplashScreenViewModel.kt:39-58 | signed in: user data is requested and nothing emitted; signed out: NavigateToLogin is emitted and nothing fetched |
| Splash.SplashScreenViewModel.OnUserDataLoaded | app/src/main/java/com/instant/firebasenotesproject/splash/SplashScreenViewModel.kt:43-49 | emits exactly one effect, NavigateToHome(firstName, jobTitle), and keeps isLoading |
| Splash.SplashScreenViewModel.OnUserDataFailure | app/src/main/java/com/instant/firebasenotesproject/splash/SplashScreenViewModel.kt:50-53 | emits exactly one effect, NavigateToLogin, and keeps isLoading |

## Left out

- Coroutines and flows: the view-model scope, state and shared flows, channels and callback flows are not modelled. Each reply is an `On...` method called in some order, and interleavings (such as the home profile load and notes load racing on `isLoading`) are not explored.
- The user repositories (sign-up, sign-in, sign-out, image upload, user-data listener, login check) wrap backend SDK calls. Their results appear only as the inputs of the `On...` methods, and their requests only as entries of a view model's call log.
- Compose rendering, navigation wiring, the profile picture selector, the date and time pickers, dependency injection and the application classes are UI, platform or wiring code.
- Backend behaviour: consistency, indexing, security rules, network errors and retries. A backend exception is the `fault` parameter, and its text is whatever the backend says.
- FirestoreNotes.NotesRepositoryImpl.UpdateNoteStatus: when the document does not exist, the backend refuses the field update. The text of that exception is the backend's, and the model uses a fixed approximation of it.
- FirestoreNotes.NotesRepositoryImpl.GetAllNotes: does not state the order of the listing (the backend orders by document id), only its contents.
- RealtimeNotes.NotesRepositoryImplFirebaseDatabase.GetAllNotes: does not state the order of the listing (the backend orders children by key), only its contents.
- Decoding failures: in the document store every stored document decodes. In the realtime tree only text children (left by writes at the `notes` node itself) fail to convert; badly typed fields inside a note object are not modelled. The "Note data is invalid" branch, reached only when the decoder returns null for an existing value, never occurs in the model.
- FirestoreNotes.NotesRepositoryImpl.AddNote: note ids are taken as plain document ids. An id containing `/` is a path in the store: it can name a document of a sub-collection or be refused. That case is not modelled. The same holds for UpdateNote, GetNoteById, UpdateNoteStatus and DeleteNote.
- FirestoreNotes.NotesRepositoryImpl.GetNoteById: the empty-id error's text is the SDK's and is approximated by one fixed text. The same approximation serves the other operations.
- RealtimeNotes.NotesRepositoryImplFirebaseDatabase.AddNote: an id containing `/` is a deeper path in the tree. It is taken as a plain key, which is not what the store does. The same holds for UpdateNote, GetNoteById, UpdateNoteStatus and DeleteNote. The empty id and the forbidden characters `.`, `#`, `$`, `[` and `]` are modelled.
- RealtimeNotes.NotesRepositoryImplFirebaseDatabase.GetNoteById: the conversion and invalid-path error texts are the SDK's. Each is approximated by one fixed text.
- The status enum's declaration is not part of this model. Only its TODO, IN_PROGRESS and DONE constants are modelled, and no property depends on there being no other constant. The DELETED status a comment mentions is not modelled.
- The splash screen's state record is not part of this model. It is taken to hold only `isLoading`, false by default.
- A profile image `Uri` is kept as its text.
- The `expanded` flag of a note item's menu is UI-only. The Delete entry has no confirmation step: it dispatches DeleteNote at once, as ItemDispatch states.
