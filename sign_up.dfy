/** The sign-up screen's state holder: upload the profile image, create the
    account with the uploaded image's URL, then fetch the user and go home. */
module SignUp {
  import opened Results
  import opened Model

  datatype SignUpUiState = SignUpUiState(
    firstName: string,
    lastName: string,
    jobTitle: string,
    email: string,
    password: string,
    date: string,
    time: string,
    profileImageUri: Option<string>,  // a content URI, kept as text
    isLoading: bool,
    isSignUpSuccess: bool,
    errorMessage: Option<string>)

  const InitialState := SignUpUiState("", "", "", "", "", "", "", None, false, false, None)

  datatype SignUpUiIntent =
    | EnterFirstName(firstName: string)
    | EnterLastName(lastName: string)
    | EnterJobTitle(jobTitle: string)
    | EnterEmail(email: string)
    | EnterPassword(password: string)
    | EnterDate(date: string)
    | EnterTime(time: string)
    | SelectProfileImage(uri: Option<string>)
    | SubmitSignUp

  datatype SignUpUiEffect = NavigateToHome(fullName: string, jobTitle: string) | ShowSnackbar(message: string)

  /** The user-repository calls the state holder makes. */
  datatype SignUpCall =
    | UploadProfileImage(imageUri: string)
    | SignUpWith(email: string, password: string, firstName: string, lastName: string,
                 jobTitle: string, date: string, time: string, profileImageUrl: string)
    | ListenForUserData

  const SelectImageFirst := "Please select a profile image"
  const UploadUrlEmpty := "Image upload failed: URL is empty."
  const UploadFailedPrefix := "Image upload failed: "
  const SignUpUrlEmpty := "Profile image URL is empty. Please select a valid image."

  /** The account request built from the form and an uploaded image's URL. */
  function SignUpRequest(s: SignUpUiState, url: string): (c: SignUpCall)
    ensures c.SignUpWith? && c.profileImageUrl == url
    ensures c.email == s.email && c.password == s.password
    ensures c.firstName == s.firstName && c.lastName == s.lastName && c.jobTitle == s.jobTitle
    ensures c.date == s.date && c.time == s.time
  {
    SignUpWith(s.email, s.password, s.firstName, s.lastName, s.jobTitle, s.date, s.time, url)
  }

  class SignUpViewModel {
    var uiState: SignUpUiState
    var effects: seq<SignUpUiEffect>
    var calls: seq<SignUpCall>

    /** An account is only ever requested with a non-empty image URL, nothing
        sets `isSignUpSuccess`, and the only effect is navigation home. */
    ghost predicate Valid()
      reads this
    {
      && !uiState.isSignUpSuccess
      && (forall c :: c in calls && c.SignUpWith? ==> c.profileImageUrl != "")
      && (forall e :: e in effects ==> e.NavigateToHome?)
    }

    constructor ()
      ensures Valid()
      ensures uiState == InitialState && effects == [] && calls == []
    {
      uiState := InitialState;
      effects := [];
      calls := [];
    }

    method HandleIntent(intent: SignUpUiIntent)
      requires Valid()
      modifies this
      ensures Valid()
      ensures effects == old(effects)
      ensures !intent.SubmitSignUp? ==> calls == old(calls)
      ensures intent.EnterFirstName? ==> uiState == old(uiState).(firstName := intent.firstName)
      ensures intent.EnterLastName? ==> uiState == old(uiState).(lastName := intent.lastName)
      ensures intent.EnterJobTitle? ==> uiState == old(uiState).(jobTitle := intent.jobTitle)
      ensures intent.EnterEmail? ==> uiState == old(uiState).(email := intent.email)
      ensures intent.EnterPassword? ==> uiState == old(uiState).(password := intent.password)
      ensures intent.EnterDate? ==> uiState == old(uiState).(date := intent.date)
      ensures intent.EnterTime? ==> uiState == old(uiState).(time := intent.time)
      ensures intent.SelectProfileImage? ==> uiState == old(uiState).(profileImageUri := intent.uri)
      ensures intent.SubmitSignUp? && old(uiState).profileImageUri.None? ==>
                && uiState == old(uiState).(errorMessage := Some(SelectImageFirst), isLoading := false)
                && calls == old(calls)
      ensures intent.SubmitSignUp? && old(uiState).profileImageUri.Some? ==>
                && uiState == old(uiState).(isLoading := true)
                && calls == old(calls) + [UploadProfileImage(old(uiState).profileImageUri.value)]
    {
      match intent
      case EnterFirstName(v) => uiState := uiState.(firstName := v);
      case EnterLastName(v) => uiState := uiState.(lastName := v);
      case EnterJobTitle(v) => uiState := uiState.(jobTitle := v);
      case EnterEmail(v) => uiState := uiState.(email := v);
      case EnterPassword(v) => uiState := uiState.(password := v);
      case EnterDate(v) => uiState := uiState.(date := v);
      case EnterTime(v) => uiState := uiState.(time := v);
      case SelectProfileImage(uri) => uiState := uiState.(profileImageUri := uri);
      case SubmitSignUp => SubmitSignUp();
    }

    method SubmitSignUp()
      requires Valid()
      modifies this
      ensures Valid()
      ensures effects == old(effects)
      ensures old(uiState).profileImageUri.None? ==>
                && uiState == old(uiState).(errorMessage := Some(SelectImageFirst), isLoading := false)
                && calls == old(calls)
      ensures old(uiState).profileImageUri.Some? ==>
                && uiState == old(uiState).(isLoading := true)
                && calls == old(calls) + [UploadProfileImage(old(uiState).profileImageUri.value)]
    {
      var imageUri := uiState.profileImageUri;
      if imageUri.None? {
        uiState := uiState.(errorMessage := Some(SelectImageFirst), isLoading := false);
        return;
      }
      uiState := uiState.(isLoading := true);
      calls := calls + [UploadProfileImage(imageUri.value)];
    }

    /** The upload finished: a non-empty URL goes on to sign-up, built from the
        form as it is now; an empty one stops with an error. */
    method OnImageUploaded(url: string)
      requires Valid()
      modifies this
      ensures Valid()
      ensures effects == old(effects)
      ensures url == "" ==>
                uiState == old(uiState).(isLoading := false, errorMessage := Some(UploadUrlEmpty)) && calls == old(calls)
      ensures url != "" ==>
                uiState == old(uiState) && calls == old(calls) + [SignUpRequest(old(uiState), url)]
    {
      if url != "" {
        SignUpUser(url);
      } else {
        uiState := uiState.(isLoading := false, errorMessage := Some(UploadUrlEmpty));
      }
    }

    method OnImageUploadFailure(message: Option<string>)
      requires Valid()
      modifies this
      ensures Valid()
      ensures uiState == old(uiState).(isLoading := false, errorMessage := Some(UploadFailedPrefix + MessageText(message)))
      ensures effects == old(effects) && calls == old(calls)
    {
      uiState := uiState.(isLoading := false, errorMessage := Some(UploadFailedPrefix + MessageText(message)));
    }

    /** Requests the account; its own guard against an empty URL never fires
        when it is reached from a finished upload. */
    method SignUpUser(profileImageUrl: string)
      requires Valid()
      modifies this
      ensures Valid()
      ensures effects == old(effects)
      ensures profileImageUrl == "" ==>
                uiState == old(uiState).(isLoading := false, errorMessage := Some(SignUpUrlEmpty)) && calls == old(calls)
      ensures profileImageUrl != "" ==>
                uiState == old(uiState) && calls == old(calls) + [SignUpRequest(old(uiState), profileImageUrl)]
    {
      var current := uiState;
      if profileImageUrl == "" {
        uiState := uiState.(isLoading := false, errorMessage := Some(SignUpUrlEmpty));
        return;
      }
      calls := calls + [SignUpRequest(current, profileImageUrl)];
    }

    /** The account exists: fetch the user to navigate. */
    method OnSignedUp()
      requires Valid()
      modifies this
      ensures Valid()
      ensures uiState == old(uiState)
      ensures effects == old(effects) && calls == old(calls) + [ListenForUserData]
    {
      calls := calls + [ListenForUserData];
    }

    /** The error becomes the exception's message, which may be absent. */
    method OnSignUpFailure(message: Option<string>)
      requires Valid()
      modifies this
      ensures Valid()
      ensures uiState == old(uiState).(isLoading := false, errorMessage := message)
      ensures effects == old(effects) && calls == old(calls)
    {
      uiState := uiState.(isLoading := false, errorMessage := message);
    }

    method OnUserDataLoaded(user: User)
      requires Valid()
      modifies this
      ensures Valid()
      ensures uiState == old(uiState)
      ensures effects == old(effects) + [NavigateToHome(user.firstName, user.jobTitle)] && calls == old(calls)
    {
      effects := effects + [NavigateToHome(user.firstName, user.jobTitle)];
    }

    /** A failed fetch records the error but leaves the loading flag as it was. */
    method OnUserDataFailure(message: Option<string>)
      requires Valid()
      modifies this
      ensures Valid()
      ensures uiState == old(uiState).(errorMessage := message)
      ensures effects == old(effects) && calls == old(calls)
    {
      uiState := uiState.(errorMessage := message);
    }
  }
}
