/** The login screen's state holder. */
module Login {
  import opened Results
  import opened Model

  datatype LoginUiState = LoginUiState(
    email: string,
    password: string,
    isLoading: bool,
    errorMessage: Option<string>)

  const InitialState := LoginUiState("", "", false, None)

  datatype LoginUiIntent = EnterEmail(email: string) | EnterPassword(password: string) | SubmitLogin

  datatype LoginUiEffect = NavigateToHome(fullName: string, jobTitle: string) | ShowSnackbar(message: string)

  datatype LoginCall = SignIn(email: string, password: string) | ListenForUserData

  class LoginViewModel {
    var uiState: LoginUiState
    var effects: seq<LoginUiEffect>
    var calls: seq<LoginCall>

    /** The only effect ever emitted is navigation home. */
    ghost predicate Valid()
      reads this
    {
      forall e :: e in effects ==> e.NavigateToHome?
    }

    constructor ()
      ensures Valid()
      ensures uiState == InitialState && effects == [] && calls == []
    {
      uiState := InitialState;
      effects := [];
      calls := [];
    }

    method HandleIntent(intent: LoginUiIntent)
      requires Valid()
      modifies this
      ensures Valid()
      ensures effects == old(effects)
      ensures intent.EnterEmail? ==> uiState == old(uiState).(email := intent.email) && calls == old(calls)
      ensures intent.EnterPassword? ==> uiState == old(uiState).(password := intent.password) && calls == old(calls)
      ensures intent.SubmitLogin? ==>
                && uiState == old(uiState).(isLoading := true)
                && calls == old(calls) + [SignIn(old(uiState).email, old(uiState).password)]
    {
      match intent
      case EnterEmail(e) => uiState := uiState.(email := e);
      case EnterPassword(p) => uiState := uiState.(password := p);
      case SubmitLogin => SubmitLogin();
    }

    /** Signs in with the form as it stands: no local validation, and an
        earlier error message stays until a later result replaces it. */
    method SubmitLogin()
      requires Valid()
      modifies this
      ensures Valid()
      ensures uiState == old(uiState).(isLoading := true)
      ensures effects == old(effects) && calls == old(calls) + [SignIn(old(uiState).email, old(uiState).password)]
    {
      uiState := uiState.(isLoading := true);
      calls := calls + [SignIn(uiState.email, uiState.password)];
    }

    /** Sign-in succeeded: loading stops, then starts again for the user fetch. */
    method OnSignedIn()
      requires Valid()
      modifies this
      ensures Valid()
      ensures uiState == old(uiState).(isLoading := true)
      ensures effects == old(effects) && calls == old(calls) + [ListenForUserData]
    {
      uiState := uiState.(isLoading := false);
      FetchUserDataAndNavigate();
    }

    method OnSignInFailure(message: Option<string>)
      requires Valid()
      modifies this
      ensures Valid()
      ensures uiState == old(uiState).(isLoading := false, errorMessage := message)
      ensures effects == old(effects) && calls == old(calls)
    {
      uiState := uiState.(isLoading := false, errorMessage := message);
    }

    method FetchUserDataAndNavigate()
      requires Valid()
      modifies this
      ensures Valid()
      ensures uiState == old(uiState).(isLoading := true)
      ensures effects == old(effects) && calls == old(calls) + [ListenForUserData]
    {
      uiState := uiState.(isLoading := true);
      calls := calls + [ListenForUserData];
    }

    method OnUserDataLoaded(user: User)
      requires Valid()
      modifies this
      ensures Valid()
      ensures uiState == old(uiState).(isLoading := false)
      ensures effects == old(effects) + [NavigateToHome(user.firstName, user.jobTitle)] && calls == old(calls)
    {
      uiState := uiState.(isLoading := false);
      effects := effects + [NavigateToHome(user.firstName, user.jobTitle)];
    }

    method OnUserDataFailure(message: Option<string>)
      requires Valid()
      modifies this
      ensures Valid()
      ensures uiState == old(uiState).(isLoading := false, errorMessage := message)
      ensures effects == old(effects) && calls == old(calls)
    {
      uiState := uiState.(isLoading := false, errorMessage := message);
    }
  }
}
