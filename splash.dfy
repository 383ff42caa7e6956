/** The splash screen's state holder: decides where the app starts. */
module Splash {
  import opened Model

  /** The state record is not part of this model; it is taken to hold only the
      loading flag, off by default. */
  datatype SplashUiState = SplashUiState(isLoading: bool)

  datatype SplashUiIntent = CheckUserStatus

  datatype SplashUiEffect = NavigateToLogin | NavigateToHome(fullName: string, jobTitle: string)

  datatype SplashCall = IsUserLoggedIn | ListenForUserData

  class SplashScreenViewModel {
    var uiState: SplashUiState
    var effects: seq<SplashUiEffect>
    var calls: seq<SplashCall>

    /** Once the login check has been requested the loading flag stays on:
        nothing clears it. */
    ghost predicate Valid()
      reads this
    {
      IsUserLoggedIn in calls ==> uiState.isLoading
    }

    constructor ()
      ensures Valid()
      ensures uiState == SplashUiState(false) && effects == [] && calls == []
    {
      uiState := SplashUiState(false);
      effects := [];
      calls := [];
    }

    method HandleIntent(intent: SplashUiIntent)
      requires Valid()
      modifies this
      ensures Valid()
      ensures uiState == SplashUiState(true)
      ensures effects == old(effects) && calls == old(calls) + [IsUserLoggedIn]
    {
      match intent
      case CheckUserStatus => CheckUserStatus();
    }

    method CheckUserStatus()
      requires Valid()
      modifies this
      ensures Valid()
      ensures uiState == SplashUiState(true)
      ensures effects == old(effects) && calls == old(calls) + [IsUserLoggedIn]
    {
      uiState := SplashUiState(true);
      calls := calls + [IsUserLoggedIn];
    }

    /** The login check answered: signed-in users are fetched, everyone else
        goes to the login screen without a fetch. */
    method OnLoginStatus(isLoggedIn: bool)
      requires Valid()
      modifies this
      ensures Valid()
      ensures uiState == old(uiState)
      ensures isLoggedIn ==> effects == old(effects) && calls == old(calls) + [ListenForUserData]
      ensures !isLoggedIn ==> effects == old(effects) + [NavigateToLogin] && calls == old(calls)
    {
      if isLoggedIn {
        calls := calls + [ListenForUserData];
      } else {
        effects := effects + [NavigateToLogin];
      }
    }

    /** Every user-data result navigates exactly once and keeps the loading flag. */
    method OnUserDataLoaded(user: User)
      requires Valid()
      modifies this
      ensures Valid()
      ensures uiState == old(uiState)
      ensures effects == old(effects) + [NavigateToHome(user.firstName, user.jobTitle)] && calls == old(calls)
    {
      effects := effects + [NavigateToHome(user.firstName, user.jobTitle)];
    }

    method OnUserDataFailure()
      requires Valid()
      modifies this
      ensures Valid()
      ensures uiState == old(uiState)
      ensures effects == old(effects) + [NavigateToLogin] && calls == old(calls)
    {
      effects := effects + [NavigateToLogin];
    }
  }
}
