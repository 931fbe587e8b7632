/** The login and sign-up screen state: WhatsAppClone/Screens/Auth/ViewModels/AuthScreenModel.swift. */
module AuthScreen {

  /** The result of the `AuthManager` call, which is not part of this model. */
  datatype AuthOutcome = Succeeded | Failed(localizedDescription: string)

  const LoginFailurePrefix: string := "Failed to login "
  const SignUpFailurePrefix: string := "Failed to create an account "

  class AuthScreenModel {
    var isLoading: bool
    var email: string
    var password: string
    var username: string
    var showError: bool
    var errorMessage: string

    constructor ()
      ensures !isLoading && email == "" && password == "" && username == ""
      ensures !showError && errorMessage == "Uh Oh"
    {
      isLoading := false;
      email := "";
      password := "";
      username := "";
      showError := false;
      errorMessage := "Uh Oh";
    }

    /** `disableLoginButton`: the button is enabled exactly when both credentials are filled in and no request is running. */
    function DisableLoginButton(): (b: bool)
      reads this
      ensures !b <==> email != "" && password != "" && !isLoading
    {
      email == "" || password == "" || isLoading
    }

    /**
     * `disableSignupButton`: disabled exactly when login is, or when the
     * user name is empty; so a disabled login button means a disabled
     * sign-up button.
     */
    function DisableSignupButton(): (b: bool)
      reads this
      ensures b <==> DisableLoginButton() || username == ""
    {
      email == "" || password == "" || username == "" || isLoading
    }

    /**
     * `handleSignUp`: loading starts; on success it stays on (the auth
     * listener moves on); on failure the error is shown and loading stops.
     */
    method HandleSignUp(outcome: AuthOutcome)
      modifies this`isLoading, this`showError, this`errorMessage
      ensures outcome.Succeeded? ==> isLoading && showError == old(showError) && errorMessage == old(errorMessage)
      ensures outcome.Failed? ==>
        && !isLoading && showError
        && errorMessage == SignUpFailurePrefix + outcome.localizedDescription
    {
      isLoading := true;
      if outcome.Failed? {
        errorMessage := SignUpFailurePrefix + outcome.localizedDescription;
        showError := true;
        isLoading := false;
      }
    }

    /** `handleLogin`: as sign-up, with the login message. */
    method HandleLogin(outcome: AuthOutcome)
      modifies this`isLoading, this`showError, this`errorMessage
      ensures outcome.Succeeded? ==> isLoading && showError == old(showError) && errorMessage == old(errorMessage)
      ensures outcome.Failed? ==>
        && !isLoading && showError
        && errorMessage == LoginFailurePrefix + outcome.localizedDescription
    {
      isLoading := true;
      if outcome.Failed? {
        errorMessage := LoginFailurePrefix + outcome.localizedDescription;
        showError := true;
        isLoading := false;
      }
    }
  }

  /** A failure message always starts with its prefix, so the two kinds of failure are told apart. */
  lemma FailureMessagesDistinct(d1: string, d2: string)
    ensures (LoginFailurePrefix + d1)[..|LoginFailurePrefix|] == LoginFailurePrefix
    ensures LoginFailurePrefix + d1 != SignUpFailurePrefix + d2
  {
    assert (LoginFailurePrefix + d1)[10] == 'l';
    assert (SignUpFailurePrefix + d2)[10] == 'c';
  }
}
