/** The login form's submit handler: no client-side checks, one sign-in request, and the
    error shown for a failed one. */
module LoginForm {
  import opened Wrappers
  import opened RegisterForm

  const InvalidCredentials: string := "Invalid email or password"
  const TooManyRequests: string := "Too many failed login attempts. Please try again later"

  /** The message shown for a failed sign-in. A missing account and a wrong password read the
      same, so the message does not reveal which one it was. */
  function LoginErrorMessage(code: string): (m: string)
    ensures m == InvalidCredentials <==> code == "auth/user-not-found" || code == "auth/wrong-password"
    ensures m == TooManyRequests <==> code == "auth/too-many-requests"
    ensures m == "Invalid email address" <==> code == "auth/invalid-email"
    ensures m == "Failed to login" <==>
              code != "auth/user-not-found" && code != "auth/wrong-password" &&
              code != "auth/too-many-requests" && code != "auth/invalid-email"
  {
    if code == "auth/user-not-found" || code == "auth/wrong-password" then InvalidCredentials
    else if code == "auth/too-many-requests" then TooManyRequests
    else if code == "auth/invalid-email" then "Invalid email address"
    else "Failed to login"
  }

  class LoginPage {
    var error: Option<string>
    var loading: bool
    var loginCalls: nat
    var navigatedTo: Option<string>

    constructor ()
      ensures error == None && !loading && loginCalls == 0 && navigatedTo == None
    {
      error := None;
      loading := false;
      loginCalls := 0;
      navigatedTo := None;
    }

    /** `handleSubmit` up to the awaited `loginUser` call: there is no client-side check, so
        every attempt shows the pending state (loading, no error) and sends one request. */
    method Submit()
      modifies this
      ensures loading && error == None && loginCalls == old(loginCalls) + 1 && navigatedTo == old(navigatedTo)
    {
      loading := true;
      error := None;
      loginCalls := loginCalls + 1;
    }

    /** The rest of `handleSubmit` once the pending request settles with `outcome`: home on
        success, the code's message on failure, and `loading` cleared either way. */
    method Settle(outcome: AuthOutcome)
      requires loading && error == None
      modifies this
      ensures !loading && loginCalls == old(loginCalls)
      ensures outcome.Succeeded? ==> error == None && navigatedTo == Some("/")
      ensures outcome.Failed? ==> error == Some(LoginErrorMessage(outcome.code)) && navigatedTo == old(navigatedTo)
    {
      if outcome.Succeeded? {
        navigatedTo := Some("/");
      } else {
        error := Some(LoginErrorMessage(outcome.code));
      }
      loading := false;
    }

    /** The whole of `handleSubmit`, with `outcome` what `loginUser` resolves or rejects with.
        Every attempt sends exactly one request, whatever was typed. */
    method HandleSubmit(outcome: AuthOutcome)
      modifies this
      ensures loginCalls == old(loginCalls) + 1 && !loading
      ensures outcome.Succeeded? ==> error == None && navigatedTo == Some("/")
      ensures outcome.Failed? ==> error == Some(LoginErrorMessage(outcome.code)) && navigatedTo == old(navigatedTo)
    {
      Submit();
      Settle(outcome);
    }
  }

  /** A failed attempt followed by a successful one clears the earlier message. */
  method RetryAfterFailure(code: string) returns (shown: Option<string>, route: Option<string>)
    ensures shown == None && route == Some("/")
  {
    var page := new LoginPage();
    page.HandleSubmit(Failed(code));
    page.HandleSubmit(Succeeded);
    shown := page.error;
    route := page.navigatedTo;
  }
}
