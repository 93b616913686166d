/** The registration form's submit handler: client-side validation, then the account request,
    then the error shown for a failed request. */
module RegisterForm {
  import opened Wrappers

  /** The outcome of the awaited auth request: success, or a failure carrying Firebase's
      error `code`. */
  datatype AuthOutcome = Succeeded | Failed(code: string)

  const PasswordMismatch: string := "Passwords do not match"
  const PasswordTooShort: string := "Password must be at least 6 characters"
  const MinPasswordLength: nat := 6

  /** JavaScript's `s.length`: the number of UTF-16 code units, one for a character of the Basic
      Multilingual Plane and two (a surrogate pair) for any other. */
  function Utf16Length(s: string): (n: nat)
    ensures |s| <= n <= 2 * |s|
  {
    if s == [] then 0
    else Utf16Length(s[..|s| - 1]) + (if s[|s| - 1] as int >= 0x1_0000 then 2 else 1)
  }

  /** A string of Basic Multilingual Plane characters is as long in UTF-16 units as in
      characters. */
  lemma {:induction false} Utf16LengthOfPlaneZero(s: string)
    requires forall k :: 0 <= k < |s| ==> s[k] as int < 0x1_0000
    ensures Utf16Length(s) == |s|
  {
    if s != [] {
      var init := s[..|s| - 1];
      assert forall k :: 0 <= k < |init| ==> init[k] == s[k];
      Utf16LengthOfPlaneZero(init);
    }
  }

  /** The two client-side checks in order; `None` lets the form submit. The length check
      measures `password.length`, in UTF-16 units. */
  function Validate(password: string, confirmPassword: string): (r: Option<string>)
    ensures password != confirmPassword ==> r == Some(PasswordMismatch)
    ensures password == confirmPassword && Utf16Length(password) < 6 ==> r == Some(PasswordTooShort)
    ensures r.None? <==> password == confirmPassword && Utf16Length(password) >= 6
  {
    if password != confirmPassword then Some(PasswordMismatch)
    else if Utf16Length(password) < MinPasswordLength then Some(PasswordTooShort)
    else None
  }

  /** A short pair that also differs is reported as a mismatch; six characters always pass the
      length check, and so do five when one of them needs a surrogate pair. */
  lemma ValidationOrder(password: string, confirmPassword: string)
    ensures Utf16Length(password) < 6 && password != confirmPassword ==>
              Validate(password, confirmPassword) == Some(PasswordMismatch)
    ensures |password| >= 6 ==> Validate(password, password).None?
  {
  }

  /** "abcd" followed by an emoji is five characters but six UTF-16 units, so it is long
      enough. */
  lemma SurrogatePairCountsTwice()
    ensures |"abcd\U{1F600}"| == 5
    ensures Validate("abcd\U{1F600}", "abcd\U{1F600}").None?
  {
    var s := "abcd\U{1F600}";
    assert s[..4] == "abcd";
    Utf16LengthOfPlaneZero("abcd");
    assert Utf16Length(s) == 6;
  }

  /** The message shown for a failed registration. */
  function RegisterErrorMessage(code: string): (m: string)
    ensures m == "Email is already in use" <==> code == "auth/email-already-in-use"
    ensures m == "Invalid email address" <==> code == "auth/invalid-email"
    ensures m == "Password is too weak" <==> code == "auth/weak-password"
    ensures m == "Failed to create account" <==>
              code != "auth/email-already-in-use" && code != "auth/invalid-email" && code != "auth/weak-password"
  {
    if code == "auth/email-already-in-use" then "Email is already in use"
    else if code == "auth/invalid-email" then "Invalid email address"
    else if code == "auth/weak-password" then "Password is too weak"
    else "Failed to create account"
  }

  /** The page's state; `registerCalls` counts requests sent and `navigatedTo` is the route the
      page has navigated to, if any. */
  class RegisterPage {
    var error: Option<string>
    var loading: bool
    var registerCalls: nat
    var navigatedTo: Option<string>

    constructor ()
      ensures error == None && !loading && registerCalls == 0 && navigatedTo == None
    {
      error := None;
      loading := false;
      registerCalls := 0;
      navigatedTo := None;
    }

    /** `handleSubmit` up to the awaited `registerUser` call. A form that fails validation
        shows the check's message, sends nothing and leaves `loading` as it was; a valid one
        shows the pending state (loading, no error) and sends one request. `sent` says which. */
    method Submit(password: string, confirmPassword: string) returns (sent: bool)
      modifies this
      ensures sent <==> Validate(password, confirmPassword).None?
      ensures !sent ==>
                error == Validate(password, confirmPassword) && loading == old(loading) &&
                registerCalls == old(registerCalls) && navigatedTo == old(navigatedTo)
      ensures sent ==>
                loading && error == None && registerCalls == old(registerCalls) + 1 &&
                navigatedTo == old(navigatedTo)
    {
      if password != confirmPassword {
        error := Some(PasswordMismatch);
        return false;
      }
      if Utf16Length(password) < MinPasswordLength {
        error := Some(PasswordTooShort);
        return false;
      }
      loading := true;
      error := None;
      registerCalls := registerCalls + 1;
      sent := true;
    }

    /** The rest of `handleSubmit` once the pending request settles with `outcome`: home on
        success, the code's message on failure, and `loading` cleared either way. */
    method Settle(outcome: AuthOutcome)
      requires loading && error == None
      modifies this
      ensures !loading && registerCalls == old(registerCalls)
      ensures outcome.Succeeded? ==> error == None && navigatedTo == Some("/")
      ensures outcome.Failed? ==> error == Some(RegisterErrorMessage(outcome.code)) && navigatedTo == old(navigatedTo)
    {
      if outcome.Succeeded? {
        navigatedTo := Some("/");
      } else {
        error := Some(RegisterErrorMessage(outcome.code));
      }
      loading := false;
    }

    /** The whole of `handleSubmit`, with `outcome` what `registerUser` resolves or rejects with
        when it is called. */
    method HandleSubmit(password: string, confirmPassword: string, outcome: AuthOutcome)
      modifies this
      ensures Validate(password, confirmPassword).Some? ==>
                error == Validate(password, confirmPassword) && loading == old(loading) &&
                registerCalls == old(registerCalls) && navigatedTo == old(navigatedTo)
      ensures Validate(password, confirmPassword).None? ==>
                registerCalls == old(registerCalls) + 1 && !loading
      ensures Validate(password, confirmPassword).None? && outcome.Succeeded? ==>
                error == None && navigatedTo == Some("/")
      ensures Validate(password, confirmPassword).None? && outcome.Failed? ==>
                error == Some(RegisterErrorMessage(outcome.code)) && navigatedTo == old(navigatedTo)
    {
      var sent := Submit(password, confirmPassword);
      if sent {
        Settle(outcome);
      }
    }
  }

  /** Submitting a fresh form with mismatched passwords shows the mismatch and sends nothing;
      a valid one sends exactly one request. */
  method SubmitOnce(password: string, confirmPassword: string, outcome: AuthOutcome)
    returns (calls: nat, shown: Option<string>)
    ensures password != confirmPassword ==> calls == 0 && shown == Some(PasswordMismatch)
    ensures password == confirmPassword && Utf16Length(password) >= 6 ==>
              calls == 1 && (shown.None? <==> outcome.Succeeded?)
  {
    var page := new RegisterPage();
    page.HandleSubmit(password, confirmPassword, outcome);
    calls := page.registerCalls;
    shown := page.error;
  }
}
