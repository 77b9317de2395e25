/** The sign-up form's submit handler. The `signup` function of the
    authentication context is a parameter: absent, resolving or rejecting. */
module SignupPage {
  import opened Util

  const PasswordsDoNotMatch: string := "Passwords do not match"
  const SignupFailed: string := "Failed to create an account"
  const DashboardPath: string := "/dashboard"

  datatype SignupFunction = NoSignupFunction | SignupResolves | SignupRejects

  class SignupForm {
    var name: string
    var email: string
    var password: string
    var confirmPassword: string
    var error: string
    var loading: bool

    constructor ()
      ensures name == "" && email == "" && password == "" && confirmPassword == ""
      ensures error == "" && !loading
    {
      name, email, password, confirmPassword := "", "", "", "";
      error := "";
      loading := false;
    }

    /** `handleSubmit`. Mismatched passwords only set the mismatch error:
        nothing is called, nothing navigates and loading is not touched.
        Otherwise loading is switched on, `signup(email, password, name)` is
        called when it exists, a resolved call navigates to the dashboard
        with the error cleared, a missing or rejected one sets the failure
        error, and loading ends false. */
    method HandleSubmit(signup: SignupFunction) returns (called: Option<(string, string, string)>, navigatedTo: Option<string>)
      modifies this
      ensures name == old(name) && email == old(email)
      ensures password == old(password) && confirmPassword == old(confirmPassword)
      ensures password != confirmPassword ==>
        error == PasswordsDoNotMatch && loading == old(loading) && called.None? && navigatedTo.None?
      ensures password == confirmPassword ==>
        && !loading
        && called == (if signup.NoSignupFunction? then None else Some((email, password, name)))
        && (navigatedTo.Some? <==> signup.SignupResolves?)
        && (navigatedTo.Some? ==> navigatedTo.value == DashboardPath)
        && error == (if signup.SignupResolves? then "" else SignupFailed)
    {
      called, navigatedTo := None, None;
      error := "";
      if password != confirmPassword {
        error := PasswordsDoNotMatch;
        return;
      }
      error := "";
      loading := true;
      if signup.NoSignupFunction? {
        error := SignupFailed;
      } else {
        called := Some((email, password, name));
        if signup.SignupResolves? {
          navigatedTo := Some(DashboardPath);
        } else {
          error := SignupFailed;
        }
      }
      loading := false;
    }
  }
}
