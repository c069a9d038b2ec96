/**
 * The login form (src/screens/LoginScreen.tsx): `handleLogin` rejects an
 * empty email or password and otherwise calls `onLogin(email, password)`,
 * holding `isLoading` while the call runs. The name field is shown but never
 * checked or sent.
 */
module LoginScreen {
  import opened Wrappers
  import opened Alerts

  const FillAllFields: string := "Please fill in all fields"
  const LoginFailed: string := "Login failed. Please try again."

  /** The arguments of `onLogin`. */
  datatype Credentials = Credentials(email: string, password: string)

  /** The message `handleLogin` rejects the form with, or `None` when it goes on to `onLogin`. */
  function Rejection(email: string, password: string): (r: Option<string>)
    ensures r.None? <==> email != "" && password != ""
    ensures r.Some? ==> r.value == FillAllFields
  {
    if email == "" || password == "" then Some(FillAllFields) else None
  }

  /** The form's state. The text inputs write the string fields directly. */
  class LoginForm {
    var email: string
    var password: string
    var name: string
    var showPassword: bool
    var isLoading: bool

    constructor ()
      ensures email == "" && password == "" && name == "" && !showPassword && !isLoading
    {
      email, password, name := "", "", "";
      showPassword, isLoading := false, false;
    }

    /** The eye icon next to the password. */
    method TogglePasswordVisibility()
      modifies this`showPassword
      ensures showPassword == !old(showPassword)
    {
      showPassword := !showPassword;
    }

    /**
     * `handleLogin`. Whether `onLogin` throws is the input `loginThrows`;
     * `submitted` is what it was called with, if it was called.
     */
    method HandleLogin(loginThrows: bool) returns (submitted: Option<Credentials>, alert: Option<Alert>)
      modifies this`isLoading
      ensures submitted.Some? <==> Rejection(email, password).None?
      ensures submitted.Some? ==> submitted.value == Credentials(email, password)
      ensures submitted.None? ==> alert == Some(Error(FillAllFields)) && isLoading == old(isLoading)
      ensures submitted.Some? ==> !isLoading && alert == (if loginThrows then Some(Error(LoginFailed)) else None)
    {
      if email == "" || password == "" {
        return None, Some(Error(FillAllFields));
      }
      isLoading := true;
      submitted := Some(Credentials(email, password));
      alert := if loginThrows then Some(Error(LoginFailed)) else None;
      isLoading := false;
    }
  }
}
