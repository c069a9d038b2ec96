/**
 * The registration form (src/screens/RegisterScreen.tsx): `handleRegister`
 * checks, in order, that every field is filled, that the terms are accepted
 * and that the passwords match, and only then calls `onRegister` with the
 * five values, holding `isLoading` while the call runs.
 */
module RegisterScreen {
  import opened Wrappers
  import opened Alerts

  /** The object passed to `onRegister`. */
  datatype UserData = UserData(name: string, email: string, phone: string, password: string, confirmPassword: string)

  const FillAllFields: string := "Please fill in all fields"
  const AgreeToTerms: string := "Please agree to the terms of service and privacy policy"
  const PasswordsDiffer: string := "Passwords do not match"
  const RegistrationFailed: string := "Registration failed. Please try again."

  /** Every field is non-empty. */
  predicate AllFilled(data: UserData) {
    data.name != "" && data.email != "" && data.phone != "" && data.password != "" && data.confirmPassword != ""
  }

  /**
   * The message of the first check that rejects the form, or `None` when the
   * form passes them all: an empty field is reported first, then the terms,
   * then a password mismatch.
   */
  function Rejection(data: UserData, agreeToTerms: bool): (r: Option<string>)
    ensures r.None? <==> AllFilled(data) && agreeToTerms && data.password == data.confirmPassword
    ensures r == Some(FillAllFields) <==> !AllFilled(data)
    ensures r == Some(AgreeToTerms) <==> AllFilled(data) && !agreeToTerms
    ensures r == Some(PasswordsDiffer) <==> AllFilled(data) && agreeToTerms && data.password != data.confirmPassword
  {
    if !AllFilled(data) then Some(FillAllFields)
    else if !agreeToTerms then Some(AgreeToTerms)
    else if data.password != data.confirmPassword then Some(PasswordsDiffer)
    else None
  }

  /** The form's state. The text inputs write the five string fields directly. */
  class RegisterForm {
    var name: string
    var email: string
    var phone: string
    var password: string
    var confirmPassword: string
    var showPassword: bool
    var showConfirmPassword: bool
    var isLoading: bool
    var agreeToTerms: bool

    function Entered(): UserData
      reads this
    {
      UserData(name, email, phone, password, confirmPassword)
    }

    constructor ()
      ensures Entered() == UserData("", "", "", "", "")
      ensures !showPassword && !showConfirmPassword && !isLoading && !agreeToTerms
    {
      name, email, phone, password, confirmPassword := "", "", "", "", "";
      showPassword, showConfirmPassword := false, false;
      isLoading, agreeToTerms := false, false;
    }

    /** The terms checkbox. */
    method ToggleTerms()
      modifies this`agreeToTerms
      ensures agreeToTerms == !old(agreeToTerms)
    {
      agreeToTerms := !agreeToTerms;
    }

    /**
     * `handleRegister`. Whether `onRegister` throws is the input
     * `registerThrows`; `submitted` is what it was called with, if it was
     * called, and `alert` the alert raised, if any.
     */
    method HandleRegister(registerThrows: bool) returns (submitted: Option<UserData>, alert: Option<Alert>)
      modifies this`isLoading
      ensures submitted.Some? <==> Rejection(Entered(), agreeToTerms).None?
      ensures submitted.Some? ==> submitted.value == Entered()
      ensures Rejection(Entered(), agreeToTerms).Some? ==>
                alert == Some(Error(Rejection(Entered(), agreeToTerms).value)) && isLoading == old(isLoading)
      ensures submitted.Some? ==> !isLoading && alert == (if registerThrows then Some(Error(RegistrationFailed)) else None)
    {
      if name == "" || email == "" || phone == "" || password == "" || confirmPassword == "" {
        return None, Some(Error(FillAllFields));
      }
      if !agreeToTerms {
        return None, Some(Error(AgreeToTerms));
      }
      if password != confirmPassword {
        return None, Some(Error(PasswordsDiffer));
      }
      isLoading := true;
      submitted := Some(UserData(name, email, phone, password, confirmPassword));
      alert := if registerThrows then Some(Error(RegistrationFailed)) else None;
      isLoading := false;
    }
  }
}
