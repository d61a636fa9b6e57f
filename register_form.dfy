/** The sign-up form: the password rules and the order in which submission is refused. */
module RegisterForm {

  /** `s` has a character in the range lo..hi (the page's `[A-Z]`, `[a-z]`, `[0-9]` tests). */
  function HasCharIn(s: string, lo: char, hi: char): (b: bool)
    ensures b <==> exists i :: 0 <= i < |s| && lo <= s[i] <= hi
  {
    if s == [] then false
    else if lo <= s[0] <= hi then true
    else
      var rest := HasCharIn(s[1..], lo, hi);
      assert forall i :: 1 <= i < |s| ==> s[i] == s[1..][i - 1];
      rest
  }

  /** The four password checks, each on its own, and their conjunction. */
  datatype PasswordCheck = PasswordCheck(
    minLength: bool, hasUppercase: bool, hasLowercase: bool, hasNumber: bool, isValid: bool)

  function ValidatePassword(password: string): (c: PasswordCheck)
    ensures c.minLength <==> |password| >= 8
    ensures c.hasUppercase <==> exists i :: 0 <= i < |password| && 'A' <= password[i] <= 'Z'
    ensures c.hasLowercase <==> exists i :: 0 <= i < |password| && 'a' <= password[i] <= 'z'
    ensures c.hasNumber <==> exists i :: 0 <= i < |password| && '0' <= password[i] <= '9'
    ensures c.isValid <==> c.minLength && c.hasUppercase && c.hasLowercase && c.hasNumber
  {
    var minLength := |password| >= 8;
    var hasUppercase := HasCharIn(password, 'A', 'Z');
    var hasLowercase := HasCharIn(password, 'a', 'z');
    var hasNumber := HasCharIn(password, '0', '9');
    PasswordCheck(minLength, hasUppercase, hasLowercase, hasNumber,
                  minLength && hasUppercase && hasLowercase && hasNumber)
  }

  /** What a submission does: show an error, or call the register service with the form. */
  datatype Submission =
    | ShowError(message: string)
    | CallRegister(fullName: string, email: string, password: string, role: string)

  const FillAllFields := "Please fill in all fields"
  const WeakPassword := "Please ensure your password meets all requirements"
  const Mismatch := "Passwords do not match"

  /** Every field of the form has been filled in. */
  predicate AllFilled(fullName: string, email: string, password: string, confirmPassword: string)
  {
    fullName != "" && email != "" && password != "" && confirmPassword != ""
  }

  /**
   * `handleSubmit`: an empty field first, then the password rules, then the confirmation;
   * the register call is made only when all three checks pass.
   */
  function HandleSubmit(fullName: string, email: string, password: string, confirmPassword: string,
                        role: string): (s: Submission)
    ensures !AllFilled(fullName, email, password, confirmPassword) ==> s == ShowError(FillAllFields)
    ensures AllFilled(fullName, email, password, confirmPassword) && !ValidatePassword(password).isValid ==>
              s == ShowError(WeakPassword)
    ensures (AllFilled(fullName, email, password, confirmPassword) && ValidatePassword(password).isValid
             && password != confirmPassword) ==> s == ShowError(Mismatch)
    ensures s.CallRegister? <==>
              AllFilled(fullName, email, password, confirmPassword)
              && ValidatePassword(password).isValid && password == confirmPassword
    ensures s.CallRegister? ==> s == CallRegister(fullName, email, password, role)
  {
    if !AllFilled(fullName, email, password, confirmPassword) then ShowError(FillAllFields)
    else if !ValidatePassword(password).isValid then ShowError(WeakPassword)
    else if password != confirmPassword then ShowError(Mismatch)
    else CallRegister(fullName, email, password, role)
  }

  /** The hint under the confirmation field. */
  function ShowMismatchHint(password: string, confirmPassword: string): (shown: bool)
    ensures shown <==> confirmPassword != "" && password != confirmPassword
  {
    confirmPassword != "" && password != confirmPassword
  }

  /**
   * Once every field is filled and the password meets the rules, the hint is shown exactly
   * when submitting would stop with "Passwords do not match"; a shown hint always means
   * submitting does not register.
   */
  lemma HintForecastsMismatch(fullName: string, email: string, password: string, confirmPassword: string,
                              role: string)
    ensures ShowMismatchHint(password, confirmPassword) ==>
              !HandleSubmit(fullName, email, password, confirmPassword, role).CallRegister?
    ensures AllFilled(fullName, email, password, confirmPassword) && ValidatePassword(password).isValid ==>
              (ShowMismatchHint(password, confirmPassword) <==>
               HandleSubmit(fullName, email, password, confirmPassword, role) == ShowError(Mismatch))
  {
  }

  /** A registered password has at least 8 characters and one of each required kind. */
  lemma RegisteredPasswordIsStrong(fullName: string, email: string, password: string, confirmPassword: string,
                                   role: string)
    requires HandleSubmit(fullName, email, password, confirmPassword, role).CallRegister?
    ensures |password| >= 8
    ensures exists i :: 0 <= i < |password| && 'A' <= password[i] <= 'Z'
    ensures exists i :: 0 <= i < |password| && 'a' <= password[i] <= 'z'
    ensures exists i :: 0 <= i < |password| && '0' <= password[i] <= '9'
  {
    var c := ValidatePassword(password);
  }

  /** "Password1" passes every rule; "password1" lacks an upper-case letter. */
  lemma ValidatePasswordExamples()
    ensures ValidatePassword("Password1").isValid
    ensures !ValidatePassword("password1").hasUppercase
  {
    assert "Password1"[0] == 'P' && "Password1"[1] == 'a' && "Password1"[8] == '1';
    assert forall i :: 0 <= i < 9 ==> !('A' <= "password1"[i] <= 'Z');
  }
}
