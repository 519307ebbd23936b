/** The rules a reset-password request must meet
    (Contracts/Authentication/ResetPasswordValidator.cs). */
module ResetPasswordValidation {
  import opened Entities
  import opened FluentRules
  import RegisterValidation

  const MinNewPasswordLength: nat := 8

  datatype Rule =
    | EmailNotEmpty | EmailAddress
    | CodeNotEmpty
    | NewPasswordNotEmpty | NewPasswordMinLength | NewPasswordUppercase | NewPasswordLowercase | NewPasswordDigit

  function Check(ok: bool, rule: Rule): seq<Rule> {
    if ok then [] else [rule]
  }

  function NewPasswordFailures(password: string): seq<Rule> {
    Check(NotEmpty(password), NewPasswordNotEmpty)
    + Check(MinimumLength(password, MinNewPasswordLength), NewPasswordMinLength)
    + Check(MatchesRange(password, 'A', 'Z'), NewPasswordUppercase)
    + Check(MatchesRange(password, 'a', 'z'), NewPasswordLowercase)
    + Check(MatchesRange(password, '0', '9'), NewPasswordDigit)
  }

  function Failures(request: ResetPasswordRequest, isEmailAddress: string -> bool): seq<Rule> {
    Check(NotEmpty(request.email), EmailNotEmpty)
    + Check(isEmailAddress(request.email), EmailAddress)
    + Check(NotEmpty(request.code), CodeNotEmpty)
    + NewPasswordFailures(request.newPassword)
  }

  predicate IsValid(request: ResetPasswordRequest, isEmailAddress: string -> bool) {
    Failures(request, isEmailAddress) == []
  }

  /** A request is valid exactly when every rule holds. */
  lemma ValidIff(request: ResetPasswordRequest, isEmailAddress: string -> bool)
    ensures IsValid(request, isEmailAddress) <==>
      && NotEmpty(request.email) && isEmailAddress(request.email)
      && NotEmpty(request.code)
      && RegisterValidation.StrongPassword(request.newPassword)
  {
    SamePasswordPolicy(request.newPassword);
    RegisterValidation.PasswordRule(request.newPassword);
  }

  /** The reset rule and the registration rule accept the same passwords, and a
      password fails the same checks under both. */
  lemma SamePasswordPolicy(password: string)
    ensures NewPasswordFailures(password) == [] <==> RegisterValidation.PasswordFailures(password) == []
    ensures |NewPasswordFailures(password)| == |RegisterValidation.PasswordFailures(password)|
  {
  }

  /** A tampered code is still a valid request as long as it is not blank: the
      validator checks only presence, and the code itself is judged by the identity store. */
  lemma CodeOnlyNeedsContent(email: string, code: string, newPassword: string, isEmailAddress: string -> bool)
    requires NotEmpty(email) && isEmailAddress(email) && RegisterValidation.StrongPassword(newPassword)
    ensures IsValid(ResetPasswordRequest(email, code, newPassword), isEmailAddress) <==> NotEmpty(code)
  {
    ValidIff(ResetPasswordRequest(email, code, newPassword), isEmailAddress);
  }
}
