/** The rules a registration request must meet (Contracts/Authentication/RegisterRequestValidator.cs).
    Every rule runs, so a request can fail several at once; the email-format check is
    the validation library's own and is passed in as `isEmailAddress`. */
module RegisterValidation {
  import opened Entities
  import opened FluentRules

  const MaxFullNameLength: nat := 200
  const MinPasswordLength: nat := 8

  /** The rules, in the order the validator declares them. */
  datatype Rule =
    | FullNameNotEmpty | FullNameMaxLength
    | EmailNotEmpty | EmailAddress
    | PasswordNotEmpty | PasswordMinLength | PasswordUppercase | PasswordLowercase | PasswordDigit
    | ConfirmPasswordEqual

  function Check(ok: bool, rule: Rule): seq<Rule> {
    if ok then [] else [rule]
  }

  /** The failures of the password chain, in order. */
  function PasswordFailures(password: string): seq<Rule> {
    Check(NotEmpty(password), PasswordNotEmpty)
    + Check(MinimumLength(password, MinPasswordLength), PasswordMinLength)
    + Check(MatchesRange(password, 'A', 'Z'), PasswordUppercase)
    + Check(MatchesRange(password, 'a', 'z'), PasswordLowercase)
    + Check(MatchesRange(password, '0', '9'), PasswordDigit)
  }

  /** Every failing rule of the request, in declaration order. */
  function Failures(request: RegisterRequest, isEmailAddress: string -> bool): seq<Rule> {
    Check(NotEmpty(request.fullName), FullNameNotEmpty)
    + Check(MaximumLength(request.fullName, MaxFullNameLength), FullNameMaxLength)
    + Check(NotEmpty(request.email), EmailNotEmpty)
    + Check(isEmailAddress(request.email), EmailAddress)
    + PasswordFailures(request.password)
    + Check(request.confirmPassword == request.password, ConfirmPasswordEqual)
  }

  predicate IsValid(request: RegisterRequest, isEmailAddress: string -> bool) {
    Failures(request, isEmailAddress) == []
  }

  /** The password rules, stated directly: 8 or more characters, an ASCII upper-case letter,
      a lower-case letter and a digit (the non-blank rule then follows). */
  predicate StrongPassword(password: string) {
    && |password| >= 8
    && (exists i :: 0 <= i < |password| && 'A' <= password[i] <= 'Z')
    && (exists i :: 0 <= i < |password| && 'a' <= password[i] <= 'z')
    && (exists i :: 0 <= i < |password| && '0' <= password[i] <= '9')
  }

  lemma PasswordRule(password: string)
    ensures PasswordFailures(password) == [] <==> StrongPassword(password)
  {
    if StrongPassword(password) {
      var i :| 0 <= i < |password| && 'A' <= password[i] <= 'Z';
      assert !IsWhiteSpace(password[i]);
    }
  }

  /** A request is valid exactly when every rule holds. */
  lemma ValidIff(request: RegisterRequest, isEmailAddress: string -> bool)
    ensures IsValid(request, isEmailAddress) <==>
      && NotEmpty(request.fullName) && |request.fullName| <= 200
      && NotEmpty(request.email) && isEmailAddress(request.email)
      && StrongPassword(request.password)
      && request.confirmPassword == request.password
  {
    PasswordRule(request.password);
  }

  /** "Abcd1234" meets every password rule; "abcd1234" fails only the upper-case rule,
      and "Abcd12" only the length rule. */
  lemma PasswordExamples()
    ensures PasswordFailures("Abcd1234") == []
    ensures PasswordFailures("abcd1234") == [PasswordUppercase]
    ensures PasswordFailures("Abcd12") == [PasswordMinLength]
  {
    assert !IsWhiteSpace("Abcd1234"[0]) && 'A' <= "Abcd1234"[0] <= 'Z';
    assert 'a' <= "Abcd1234"[1] <= 'z' && '0' <= "Abcd1234"[4] <= '9';
    assert !IsWhiteSpace("abcd1234"[0]) && 'a' <= "abcd1234"[0] <= 'z' && '0' <= "abcd1234"[4] <= '9';
    assert !IsWhiteSpace("Abcd12"[0]) && 'A' <= "Abcd12"[0] <= 'Z';
    assert 'a' <= "Abcd12"[1] <= 'z' && '0' <= "Abcd12"[4] <= '9';
  }
}
