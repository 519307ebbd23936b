/** The named errors of the user and credential flows (Errors/UserErrors.cs). */
module UserErrors {
  import opened Abstractions

  const NotFound: Error := NotFoundError("User.NotFound", "User was not found.")
  const DuplicateEmail: Error := ConflictError("User.DuplicateEmail", "A user with this email already exists.")
  const InvalidCredentials: Error := UnauthorizedError("User.InvalidCredentials", "Invalid email or password.")
  const EmailNotConfirmed: Error := UnauthorizedError("User.EmailNotConfirmed", "Email has not been confirmed.")
  const InvalidRefreshToken: Error :=
    UnauthorizedError("User.InvalidRefreshToken", "The refresh token is invalid or expired.")
  const LockedOut: Error :=
    UnauthorizedError("User.LockedOut", "This account has been locked out. Please try again later.")
  const InvalidResetToken: Error :=
    ValidationError("User.InvalidResetToken", "The password reset token is invalid or expired.")
  const RegistrationFailed: Error := ValidationError("User.RegistrationFailed", "User registration failed.")
  const ResetPasswordFailed: Error := ValidationError("User.ResetPasswordFailed", "Password reset failed.")
  const EmailConfirmationFailed: Error :=
    ValidationError("User.EmailConfirmationFailed", "Email confirmation failed.")

  /** All ten, in declaration order. */
  const All: seq<Error> := [NotFound, DuplicateEmail, InvalidCredentials, EmailNotConfirmed,
                            InvalidRefreshToken, LockedOut, InvalidResetToken, RegistrationFailed,
                            ResetPasswordFailed, EmailConfirmationFailed]

  /** The kind each named error carries. */
  lemma Kinds()
    ensures NotFound.kind == ErrorType.NotFound
    ensures DuplicateEmail.kind == ErrorType.Conflict
    ensures InvalidCredentials.kind == EmailNotConfirmed.kind == InvalidRefreshToken.kind
         == LockedOut.kind == ErrorType.Unauthorized
    ensures InvalidResetToken.kind == RegistrationFailed.kind == ResetPasswordFailed.kind
         == EmailConfirmationFailed.kind == ErrorType.Validation
  {
  }

  /** The length and sixth character of each code, in the order of `All`. */
  const Signatures: seq<(int, char)> :=
    [(13, 'N'), (19, 'D'), (23, 'I'), (22, 'E'), (24, 'I'), (14, 'L'), (22, 'I'), (23, 'R'), (24, 'R'), (28, 'E')]

  lemma SignaturesDistinct()
    ensures forall i, j :: 0 <= i < j < |Signatures| ==> Signatures[i] != Signatures[j]
  {
  }

  lemma CodeSignatures()
    ensures |All| == |Signatures|
    ensures forall k :: 0 <= k < |All| ==> |All[k].code| > 5 && (|All[k].code|, All[k].code[5]) == Signatures[k]
  {
  }

  lemma CodePrefixes()
    ensures forall k :: 0 <= k < |All| ==> |All[k].code| > 5 && All[k].code[..5] == "User."
  {
  }

  /** Every code starts with "User." and no two named errors share a code. */
  lemma CodesDistinctAndPrefixed()
    ensures |All| == 10
    ensures forall i :: 0 <= i < |All| ==> |All[i].code| > 5 && All[i].code[..5] == "User."
    ensures forall i, j :: 0 <= i < j < |All| ==> All[i].code != All[j].code
  {
    CodePrefixes();
    CodeSignatures();
    SignaturesDistinct();
    forall i, j | 0 <= i < j < |All| ensures All[i].code != All[j].code {
      assert Signatures[i] != Signatures[j];
    }
  }

  /** None of them is `Error.None`, so each can sit in a failure result. */
  lemma NoneIsNotNamed()
    ensures forall i :: 0 <= i < |All| ==> All[i].kind != ErrorType.None && All[i] != NoError
  {
  }
}
