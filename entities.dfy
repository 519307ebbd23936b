/** The persisted records the credential flows read and write: the identity user
    (Entities/ApplicationUser.cs over the identity framework's user) and the
    refresh-token row. */
module Entities {

  /** An identity user. `roles` stands for the user's rows in the user-role table,
      in the order the store returns them; `passwordHash` is whatever the hasher produced. */
  datatype User = User(
    id: string,
    userName: string,
    email: string,
    fullName: string,
    passwordHash: string,
    emailConfirmed: bool,
    accessFailedCount: nat,
    roles: seq<string>,
    createdAt: int)

  /** A refresh-token row. Times are whole seconds. */
  datatype RefreshToken = RefreshToken(
    token: string,
    userId: string,
    expiresAt: int,
    isRevoked: bool,
    createdAt: int)

  /** The registration request (Contracts/Authentication/RegisterRequest.cs). */
  datatype RegisterRequest = RegisterRequest(
    fullName: string,
    email: string,
    password: string,
    confirmPassword: string)

  /** The reset-password request: email, the URL-encoded code, and the new password. */
  datatype ResetPasswordRequest = ResetPasswordRequest(
    email: string,
    code: string,
    newPassword: string)
}
