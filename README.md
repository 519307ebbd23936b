# Almny credential and token lifecycle, in Dafny

This project models the authentication core of the Almny API and proves properties of it. The core includes:

- registration, login, refresh-token rotation, revocation, e-mail confirmation and password reset in `AuthService`;
- the signed access token's claim list;
- the role-to-permission table;
- the error taxonomy and its mapping to HTTP problem responses;
- the register and reset-password request validators;
- e-mail template filling;
- start-up role seeding.

Each source file becomes one module:

| file | module | form |
|---|---|---|
| `abstractions.dfy` | `Abstractions` | `Error`, `ErrorType`, the factories, `Result`/`Option` |
| `user_errors.dfy` | `UserErrors` | the ten named errors |
| `result_extensions.dfy` | `ResultExtensions` | `Match` and `ToProblemDetails` |
| `permissions.dfy` | `Permissions` | the permission table and its union |
| `entities.dfy` | `Entities` | the user, refresh-token row and request records |
| `jwt_provider.dfy` | `Jwt` | the class `JwtProvider`, whose `GenerateToken` builds the claim list in two loops |
| `fluent_rules.dfy`, `register_validator.dfy`, `reset_password_validator.dfy` | `FluentRules`, `RegisterValidation`, `ResetPasswordValidation` | the validation rules as predicates |
| `email_body_builder.dfy` | `EmailBodyBuilder` | the substitution loop `Build` and the ordinal `Replace` it uses |
| `seeding.dfy` | `Seeding` | the class `RoleStore` and the seeding loop |
| `refresh_token_ledger.dfy` | `RefreshTokenLedger` | the refresh-token table's queries and updates, as functions with their lemmas |
| `auth_service.dfy` | `Auth` | the class `AuthService` |

`AuthService` holds four pieces of state:

- the user map;
- the refresh-token sequence;
- an outbox of delivered mails;
- the set of GUIDs handed out so far.

It also holds, as a constant, the mail templates deployed with it, by file name.

Its invariant `Valid()` says five things:

- each user is stored under its own id;
- no two users share a normalised e-mail;
- every user id is a GUID the service has handed out;
- all refresh-token strings are distinct;
- a password checks against its own hash.

Every method that requires the invariant also ensures it. Every method that writes the token table also ensures `Evolves`: rows are only appended, and a row changes only from unrevoked to revoked.

A mail body is built from its template before sending is tried, outside the `try` that swallows send failures. A missing template therefore makes the operation throw: the `Threw` outcome of `Outcome`. Three consequences follow:

- `Register` throws after the account has been created and given its role, so the account exists without a session;
- `ForgotPassword` throws only for an existing account, so its answer then tells existing accounts from unknown ones;
- `ResendConfirmation` throws only for an existing, unconfirmed account.

Time is a whole number of seconds, passed as `now`; each operation reads the clock once. The identity framework's decisions are the fields of an `Identity` value:

- e-mail normalisation;
- password hashing and checking;
- the lockout predicate;
- acceptance of a new account;
- checking confirmation and reset codes;
- code generation;
- URL encoding and decoding.

A new GUID or refresh token is any string not used before, chosen with `:|`. Whether a mail reached the mail server is the `delivered` argument.

The attempt that reaches the lockout threshold is itself answered `InvalidCredentials`: `LoginAsync` checks the lockout before the password and, for a wrong password, records the failure and answers `InvalidCredentials` (Services/AuthService.cs:66-75). Only a later attempt sees `LockedOut`.

## Model

| member | source | states |
|---|---|---|
| Abstractions.FactoriesKeepFields | Almny.Api/Abstractions/Error.cs:7-20 | each factory keeps code and description and yields the kind it is named after |
| Abstractions.FactoriesNeverNone | Almny.Api/Abstractions/Error.cs:5-31 | no factory yields kind `None`, so no factory result equals `Error.None` (empty code, empty description, `None`) |
| Abstractions.FactoriesDistinguishKinds | Almny.Api/Abstractions/Error.cs:3-20 | two factory results with the same code and description are equal exactly when the factories are the same (record equality) |
| UserErrors.Kinds | Almny.Api/Errors/UserErrors.cs:7-35 | NotFound is NotFound; DuplicateEmail is Conflict; the four credential errors are Unauthorized; the four code and registration errors are Validation |
| UserErrors.CodesDistinctAndPrefixed | Almny.Api/Errors/UserErrors.cs:7-35 | ten errors, every code starts with "User.", no two codes are equal |
| UserErrors.NoneIsNotNamed | Almny.Api/Errors/UserErrors.cs:7-35 | no named error is `Error.None` or has kind `None` |
| ResultExtensions.Match | Almny.Api/Abstractions/ResultExtensions.cs:7-8 | the success continuation runs exactly when the result succeeded, otherwise the failure continuation receives the error |
| ResultExtensions.MatchValue | Almny.Api/Abstractions/ResultExtensions.cs:10-11 | as `Match`, with the success continuation receiving the value |
| ResultExtensions.ToProblemDetails | Almny.Api/Abstractions/ResultExtensions.cs:13-37 | a success throws and gives no response; a failure gives a response whose status is the status of its error kind, whose body status equals the response status, title is the error code and detail is the description; the status lies within 400..500 |
| ResultExtensions.StatusCodeClassifies | Almny.Api/Abstractions/ResultExtensions.cs:18-26 | every kind except `None` maps to a 4xx status, `None` maps to 500, different kinds map to different statuses |
| ResultExtensions.StatusTable | Almny.Api/Abstractions/ResultExtensions.cs:18-26 | Validation 400, NotFound 404, Conflict 409, Unauthorized 401, Forbidden 403, None 500 |
| ResultExtensions.UserErrorStatuses | Almny.Api/Abstractions/ResultExtensions.cs:13-37 | the credential errors answer 401 with their code and description, DuplicateEmail 409, NotFound 404, the code and registration errors 400 |
| Permissions.SelectMany | Almny.Api/Authentication/Permissions.cs:26-27 | a permission is in the concatenation exactly when some role's table entry holds it |
| Permissions.Distinct | Almny.Api/Authentication/Permissions.cs:27 | the result has no duplicates and the same members as the input |
| Permissions.GetPermissionsForRoles | Almny.Api/Authentication/Permissions.cs:26-27 | no duplicates, and p is in the result exactly when some role in the list has p in its entry |
| Permissions.RoleEntries | Almny.Api/Authentication/Permissions.cs:17-24 | Admin maps to [users:view, users:manage], User to [users:view], any other name to the empty list |
| Permissions.UnknownRolesAddNothing | Almny.Api/Authentication/Permissions.cs:23-27 | a role list with neither Admin nor User, including the empty list, grants no permission |
| Permissions.Monotone | Almny.Api/Authentication/Permissions.cs:26-27 | adding roles never removes a permission |
| Permissions.SameRolesSamePermissions | Almny.Api/Authentication/Permissions.cs:26-27 | role lists with the same members grant the same permissions |
| Permissions.SelectManyPlatformRoles | Almny.Api/Authentication/Permissions.cs:19-27 | the concatenated entries of [User] and of [Admin, User] |
| Permissions.DistinctPlatformEntries | Almny.Api/Authentication/Permissions.cs:27 | deduplication keeps the first "users:view" and drops the repeat |
| Permissions.AdminAndUser | Almny.Api/Authentication/Permissions.cs:19-27 | [Admin, User] grants [users:view, users:manage], [User] grants [users:view], and the first covers the second |
| Jwt.Int32 | Almny.Api/Authentication/JwtProvider.cs:46 | the product wrapped as unchecked C# `int` arithmetic wraps it: in the 32-bit range and congruent to the exact value |
| Jwt.Int32InRange | Almny.Api/Authentication/JwtProvider.cs:46 | a value already in the 32-bit range is not changed by the wrap |
| Jwt.Tagged | Almny.Api/Authentication/JwtProvider.cs:27-31 | one claim of the given type per value, same length, same order |
| Jwt.ValuesOfAppend | Almny.Api/Authentication/JwtProvider.cs:19-31 | reading the claims of one type distributes over concatenation |
| Jwt.ValuesOfTagged | Almny.Api/Authentication/JwtProvider.cs:27-31 | reading back a run of tagged claims gives its values for its own type and nothing for any other type |
| Jwt.ClaimTypesDistinct | Almny.Api/Authentication/JwtProvider.cs:21-31 | the six claim types sub, email, jti, fullName, role and permission are pairwise different |
| Jwt.ValuesOfSingle | Almny.Api/Authentication/JwtProvider.cs:19-31 | a single claim reads back as its value for its own type only |
| Jwt.IdentityClaimsOfType | Almny.Api/Authentication/JwtProvider.cs:19-25 | reading the four leading claims by type gives the value of each claim of that type |
| Jwt.ClaimsOfType | Almny.Api/Authentication/JwtProvider.cs:19-31 | read by type, the claim list splits into the identity claims, the roles and the permissions |
| Jwt.ClaimsLayout | Almny.Api/Authentication/JwtProvider.cs:19-31 | 4 + roles + permissions claims; sub, email, jti, fullName first; role k at 4+k; permission k after all roles |
| Jwt.ClaimsByType | Almny.Api/Authentication/JwtProvider.cs:19-31 | exactly one sub, email, jti and fullName claim; the role claims give the roles in order; the permission claims give the permissions in order |
| Jwt.JwtProvider.GenerateToken | Almny.Api/Authentication/JwtProvider.cs:17-47 | the two loops build exactly that claim list; issuer and audience come from the options; expiry is now plus the configured minutes; ExpiresIn is the minutes times 60 as a 32-bit int |
| Jwt.ExpiresInIsLifetime | Almny.Api/Authentication/JwtProvider.cs:46 | when minutes times 60 fits in 32 bits, ExpiresIn equals it |
| FluentRules.NotEmptyIsNonEmpty | Almny.Api/Contracts/Authentication/RegisterRequestValidator.cs:8 | a string passes NotEmpty exactly when it has a character that is not white space; so a passing string is non-empty, and the empty and blank strings fail |
| RegisterValidation.PasswordRule | Almny.Api/Contracts/Authentication/RegisterRequestValidator.cs:15-20 | the password chain passes exactly for 8+ characters with an ASCII upper-case letter, a lower-case letter and a digit |
| RegisterValidation.ValidIff | Almny.Api/Contracts/Authentication/RegisterRequestValidator.cs:7-24 | a request is valid exactly when the full name is non-blank and at most 200 characters, the e-mail is non-blank and well-formed, the password is strong, and the confirmation equals it |
| RegisterValidation.PasswordExamples | Almny.Api/Contracts/Authentication/RegisterRequestValidator.cs:15-20 | "Abcd1234" passes; "abcd1234" fails only the upper-case rule; "Abcd12" fails only the length rule |
| ResetPasswordValidation.ValidIff | Almny.Api/Contracts/Authentication/ResetPasswordValidator.cs:7-19 | a request is valid exactly when the e-mail is non-blank and well-formed, the code is non-blank and the new password is strong |
| ResetPasswordValidation.SamePasswordPolicy | Almny.Api/Contracts/Authentication/ResetPasswordValidator.cs:14-19 | a password passes the reset chain exactly when it passes the registration chain, and fails equally many rules |
| ResetPasswordValidation.CodeOnlyNeedsContent | Almny.Api/Contracts/Authentication/ResetPasswordValidator.cs:11-12 | with a valid e-mail and a strong password, a request is valid exactly when the code is non-blank, whatever its content |
| EmailBodyBuilder.Token | Almny.Api/Helpers/EmailBodyBuilder.cs:17 | the placeholder for key K is "{{", then K, then "}}" |
| EmailBodyBuilder.OccursInTail | Almny.Api/Helpers/EmailBodyBuilder.cs:17 | an occurrence in the tail is an occurrence one position further in the whole |
| EmailBodyBuilder.ReplaceAbsent | Almny.Api/Helpers/EmailBodyBuilder.cs:17 | a text without the placeholder is not changed |
| EmailBodyBuilder.ReplaceSkip | Almny.Api/Helpers/EmailBodyBuilder.cs:17 | where the pattern does not start, the first character is kept and replacing goes on after it |
| EmailBodyBuilder.ReplaceAtFirst | Almny.Api/Helpers/EmailBodyBuilder.cs:17 | the text before the first occurrence is kept, that occurrence becomes the value, and replacing continues after it, so every occurrence is replaced |
| EmailBodyBuilder.ApplyAllLast | Almny.Api/Helpers/EmailBodyBuilder.cs:15-18 | each placeholder acts on the result of all earlier ones |
| EmailBodyBuilder.ApplyAllUntouched | Almny.Api/Helpers/EmailBodyBuilder.cs:13-20 | a template mentioning none of the placeholders, for example with an empty dictionary, comes back unchanged |
| EmailBodyBuilder.Build | Almny.Api/Helpers/EmailBodyBuilder.cs:5-21 | a missing template is a not-found failure and gives no body; otherwise the body is the template with every placeholder applied in order |
| Seeding.RoleStore.RoleExists | Almny.Api/Extensions/SeedingExtensions.cs:14 | true exactly when the role is in the store |
| Seeding.RoleStore.Create | Almny.Api/Extensions/SeedingExtensions.cs:15 | appends the role and changes nothing else |
| Seeding.SeedRoles | Almny.Api/Extensions/SeedingExtensions.cs:5-17 | the loop leaves the store as `SeedAll` over [Admin, User] says |
| Seeding.SeedAllAppends | Almny.Api/Extensions/SeedingExtensions.cs:12-16 | seeding keeps every earlier role in place, makes every seeded role present, and adds only seeded roles |
| Seeding.SeedAllNoDuplicates | Almny.Api/Extensions/SeedingExtensions.cs:14-15 | a role that exists is not created again, so a store without repeats keeps none |
| Seeding.SeedAllPresent | Almny.Api/Extensions/SeedingExtensions.cs:14-15 | when every role exists, seeding creates nothing |
| Seeding.Idempotent | Almny.Api/Extensions/SeedingExtensions.cs:12-16 | seeding twice gives the store seeding once gave |
| Seeding.SeedingOutcome | Almny.Api/Extensions/SeedingExtensions.cs:10-16 | afterwards Admin and User exist, earlier roles are untouched, and nothing else was added |
| RefreshTokenLedger.FirstMatch | Almny.Api/Services/AuthService.cs:87-90 | the position of the first row matching the query, or none exactly when no row matches |
| RefreshTokenLedger.RevokedStaysRevoked | Almny.Api/Services/AuthService.cs:174-188 | in any later state of the table, a revoked row is still there and still revoked |
| RefreshTokenLedger.EvolvesTransitive | Almny.Api/Services/AuthService.cs:85-104 | a later state of a later state is a later state |
| RefreshTokenLedger.RevokeAndIssueEvolve | Almny.Api/Services/AuthService.cs:100-103 | revoking a row and appending a row both give later states |
| RefreshTokenLedger.RevokeKeepsTokens | Almny.Api/Services/AuthService.cs:184-185 | revoking keeps the set of token strings, so it keeps them distinct |
| RefreshTokenLedger.IssueKeepsUnique | Almny.Api/Services/AuthService.cs:230-242 | appending a row with a new token keeps all tokens distinct and adds exactly that token |
| RefreshTokenLedger.AtMostOneLive | Almny.Api/Services/AuthService.cs:87-90 | with distinct tokens, at most one row is live for a token string at any time |
| RefreshTokenLedger.SpentAfterRevoke | Almny.Api/Services/AuthService.cs:176-185 | once its row is revoked, a token is found neither by refresh, at any time, nor by revoke, for any owner |
| RefreshTokenLedger.SpentAfterRotation | Almny.Api/Services/AuthService.cs:87-103 | after rotation, the presented token is found neither by refresh, at any later time, nor by revoke |
| RefreshTokenLedger.RevokeIgnoresExpiry | Almny.Api/Services/AuthService.cs:176-179 | in a table with distinct tokens, an expired, unrevoked row is refused by refresh but is the row revoke finds for its owner |
| RefreshTokenLedger.IssuedLifetime | Almny.Api/Services/AuthService.cs:230-242 | a row issued at `now` is live exactly until now plus 14 days, and its owner can revoke it |
| Auth.LoginRevealsLittle | Almny.Api/Services/AuthService.cs:61-78 | an unknown e-mail and a wrong password give the same error; lockout is reported before the password is looked at; "not confirmed" is reported only after the right password; success needs all four checks |
| Auth.UnusedStringExists | Almny.Api/Services/AuthService.cs:190-196 | a string outside any finite set exists, so a fresh GUID or token can always be drawn |
| Auth.UpdateKeepsStore | Almny.Api/Services/AuthService.cs:69-83 | updating a user without changing id or e-mail keeps the store consistent |
| Auth.AddKeepsStore | Almny.Api/Services/AuthService.cs:44-52 | adding a user under a new id with an e-mail no stored user has keeps every user under its own id and all normalised e-mails distinct |
| Auth.AuthService.Account | Almny.Api/Services/UserService.cs:17-20 | the stored user whose normalised e-mail is that of the argument, if there is one |
| Auth.AuthService.FindByEmail | Almny.Api/Services/UserService.cs:17-20 | the lookup finds exactly that user |
| Auth.AuthService.NewGuid | Almny.Api/Authentication/JwtProvider.cs:23 | the identifier was not handed out before, and it is recorded |
| Auth.AuthService.GenerateRefreshToken | Almny.Api/Services/AuthService.cs:190-196 | the token is not yet in the table |
| Auth.AuthService.SaveRefreshToken | Almny.Api/Services/AuthService.cs:230-242 | appends one live row for the user, expiring 14 days after `now`; the table only grows and nothing else changes |
| Auth.AuthService.GenerateAuthResponse | Almny.Api/Services/AuthService.cs:198-209 | the token carries the user's roles and their permissions with a fresh jti; ExpiresIn is the configured lifetime; exactly one new row holds the new refresh token |
| Auth.AuthService.SendConfirmationEmail | Almny.Api/Services/AuthService.cs:211-228 | a missing confirmation template throws and sends nothing; otherwise a delivered mail goes to the user with the confirmation link and the filled template, and a failed send changes nothing and raises nothing |
| Auth.AuthService.Register | Almny.Api/Services/AuthService.cs:39-57 | a taken e-mail gives DuplicateEmail and changes nothing; a refused account gives RegistrationFailed and adds no user, row or mail; otherwise a new user with a fresh id, user name = e-mail, the hashed password and role User; then a missing confirmation template throws with that user stored and no mail or row, and otherwise a confirmation mail if delivered and a session with exactly one new row |
| Auth.AuthService.Login | Almny.Api/Services/AuthService.cs:59-83 | the error follows the check order; a wrong password adds one failed access and nothing else; success clears the count and opens a session; the other outcomes change nothing |
| Auth.AuthService.Refresh | Almny.Api/Services/AuthService.cs:85-104 | no live row: InvalidRefreshToken and nothing changes; owner gone: NotFound and nothing changes; otherwise the row is revoked, a session opened for its owner, and the presented token is spent |
| Auth.AuthService.ConfirmEmail | Almny.Api/Services/AuthService.cs:106-118 | unknown id: NotFound; refused code: EmailConfirmationFailed; otherwise only that user's confirmed flag is set |
| Auth.AuthService.ForgotPassword | Almny.Api/Services/AuthService.cs:120-144 | the same success message for an unknown e-mail and, when the reset template is deployed, for an existing one; a missing template throws for an existing account only; a reset mail only for an existing account, with the template, and only if delivered |
| Auth.AuthService.ResetPassword | Almny.Api/Services/AuthService.cs:146-160 | an unknown e-mail and a refused code both give InvalidResetToken and change nothing; success replaces only that user's hash, and the new password then checks |
| Auth.AuthService.ResendConfirmation | Almny.Api/Services/AuthService.cs:162-172 | a success for an unknown or confirmed account; for an unconfirmed one, a missing template throws, otherwise a success and a mail if delivered |
| Auth.AuthService.RevokeRefreshToken | Almny.Api/Services/AuthService.cs:174-188 | no unrevoked row of that owner: InvalidRefreshToken and nothing changes; otherwise only that row is revoked, whatever its expiry, and the token can no longer be refreshed |
| Auth.RefreshReplayRefused | Almny.Api/Services/AuthService.cs:85-104 | a token that was exchanged once is refused with InvalidRefreshToken when presented again, at any time |
| Auth.RevokedTokenRefused | Almny.Api/Services/AuthService.cs:174-188 | after a successful revoke, refreshing with that token is refused |

## Left out

- HTTP routing, controllers, the validation filter and dependency-injection wiring: framework plumbing with no logic of this core.
- Signing and serialising the access token with HMAC-SHA256 (section 3.2 of RFC 7518). The token is modelled as its unsigned content.
- The random bytes of `GenerateRefreshToken`, their base64 text, and `Guid.NewGuid`. They are modelled as strings never used before. A random collision is not modelled.
- The identity framework's internals are opaque functions of an `Identity` value:
  - password hashing, including salting;
  - the lockout threshold and window;
  - account acceptance, including its own password rules;
  - confirmation and reset codes, and their expiry;
  - e-mail and role-name normalisation.
- Auth.AuthService.Login: the lockout transition inside `AccessFailedAsync` is not modelled. The counter only increments, and lockout is the opaque `isLockedOut` predicate on the user.
- Auth.AuthService.Register: `AddToRoleAsync` is taken to succeed, since the source ignores its result.
- Mail delivery. Sending is a `delivered` flag, and a failed send is logged and swallowed. Reading the template files from disk is not modelled: the deployed templates are a map from file name to text.
- The log messages: they have no effect on the state.
- Concurrency. The read-then-write of refresh rotation is modelled as one atomic step.
- A request's time is one clock reading per operation. The source reads `DateTime.UtcNow` separately for the expiry and the creation time of a row, which may differ by a tick.
- `null` strings and UTF-16 code units: strings are sequences of characters.
- The e-mail format check of the validation library is an opaque predicate `isEmailAddress`.
- `UserErrors.ResetPasswordFailed` is declared in the source but returned by no operation. It is modelled only as a constant.
- EmailBodyBuilder.Build: the template directory is a map from name to text; reading the file is not modelled.
- Permissions.Distinct: the contract states the members and the absence of repeats, not in general that the first occurrences are kept in order; that order is proved only for the platform roles, in `Permissions.AdminAndUser`.
- Seeding.RoleStore: the role manager's name normalisation and the role ids are not modelled.
