/** The credential flows of Services/AuthService.cs: registration, login, refresh-token
    rotation, e-mail confirmation, password reset and revocation.

    The service's world is held in one object: the identity store's users (keyed by id),
    the refresh-token table, the outbox of mails that reached the mail server, and the
    identifiers the GUID generator has handed out. What the identity framework decides
    on its own (normalising e-mails, hashing and checking passwords, lockout, accepting a
    new account, confirmation and reset codes, URL encoding) is given by an `Identity`
    value. Each operation reads the clock once, as `now` in whole seconds; whether the
    mail server accepted a mail is the `delivered` argument. The mail templates are the
    files deployed next to the service; a missing one makes the operation that builds a
    mail throw, which is the `Threw` outcome. */
module Auth {
  import opened Abstractions
  import opened Entities
  import UserErrors
  import Permissions
  import opened Jwt
  import opened RefreshTokenLedger
  import EmailBodyBuilder

  /** Contracts/Authentication/AuthResponse.cs. */
  datatype AuthResponse = AuthResponse(token: SecurityToken, expiresIn: int, refreshToken: string)

  /** A mail as the service sends it: recipient, subject, the link it carries (which is
      also what is logged when sending fails) and the filled-in template. */
  datatype Mail = Mail(to: string, subject: string, link: string, body: string)

  /** How an operation ended: it returned, or `EmailBodyBuilder.Build` threw
      `FileNotFoundException` for the named template. */
  datatype Outcome<T> = Returned(result: T) | Threw(missingTemplate: string)

  const ConfirmationTemplate := "confirmation-email.html"
  const ResetTemplate := "reset-password.html"

  const ForgotPasswordMessage := "If the email exists, a reset link has been sent."
  const ResetPasswordMessage := "Password has been reset successfully."
  const ConfirmSubject := "Confirm your email"
  const ResetSubject := "Reset your password"

  /** The identity framework's own decisions, as the service sees them. */
  datatype Identity = Identity(
    normalize: string -> string,
    hashPassword: string -> string,
    checkPassword: (string, string) -> bool,
    isLockedOut: (User, int) -> bool,
    acceptsNewUser: (User, string) -> bool,
    confirmEmail: (User, string) -> bool,
    resetPassword: (User, string, string) -> bool,
    emailConfirmationCode: User -> string,
    passwordResetCode: User -> string,
    urlEncode: string -> string,
    urlDecode: string -> string)

  /** The hasher's promise: a password checks against its own hash. */
  ghost predicate HasherSound(identity: Identity) {
    forall p :: identity.checkPassword(identity.hashPassword(p), p)
  }

  /** Every user is stored under its own id. */
  ghost predicate IdsMatch(users: map<string, User>) {
    forall id :: id in users ==> users[id].id == id
  }

  /** No two users share a normalised e-mail. */
  ghost predicate EmailsUnique(normalize: string -> string, users: map<string, User>) {
    forall a, b :: a in users && b in users && a != b ==> normalize(users[a].email) != normalize(users[b].email)
  }

  /** The account the mapping builds from a registration request: user name and e-mail
      are the request's e-mail, nothing confirmed, no roles yet. */
  function Applicant(id: string, request: RegisterRequest, now: int): User {
    User(id, request.email, request.email, request.fullName, "", false, 0, [], now)
  }

  /** The account once created with its password and given the User role. */
  function Member(identity: Identity, id: string, request: RegisterRequest, now: int): User {
    Applicant(id, request, now).(passwordHash := identity.hashPassword(request.password), roles := [Permissions.User])
  }

  /** The confirmation link carries the user id and the URL-encoded code. */
  function ConfirmationLink(identity: Identity, user: User, baseUrl: string): string {
    baseUrl + "/api/auth/confirm-email?userId=" + user.id
    + "&code=" + identity.urlEncode(identity.emailConfirmationCode(user))
  }

  /** The reset link carries the URL-encoded e-mail and code. */
  function ResetLink(identity: Identity, user: User, baseUrl: string): string {
    baseUrl + "/api/auth/reset-password?email=" + identity.urlEncode(user.email)
    + "&code=" + identity.urlEncode(identity.passwordResetCode(user))
  }

  /** `BuildConfirmationEmail`'s dictionary, in insertion order. */
  function ConfirmationPlaceholders(user: User, link: string): seq<(string, string)> {
    [("FullName", user.fullName), ("ConfirmationLink", link)]
  }

  /** `BuildResetPasswordEmail`'s dictionary, in insertion order. */
  function ResetPlaceholders(user: User, link: string): seq<(string, string)> {
    [("FullName", user.fullName), ("ResetLink", link)]
  }

  /** The confirmation mail, its body filled from the deployed template. */
  function ConfirmationMail(identity: Identity, templates: map<string, string>, user: User, baseUrl: string): Mail
    requires ConfirmationTemplate in templates
  {
    var link := ConfirmationLink(identity, user, baseUrl);
    Mail(user.email, ConfirmSubject, link,
         EmailBodyBuilder.ApplyAll(templates[ConfirmationTemplate], ConfirmationPlaceholders(user, link)))
  }

  /** The reset mail, its body filled from the deployed template. */
  function ResetMail(identity: Identity, templates: map<string, string>, user: User, baseUrl: string): Mail
    requires ResetTemplate in templates
  {
    var link := ResetLink(identity, user, baseUrl);
    Mail(user.email, ResetSubject, link,
         EmailBodyBuilder.ApplyAll(templates[ResetTemplate], ResetPlaceholders(user, link)))
  }

  /** What `GenerateAuthResponseAsync` produced for `user` at `now`, with token
      identifier `jti`: the signed token's content, its lifetime, and one new row for a
      refresh token that was not in the table before. */
  ghost predicate Issues(jwt: JwtProvider, user: User, now: int, jti: string, response: AuthResponse,
                         before: seq<RefreshToken>, after: seq<RefreshToken>)
  {
    && response.token == jwt.TokenFor(user, user.roles, Permissions.GetPermissionsForRoles(user.roles), jti, now)
    && response.expiresIn == Int32(jwt.options.expiryInMinutes * SecondsPerMinute)
    && response.refreshToken !in Tokens(before)
    && after == before + [Issued(response.refreshToken, user.id, now)]
  }

  /** The checks of `LoginAsync`, in the order it makes them. */
  datatype LoginCheck = NoSuchUser | Locked | WrongPassword | Unconfirmed | Accepted

  function CheckLogin(identity: Identity, account: Option<User>, password: string, now: int): LoginCheck {
    if account.Nothing? then NoSuchUser
    else if identity.isLockedOut(account.value, now) then Locked
    else if !identity.checkPassword(account.value.passwordHash, password) then WrongPassword
    else if !account.value.emailConfirmed then Unconfirmed
    else Accepted
  }

  function LoginError(check: LoginCheck): Error
    requires check != Accepted
  {
    match check
    case NoSuchUser => UserErrors.InvalidCredentials
    case Locked => UserErrors.LockedOut
    case WrongPassword => UserErrors.InvalidCredentials
    case Unconfirmed => UserErrors.EmailNotConfirmed
  }

  /** Login does not tell an unknown e-mail from a wrong password; it refuses a locked
      account before looking at the password; and it says an e-mail is unconfirmed only
      to a caller who knows the password. */
  lemma LoginRevealsLittle(identity: Identity, account: Option<User>, password: string, now: int)
    ensures account.Nothing? ==> LoginError(CheckLogin(identity, account, password, now)) == UserErrors.InvalidCredentials
    ensures account.Some? && !identity.isLockedOut(account.value, now) && !identity.checkPassword(account.value.passwordHash, password)
            ==> LoginError(CheckLogin(identity, account, password, now)) == UserErrors.InvalidCredentials
    ensures account.Some? && identity.isLockedOut(account.value, now)
            ==> LoginError(CheckLogin(identity, account, password, now)) == UserErrors.LockedOut
    ensures CheckLogin(identity, account, password, now) == Unconfirmed
            ==> account.Some? && identity.checkPassword(account.value.passwordHash, password)
    ensures CheckLogin(identity, account, password, now) == Accepted
            <==> account.Some? && !identity.isLockedOut(account.value, now)
                 && identity.checkPassword(account.value.passwordHash, password) && account.value.emailConfirmed
  {
  }

  ghost function MaxLength(strings: set<string>): (m: nat)
    ensures forall s :: s in strings ==> |s| <= m
    decreases strings
  {
    if strings == {} then 0
    else
      var s :| s in strings;
      var rest := MaxLength(strings - {s});
      if |s| > rest then |s| else rest
  }

  /** Some string is outside any finite set: a fresh GUID or random token always exists. */
  lemma UnusedStringExists(used: set<string>)
    ensures exists s: string :: s !in used
  {
    var s := seq(MaxLength(used) + 1, _ => 'x');
    assert s !in used;
  }

  /** Replacing a user by one with the same id and e-mail keeps the store consistent. */
  lemma UpdateKeepsStore(normalize: string -> string, users: map<string, User>, id: string, user: User)
    requires IdsMatch(users) && EmailsUnique(normalize, users)
    requires id in users && user.id == id && user.email == users[id].email
    ensures IdsMatch(users[id := user]) && EmailsUnique(normalize, users[id := user])
  {
  }

  /** Adding a user under a new id, with an e-mail no stored user has, keeps the store consistent. */
  lemma AddKeepsStore(normalize: string -> string, users: map<string, User>, user: User)
    requires IdsMatch(users) && EmailsUnique(normalize, users) && user.id !in users
    requires forall id :: id in users ==> normalize(users[id].email) != normalize(user.email)
    ensures IdsMatch(users[user.id := user]) && EmailsUnique(normalize, users[user.id := user])
  {
  }

  class AuthService {
    const identity: Identity
    const jwt: JwtProvider
    /** The deployed mail templates, by file name. */
    const templates: map<string, string>
    var users: map<string, User>
    var refreshTokens: seq<RefreshToken>
    var sentMails: seq<Mail>
    /** The identifiers handed out by the GUID generator so far. */
    var guids: set<string>

    ghost predicate Valid()
      reads this
    {
      && IdsMatch(users)
      && EmailsUnique(identity.normalize, users)
      && users.Keys <= guids
      && UniqueTokens(refreshTokens)
      && HasherSound(identity)
    }

    constructor(identity: Identity, jwt: JwtProvider, templates: map<string, string>,
                users: map<string, User>, refreshTokens: seq<RefreshToken>)
      requires IdsMatch(users) && EmailsUnique(identity.normalize, users)
      requires UniqueTokens(refreshTokens) && HasherSound(identity)
      ensures Valid()
      ensures this.identity == identity && this.jwt == jwt && this.templates == templates
      ensures this.users == users && this.refreshTokens == refreshTokens
      ensures sentMails == [] && guids == users.Keys
    {
      this.identity := identity;
      this.jwt := jwt;
      this.templates := templates;
      this.users := users;
      this.refreshTokens := refreshTokens;
      sentMails := [];
      guids := users.Keys;
    }

    /** The account whose normalised e-mail is that of `email`, if there is one. */
    ghost function Account(email: string): (found: Option<User>)
      requires IdsMatch(users)
      reads this
      ensures found.Some? ==> found.value.id in users && users[found.value.id] == found.value
      ensures found.Some? ==> identity.normalize(found.value.email) == identity.normalize(email)
      ensures found.Nothing? <==> forall id :: id in users ==> identity.normalize(users[id].email) != identity.normalize(email)
    {
      if exists id :: id in users && identity.normalize(users[id].email) == identity.normalize(email) then
        var id :| id in users && identity.normalize(users[id].email) == identity.normalize(email);
        Some(users[id])
      else
        Nothing
    }

    /** `FindByEmailAsync`. */
    method FindByEmail(email: string) returns (found: Option<User>)
      requires Valid()
      ensures found == Account(email)
    {
      if id :| id in users && identity.normalize(users[id].email) == identity.normalize(email) {
        found := Some(users[id]);
        assert Account(email).Some?;
      } else {
        found := Nothing;
      }
    }

    /** `Guid.NewGuid()`: an identifier not handed out before. */
    method NewGuid() returns (guid: string)
      modifies this`guids
      ensures guid !in old(guids) && guids == old(guids) + {guid}
    {
      UnusedStringExists(guids);
      guid :| guid !in guids;
      guids := guids + {guid};
    }

    /** `GenerateRefreshToken`: 64 random bytes; here, a token not yet in the table. */
    method GenerateRefreshToken() returns (token: string)
      ensures token !in Tokens(refreshTokens)
    {
      UnusedStringExists(Tokens(refreshTokens));
      token :| token !in Tokens(refreshTokens);
    }

    /** `SaveRefreshTokenAsync`: a new live row, expiring fourteen days after `now`. */
    method SaveRefreshToken(userId: string, token: string, now: int)
      requires Valid() && token !in Tokens(refreshTokens)
      modifies this`refreshTokens
      ensures Valid()
      ensures Evolves(old(refreshTokens), refreshTokens)
      ensures refreshTokens == old(refreshTokens) + [Issued(token, userId, now)]
    {
      IssueKeepsUnique(refreshTokens, token, userId, now);
      refreshTokens := refreshTokens + [Issued(token, userId, now)];
    }

    /** `GenerateAuthResponseAsync`: permissions from the user's roles, a signed token
        with a fresh identifier, and a stored refresh token. */
    method GenerateAuthResponse(user: User, now: int) returns (response: AuthResponse, ghost jti: string)
      requires Valid()
      modifies this`refreshTokens, this`guids
      ensures Valid()
      ensures Evolves(old(refreshTokens), refreshTokens)
      ensures jti !in old(guids) && guids == old(guids) + {jti}
      ensures Issues(jwt, user, now, jti, response, old(refreshTokens), refreshTokens)
    {
      var roles := user.roles;
      var permissions := Permissions.GetPermissionsForRoles(roles);
      var id := NewGuid();
      jti := id;
      var token, expiresIn := jwt.GenerateToken(user, roles, permissions, id, now);
      var refreshToken := GenerateRefreshToken();
      SaveRefreshToken(user.id, refreshToken, now);
      response := AuthResponse(token, expiresIn, refreshToken);
    }

    /** `SendConfirmationEmailAsync`: the body is built before the send is tried, so a
        missing template throws; a failed send is logged, not raised. */
    method SendConfirmationEmail(user: User, baseUrl: string, delivered: bool) returns (o: Outcome<Unit>)
      requires Valid()
      modifies this`sentMails
      ensures Valid()
      ensures ConfirmationTemplate !in templates ==> o == Threw(ConfirmationTemplate) && sentMails == old(sentMails)
      ensures ConfirmationTemplate in templates ==>
        && o == Returned(Unit)
        && sentMails == old(sentMails) + (if delivered then [ConfirmationMail(identity, templates, user, baseUrl)] else [])
    {
      var link := ConfirmationLink(identity, user, baseUrl);
      var built := EmailBodyBuilder.Build(templates, ConfirmationTemplate, ConfirmationPlaceholders(user, link));
      if built.FileNotFound? {
        return Threw(built.templateName);
      }
      if delivered {
        sentMails := sentMails + [Mail(user.email, ConfirmSubject, link, built.text)];
      }
      o := Returned(Unit);
    }

    /** `RegisterAsync`. An e-mail already taken (after normalisation) is a conflict; an
        account the store refuses is a failed registration; otherwise the new account
        gets the User role, a confirmation mail, and a session. A missing confirmation
        template throws after the account has been created. */
    method Register(request: RegisterRequest, baseUrl: string, now: int, delivered: bool)
      returns (r: Outcome<Result<AuthResponse>>, ghost userId: string, ghost jti: string)
      requires Valid()
      modifies this
      ensures Valid()
      ensures Evolves(old(refreshTokens), refreshTokens)
      ensures old(Account(request.email)).Some? ==> r == Returned(Failure(UserErrors.DuplicateEmail)) && unchanged(this)
      ensures old(Account(request.email)).Nothing? ==>
        && userId !in old(guids)
        && (!identity.acceptsNewUser(Applicant(userId, request, now), request.password) ==>
              && r == Returned(Failure(UserErrors.RegistrationFailed))
              && users == old(users) && refreshTokens == old(refreshTokens) && sentMails == old(sentMails)
              && guids == old(guids) + {userId})
        && (identity.acceptsNewUser(Applicant(userId, request, now), request.password) ==>
              && users == old(users)[userId := Member(identity, userId, request, now)]
              && (ConfirmationTemplate !in templates ==>
                    && r == Threw(ConfirmationTemplate)
                    && refreshTokens == old(refreshTokens) && sentMails == old(sentMails)
                    && guids == old(guids) + {userId})
              && (ConfirmationTemplate in templates ==>
                    && r.Returned? && r.result.Success?
                    && sentMails == old(sentMails)
                       + (if delivered then [ConfirmationMail(identity, templates, Member(identity, userId, request, now), baseUrl)] else [])
                    && jti !in old(guids) + {userId} && guids == old(guids) + {userId, jti}
                    && Issues(jwt, Member(identity, userId, request, now), now, jti, r.result.value, old(refreshTokens), refreshTokens)))
    {
      userId, jti := "", "";
      var existing := FindByEmail(request.email);
      if existing.Some? {
        return Returned(Failure(UserErrors.DuplicateEmail)), userId, jti;
      }
      var id := NewGuid();
      userId := id;
      var user := Applicant(id, request, now);
      if !identity.acceptsNewUser(user, request.password) {
        return Returned(Failure(UserErrors.RegistrationFailed)), userId, jti;
      }
      user := user.(passwordHash := identity.hashPassword(request.password));
      user := user.(roles := user.roles + [Permissions.User]);
      assert user == Member(identity, id, request, now);
      AddKeepsStore(identity.normalize, users, user);
      users := users[id := user];
      var sent := SendConfirmationEmail(user, baseUrl, delivered);
      if sent.Threw? {
        return Threw(sent.missingTemplate), userId, jti;
      }
      var response;
      response, jti := GenerateAuthResponse(user, now);
      r := Returned(Success(response));
    }

    /** `LoginAsync`: the checks of `CheckLogin` in order; a wrong password counts a
        failed access, a success clears the count and opens a session. */
    method Login(email: string, password: string, now: int) returns (r: Result<AuthResponse>, ghost jti: string)
      requires Valid()
      modifies this
      ensures Valid()
      ensures Evolves(old(refreshTokens), refreshTokens)
      ensures sentMails == old(sentMails)
      ensures var check := CheckLogin(identity, old(Account(email)), password, now);
        && (check != Accepted ==> r == Failure(LoginError(check)))
        && (check == Accepted <==> r.Success?)
        && (check == NoSuchUser || check == Locked || check == Unconfirmed ==> unchanged(this))
      ensures var account := old(Account(email));
        CheckLogin(identity, account, password, now) == WrongPassword ==>
          && users == old(users)[account.value.id := account.value.(accessFailedCount := account.value.accessFailedCount + 1)]
          && refreshTokens == old(refreshTokens) && guids == old(guids)
      ensures var account := old(Account(email));
        CheckLogin(identity, account, password, now) == Accepted ==>
          && users == old(users)[account.value.id := account.value.(accessFailedCount := 0)]
          && jti !in old(guids) && guids == old(guids) + {jti}
          && Issues(jwt, account.value.(accessFailedCount := 0), now, jti, r.value, old(refreshTokens), refreshTokens)
    {
      jti := "";
      var account := FindByEmail(email);
      if account.Nothing? {
        return Failure(UserErrors.InvalidCredentials), jti;
      }
      var user := account.value;
      if identity.isLockedOut(user, now) {
        return Failure(UserErrors.LockedOut), jti;
      }
      if !identity.checkPassword(user.passwordHash, password) {
        UpdateKeepsStore(identity.normalize, users, user.id, user.(accessFailedCount := user.accessFailedCount + 1));
        users := users[user.id := user.(accessFailedCount := user.accessFailedCount + 1)];
        return Failure(UserErrors.InvalidCredentials), jti;
      }
      if !user.emailConfirmed {
        return Failure(UserErrors.EmailNotConfirmed), jti;
      }
      user := user.(accessFailedCount := 0);
      UpdateKeepsStore(identity.normalize, users, user.id, user);
      users := users[user.id := user];
      var response;
      response, jti := GenerateAuthResponse(user, now);
      r := Success(response);
    }

    /** `RefreshTokenAsync`: the first live row for the token is revoked and a new
        session opened for its owner; the presented token is spent. */
    method Refresh(token: string, now: int) returns (r: Result<AuthResponse>, ghost jti: string)
      requires Valid()
      modifies this
      ensures Valid()
      ensures Evolves(old(refreshTokens), refreshTokens)
      ensures users == old(users) && sentMails == old(sentMails)
      ensures var found := FirstMatch(old(refreshTokens), Active(token, now));
        found.Nothing? ==> r == Failure(UserErrors.InvalidRefreshToken) && unchanged(this)
      ensures var found := FirstMatch(old(refreshTokens), Active(token, now));
        found.Some? && old(refreshTokens)[found.value].userId !in old(users) ==>
          r == Failure(UserErrors.NotFound) && unchanged(this)
      ensures var found := FirstMatch(old(refreshTokens), Active(token, now));
        found.Some? && old(refreshTokens)[found.value].userId in old(users) ==>
          && r.Success?
          && jti !in old(guids) && guids == old(guids) + {jti}
          && Issues(jwt, old(users)[old(refreshTokens)[found.value].userId], now, jti, r.value,
                    Revoke(old(refreshTokens), found.value), refreshTokens)
      ensures r.Success? ==> forall later :: FirstMatch(refreshTokens, Active(token, later)).Nothing?
    {
      jti := "";
      var found := FirstMatch(refreshTokens, Active(token, now));
      if found.Nothing? {
        return Failure(UserErrors.InvalidRefreshToken), jti;
      }
      var i := found.value;
      var ownerId := refreshTokens[i].userId;
      if ownerId !in users {
        return Failure(UserErrors.NotFound), jti;
      }
      var user := users[ownerId];
      ghost var before := refreshTokens;
      RevokeKeepsTokens(refreshTokens, i);
      refreshTokens := Revoke(refreshTokens, i);
      var response;
      response, jti := GenerateAuthResponse(user, now);
      SpentAfterRotation(before, token, now, i, Issued(response.refreshToken, user.id, now));
      RevokeAndIssueEvolve(before, i, Issued(response.refreshToken, user.id, now));
      r := Success(response);
    }

    /** `ConfirmEmailAsync`. */
    method ConfirmEmail(userId: string, code: string) returns (r: Result<Unit>)
      requires Valid()
      modifies this`users
      ensures Valid()
      ensures userId !in old(users) ==> r == Failure(UserErrors.NotFound) && users == old(users)
      ensures userId in old(users) && identity.confirmEmail(old(users)[userId], code) ==>
        r == Success(Unit) && users == old(users)[userId := old(users)[userId].(emailConfirmed := true)]
      ensures userId in old(users) && !identity.confirmEmail(old(users)[userId], code) ==>
        r == Failure(UserErrors.EmailConfirmationFailed) && users == old(users)
    {
      if userId !in users {
        return Failure(UserErrors.NotFound);
      }
      var user := users[userId];
      if !identity.confirmEmail(user, code) {
        return Failure(UserErrors.EmailConfirmationFailed);
      }
      UpdateKeepsStore(identity.normalize, users, userId, user.(emailConfirmed := true));
      users := users[userId := user.(emailConfirmed := true)];
      r := Success(Unit);
    }

    /** `ForgotPasswordAsync`: the same answer whether or not the account exists, and
        a reset mail only for an existing account, as long as the reset template is
        deployed; without it, the call throws for an existing account only. */
    method ForgotPassword(email: string, baseUrl: string, delivered: bool) returns (r: Outcome<Result<string>>)
      requires Valid()
      modifies this`sentMails
      ensures Valid()
      ensures var account := old(Account(email));
        && (account.Nothing? || ResetTemplate in templates ==> r == Returned(Success(ForgotPasswordMessage)))
        && (account.Some? && ResetTemplate !in templates ==> r == Threw(ResetTemplate))
      ensures var account := old(Account(email));
        sentMails == old(sentMails)
          + (if account.Some? && ResetTemplate in templates && delivered
             then [ResetMail(identity, templates, account.value, baseUrl)] else [])
    {
      var account := FindByEmail(email);
      if account.Nothing? {
        return Returned(Success(ForgotPasswordMessage));
      }
      var user := account.value;
      var link := ResetLink(identity, user, baseUrl);
      var built := EmailBodyBuilder.Build(templates, ResetTemplate, ResetPlaceholders(user, link));
      if built.FileNotFound? {
        return Threw(built.templateName);
      }
      if delivered {
        sentMails := sentMails + [Mail(user.email, ResetSubject, link, built.text)];
      }
      r := Returned(Success(ForgotPasswordMessage));
    }

    /** `ResetPasswordAsync`: an unknown e-mail and a refused code give the same error;
        on success the new password is the one that checks. */
    method ResetPassword(email: string, code: string, newPassword: string) returns (r: Result<string>)
      requires Valid()
      modifies this`users
      ensures Valid()
      ensures r.Failure? ==> r == Failure(UserErrors.InvalidResetToken) && users == old(users)
      ensures var account := old(Account(email));
        r.Success? <==> account.Some? && identity.resetPassword(account.value, identity.urlDecode(code), newPassword)
      ensures var account := old(Account(email));
        r.Success? ==>
          && r.value == ResetPasswordMessage
          && users == old(users)[account.value.id := account.value.(passwordHash := identity.hashPassword(newPassword))]
          && identity.checkPassword(users[account.value.id].passwordHash, newPassword)
    {
      var account := FindByEmail(email);
      if account.Nothing? {
        return Failure(UserErrors.InvalidResetToken);
      }
      var user := account.value;
      if !identity.resetPassword(user, identity.urlDecode(code), newPassword) {
        return Failure(UserErrors.InvalidResetToken);
      }
      UpdateKeepsStore(identity.normalize, users, user.id, user.(passwordHash := identity.hashPassword(newPassword)));
      users := users[user.id := user.(passwordHash := identity.hashPassword(newPassword))];
      r := Success(ResetPasswordMessage);
    }

    /** `ResendConfirmationAsync`: a success, and a mail only for an existing,
        unconfirmed account; for such an account a missing template throws. */
    method ResendConfirmation(email: string, baseUrl: string, delivered: bool) returns (r: Outcome<Result<Unit>>)
      requires Valid()
      modifies this`sentMails
      ensures Valid()
      ensures var account := old(Account(email));
        var mails := account.Some? && !account.value.emailConfirmed;
        && (!mails || ConfirmationTemplate in templates ==> r == Returned(Success(Unit)))
        && (mails && ConfirmationTemplate !in templates ==> r == Threw(ConfirmationTemplate))
        && sentMails == old(sentMails)
             + (if mails && ConfirmationTemplate in templates && delivered
                then [ConfirmationMail(identity, templates, account.value, baseUrl)] else [])
    {
      var account := FindByEmail(email);
      if account.Nothing? || account.value.emailConfirmed {
        return Returned(Success(Unit));
      }
      var sent := SendConfirmationEmail(account.value, baseUrl, delivered);
      if sent.Threw? {
        return Threw(sent.missingTemplate);
      }
      r := Returned(Success(Unit));
    }

    /** `RevokeRefreshTokenAsync`: the owner's first unrevoked row for the token is
        revoked, expired or not; afterwards the token is spent. */
    method RevokeRefreshToken(token: string, userId: string) returns (r: Result<Unit>)
      requires Valid()
      modifies this`refreshTokens
      ensures Valid()
      ensures Evolves(old(refreshTokens), refreshTokens)
      ensures var found := FirstMatch(old(refreshTokens), Owned(token, userId));
        && (found.Nothing? ==> r == Failure(UserErrors.InvalidRefreshToken) && refreshTokens == old(refreshTokens))
        && (found.Some? ==> r == Success(Unit) && refreshTokens == Revoke(old(refreshTokens), found.value))
      ensures r.Success? ==> forall later :: FirstMatch(refreshTokens, Active(token, later)).Nothing?
    {
      var found := FirstMatch(refreshTokens, Owned(token, userId));
      if found.Nothing? {
        return Failure(UserErrors.InvalidRefreshToken);
      }
      RevokeKeepsTokens(refreshTokens, found.value);
      SpentAfterRevoke(refreshTokens, found.value);
      RevokeAndIssueEvolve(refreshTokens, found.value, refreshTokens[0]);
      refreshTokens := Revoke(refreshTokens, found.value);
      r := Success(Unit);
    }
  }

  /** A refresh token works once: after it has been exchanged, presenting it again, at
      any time, is refused. */
  method RefreshReplayRefused(service: AuthService, token: string, now: int, later: int)
    returns (first: Result<AuthResponse>, second: Result<AuthResponse>)
    requires service.Valid()
    modifies service
    ensures service.Valid()
    ensures first.Success? ==> second == Failure(UserErrors.InvalidRefreshToken)
  {
    ghost var jti;
    first, jti := service.Refresh(token, now);
    second, jti := service.Refresh(token, later);
  }

  /** A revoked refresh token can no longer be exchanged. */
  method RevokedTokenRefused(service: AuthService, token: string, userId: string, later: int)
    returns (revoked: Result<Unit>, refreshed: Result<AuthResponse>)
    requires service.Valid()
    modifies service
    ensures service.Valid()
    ensures revoked.Success? ==> refreshed == Failure(UserErrors.InvalidRefreshToken)
  {
    revoked := service.RevokeRefreshToken(token, userId);
    ghost var jti;
    refreshed, jti := service.Refresh(token, later);
  }
}
