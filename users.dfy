/**
 * The identity server's user account service: sign-up, reading and updating
 * one's own account, password change, deletion, e-mail validation and the
 * list of authorized OAuth clients.
 *
 * The store is the state of the `UserService` class. Every RPC that runs in a
 * store transaction is all-or-nothing: it either fails and leaves the store as
 * it was, or it commits all of its writes. Hashing, random token text, the
 * clock, e-mail delivery, invitation bookkeeping and the blacklist and e-mail
 * allow-list matchers are collaborators whose answers arrive in an `Env`.
 */
module Users {
  import opened Wrappers

  type UserId = string

  /** A point in time. */
  type Time = nat

  /** Account states this service assigns. */
  datatype State = Pending | Approved

  /**
   * A user account; `password` holds the password hash and `validatedAt` is
   * `None` where Go keeps the zero `time.Time` (e-mail not validated).
   */
  datatype User = User(
    id: UserId,
    name: string,
    email: string,
    password: string,
    state: State,
    validatedAt: Option<Time>)

  /** The identity server's settings that govern sign-up and e-mail validation. */
  datatype Settings = Settings(
    selfRegistration: bool,
    blacklistedIds: seq<string>,
    adminApproval: bool,
    skipValidation: bool,
    allowedEmails: seq<string>,
    validationTokenTtl: nat)

  /** A pending e-mail validation: the token text, whose e-mail it validates, and its lifetime. */
  datatype ValidationToken = ValidationToken(token: string, userId: UserId, createdAt: Time, expiresIn: nat)

  /** OAuth grant types a client may hold. */
  datatype Grant = AuthorizationCode | PasswordGrant | RefreshToken

  /** A third-party OAuth client the user has authorized. */
  datatype Client = Client(
    clientId: string,
    description: string,
    secret: string,
    redirectUri: string,
    grants: seq<Grant>)

  /** The errors the service returns. */
  datatype Error =
    | InvitationTokenMissing
    | BlacklistedId(id: UserId)
    | EmailAddressNotAllowed(email: string)
    | InvalidPathUpdateMask(path: string)
    | InvalidPassword
    | ValidationTokenExpired
    | EmailAlreadyValidated(email: string)
    | UserNotFound(userId: UserId)
    | UserIdTaken(userId: UserId)
    | ValidationTokenNotFound
    | HashFailed
    | PasswordCheckFailed
    | InvitationRejected
    | EmailNotSent
    | LastCollaborator

  /**
   * The answers of the collaborators one call consults: the clock, the
   * random token text, password hashing and checking, the blacklist and
   * allow-list matchers, the invitation store, token expiry and mail delivery.
   */
  datatype Env = Env(
    now: Time,
    randomToken: string,
    hash: string -> Option<string>,
    validate: (string, string) -> Option<bool>,
    isIdAllowed: (UserId, seq<string>) -> bool,
    isEmailAllowed: (string, seq<string>) -> bool,
    useInvitation: (string, string) -> bool,
    isExpired: (ValidationToken, Time) -> bool,
    emailDelivered: bool)

  /** The fields a sign-up request carries: the new account and an optional invitation token. */
  datatype CreateUserRequest = CreateUserRequest(user: User, invitationToken: string)

  /** An update request: new values and the field-mask paths that select which to apply. */
  datatype UpdateUserRequest = UpdateUserRequest(user: User, paths: seq<string>)

  /** A password change: the current password and the new one, both in clear text. */
  datatype UpdateUserPasswordRequest = UpdateUserPasswordRequest(oldPassword: string, newPassword: string)

  /** The field-mask paths an update accepts. */
  const NamePath: string := "name"
  const EmailPath: string := "email"

  /** ASCII lower-casing of one character. */
  function LowerChar(c: char): (d: char)
    ensures 'A' <= c <= 'Z' ==> 'a' <= d <= 'z' && d as int - c as int == 32
    ensures !('A' <= c <= 'Z') ==> d == c
  {
    if 'A' <= c <= 'Z' then (c as int - 'A' as int + 'a' as int) as char else c
  }

  /** Lower-casing of a string, character by character. */
  function ToLower(s: string): (r: string)
    ensures |r| == |s|
    ensures forall i :: 0 <= i < |s| ==> r[i] == LowerChar(s[i])
  {
    if s == [] then [] else [LowerChar(s[0])] + ToLower(s[1..])
  }

  /** Lower-casing twice is lower-casing once. */
  lemma ToLowerIdempotent(s: string)
    ensures ToLower(ToLower(s)) == ToLower(s)
  {
    var l := ToLower(s);
    assert forall i :: 0 <= i < |l| ==> LowerChar(l[i]) == l[i];
  }

  /** Two e-mail addresses are the same address when they agree after lower-casing. */
  predicate SameEmail(a: string, b: string)
  {
    ToLower(a) == ToLower(b)
  }

  /** Addresses that differ only in the case of ASCII letters are the same address. */
  lemma SameEmailIgnoresCase(a: string)
    ensures SameEmail(a, ToLower(a))
  {
    ToLowerIdempotent(a);
  }

  /** The account a sign-up stores, with its password already hashed. */
  function NewUser(input: User, passwordHash: string, settings: Settings, now: Time): (u: User)
    ensures u.id == input.id && u.name == input.name && u.email == input.email
    ensures u.password == passwordHash
    ensures u.state == Approved <==> !settings.adminApproval
    ensures u.validatedAt.Some? <==> settings.skipValidation
  {
    User(input.id, input.name, input.email, passwordHash,
         if settings.adminApproval then Pending else Approved,
         if settings.skipValidation then Some(now) else None)
  }

  /** A client as `ListAuthorizedClients` returns it: secret, redirect URI and grants are blanked. */
  function ScrubbedClient(c: Client): (d: Client)
    ensures d.secret == "" && d.redirectUri == "" && d.grants == []
    ensures d.clientId == c.clientId && d.description == c.description
  {
    c.(secret := "", redirectUri := "", grants := [])
  }

  /** The validation token a request for e-mail validation stores. */
  function NewValidationToken(userId: UserId, settings: Settings, env: Env): (t: ValidationToken)
    ensures t.token == env.randomToken && t.userId == userId
    ensures t.createdAt == env.now && t.expiresIn == settings.validationTokenTtl
  {
    ValidationToken(env.randomToken, userId, env.now, settings.validationTokenTtl)
  }

  /**
   * One iteration of the update-mask loop: the account and the "e-mail
   * changed" flag after applying `path`, or the error that stops the loop.
   */
  function ApplyPath(user: User, newEmail: bool, path: string, req: User, settings: Settings, env: Env)
    : (r: Result<(User, bool), Error>)
  {
    if path == NamePath then
      Ok((user.(name := req.name), newEmail))
    else if path == EmailPath then
      if !env.isEmailAllowed(req.email, settings.allowedEmails) then
        Err(EmailAddressNotAllowed(req.email))
      else
        var changed := !SameEmail(user.email, req.email);
        var validatedAt :=
          if !changed then user.validatedAt
          else if settings.skipValidation then Some(env.now)
          else None;
        Ok((user.(email := req.email, validatedAt := validatedAt), changed))
    else
      Err(InvalidPathUpdateMask(path))
  }

  /** The update-mask loop over `paths`, from the front, stopping at the first error. */
  function ApplyMask(user: User, newEmail: bool, paths: seq<string>, req: User, settings: Settings, env: Env)
    : (r: Result<(User, bool), Error>)
    ensures r.Err? ==>
      r.error == EmailAddressNotAllowed(req.email) || (r.error.InvalidPathUpdateMask? && r.error.path in paths)
    ensures r.Ok? ==> r.value.0.name == user.name || r.value.0.name == req.name
    ensures r.Ok? && r.value.0.email != user.email ==> r.value.0.email == req.email
    decreases |paths|
  {
    if paths == [] then Ok((user, newEmail))
    else
      match ApplyPath(user, newEmail, paths[0], req, settings, env)
      case Err(e) => Err(e)
      case Ok((u, ne)) => ApplyMask(u, ne, paths[1..], req, settings, env)
  }

  /** A mask that is applied without error names only the name and e-mail paths. */
  lemma {:induction false} ApplyMaskAcceptsOnlyKnownPaths(
    user: User, newEmail: bool, paths: seq<string>, req: User, settings: Settings, env: Env)
    requires ApplyMask(user, newEmail, paths, req, settings, env).Ok?
    ensures forall k :: 0 <= k < |paths| ==> paths[k] == NamePath || paths[k] == EmailPath
    decreases |paths|
  {
    if paths != [] {
      var step := ApplyPath(user, newEmail, paths[0], req, settings, env);
      var (u, ne) := step.value;
      ApplyMaskAcceptsOnlyKnownPaths(u, ne, paths[1..], req, settings, env);
      assert forall k :: 1 <= k < |paths| ==> paths[k] == paths[1..][k - 1];
    }
  }

  /**
   * The first path that is neither name nor e-mail is the error returned,
   * when the paths before it all apply: only name paths, or name and e-mail
   * paths with an allowed address.
   */
  lemma {:induction false} ApplyMaskRejectsUnknownPath(
    user: User, newEmail: bool, paths: seq<string>, req: User, settings: Settings, env: Env, k: nat)
    requires k < |paths| && paths[k] != NamePath && paths[k] != EmailPath
    requires forall j :: 0 <= j < k ==> paths[j] == NamePath || paths[j] == EmailPath
    requires env.isEmailAllowed(req.email, settings.allowedEmails) || forall j :: 0 <= j < k ==> paths[j] == NamePath
    ensures ApplyMask(user, newEmail, paths, req, settings, env) == Err(InvalidPathUpdateMask(paths[k]))
    decreases k
  {
    if k > 0 {
      var (u, ne) := ApplyPath(user, newEmail, paths[0], req, settings, env).value;
      ApplyMaskRejectsUnknownPath(u, ne, paths[1..], req, settings, env, k - 1);
    }
  }

  /** An update only ever changes the name, the e-mail address and the validation time. */
  lemma {:induction false} ApplyMaskKeepsOtherFields(
    user: User, newEmail: bool, paths: seq<string>, req: User, settings: Settings, env: Env)
    requires ApplyMask(user, newEmail, paths, req, settings, env).Ok?
    ensures var u := ApplyMask(user, newEmail, paths, req, settings, env).value.0;
      u.id == user.id && u.password == user.password && u.state == user.state
    decreases |paths|
  {
    if paths != [] {
      var (u, ne) := ApplyPath(user, newEmail, paths[0], req, settings, env).value;
      ApplyMaskKeepsOtherFields(u, ne, paths[1..], req, settings, env);
    }
  }

  /** A mask of name paths only sets the name and nothing else. */
  lemma {:induction false} ApplyMaskNameOnly(
    user: User, newEmail: bool, paths: seq<string>, req: User, settings: Settings, env: Env)
    requires paths != []
    requires forall k :: 0 <= k < |paths| ==> paths[k] == NamePath
    ensures ApplyMask(user, newEmail, paths, req, settings, env) == Ok((user.(name := req.name), newEmail))
    decreases |paths|
  {
    if |paths| > 1 {
      ApplyMaskNameOnly(user.(name := req.name), newEmail, paths[1..], req, settings, env);
    }
  }

  /**
   * When the requested address equals the stored one up to case, no path
   * reports an e-mail change and the validation time stays as it was, even
   * though the stored address is overwritten with the requested spelling.
   */
  lemma {:induction false} ApplyMaskSameEmailKeepsValidation(
    user: User, paths: seq<string>, req: User, settings: Settings, env: Env)
    requires SameEmail(user.email, req.email)
    requires ApplyMask(user, false, paths, req, settings, env).Ok?
    ensures var (u, changed) := ApplyMask(user, false, paths, req, settings, env).value;
      !changed && u.validatedAt == user.validatedAt
    ensures var u := ApplyMask(user, false, paths, req, settings, env).value.0;
      u.email == user.email || u.email == req.email
    decreases |paths|
  {
    if paths != [] {
      var (u, ne) := ApplyPath(user, false, paths[0], req, settings, env).value;
      assert !ne && u.validatedAt == user.validatedAt;
      assert u.email == user.email || u.email == req.email;
      ApplyMaskSameEmailKeepsValidation(u, paths[1..], req, settings, env);
    }
  }

  /**
   * A single e-mail path with an allowed address: the change is detected
   * case-insensitively; a change sets the validation time to now when
   * validation is skipped and clears it otherwise.
   */
  lemma EmailPathEffect(user: User, req: User, settings: Settings, env: Env)
    requires env.isEmailAllowed(req.email, settings.allowedEmails)
    ensures var r := ApplyMask(user, false, [EmailPath], req, settings, env);
      && r.Ok?
      && r.value.0 == user.(email := req.email, validatedAt := r.value.0.validatedAt)
      && (r.value.1 <==> ToLower(user.email) != ToLower(req.email))
      && (!r.value.1 ==> r.value.0.validatedAt == user.validatedAt)
      && (r.value.1 && settings.skipValidation ==> r.value.0.validatedAt == Some(env.now))
      && (r.value.1 && !settings.skipValidation ==> r.value.0.validatedAt == None)
  {
    assert [EmailPath][1..] == [];
  }

  /** An e-mail path with a disallowed address fails the whole update. */
  lemma EmailPathNotAllowed(user: User, req: User, settings: Settings, env: Env)
    requires !env.isEmailAllowed(req.email, settings.allowedEmails)
    ensures ApplyMask(user, false, [EmailPath], req, settings, env) == Err(EmailAddressNotAllowed(req.email))
  {
  }

  /**
   * The flag that decides whether a validation token is sent reflects only
   * the last e-mail path: a mask naming the e-mail path twice reports no
   * change, although the first pass already cleared the validation time.
   */
  lemma EmailPathTwice(user: User, req: User, settings: Settings, env: Env)
    requires env.isEmailAllowed(req.email, settings.allowedEmails)
    requires !SameEmail(user.email, req.email) && !settings.skipValidation
    ensures var r := ApplyMask(user, false, [EmailPath, EmailPath], req, settings, env);
      r.Ok? && !r.value.1 && r.value.0.validatedAt == None
  {
    var once := user.(email := req.email, validatedAt := None);
    assert [EmailPath, EmailPath][1..] == [EmailPath];
    assert [EmailPath][1..] == [];
    assert ApplyPath(user, false, EmailPath, req, settings, env) == Ok((once, true));
    assert ApplyPath(once, true, EmailPath, req, settings, env) == Ok((once, false));
    assert ApplyMask(once, true, [EmailPath], req, settings, env) == Ok((once, false));
    assert ApplyMask(user, false, [EmailPath, EmailPath], req, settings, env)
        == ApplyMask(once, true, [EmailPath], req, settings, env);
  }

  /**
   * Some application or gateway the user collaborates on has no collaborator
   * who holds the right to manage collaborators.
   */
  predicate LeavesEntityUnmanaged(entities: map<string, map<UserId, bool>>, userId: UserId)
  {
    exists e :: e in entities && userId in entities[e] && (forall c :: c in entities[e] ==> !entities[e][c])
  }

  /**
   * The update-mask loop with the e-mail-changed flag as the service's
   * documentation describes it: an e-mail path reports a change when the
   * requested address differs, up to case, from the address the account had
   * before the update (`original`), so a repeated e-mail path keeps the
   * change. The account itself evolves exactly as in `ApplyMask`.
   */
  function ApplyMaskIntended(
    original: User, user: User, newEmail: bool, paths: seq<string>, req: User, settings: Settings, env: Env)
    : (r: Result<(User, bool), Error>)
    decreases |paths|
  {
    if paths == [] then Ok((user, newEmail))
    else
      match ApplyPath(user, newEmail, paths[0], req, settings, env)
      case Err(e) => Err(e)
      case Ok((u, ne)) =>
        var flag := if paths[0] == EmailPath then !SameEmail(original.email, req.email) else ne;
        ApplyMaskIntended(original, u, flag, paths[1..], req, settings, env)
  }

  /**
   * The intended loop yields the same account and errors as the loop as
   * written, and its flag reports a change exactly when the final address
   * differs, up to case, from the original one.
   */
  lemma {:induction false} ApplyMaskIntendedFlag(
    original: User, user: User, newEmail: bool, paths: seq<string>, req: User, settings: Settings, env: Env)
    requires user.email == original.email || user.email == req.email
    requires newEmail <==> !SameEmail(original.email, user.email)
    ensures var r := ApplyMaskIntended(original, user, newEmail, paths, req, settings, env);
      var w := ApplyMask(user, newEmail, paths, req, settings, env);
      && r.Ok? == w.Ok?
      && (r.Err? ==> r.error == w.error)
      && (r.Ok? ==> r.value.0 == w.value.0 && (r.value.1 <==> !SameEmail(original.email, r.value.0.email)))
    decreases |paths|
  {
    if paths != [] {
      var step := ApplyPath(user, newEmail, paths[0], req, settings, env);
      if step.Ok? {
        var (u, ne) := step.value;
        var flag := if paths[0] == EmailPath then !SameEmail(original.email, req.email) else ne;
        ApplyMaskIntendedFlag(original, u, flag, paths[1..], req, settings, env);
        ApplyMaskIntendedAgrees(u, ne, flag, paths[1..], req, settings, env);
      }
    }
  }

  /** The account and errors of the mask loop do not depend on the incoming flag. */
  lemma {:induction false} ApplyMaskIntendedAgrees(
    user: User, ne: bool, flag: bool, paths: seq<string>, req: User, settings: Settings, env: Env)
    ensures var a := ApplyMask(user, ne, paths, req, settings, env);
      var b := ApplyMask(user, flag, paths, req, settings, env);
      a.Ok? == b.Ok? && (a.Err? ==> a.error == b.error) && (a.Ok? ==> a.value.0 == b.value.0)
    decreases |paths|
  {
    if paths != [] {
      var sa := ApplyPath(user, ne, paths[0], req, settings, env);
      var sb := ApplyPath(user, flag, paths[0], req, settings, env);
      if sa.Ok? {
        ApplyMaskIntendedAgrees(sa.value.0, sa.value.1, sb.value.1, paths[1..], req, settings, env);
      }
    }
  }

  /** With the e-mail path listed twice and a real change, the intended flag reports the change. */
  lemma EmailPathTwiceIntended(user: User, req: User, settings: Settings, env: Env)
    requires env.isEmailAllowed(req.email, settings.allowedEmails)
    requires !SameEmail(user.email, req.email)
    ensures var r := ApplyMaskIntended(user, user, false, [EmailPath, EmailPath], req, settings, env);
      r.Ok? && r.value.1 && r.value.0.email == req.email
  {
    var once := user.(email := req.email, validatedAt := if settings.skipValidation then Some(env.now) else None);
    assert [EmailPath, EmailPath][1..] == [EmailPath];
    assert [EmailPath][1..] == [];
    assert ApplyPath(user, false, EmailPath, req, settings, env) == Ok((once, true));
    assert ApplyPath(once, true, EmailPath, req, settings, env) == Ok((once, false));
    assert ApplyMaskIntended(user, once, true, [EmailPath], req, settings, env) == Ok((once, true));
  }

  /** The account store behind the service, with the RPCs of the user service as its methods. */
  class UserService {
    var settings: Settings
    var users: map<UserId, User>
    var validationTokens: map<string, ValidationToken>
    /** Per application, its collaborators and whether each holds the right to manage collaborators. */
    var applications: map<string, map<UserId, bool>>
    /** Per gateway, its collaborators and whether each holds the right to manage collaborators. */
    var gateways: map<string, map<UserId, bool>>
    var authorizedClients: map<UserId, seq<Client>>

    /** An empty store under the given settings. */
    constructor(s: Settings)
      ensures Valid()
      ensures settings == s && users == map[] && validationTokens == map[]
      ensures applications == map[] && gateways == map[] && authorizedClients == map[]
    {
      settings := s;
      users := map[];
      validationTokens := map[];
      applications := map[];
      gateways := map[];
      authorizedClients := map[];
    }

    /** Every account is stored under its own ID and every token under its own text. */
    ghost predicate Valid()
      reads this
    {
      && (forall id :: id in users ==> users[id].id == id)
      && (forall t :: t in validationTokens ==> validationTokens[t].token == t)
    }

    /**
     * Sign-up. The checks run in order: registration gate, blacklist,
     * password hashing, the store's create, then the e-mail allow-list (only
     * without an invitation) or the invitation, then, unless validation is
     * skipped, the validation token and its e-mail. A failure at any point
     * rolls back everything, including the account already created.
     */
    method CreateUser(req: CreateUserRequest, env: Env) returns (r: Outcome<Error>)
      requires Valid()
      modifies this`users, this`validationTokens
      ensures Valid()
      ensures !settings.selfRegistration && req.invitationToken == "" ==> r == Fail(InvitationTokenMissing)
      ensures (settings.selfRegistration || req.invitationToken != "") &&
              !env.isIdAllowed(req.user.id, settings.blacklistedIds) ==>
                r == Fail(BlacklistedId(req.user.id))
      ensures (settings.selfRegistration || req.invitationToken != "")
        && env.isIdAllowed(req.user.id, settings.blacklistedIds)
        && env.hash(req.user.password).Some?
        && req.user.id !in old(users)
        && req.invitationToken == ""
        && !env.isEmailAllowed(req.user.email, settings.allowedEmails)
        ==> r == Fail(EmailAddressNotAllowed(req.user.email))
      ensures r.Pass? <==>
        && (settings.selfRegistration || req.invitationToken != "")
        && env.isIdAllowed(req.user.id, settings.blacklistedIds)
        && env.hash(req.user.password).Some?
        && req.user.id !in old(users)
        && (req.invitationToken == "" ==> env.isEmailAllowed(req.user.email, settings.allowedEmails))
        && (req.invitationToken != "" ==> env.useInvitation(req.user.email, req.invitationToken))
        && (!settings.skipValidation ==> env.emailDelivered)
      ensures r.Fail? ==> users == old(users) && validationTokens == old(validationTokens)
      ensures r.Pass? ==>
        && users == old(users)[req.user.id := NewUser(req.user, env.hash(req.user.password).value, settings, env.now)]
        && validationTokens == if settings.skipValidation then old(validationTokens)
           else old(validationTokens)[env.randomToken := NewValidationToken(req.user.id, settings, env)]
    {
      if !settings.selfRegistration && req.invitationToken == "" {
        return Fail(InvitationTokenMissing);
      }
      if !env.isIdAllowed(req.user.id, settings.blacklistedIds) {
        return Fail(BlacklistedId(req.user.id));
      }
      var password := env.hash(req.user.password);
      if password.None? {
        return Fail(HashFailed);
      }
      var user := User(req.user.id, req.user.name, req.user.email, password.value, Pending, None);
      if settings.skipValidation {
        user := user.(validatedAt := Some(env.now));
      }
      if !settings.adminApproval {
        user := user.(state := Approved);
      }
      if user.id in users {
        return Fail(UserIdTaken(user.id));
      }
      // The account is created inside the transaction; the returns below roll it back.
      var staged := users[user.id := user];
      if req.invitationToken == "" {
        if !env.isEmailAllowed(req.user.email, settings.allowedEmails) {
          return Fail(EmailAddressNotAllowed(req.user.email));
        }
      } else {
        if !env.useInvitation(req.user.email, req.invitationToken) {
          return Fail(InvitationRejected);
        }
      }
      if !settings.skipValidation {
        var token := NewValidationToken(user.id, settings, env);
        if !env.emailDelivered {
          return Fail(EmailNotSent);
        }
        validationTokens := validationTokens[token.token := token];
      }
      users := staged;
      return Pass;
    }

    /** The caller's own account, with the password hash blanked. */
    method GetUser(caller: UserId) returns (r: Result<User, Error>)
      ensures caller !in users ==> r == Err(UserNotFound(caller))
      ensures caller in users ==> r.Ok? && r.value.password == ""
      ensures caller in users ==> r.value.(password := users[caller].password) == users[caller]
    {
      if caller !in users {
        return Err(UserNotFound(caller));
      }
      var user := users[caller];
      user := user.(password := "");
      return Ok(user);
    }

    /**
     * Updates the caller's account from the paths of the update mask. An
     * unknown path or a disallowed address fails the whole update. When the
     * last e-mail path changed the address and validation is not skipped, a
     * validation token is stored and mailed; a delivery failure rolls back.
     */
    method UpdateUser(caller: UserId, req: UpdateUserRequest, env: Env) returns (r: Outcome<Error>)
      requires Valid()
      modifies this`users, this`validationTokens
      ensures Valid()
      ensures caller !in old(users) ==> r == Fail(UserNotFound(caller))
      ensures caller in old(users) && ApplyMask(old(users)[caller], false, req.paths, req.user, settings, env).Err? ==>
        r == Fail(ApplyMask(old(users)[caller], false, req.paths, req.user, settings, env).error)
      ensures r.Fail? ==> users == old(users) && validationTokens == old(validationTokens)
      ensures r.Pass? ==>
        && caller in old(users)
        && ApplyMask(old(users)[caller], false, req.paths, req.user, settings, env).Ok?
        && var (user, newEmail) := ApplyMask(old(users)[caller], false, req.paths, req.user, settings, env).value;
        && users == old(users)[caller := user]
        && validationTokens == if newEmail && !settings.skipValidation
           then old(validationTokens)[env.randomToken := NewValidationToken(caller, settings, env)]
           else old(validationTokens)
      ensures caller in old(users) && ApplyMask(old(users)[caller], false, req.paths, req.user, settings, env).Ok? ==>
        var (_, newEmail) := ApplyMask(old(users)[caller], false, req.paths, req.user, settings, env).value;
        (r.Pass? <==> !newEmail || settings.skipValidation || env.emailDelivered)
    {
      if caller !in users {
        return Fail(UserNotFound(caller));
      }
      var user := users[caller];
      ghost var spec := ApplyMask(user, false, req.paths, req.user, settings, env);
      var newEmail := false;
      var i := 0;
      while i < |req.paths|
        invariant 0 <= i <= |req.paths|
        invariant user.id == caller
        invariant spec == ApplyMask(user, newEmail, req.paths[i..], req.user, settings, env)
      {
        var path := req.paths[i];
        assert req.paths[i..][1..] == req.paths[i + 1..];
        if path == NamePath {
          user := user.(name := req.user.name);
        } else if path == EmailPath {
          if !env.isEmailAllowed(req.user.email, settings.allowedEmails) {
            return Fail(EmailAddressNotAllowed(req.user.email));
          }
          newEmail := ToLower(user.email) != ToLower(req.user.email);
          if newEmail {
            if settings.skipValidation {
              user := user.(validatedAt := Some(env.now));
            } else {
              user := user.(validatedAt := None);
            }
          }
          user := user.(email := req.user.email);
        } else {
          return Fail(InvalidPathUpdateMask(path));
        }
        i := i + 1;
      }
      assert req.paths[i..] == [];
      if newEmail && !settings.skipValidation {
        var token := NewValidationToken(caller, settings, env);
        if !env.emailDelivered {
          return Fail(EmailNotSent);
        }
        validationTokens := validationTokens[token.token := token];
      }
      users := users[caller := user];
      return Pass;
    }

    /** Changes the caller's password after checking the current one against the stored hash. */
    method UpdateUserPassword(caller: UserId, req: UpdateUserPasswordRequest, env: Env) returns (r: Outcome<Error>)
      requires Valid()
      modifies this`users
      ensures Valid()
      ensures caller !in old(users) ==> r == Fail(UserNotFound(caller))
      ensures caller in old(users) && env.validate(old(users)[caller].password, req.oldPassword) == Some(false) ==>
        r == Fail(InvalidPassword)
      ensures r.Fail? ==> users == old(users)
      ensures r.Pass? <==>
        caller in old(users) && env.validate(old(users)[caller].password, req.oldPassword) == Some(true) && env.hash(req.newPassword).Some?
      ensures r.Pass? ==> users == old(users)[caller := old(users)[caller].(password := env.hash(req.newPassword).value)]
    {
      if caller !in users {
        return Fail(UserNotFound(caller));
      }
      var user := users[caller];
      var matches := env.validate(user.password, req.oldPassword);
      if matches.None? {
        return Fail(PasswordCheckFailed);
      }
      if !matches.value {
        return Fail(InvalidPassword);
      }
      var hashed := env.hash(req.newPassword);
      if hashed.None? {
        return Fail(HashFailed);
      }
      user := user.(password := hashed.value);
      users := users[caller := user];
      return Pass;
    }

    /**
     * Deletes the caller's account. It fails when some application or gateway
     * the caller collaborates on has no collaborator holding the right to
     * manage collaborators, as the store lists them; the caller's own
     * collaborations are still listed, so they count.
     */
    method DeleteUser(caller: UserId) returns (r: Outcome<Error>)
      requires Valid()
      modifies this`users
      ensures Valid()
      ensures caller !in old(users) ==> r == Fail(UserNotFound(caller))
      ensures r.Pass? <==>
        caller in old(users) && !LeavesEntityUnmanaged(applications, caller) && !LeavesEntityUnmanaged(gateways, caller)
      ensures r.Fail? ==> users == old(users)
      ensures r.Pass? ==> users == old(users) - {caller}
    {
      if caller !in users {
        return Fail(UserNotFound(caller));
      }
      if LeavesEntityUnmanaged(applications, caller) || LeavesEntityUnmanaged(gateways, caller) {
        return Fail(LastCollaborator);
      }
      users := users - {caller};
      return Pass;
    }

    /** Marks the e-mail of the token's user as validated now and consumes the token. */
    method ValidateUserEmail(token: string, env: Env) returns (r: Outcome<Error>)
      requires Valid()
      modifies this`users, this`validationTokens
      ensures Valid()
      ensures token !in old(validationTokens) ==> r == Fail(ValidationTokenNotFound)
      ensures token in old(validationTokens) && env.isExpired(old(validationTokens)[token], env.now) ==>
        r == Fail(ValidationTokenExpired)
      ensures r.Pass? <==>
        && token in old(validationTokens)
        && !env.isExpired(old(validationTokens)[token], env.now)
        && old(validationTokens)[token].userId in old(users)
      ensures r.Fail? ==> users == old(users) && validationTokens == old(validationTokens)
      ensures r.Pass? ==>
        var id := old(validationTokens)[token].userId;
        && users == old(users)[id := old(users)[id].(validatedAt := Some(env.now))]
        && validationTokens == old(validationTokens) - {token}
    {
      if token !in validationTokens {
        return Fail(ValidationTokenNotFound);
      }
      var t := validationTokens[token];
      if env.isExpired(t, env.now) {
        return Fail(ValidationTokenExpired);
      }
      if t.userId !in users {
        return Fail(UserNotFound(t.userId));
      }
      var user := users[t.userId];
      user := user.(validatedAt := Some(env.now));
      users := users[t.userId := user];
      validationTokens := validationTokens - {token};
      return Pass;
    }

    /** Stores and mails a new validation token, unless the caller's e-mail is already validated. */
    method RequestUserEmailValidation(caller: UserId, env: Env) returns (r: Outcome<Error>)
      requires Valid()
      modifies this`validationTokens
      ensures Valid()
      ensures caller !in users ==> r == Fail(UserNotFound(caller))
      ensures caller in users && users[caller].validatedAt.Some? ==> r == Fail(EmailAlreadyValidated(users[caller].email))
      ensures r.Pass? <==> caller in users && users[caller].validatedAt.None? && env.emailDelivered
      ensures r.Fail? ==> validationTokens == old(validationTokens)
      ensures r.Pass? ==> validationTokens == old(validationTokens)[env.randomToken := NewValidationToken(caller, settings, env)]
    {
      if caller !in users {
        return Fail(UserNotFound(caller));
      }
      var user := users[caller];
      if user.validatedAt.Some? {
        return Fail(EmailAlreadyValidated(user.email));
      }
      var token := NewValidationToken(caller, settings, env);
      if !env.emailDelivered {
        return Fail(EmailNotSent);
      }
      validationTokens := validationTokens[token.token := token];
      return Pass;
    }

    /** The caller's authorized clients, in store order, each with its secrets blanked. */
    method ListAuthorizedClients(caller: UserId) returns (clients: seq<Client>)
      ensures caller !in authorizedClients ==> clients == []
      ensures caller in authorizedClients ==>
        && |clients| == |authorizedClients[caller]|
        && forall i :: 0 <= i < |clients| ==> clients[i] == ScrubbedClient(authorizedClients[caller][i])
      ensures forall c :: c in clients ==> c.secret == "" && c.redirectUri == "" && c.grants == []
    {
      // The store lists no clients for a user it has no entry for.
      var found := if caller in authorizedClients then authorizedClients[caller] else [];
      clients := [];
      var i := 0;
      while i < |found|
        invariant 0 <= i <= |found|
        invariant |clients| == i
        invariant forall k :: 0 <= k < i ==> clients[k] == ScrubbedClient(found[k])
      {
        var cli := found[i];
        cli := cli.(secret := "", redirectUri := "", grants := []);
        clients := clients + [cli];
        i := i + 1;
      }
    }
  }
}
