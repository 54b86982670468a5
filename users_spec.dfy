/** The user routes as functions of the users collection: each handler maps
    the stored accounts (and the counter from which token ids are drawn) to
    its reply and to the collection it leaves behind. The class in
    `UserService` runs the same handlers step by step and is proved to
    agree with these functions. */
module UserRoutes {
  import opened Common
  import opened Config
  import opened Auth
  import opened UserModel

  // ---------------------------------------------------------------------
  // Request and reply bodies

  datatype RegisterBody = RegisterBody(firstName: string, lastName: string,
                                       username: string, email: string, password: string)

  /** The login body; the identifier is tried both as email and as username. */
  datatype LoginBody = LoginBody(emailOrUsername: string, password: string)

  /** The public projection of an account; storage-internal fields such as
      the password hash and the refresh token have no place in it. */
  datatype UserResponse = UserResponse(id: string, email: string, username: string, message: Option<string>)

  /** A successful login: the reply body and the two cookies it sets. */
  datatype LoginReply = LoginReply(user: UserResponse, accessCookie: Token, refreshCookie: Token)

  const Bearer: string := "bearer"

  datatype TokenResponse = TokenResponse(accessToken: Token, refreshToken: Token, tokenType: string)

  // ---------------------------------------------------------------------
  // State

  /** The users collection, and the counter that stands for the random
      unique token ids: every token issued so far has an id below it. */
  datatype Store = Store(accounts: map<ObjectId, Account>, nextJti: nat)

  /** What a handler answers and the collection after it. */
  datatype Step<T> = Step(out: Result<T, HttpError>, next: Store)

  const EmailOrUsernameExists: HttpError := HttpError(BadRequest, "Email or username already exists")
  const InvalidCredentials: HttpError := HttpError(Unauthorized, "Invalid credentials")
  const InvalidToken: HttpError := HttpError(Unauthorized, "Invalid token")
  const NotARefreshToken: HttpError := HttpError(BadRequest, "Not a refresh token")
  const InvalidTokenPayload: HttpError := HttpError(Unauthorized, "Invalid token payload")
  const InvalidUserIdBadRequest: HttpError := HttpError(BadRequest, "Invalid user id")
  const InvalidUserIdUnauthorized: HttpError := HttpError(Unauthorized, "Invalid user id")
  const UserNotFound: HttpError := HttpError(NotFound, "User not found")
  const RefreshTokenInvalid: HttpError := HttpError(Unauthorized, "Refresh token invalid")
  const NotAuthenticated: HttpError := HttpError(Unauthorized, "Not authenticated")

  const RegisteredMessage: string := "User registered successfully"
  const LoggedInMessage: string := "User logged in successfully"
  const LoggedOutMessage: string := "User logged out successfully"
  const DeletedMessage: string := "User deleted"

  /** The account invariant: the unique indexes hold, every stored refresh
      token was issued (its id is below the counter), and no two accounts
      hold the same refresh token. */
  ghost predicate Inv(s: Store)
  {
    && UniqueUsernamesAndEmails(s.accounts)
    && (forall id | id in s.accounts :: Issued(s.accounts[id].refreshToken, s.nextJti))
    && (forall a, b | a in s.accounts && b in s.accounts && a != b && s.accounts[a].refreshToken.Some? ::
          s.accounts[a].refreshToken != s.accounts[b].refreshToken)
  }

  ghost predicate Issued(slot: Option<Token>, nextJti: nat)
  {
    slot.None? || (slot.value.Jwt? && slot.value.claims.jti < nextJti)
  }

  // ---------------------------------------------------------------------
  // Lookups

  predicate Clashes(a: Account, body: RegisterBody)
  {
    a.email == body.email || a.username == body.username
  }

  /** `find_one(Or(email == body.email, username == body.username))` finds a document. */
  predicate Taken(accounts: map<ObjectId, Account>, body: RegisterBody)
  {
    exists id | id in accounts :: Clashes(accounts[id], body)
  }

  predicate Matches(a: Account, identifier: string)
  {
    a.email == identifier || a.username == identifier
  }

  /** What `find_one(Or(email == identifier, username == identifier))` may
      answer: some matching account, or nothing when none matches. */
  ghost predicate LookupAnswer(accounts: map<ObjectId, Account>, identifier: string, found: Option<ObjectId>)
  {
    match found
    case None => forall id | id in accounts :: !Matches(accounts[id], identifier)
    case Some(id) => id in accounts && Matches(accounts[id], identifier)
  }

  /** The id text named by a token's "sub" claim, if it is present,
      non-empty and accepted by `PydanticObjectId`. */
  function SubjectId(claims: Claims): Option<string>
  {
    if claims.sub.None? || claims.sub.value == "" then None else ParseObjectId(claims.sub.value)
  }

  /** `_user_dict_to_response`. */
  function ToResponse(id: ObjectId, user: Account): (r: UserResponse)
    ensures r.id == id && r.email == user.email && r.username == user.username && r.message == None
  {
    UserResponse(id, user.email, user.username, None)
  }

  // ---------------------------------------------------------------------
  // Handlers

  /** `register_user`. The new document's id is generated by the driver and
      is not yet in the collection. */
  function Register(s: Store, body: RegisterBody, newId: ObjectId, salt: nat, now: int): (r: Step<UserResponse>)
    requires newId !in s.accounts
    ensures r.out.Err? <==> Taken(s.accounts, body)
    ensures r.out.Err? ==> r.out.error == EmailOrUsernameExists && r.next == s
    ensures r.out.Ok? ==>
      && r.out.value == UserResponse(newId, body.email, body.username, Some(RegisteredMessage))
      && r.next.accounts.Keys == s.accounts.Keys + {newId}
      && (forall id | id in s.accounts :: r.next.accounts[id] == s.accounts[id])
      && r.next.nextJti == s.nextJti
    ensures r.out.Ok? ==>
      var a := r.next.accounts[newId];
      && a.firstName == body.firstName && a.lastName == body.lastName
      && a.username == body.username && a.email == body.email
      && VerifyPassword(body.password, a.hashedPassword)
      && (forall p :: VerifyPassword(p, a.hashedPassword) ==> p == body.password)
      && a.refreshToken == None && a.savedArticles == [] && a.createdAt == now
  {
    if Taken(s.accounts, body) then
      Step(Err(EmailOrUsernameExists), s)
    else
      var user := NewAccount(body.firstName, body.lastName, body.username, body.email,
                             HashPassword(body.password, salt), now);
      Step(Ok(UserResponse(newId, user.email, user.username, Some(RegisteredMessage))),
           s.(accounts := s.accounts[newId := user]))
  }

  /** `login_user`, given what the collection answered to the lookup. */
  function Login(cfg: Settings, s: Store, body: LoginBody, now: int, found: Option<ObjectId>): (r: Step<LoginReply>)
    requires LookupAnswer(s.accounts, body.emailOrUsername, found)
    ensures r.out.Err? <==>
      (forall id | id in s.accounts :: !Matches(s.accounts[id], body.emailOrUsername))
      || (found.Some? && !VerifyPassword(body.password, s.accounts[found.value].hashedPassword))
    ensures r.out.Err? ==> r.out.error == InvalidCredentials && r.next == s
    ensures r.out.Ok? ==>
      var id := found.value;
      var reply := r.out.value;
      && Matches(s.accounts[id], body.emailOrUsername)
      && VerifyPassword(body.password, s.accounts[id].hashedPassword)
      && reply.user == UserResponse(id, s.accounts[id].email, s.accounts[id].username, Some(LoggedInMessage))
      && r.next.accounts == s.accounts[id := s.accounts[id].(refreshToken := Some(reply.refreshCookie))]
      && r.next.nextJti == s.nextJti + 2
      && reply.accessCookie.Jwt? && reply.accessCookie.claims.tokenType == None
      && reply.accessCookie.claims.sub == Some(id) && reply.accessCookie.claims.jti == s.nextJti
      && reply.refreshCookie.Jwt? && reply.refreshCookie.claims.tokenType == Some(RefreshType)
      && reply.refreshCookie.claims.sub == Some(id) && reply.refreshCookie.claims.jti == s.nextJti + 1
    ensures r.out.Ok? ==>
      && r.out.value.accessCookie == CreateAccessToken(cfg, found.value, now, None, s.nextJti)
      && r.out.value.refreshCookie == CreateRefreshToken(cfg, found.value, now, None, s.nextJti + 1)
  {
    match found
    case None => Step(Err(InvalidCredentials), s)
    case Some(id) =>
      var user := s.accounts[id];
      if !VerifyPassword(body.password, user.hashedPassword) then
        Step(Err(InvalidCredentials), s)
      else
        var access := CreateAccessToken(cfg, id, now, None, s.nextJti);
        var refresh := CreateRefreshToken(cfg, id, now, None, s.nextJti + 1);
        Step(Ok(LoginReply(UserResponse(id, user.email, user.username, Some(LoggedInMessage)), access, refresh)),
             Store(s.accounts[id := user.(refreshToken := Some(refresh))], s.nextJti + 2))
  }

  /** The conditions under which `refresh_token` accepts a token: it decodes,
      is typed "refresh", names an existing account, and is exactly the
      token stored in that account. */
  ghost predicate Acceptable(cfg: Settings, s: Store, token: Token, now: int)
  {
    && DecodeToken(cfg, token, now).Ok?
    && token.claims.tokenType == Some(RefreshType)
    && SubjectId(token.claims).Some?
    && SubjectId(token.claims).value in s.accounts
    && s.accounts[SubjectId(token.claims).value].refreshToken == Some(token)
  }

  /** `refresh_token`: a chain of checks, each failing with its own error
      and leaving the collection unchanged, then rotation of the stored
      refresh token. */
  function Refresh(cfg: Settings, s: Store, token: Token, now: int): (r: Step<TokenResponse>)
    ensures r.out.Err? ==> r.next == s
    ensures r.out.Ok? <==> Acceptable(cfg, s, token, now)
    // the order of the checks
    ensures DecodeToken(cfg, token, now).Err? ==> r.out == Err(InvalidToken)
    ensures DecodeToken(cfg, token, now).Ok? ==>
      var claims := token.claims;
      && (claims.tokenType != Some(RefreshType) ==> r.out == Err(NotARefreshToken))
      && (claims.tokenType == Some(RefreshType) && (claims.sub.None? || claims.sub == Some("")) ==>
            r.out == Err(InvalidTokenPayload))
      && ((claims.tokenType == Some(RefreshType) && claims.sub.Some? && claims.sub.value != ""
           && ParseObjectId(claims.sub.value).None?) ==> r.out == Err(InvalidUserIdBadRequest))
      && (claims.tokenType == Some(RefreshType) && SubjectId(claims).Some? && SubjectId(claims).value !in s.accounts ==>
            r.out == Err(UserNotFound))
      && ((claims.tokenType == Some(RefreshType) && SubjectId(claims).Some? && SubjectId(claims).value in s.accounts
           && s.accounts[SubjectId(claims).value].refreshToken != Some(token)) ==> r.out == Err(RefreshTokenInvalid))
    // rotation
    ensures r.out.Ok? ==>
      var id := SubjectId(token.claims).value;
      var pair := r.out.value;
      && r.next.accounts == s.accounts[id := s.accounts[id].(refreshToken := Some(pair.refreshToken))]
      && r.next.nextJti == s.nextJti + 2
      && pair.tokenType == Bearer
      && pair.accessToken.Jwt? && pair.accessToken.claims.tokenType == None
      && pair.accessToken.claims.sub == token.claims.sub && pair.accessToken.claims.jti == s.nextJti
      && pair.refreshToken.Jwt? && pair.refreshToken.claims.tokenType == Some(RefreshType)
      && pair.refreshToken.claims.sub == token.claims.sub && pair.refreshToken.claims.jti == s.nextJti + 1
    ensures r.out.Ok? ==>
      && r.out.value.accessToken == CreateAccessToken(cfg, token.claims.sub.value, now, None, s.nextJti)
      && r.out.value.refreshToken == CreateRefreshToken(cfg, token.claims.sub.value, now, None, s.nextJti + 1)
  {
    match DecodeToken(cfg, token, now)
    case Err(_) => Step(Err(InvalidToken), s)
    case Ok(payload) =>
      if payload.tokenType != Some(RefreshType) then Step(Err(NotARefreshToken), s)
      else if payload.sub.None? || payload.sub.value == "" then Step(Err(InvalidTokenPayload), s)
      else
        var userId := payload.sub.value;
        match ParseObjectId(userId)
        case None => Step(Err(InvalidUserIdBadRequest), s)
        case Some(uid) =>
          if uid !in s.accounts then Step(Err(UserNotFound), s)
          else if s.accounts[uid].refreshToken != Some(token) then Step(Err(RefreshTokenInvalid), s)
          else
            var newAccess := CreateAccessToken(cfg, userId, now, None, s.nextJti);
            var newRefresh := CreateRefreshToken(cfg, userId, now, None, s.nextJti + 1);
            Step(Ok(TokenResponse(newAccess, newRefresh, Bearer)),
                 Store(s.accounts[uid := s.accounts[uid].(refreshToken := Some(newRefresh))], s.nextJti + 2))
  }

  /** `get_current_user`: resolves the access-token cookie to an account id.
      The "type" claim is not looked at, and a token that fails to decode
      raises an exception the handler does not catch. */
  function CurrentUser(cfg: Settings, s: Store, cookie: Option<Token>, now: int): (r: Result<ObjectId, HttpError>)
    ensures r.Ok? <==>
      && cookie.Some? && DecodeToken(cfg, cookie.value, now).Ok?
      && SubjectId(cookie.value.claims).Some? && SubjectId(cookie.value.claims).value in s.accounts
    ensures r.Ok? ==> r.value in s.accounts && SubjectId(cookie.value.claims) == Some(r.value)
    ensures cookie == None || cookie == Some(Opaque("")) ==> r == Err(NotAuthenticated)
    ensures cookie.Some? && cookie != Some(Opaque("")) ==>
      && (DecodeToken(cfg, cookie.value, now).Err? ==> r == Err(UnhandledException))
      && (DecodeToken(cfg, cookie.value, now).Ok? ==>
            var claims := cookie.value.claims;
            && (claims.sub.None? || claims.sub == Some("") ==> r == Err(InvalidToken))
            && (claims.sub.Some? && claims.sub.value != "" && ParseObjectId(claims.sub.value).None? ==>
                  r == Err(InvalidUserIdUnauthorized))
            && (SubjectId(claims).Some? && SubjectId(claims).value !in s.accounts ==> r == Err(UserNotFound)))
  {
    match cookie
    case None => Err(NotAuthenticated)
    case Some(token) =>
      if token == Opaque("") then Err(NotAuthenticated)
      else match DecodeToken(cfg, token, now)
        case Err(_) => Err(UnhandledException)
        case Ok(payload) =>
          if payload.sub.None? || payload.sub.value == "" then Err(InvalidToken)
          else match ParseObjectId(payload.sub.value)
            case None => Err(InvalidUserIdUnauthorized)
            case Some(uid) => if uid !in s.accounts then Err(UserNotFound) else Ok(uid)
  }

  /** `read_me`. */
  function Me(cfg: Settings, s: Store, cookie: Option<Token>, now: int): (r: Result<UserResponse, HttpError>)
    ensures r.Err? <==> CurrentUser(cfg, s, cookie, now).Err?
    ensures r.Err? ==> r.error == CurrentUser(cfg, s, cookie, now).error
    ensures r.Ok? ==>
      var id := CurrentUser(cfg, s, cookie, now).value;
      r.value.id == id && r.value.email == s.accounts[id].email && r.value.username == s.accounts[id].username
  {
    match CurrentUser(cfg, s, cookie, now)
    case Err(e) => Err(e)
    case Ok(id) => Ok(ToResponse(id, s.accounts[id]))
  }

  /** `logout_user`: clears the refresh token of the current account. */
  function Logout(cfg: Settings, s: Store, cookie: Option<Token>, now: int): (r: Step<string>)
    ensures r.out.Ok? <==> CurrentUser(cfg, s, cookie, now).Ok?
    ensures r.out.Err? ==> r.out.error == CurrentUser(cfg, s, cookie, now).error && r.next == s
    ensures r.out.Ok? ==>
      var id := CurrentUser(cfg, s, cookie, now).value;
      && r.next.accounts.Keys == s.accounts.Keys
      && r.next.accounts[id].refreshToken == None
      && r.next.accounts[id] == s.accounts[id].(refreshToken := None)
      && (forall other | other in s.accounts && other != id :: r.next.accounts[other] == s.accounts[other])
      && r.next.nextJti == s.nextJti
  {
    match CurrentUser(cfg, s, cookie, now)
    case Err(e) => Step(Err(e), s)
    case Ok(id) =>
      Step(Ok(LoggedOutMessage), s.(accounts := s.accounts[id := s.accounts[id].(refreshToken := None)]))
  }

  /** `delete_user`: removes the named account and no other. */
  function Delete(s: Store, userId: string): (r: Step<string>)
    ensures r.out.Ok? <==> ParseObjectId(userId).Some? && ParseObjectId(userId).value in s.accounts
    ensures ParseObjectId(userId).None? ==> r.out == Err(InvalidUserIdBadRequest)
    ensures ParseObjectId(userId).Some? && ParseObjectId(userId).value !in s.accounts ==> r.out == Err(UserNotFound)
    ensures r.out.Err? ==> r.next == s
    ensures r.out.Ok? ==>
      var id := ParseObjectId(userId).value;
      && r.next.accounts.Keys == s.accounts.Keys - {id}
      && (forall other | other in r.next.accounts :: r.next.accounts[other] == s.accounts[other])
      && r.next.nextJti == s.nextJti
  {
    match ParseObjectId(userId)
    case None => Step(Err(InvalidUserIdBadRequest), s)
    case Some(uid) =>
      if uid !in s.accounts then Step(Err(UserNotFound), s)
      else Step(Ok(DeletedMessage), s.(accounts := s.accounts - {uid}))
  }
}
