/** The user routes as they run: a collection object whose handlers look
    documents up, check them and update them in place, one step at a time.
    Each handler is proved to do what the corresponding function of
    `UserRoutes` says, and to keep the account invariant. */
module UserService {
  import opened Common
  import opened Config
  import opened Auth
  import opened UserModel
  import opened UserRoutes
  import opened UserRoutesProperties

  class Users {
    const cfg: Settings
    /** The users collection, by document id. */
    var accounts: map<ObjectId, Account>
    /** Stands for the random source of `uuid.uuid4()`: the next token id. */
    var nextJti: nat

    function State(): Store
      reads this
    {
      Store(accounts, nextJti)
    }

    ghost predicate Valid()
      reads this
    {
      Inv(State())
    }

    constructor (cfg: Settings)
      ensures this.cfg == cfg && accounts == map[] && nextJti == 0
      ensures Valid()
    {
      this.cfg := cfg;
      accounts := map[];
      nextJti := 0;
    }

    /** Draws a token id never drawn before. */
    method NewJti() returns (jti: nat)
      modifies this`nextJti
      ensures jti == old(nextJti) && nextJti == jti + 1
    {
      jti := nextJti;
      nextJti := nextJti + 1;
    }

    /** `User.find_one(Or(User.email == email, User.username == username))`:
        some document with that email or that username, if there is one. */
    method FindOne(email: string, username: string) returns (found: Option<ObjectId>)
      ensures found.None? <==>
        forall id | id in accounts :: accounts[id].email != email && accounts[id].username != username
      ensures found.Some? ==>
        found.value in accounts && (accounts[found.value].email == email || accounts[found.value].username == username)
    {
      if exists id | id in accounts :: accounts[id].email == email || accounts[id].username == username {
        var id :| id in accounts && (accounts[id].email == email || accounts[id].username == username);
        found := Some(id);
      } else {
        found := None;
      }
    }

    /** `register_user`; `newId` is the id the driver generates on insert. */
    method RegisterUser(body: RegisterBody, newId: ObjectId, salt: nat, now: int)
      returns (r: Result<UserResponse, HttpError>)
      requires Valid() && newId !in accounts
      modifies this
      ensures Valid()
      ensures Step(r, State()) == Register(old(State()), body, newId, salt, now)
    {
      ghost var before := State();
      var existing := FindOne(body.email, body.username);
      if existing.Some? {
        r := Err(EmailOrUsernameExists);
        return;
      }
      var user := NewAccount(body.firstName, body.lastName, body.username, body.email,
                             HashPassword(body.password, salt), now);
      accounts := accounts[newId := user];
      r := Ok(UserResponse(newId, user.email, user.username, Some(RegisteredMessage)));
      RegisterKeepsInv(before, body, newId, salt, now);
    }

    /** `login_user`; `found` is the document the lookup returned. */
    method LoginUser(body: LoginBody, now: int)
      returns (r: Result<LoginReply, HttpError>, ghost found: Option<ObjectId>)
      requires Valid()
      modifies this
      ensures Valid()
      ensures LookupAnswer(old(accounts), body.emailOrUsername, found)
      ensures Step(r, State()) == Login(cfg, old(State()), body, now, found)
    {
      ghost var before := State();
      var lookup := FindOne(body.emailOrUsername, body.emailOrUsername);
      found := lookup;
      if lookup.None? {
        r := Err(InvalidCredentials);
        return;
      }
      var id := lookup.value;
      var user := accounts[id];
      if !VerifyPassword(body.password, user.hashedPassword) {
        r := Err(InvalidCredentials);
        return;
      }
      var accessJti := NewJti();
      var accessToken := CreateAccessToken(cfg, id, now, None, accessJti);
      var refreshJti := NewJti();
      var refreshToken := CreateRefreshToken(cfg, id, now, None, refreshJti);
      accounts := accounts[id := user.(refreshToken := Some(refreshToken))];
      r := Ok(LoginReply(UserResponse(id, user.email, user.username, Some(LoggedInMessage)),
                         accessToken, refreshToken));
      assert State() == Store(before.accounts[id := user.(refreshToken := Some(refreshToken))], before.nextJti + 2);
      assert Login(cfg, before, body, now, found) == Step(r, State());
      LoginKeepsInv(cfg, before, body, now, found);
    }

    /** `get_current_user`. */
    method GetCurrentUser(cookie: Option<Token>, now: int) returns (r: Result<ObjectId, HttpError>)
      ensures r == CurrentUser(cfg, State(), cookie, now)
    {
      if cookie.None? || cookie.value == Opaque("") {
        return Err(NotAuthenticated);
      }
      var payload := DecodeToken(cfg, cookie.value, now);
      if payload.Err? {
        return Err(UnhandledException);
      }
      var userId := payload.value.sub;
      if userId.None? || userId.value == "" {
        return Err(InvalidToken);
      }
      var uid := ParseObjectId(userId.value);
      if uid.None? {
        return Err(InvalidUserIdUnauthorized);
      }
      if uid.value !in accounts {
        return Err(UserNotFound);
      }
      r := Ok(uid.value);
    }

    /** `read_me`. */
    method ReadMe(cookie: Option<Token>, now: int) returns (r: Result<UserResponse, HttpError>)
      ensures r == Me(cfg, State(), cookie, now)
    {
      var current := GetCurrentUser(cookie, now);
      if current.Err? {
        return Err(current.error);
      }
      r := Ok(ToResponse(current.value, accounts[current.value]));
    }

    /** `logout_user`. */
    method LogoutUser(cookie: Option<Token>, now: int) returns (r: Result<string, HttpError>)
      requires Valid()
      modifies this
      ensures Valid()
      ensures Step(r, State()) == Logout(cfg, old(State()), cookie, now)
    {
      var current := GetCurrentUser(cookie, now);
      if current.Err? {
        r := Err(current.error);
        return;
      }
      var id := current.value;
      accounts := accounts[id := accounts[id].(refreshToken := None)];
      r := Ok(LoggedOutMessage);
    }

    /** `refresh_token`. */
    method RefreshToken(token: Token, now: int) returns (r: Result<TokenResponse, HttpError>)
      requires Valid()
      modifies this
      ensures Valid()
      ensures Step(r, State()) == Refresh(cfg, old(State()), token, now)
    {
      ghost var before := State();
      var payload := DecodeToken(cfg, token, now);
      if payload.Err? {
        r := Err(InvalidToken);
        return;
      }
      if payload.value.tokenType != Some(RefreshType) {
        r := Err(NotARefreshToken);
        return;
      }
      var userId := payload.value.sub;
      if userId.None? || userId.value == "" {
        r := Err(InvalidTokenPayload);
        return;
      }
      var uid := ParseObjectId(userId.value);
      if uid.None? {
        r := Err(InvalidUserIdBadRequest);
        return;
      }
      if uid.value !in accounts {
        r := Err(UserNotFound);
        return;
      }
      var userDoc := accounts[uid.value];
      if userDoc.refreshToken != Some(token) {
        r := Err(RefreshTokenInvalid);
        return;
      }
      var accessJti := NewJti();
      var newAccess := CreateAccessToken(cfg, userId.value, now, None, accessJti);
      var refreshJti := NewJti();
      var newRefresh := CreateRefreshToken(cfg, userId.value, now, None, refreshJti);
      accounts := accounts[uid.value := userDoc.(refreshToken := Some(newRefresh))];
      r := Ok(TokenResponse(newAccess, newRefresh, Bearer));
      RefreshKeepsInv(cfg, before, token, now);
    }

    /** `delete_user`. */
    method DeleteUser(userId: string) returns (r: Result<string, HttpError>)
      requires Valid()
      modifies this
      ensures Valid()
      ensures Step(r, State()) == Delete(old(State()), userId)
    {
      var uid := ParseObjectId(userId);
      if uid.None? {
        r := Err(InvalidUserIdBadRequest);
        return;
      }
      if uid.value !in accounts {
        r := Err(UserNotFound);
        return;
      }
      accounts := accounts - {uid.value};
      r := Ok(DeletedMessage);
    }
  }

  /** A session as a client sees it, on a fresh collection: register, log
      in by username, exchange the login refresh cookie, then present that
      cookie again. The exchange succeeds and the replay is refused. */
  method RotationScenario(cfg: Settings, body: RegisterBody, newId: ObjectId, salt: nat, now: int)
    returns (rotated: Result<TokenResponse, HttpError>, replay: Result<TokenResponse, HttpError>)
    requires cfg.refreshTokenExpireDays >= 0
    ensures rotated.Ok? && rotated.value.tokenType == Bearer
    ensures replay == Err(RefreshTokenInvalid)
  {
    var users := new Users(cfg);
    var registered := users.RegisterUser(body, newId, salt, now);
    var login, found := users.LoginUser(LoginBody(body.username, body.password), now);
    assert found == Some(newId);
    ParseObjectIdText(newId);
    rotated := users.RefreshToken(login.value.refreshCookie, now);
    replay := users.RefreshToken(login.value.refreshCookie, now);
  }
}
