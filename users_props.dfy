/** What the user routes guarantee across requests: the account invariant
    is kept by every handler, and a refresh token that has been rotated out
    or cleared by logout is rejected by every later refresh. */
module UserRoutesProperties {
  import opened Common
  import opened Config
  import opened Auth
  import opened UserModel
  import opened UserRoutes

  /** One request to the user routes, with what the environment supplies:
      the clock, the salt, the id the driver generates for a new document
      and the document the collection answers to a login lookup. */
  datatype Request =
    | RegisterRequest(body: RegisterBody, newId: ObjectId, salt: nat, now: int)
    | LoginRequest(login: LoginBody, now: int, found: Option<ObjectId>)
    | LogoutRequest(cookie: Option<Token>, now: int)
    | RefreshRequest(token: Token, now: int)
    | DeleteRequest(userId: string)
    | MeRequest(cookie: Option<Token>, now: int)

  /** The environment keeps its promises: fresh document ids, and lookup
      answers that match the identifier. */
  ghost predicate Admissible(s: Store, req: Request)
  {
    match req
    case RegisterRequest(_, newId, _, _) => newId !in s.accounts
    case LoginRequest(login, _, found) => LookupAnswer(s.accounts, login.emailOrUsername, found)
    case _ => true
  }

  /** The collection after one request. */
  function Apply(cfg: Settings, s: Store, req: Request): Store
    requires Admissible(s, req)
  {
    match req
    case RegisterRequest(body, newId, salt, now) => Register(s, body, newId, salt, now).next
    case LoginRequest(login, now, found) => Login(cfg, s, login, now, found).next
    case LogoutRequest(cookie, now) => Logout(cfg, s, cookie, now).next
    case RefreshRequest(token, now) => Refresh(cfg, s, token, now).next
    case DeleteRequest(userId) => Delete(s, userId).next
    case MeRequest(_, _) => s
  }

  /** Serving `reqs` in order, starting from `s`, leaves `t`. */
  ghost predicate Reaches(cfg: Settings, s: Store, reqs: seq<Request>, t: Store)
    decreases |reqs|
  {
    if reqs == [] then t == s
    else Admissible(s, reqs[0]) && Reaches(cfg, Apply(cfg, s, reqs[0]), reqs[1..], t)
  }

  // ---------------------------------------------------------------------
  // The invariant

  lemma RegisterKeepsInv(s: Store, body: RegisterBody, newId: ObjectId, salt: nat, now: int)
    requires Inv(s) && newId !in s.accounts
    ensures Inv(Register(s, body, newId, salt, now).next)
  {
    var r := Register(s, body, newId, salt, now);
    if r.out.Ok? {
      var m := r.next.accounts;
      forall id | id in s.accounts
        ensures m[id].username != body.username && m[id].email != body.email
      {
        assert !Clashes(s.accounts[id], body);
      }
    }
  }

  lemma LoginKeepsInv(cfg: Settings, s: Store, body: LoginBody, now: int, found: Option<ObjectId>)
    requires Inv(s) && LookupAnswer(s.accounts, body.emailOrUsername, found)
    ensures Inv(Login(cfg, s, body, now, found).next)
  {
    var r := Login(cfg, s, body, now, found);
    if r.out.Ok? {
      var m := r.next.accounts;
      var id := found.value;
      forall a | a in m && a != id ensures m[a].refreshToken != m[id].refreshToken {
        assert Issued(s.accounts[a].refreshToken, s.nextJti);
      }
    }
  }

  lemma RefreshKeepsInv(cfg: Settings, s: Store, token: Token, now: int)
    requires Inv(s)
    ensures Inv(Refresh(cfg, s, token, now).next)
  {
    var r := Refresh(cfg, s, token, now);
    if r.out.Ok? {
      var m := r.next.accounts;
      var id := SubjectId(token.claims).value;
      forall a | a in m && a != id ensures m[a].refreshToken != m[id].refreshToken {
        assert Issued(s.accounts[a].refreshToken, s.nextJti);
      }
    }
  }

  lemma ApplyKeepsInv(cfg: Settings, s: Store, req: Request)
    requires Inv(s) && Admissible(s, req)
    ensures Inv(Apply(cfg, s, req))
  {
    match req
    case RegisterRequest(body, newId, salt, now) => RegisterKeepsInv(s, body, newId, salt, now);
    case LoginRequest(login, now, found) => LoginKeepsInv(cfg, s, login, now, found);
    case RefreshRequest(token, now) => RefreshKeepsInv(cfg, s, token, now);
    case LogoutRequest(_, _) =>
    case DeleteRequest(_) =>
    case MeRequest(_, _) =>
  }

  // ---------------------------------------------------------------------
  // Retired refresh tokens

  /** A token that was issued but is no longer stored in any account. */
  ghost predicate Retired(s: Store, t: Token)
  {
    && t.Jwt? && t.claims.jti < s.nextJti
    && forall id | id in s.accounts :: s.accounts[id].refreshToken != Some(t)
  }

  /** A retired token is refused, whatever the time, and changes nothing. */
  lemma RetiredIsRejected(cfg: Settings, s: Store, t: Token, now: int)
    requires Retired(s, t)
    ensures Refresh(cfg, s, t, now).out.Err? && Refresh(cfg, s, t, now).next == s
  {
  }

  /** No request brings a retired token back: every token written into an
      account afterwards has a fresh id. */
  lemma ApplyKeepsRetired(cfg: Settings, s: Store, req: Request, t: Token)
    requires Admissible(s, req) && Retired(s, t)
    ensures Retired(Apply(cfg, s, req), t)
  {
  }

  /** Along any sequence of requests the invariant holds and a retired token
      stays retired. */
  lemma {:induction false} RetiredForever(cfg: Settings, s: Store, reqs: seq<Request>, s': Store, t: Token)
    requires Inv(s) && Retired(s, t) && Reaches(cfg, s, reqs, s')
    ensures Inv(s') && Retired(s', t)
    decreases |reqs|
  {
    if reqs != [] {
      ApplyKeepsInv(cfg, s, reqs[0]);
      ApplyKeepsRetired(cfg, s, reqs[0], t);
      RetiredForever(cfg, Apply(cfg, s, reqs[0]), reqs[1..], s', t);
    }
  }

  /** A successful refresh retires the token it was given. */
  lemma RefreshRetiresPresented(cfg: Settings, s: Store, t: Token, now: int)
    requires Inv(s) && Refresh(cfg, s, t, now).out.Ok?
    ensures Retired(Refresh(cfg, s, t, now).next, t)
  {
    var r := Refresh(cfg, s, t, now);
    var id := SubjectId(t.claims).value;
    assert Issued(s.accounts[id].refreshToken, s.nextJti);
    forall other | other in r.next.accounts && other != id
      ensures r.next.accounts[other].refreshToken != Some(t)
    {
      assert s.accounts[other].refreshToken != s.accounts[id].refreshToken;
    }
  }

  /** Replay after rotation: once a refresh token has been exchanged, it is
      refused by every later refresh, after any sequence of requests; while
      it still decodes and its account exists, it is refused by the
      comparison with the stored token. */
  lemma SupersededTokenNeverAcceptedAgain(cfg: Settings, s: Store, t: Token, now: int,
                                           reqs: seq<Request>, s': Store, later: int)
    requires Inv(s) && Refresh(cfg, s, t, now).out.Ok?
    requires Reaches(cfg, Refresh(cfg, s, t, now).next, reqs, s')
    ensures Refresh(cfg, s', t, later).out.Err? && Refresh(cfg, s', t, later).next == s'
    ensures DecodeToken(cfg, t, later).Ok? && SubjectId(t.claims).value in s'.accounts ==>
              Refresh(cfg, s', t, later).out == Err(RefreshTokenInvalid)
  {
    RefreshKeepsInv(cfg, s, t, now);
    RefreshRetiresPresented(cfg, s, t, now);
    RetiredForever(cfg, Refresh(cfg, s, t, now).next, reqs, s', t);
    RetiredIsRejected(cfg, s', t, later);
  }

  /** Logout retires the refresh token the account held. */
  lemma LogoutRetiresStored(cfg: Settings, s: Store, cookie: Option<Token>, now: int, t: Token)
    requires Inv(s) && Logout(cfg, s, cookie, now).out.Ok?
    requires s.accounts[CurrentUser(cfg, s, cookie, now).value].refreshToken == Some(t)
    ensures Retired(Logout(cfg, s, cookie, now).next, t)
  {
    var id := CurrentUser(cfg, s, cookie, now).value;
    var r := Logout(cfg, s, cookie, now);
    assert Issued(s.accounts[id].refreshToken, s.nextJti);
    forall other | other in r.next.accounts && other != id
      ensures r.next.accounts[other].refreshToken != Some(t)
    {
      assert s.accounts[other].refreshToken != s.accounts[id].refreshToken;
    }
  }

  /** The refresh token held at logout is refused by every later refresh. */
  lemma LoggedOutTokenNeverAccepted(cfg: Settings, s: Store, cookie: Option<Token>, now: int, t: Token,
                                    reqs: seq<Request>, s': Store, later: int)
    requires Inv(s) && Logout(cfg, s, cookie, now).out.Ok?
    requires s.accounts[CurrentUser(cfg, s, cookie, now).value].refreshToken == Some(t)
    requires Reaches(cfg, Logout(cfg, s, cookie, now).next, reqs, s')
    ensures Refresh(cfg, s', t, later).out.Err? && Refresh(cfg, s', t, later).next == s'
  {
    LogoutRetiresStored(cfg, s, cookie, now, t);
    RetiredForever(cfg, Logout(cfg, s, cookie, now).next, reqs, s', t);
    RetiredIsRejected(cfg, s', t, later);
  }

  // ---------------------------------------------------------------------
  // Logout

  /** No login for account `id` among the requests. */
  ghost predicate NoLoginFor(reqs: seq<Request>, id: ObjectId)
  {
    forall i | 0 <= i < |reqs| :: !(reqs[i].LoginRequest? && reqs[i].found == Some(id))
  }

  ghost predicate SlotEmpty(s: Store, id: ObjectId)
  {
    id in s.accounts ==> s.accounts[id].refreshToken == None
  }

  lemma ApplyKeepsSlotEmpty(cfg: Settings, s: Store, req: Request, id: ObjectId)
    requires Admissible(s, req) && SlotEmpty(s, id)
    requires !(req.LoginRequest? && req.found == Some(id))
    ensures SlotEmpty(Apply(cfg, s, req), id)
  {
  }

  /** After logout the account's refresh slot stays empty until it logs in
      again, so every refresh naming it fails with "Refresh token invalid"
      (or an earlier check). */
  lemma {:induction false} EmptySlotUntilLogin(cfg: Settings, s: Store, reqs: seq<Request>, s': Store, id: ObjectId)
    requires SlotEmpty(s, id) && Reaches(cfg, s, reqs, s') && NoLoginFor(reqs, id)
    ensures SlotEmpty(s', id)
    decreases |reqs|
  {
    if reqs != [] {
      assert !(reqs[0].LoginRequest? && reqs[0].found == Some(id));
      ApplyKeepsSlotEmpty(cfg, s, reqs[0], id);
      assert NoLoginFor(reqs[1..], id) by {
        forall i | 0 <= i < |reqs[1..]| ensures !(reqs[1..][i].LoginRequest? && reqs[1..][i].found == Some(id)) {
          assert reqs[1..][i] == reqs[i + 1];
        }
      }
      EmptySlotUntilLogin(cfg, Apply(cfg, s, reqs[0]), reqs[1..], s', id);
    }
  }

  lemma NoRefreshAfterLogoutUntilLogin(cfg: Settings, s: Store, cookie: Option<Token>, now: int,
                                       reqs: seq<Request>, s': Store, t: Token, later: int)
    requires Logout(cfg, s, cookie, now).out.Ok?
    requires Reaches(cfg, Logout(cfg, s, cookie, now).next, reqs, s')
    requires NoLoginFor(reqs, CurrentUser(cfg, s, cookie, now).value)
    requires t.Jwt? && SubjectId(t.claims) == Some(CurrentUser(cfg, s, cookie, now).value)
    ensures Refresh(cfg, s', t, later).out.Err?
    ensures DecodeToken(cfg, t, later).Ok? && t.claims.tokenType == Some(RefreshType)
            && CurrentUser(cfg, s, cookie, now).value in s'.accounts
            ==> Refresh(cfg, s', t, later).out == Err(RefreshTokenInvalid)
  {
    EmptySlotUntilLogin(cfg, Logout(cfg, s, cookie, now).next, reqs, s', CurrentUser(cfg, s, cookie, now).value);
  }

  /** Logging out twice with the same cookie changes nothing more. */
  lemma LogoutIdempotent(cfg: Settings, s: Store, cookie: Option<Token>, now: int)
    ensures var first := Logout(cfg, s, cookie, now);
            Logout(cfg, first.next, cookie, now) == first
  {
    var first := Logout(cfg, s, cookie, now);
    if first.out.Ok? {
      var id := CurrentUser(cfg, s, cookie, now).value;
      assert CurrentUser(cfg, first.next, cookie, now) == Ok(id);
      assert first.next.accounts[id := first.next.accounts[id].(refreshToken := None)] == first.next.accounts;
    }
  }

  // ---------------------------------------------------------------------
  // Login followed by refresh

  /** The refresh cookie handed out at login is accepted by refresh while it
      is unexpired; the new token it is exchanged for is accepted next, and
      the login cookie is refused from then on, by the comparison with the
      stored token while it is unexpired. */
  lemma LoginThenRefresh(cfg: Settings, s: Store, body: LoginBody, now: int, found: Option<ObjectId>,
                         later: int, latest: int)
    requires Inv(s) && LookupAnswer(s.accounts, body.emailOrUsername, found)
    requires Login(cfg, s, body, now, found).out.Ok?
    requires later <= Login(cfg, s, body, now, found).out.value.refreshCookie.claims.exp
    ensures var afterLogin := Login(cfg, s, body, now, found);
            var cookie := afterLogin.out.value.refreshCookie;
            var rotated := Refresh(cfg, afterLogin.next, cookie, later);
            && rotated.out.Ok?
            && Refresh(cfg, rotated.next, cookie, latest).out.Err?
            && (latest <= cookie.claims.exp ==> Refresh(cfg, rotated.next, cookie, latest).out == Err(RefreshTokenInvalid))
            && (latest <= rotated.out.value.refreshToken.claims.exp ==>
                  Refresh(cfg, rotated.next, rotated.out.value.refreshToken, latest).out.Ok?)
  {
    var afterLogin := Login(cfg, s, body, now, found);
    var cookie := afterLogin.out.value.refreshCookie;
    var id := found.value;
    ParseObjectIdText(id);
    assert SubjectId(cookie.claims) == Some(id);
    LoginKeepsInv(cfg, s, body, now, found);
    var rotated := Refresh(cfg, afterLogin.next, cookie, later);
    assert rotated.out.Ok?;
    RefreshRetiresPresented(cfg, afterLogin.next, cookie, later);
    var newest := rotated.out.value.refreshToken;
    assert SubjectId(newest.claims) == Some(id);
  }

  /** `get_current_user` does not look at the "type" claim: the refresh
      cookie handed out at login authenticates as well as the access cookie. */
  lemma RefreshCookieAuthenticates(cfg: Settings, s: Store, body: LoginBody, now: int, found: Option<ObjectId>,
                                   later: int)
    requires LookupAnswer(s.accounts, body.emailOrUsername, found)
    requires Login(cfg, s, body, now, found).out.Ok?
    requires later <= Login(cfg, s, body, now, found).out.value.refreshCookie.claims.exp
    ensures var afterLogin := Login(cfg, s, body, now, found);
            CurrentUser(cfg, afterLogin.next, Some(afterLogin.out.value.refreshCookie), later) == Ok(found.value)
  {
    ParseObjectIdText(found.value);
  }

  /** With the default settings the login cookies expire 15 minutes and 7
      days after login, and the access cookie authenticates as the account
      up to its expiry; after it, decoding raises and the handler fails
      with an unhandled exception. */
  lemma LoginAccessCookieAuthenticates(cfg: Settings, s: Store, body: LoginBody, now: int,
                                       found: Option<ObjectId>, at: int)
    requires cfg.accessTokenExpireMinutes == AccessTokenExpireMinutes
    requires cfg.refreshTokenExpireDays == RefreshTokenExpireDays
    requires LookupAnswer(s.accounts, body.emailOrUsername, found)
    requires Login(cfg, s, body, now, found).out.Ok?
    ensures var reply := Login(cfg, s, body, now, found).out.value;
            reply.accessCookie.claims.exp == now + 900 && reply.refreshCookie.claims.exp == now + 604800
    ensures var afterLogin := Login(cfg, s, body, now, found);
            CurrentUser(cfg, afterLogin.next, Some(afterLogin.out.value.accessCookie), at)
              == if at <= now + 900 then Ok(found.value) else Err(UnhandledException)
  {
    ParseObjectIdText(found.value);
    DefaultLifetimes(cfg, found.value, now, s.nextJti);
    DefaultLifetimes(cfg, found.value, now, s.nextJti + 1);
  }

  // ---------------------------------------------------------------------
  // Registration and responses

  /** After registering, a lookup by the new email finds the new account,
      unless an older account has that text as its username: the
      registration check compares email with email and username with
      username only. */
  lemma RegisteredAccountIsFound(s: Store, body: RegisterBody, newId: ObjectId, salt: nat, now: int,
                                 found: Option<ObjectId>)
    requires Inv(s) && newId !in s.accounts
    requires Register(s, body, newId, salt, now).out.Ok?
    requires LookupAnswer(Register(s, body, newId, salt, now).next.accounts, body.email, found)
    ensures found.Some?
    ensures found == Some(newId) || (found.value in s.accounts && s.accounts[found.value].username == body.email)
  {
    var m := Register(s, body, newId, salt, now).next.accounts;
    assert Matches(m[newId], body.email);
    if found.Some? && found.value != newId {
      assert !Clashes(s.accounts[found.value], body);
    }
  }

  /** A 24-character id text padded with whitespace is accepted by the id
      parser as a short id, which in this model names no stored document:
      deleting it answers "User not found", not "Invalid user id", and
      changes nothing. */
  lemma PaddedIdIsNotFound(s: Store)
    ensures Delete(s, "0123456789abcdef012345  ") == Step(Err(UserNotFound), s)
  {
    PaddedTextParsesToShortId();
  }

  /** The public projection of an account depends on its id, email and
      username only: the password hash and the refresh token never reach it. */
  lemma ResponseHidesSecrets(id: ObjectId, a: Account, b: Account)
    requires a.email == b.email && a.username == b.username
    ensures ToResponse(id, a) == ToResponse(id, b)
  {
  }
}
