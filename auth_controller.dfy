/**
 * The login, logout and refresh protocol of
 * backend/src/controllers/authController.js, with the two echo handlers
 * `verifyToken` and `getProfile`. Each handler runs its steps against the
 * account store and the response; a thrown `ApiError` ends the handler and is
 * answered by the global error handler.
 */
module AuthController {
  import opened Wrappers
  import opened Text
  import opened TokenCodec
  import opened Jwt
  import opened AdminModel
  import opened Http
  import opened AuthMiddleware

  const REFRESH_COOKIE := "adminRefreshToken"

  /** The `admin` object the handlers put in their replies. */
  datatype AdminSummary = AdminSummary(id: AdminId, name: string, email: string, role: string, lastLogin: Option<nat>)

  datatype AuthData =
    | LoginData(admin: AdminSummary, token: string, expiresIn: string)
    | RefreshData(token: string, expiresIn: string)
    | SessionData(admin: AdminSummary)
    | ProfileData(admin: AdminSummary, createdAt: nat)
    | NoData

  function Summary(id: AdminId, name: string, email: string, role: Role, lastLogin: Option<nat>): AdminSummary {
    AdminSummary(id, name, email, RoleName(role), lastLogin)
  }

  const MISSING_CREDENTIALS := ApiError(400, "Email and password are required", Some("MISSING_CREDENTIALS"))
  const GENERIC_LOGIN_FAILURE := "Authentication failed."
  const BAD_CREDENTIALS := "Invalid email or password."
  const LOCKED_MESSAGE := "Account temporarily locked due to too many failed login attempts."
  const INACTIVE_MESSAGE := "Account is deactivated. Please contact administrator."

  /**
   * The message of a failed login. The switch runs only when the reason code
   * is truthy, and `NOT_FOUND` is 0, so an unknown email keeps the default
   * message although the switch lists it with a wrong password.
   */
  function LoginFailureMessage(reason: FailedLogin): (m: string)
    ensures m == GENERIC_LOGIN_FAILURE <==> reason == NotFound
    ensures m == BAD_CREDENTIALS <==> reason == PasswordIncorrect
    ensures m == LOCKED_MESSAGE <==> reason in {MaxAttempts, AccountLocked}
    ensures m == INACTIVE_MESSAGE <==> reason == AccountInactive
  {
    if ReasonCode(reason) == 0 then GENERIC_LOGIN_FAILURE
    else match reason
      case NotFound => BAD_CREDENTIALS
      case PasswordIncorrect => BAD_CREDENTIALS
      case MaxAttempts => LOCKED_MESSAGE
      case AccountLocked => LOCKED_MESSAGE
      case AccountInactive => INACTIVE_MESSAGE
  }

  /** `!email || !password` */
  predicate MissingCredentials(email: Option<string>, password: Option<string>)
    ensures !MissingCredentials(email, password) ==> email.Some? && password.Some? && |email.value| > 0 && |password.value| > 0
    ensures email == Some("") || password == Some("") ==> MissingCredentials(email, password)
  {
    email.None? || email.value == [] || password.None? || password.value == []
  }

  /** The claims the backend signs for an account. */
  function PayloadFor(id: AdminId, a: Admin): (p: Payload)
    ensures p.adminId == id && p.email == a.email
  {
    Payload(id, a.email, RoleName(a.role))
  }

  /**
   * `login` once both credentials are present, for an email in stored form:
   * a failed authentication is a 401 with its message; a success stores the
   * new refresh token, sets both cookies and returns the access token. The
   * `lastLogin` reported is the one read before this login was recorded.
   */
  method LoginByStoredEmail(res: Response<AuthData>, store: AdminStore, key: string, password: string,
                       secret: string, isProduction: bool, now: nat)
    requires store.Valid()
    modifies store, res
    ensures store.Valid()
    ensures (forall id | id in old(store.docs) :: old(store.docs)[id].email != key) ==>
      store.docs == old(store.docs) && res.status == 401 && res.body == Some(Fail(GENERIC_LOGIN_FAILURE, None, None))
      && res.cookies == old(res.cookies)
    ensures forall id | id in old(store.docs) && old(store.docs)[id].email == key ::
      var a := old(store.docs)[id];
      var step := LoginStep(a, password, now);
      var pair := GenerateTokenPair(secret, PayloadFor(id, a), now);
      (step.1.Some? ==>
        store.docs == old(store.docs)[id := step.0] && res.status == 401
        && res.body == Some(Fail(LoginFailureMessage(step.1.value), None, None)) && res.cookies == old(res.cookies))
      && (step.1.None? ==>
        store.docs == old(store.docs)[id := step.0.(refreshTokens := a.refreshTokens + [RefreshEntry(pair.refreshToken, now)])]
        && HasToken(store.docs[id].refreshTokens, pair.refreshToken)
        && res.cookies == old(res.cookies) + [SetCookie(ACCESS_COOKIE, pair.accessToken, GetCookieConfig(isProduction)),
                                              SetCookie(REFRESH_COOKIE, pair.refreshToken, GetRefreshCookieConfig(isProduction))]
        && res.status == 200
        && res.body == Some(Data(LoginData(Summary(id, a.name, a.email, a.role, a.lastLogin), pair.accessToken, JWT_EXPIRE), "Login successful")))
  {
    var result := store.Authenticate(key, password, now);
    if result.Rejected? {
      res.Error(ApiError(401, LoginFailureMessage(result.reason), None));
      return;
    }
    IssueLogin(res, store, result.id, result.admin, secret, isProduction, now);
  }

  /**
   * The success path of `login`: store the new refresh token, set both
   * cookies, reply with the account as read and the access token.
   */
  method IssueLogin(res: Response<AuthData>, store: AdminStore, id: AdminId, admin: Admin,
                    secret: string, isProduction: bool, now: nat)
    requires store.Valid() && id in store.docs
    modifies store, res
    ensures store.Valid()
    ensures var pair := GenerateTokenPair(secret, PayloadFor(id, admin), now);
      store.docs == old(store.docs)[id := old(store.docs)[id].(refreshTokens := old(store.docs)[id].refreshTokens + [RefreshEntry(pair.refreshToken, now)])]
      && HasToken(store.docs[id].refreshTokens, pair.refreshToken)
      && res.cookies == old(res.cookies) + [SetCookie(ACCESS_COOKIE, pair.accessToken, GetCookieConfig(isProduction)),
                                            SetCookie(REFRESH_COOKIE, pair.refreshToken, GetRefreshCookieConfig(isProduction))]
      && res.status == 200
      && res.body == Some(Data(LoginData(Summary(id, admin.name, admin.email, admin.role, admin.lastLogin), pair.accessToken, JWT_EXPIRE), "Login successful"))
  {
    var pair := GenerateTokenPair(secret, PayloadFor(id, admin), now);
    StoreAndReply(res, store, id, admin, pair.accessToken, pair.refreshToken, isProduction, now);
  }

  /** The part of the success path of `login` that does not depend on how the tokens were made. */
  method StoreAndReply(res: Response<AuthData>, store: AdminStore, id: AdminId, admin: Admin,
                       accessToken: string, refreshToken: string, isProduction: bool, now: nat)
    requires store.Valid() && id in store.docs
    modifies store, res
    ensures store.Valid()
    ensures store.docs == old(store.docs)[id := old(store.docs)[id].(refreshTokens := old(store.docs)[id].refreshTokens + [RefreshEntry(refreshToken, now)])]
      && HasToken(store.docs[id].refreshTokens, refreshToken)
      && res.cookies == old(res.cookies) + [SetCookie(ACCESS_COOKIE, accessToken, GetCookieConfig(isProduction)),
                                            SetCookie(REFRESH_COOKIE, refreshToken, GetRefreshCookieConfig(isProduction))]
      && res.status == 200
      && res.body == Some(Data(LoginData(Summary(id, admin.name, admin.email, admin.role, admin.lastLogin), accessToken, JWT_EXPIRE), "Login successful"))
  {
    store.AddRefreshToken(id, refreshToken, now);
    assert store.docs[id].refreshTokens[|store.docs[id].refreshTokens| - 1] == RefreshEntry(refreshToken, now);
    res.Cookie(ACCESS_COOKIE, accessToken, GetCookieConfig(isProduction));
    res.Cookie(REFRESH_COOKIE, refreshToken, GetRefreshCookieConfig(isProduction));
    res.Json(200, Data(LoginData(Summary(id, admin.name, admin.email, admin.role, admin.lastLogin), accessToken, JWT_EXPIRE), "Login successful"));
  }

  /**
   * `login`: missing credentials are refused before any lookup; otherwise the
   * email is looked up in its stored form (lower-cased and trimmed by the
   * schema's setters) and authentication proceeds as above.
   */
  method Login(res: Response<AuthData>, store: AdminStore, email: Option<string>, password: Option<string>,
               secret: string, isProduction: bool, now: nat)
    requires store.Valid()
    modifies store, res
    ensures store.Valid()
    ensures MissingCredentials(email, password) ==>
      store.docs == old(store.docs) && res.status == 400 && res.body == Some(Fail(MISSING_CREDENTIALS.message, None, None))
      && res.cookies == old(res.cookies)
    ensures !MissingCredentials(email, password) && (forall id | id in old(store.docs) :: old(store.docs)[id].email != NormalizeEmail(email.value)) ==>
      store.docs == old(store.docs) && res.status == 401 && res.body == Some(Fail(GENERIC_LOGIN_FAILURE, None, None))
      && res.cookies == old(res.cookies)
    ensures !MissingCredentials(email, password) ==>
      forall id | id in old(store.docs) && old(store.docs)[id].email == NormalizeEmail(email.value) ::
        var a := old(store.docs)[id];
        var step := LoginStep(a, password.value, now);
        var pair := GenerateTokenPair(secret, PayloadFor(id, a), now);
        (step.1.Some? ==>
          store.docs == old(store.docs)[id := step.0] && res.status == 401
          && res.body == Some(Fail(LoginFailureMessage(step.1.value), None, None)) && res.cookies == old(res.cookies))
        && (step.1.None? ==>
          store.docs == old(store.docs)[id := step.0.(refreshTokens := a.refreshTokens + [RefreshEntry(pair.refreshToken, now)])]
          && HasToken(store.docs[id].refreshTokens, pair.refreshToken)
          && res.cookies == old(res.cookies) + [SetCookie(ACCESS_COOKIE, pair.accessToken, GetCookieConfig(isProduction)),
                                                SetCookie(REFRESH_COOKIE, pair.refreshToken, GetRefreshCookieConfig(isProduction))]
          && res.status == 200
          && res.body == Some(Data(LoginData(Summary(id, a.name, a.email, a.role, a.lastLogin), pair.accessToken, JWT_EXPIRE), "Login successful")))
  {
    if MissingCredentials(email, password) {
      res.Error(MISSING_CREDENTIALS);
    } else {
      LoginByStoredEmail(res, store, NormalizeEmail(email.value), password.value, secret, isProduction, now);
    }
  }

  /**
   * `logout` as intended: the presented refresh token is removed from the
   * stored account, both cookies are cleared and the reply is 200.
   */
  method Logout(req: Request, res: Response<AuthData>, store: AdminStore)
    requires store.Valid()
    modifies store, res
    ensures store.Valid()
    ensures var cookie := req.CookieValue(REFRESH_COOKIE);
      if cookie.Some? && req.admin.Some? && req.adminId.Some? && req.adminId.value in old(store.docs) then
        store.docs == old(store.docs)[req.adminId.value :=
          old(store.docs)[req.adminId.value].(refreshTokens := RemoveToken(old(store.docs)[req.adminId.value].refreshTokens, cookie.value))]
      else store.docs == old(store.docs)
    ensures res.cookies == old(res.cookies) + [CookieOp.ClearCookie(ACCESS_COOKIE), CookieOp.ClearCookie(REFRESH_COOKIE)]
    ensures res.status == 200 && res.body == Some(Data(NoData, "Logout successful"))
  {
    var cookie := req.CookieValue(REFRESH_COOKIE);
    if cookie.Some? && req.admin.Some? && req.adminId.Some? && req.adminId.value in store.docs {
      store.RemoveRefreshToken(req.adminId.value, cookie.value);
    }
    res.ClearCookie(ACCESS_COOKIE);
    res.ClearCookie(REFRESH_COOKIE);
    res.Json(200, Data(NoData, "Logout successful"));
  }

  /**
   * What `this.refreshTokens.filter(...)` throws when the document was loaded
   * without its `refreshTokens` path, as the strict gate loads `req.admin`.
   */
  const UNLOADED_TOKENS_ERROR := ApiError(0, "Cannot read properties of undefined (reading 'filter')", None)

  /**
   * `logout` as written: `req.admin` comes from the strict gate, which loads
   * the account without `refreshTokens`, so removing the presented token
   * throws before the cookies are cleared; the global handler answers 500 and
   * the stored token stays.
   */
  method LogoutAsWritten(req: Request, res: Response<AuthData>, store: AdminStore)
    modifies res
    ensures var cookie := req.CookieValue(REFRESH_COOKIE);
      if cookie.Some? && req.admin.Some? then
        res.status == 500 && res.body == Some(Fail(UNLOADED_TOKENS_ERROR.message, None, None)) && res.cookies == old(res.cookies)
      else
        res.status == 200 && res.body == Some(Data(NoData, "Logout successful"))
        && res.cookies == old(res.cookies) + [CookieOp.ClearCookie(ACCESS_COOKIE), CookieOp.ClearCookie(REFRESH_COOKIE)]
  {
    var cookie := req.CookieValue(REFRESH_COOKIE);
    if cookie.Some? && req.admin.Some? {
      res.Error(UNLOADED_TOKENS_ERROR);
      return;
    }
    res.ClearCookie(ACCESS_COOKIE);
    res.ClearCookie(REFRESH_COOKIE);
    res.Json(200, Data(NoData, "Logout successful"));
  }

  /**
   * A logged-in administrator logs out through the strict gate, presenting its
   * refresh cookie. As written, the handler fails with 500, clears no cookie
   * and the refresh token stays stored; as intended, it answers 200 and the
   * token is gone.
   */
  method LogoutScenario(secret: string, now: nat) returns (asWritten: nat, keptAsWritten: bool, intended: nat, keptIntended: bool)
    ensures asWritten == 500 && keptAsWritten
    ensures intended == 200 && !keptIntended
  {
    var id, refresh, req, store := LoggedInRequest(secret, now);

    var res1 := new Response<AuthData>();
    LogoutAsWritten(req, res1, store);
    asWritten := res1.status;
    keptAsWritten := HasToken(store.docs[id].refreshTokens, refresh);
    assert RefreshEntry(refresh, now) in store.docs[id].refreshTokens;

    var res2 := new Response<AuthData>();
    Logout(req, res2, store);
    intended := res2.status;
    RemoveTokenMembership([RefreshEntry(refresh, now)], refresh, refresh);
    keptIntended := HasToken(store.docs[id].refreshTokens, refresh);
  }

  /**
   * The state the logout scenario starts from: one account holding one
   * refresh token, and a request carrying that token and a fresh access
   * token, which has passed the strict gate.
   */
  method LoggedInRequest(secret: string, now: nat) returns (id: AdminId, refresh: string, req: Request, store: AdminStore)
    ensures fresh(req) && fresh(store) && store.Valid()
    ensures id in store.docs && store.docs[id].refreshTokens == [RefreshEntry(refresh, now)]
    ensures req.CookieValue(REFRESH_COOKIE) == Some(refresh) && req.admin.Some? && req.adminId == Some(id)
  {
    var a;
    id, refresh, a, store := OneAccountStore(now);
    var access := GenerateAccessToken(secret, PayloadFor(id, a), now);
    FreshTokenPasses(secret, id, store.docs, now, now);
    var cookies := map[ACCESS_COOKIE := access, REFRESH_COOKIE := refresh];
    assert RequestToken(cookies, None) == Some(access);
    req := new Request(cookies, None);
    var gateRes := new Response<AuthData>();
    var next := AuthenticateAdmin(req, gateRes, store, secret, now);
    assert next;
  }

  /** A store holding one active, unlocked account with one refresh token. */
  method OneAccountStore(now: nat) returns (id: AdminId, refresh: string, a: Admin, store: AdminStore)
    ensures fresh(store) && store.Valid() && store.docs == map[id := a]
    ensures a.isActive && !IsLocked(a, now) && a.refreshTokens == [RefreshEntry(refresh, now)]
    ensures refresh != []
  {
    id := 1;
    refresh := "refresh-token";
    a := Admin("Portfolio Admin", "admin@portfolio.com", HashPassword("admin123456"), RoleSuperAdmin, true,
               None, 0, None, [RefreshEntry(refresh, now)], now);
    store := new AdminStore();
    store.Insert(id, a);
  }

  const NO_REFRESH_TOKEN := ApiError(401, "Refresh token not provided", Some("NO_REFRESH_TOKEN"))
  const INVALID_REFRESH_TOKEN := ApiError(401, "Invalid refresh token", Some("INVALID_REFRESH_TOKEN"))
  const NO_LONGER_ACTIVE := ApiError(401, "Account is no longer active", Some("ACCOUNT_INACTIVE"))

  /**
   * The checks of `refreshToken`, in order: a cookie, a token that verifies
   * (its failure is a plain `Error` without status), an account that holds the
   * token, an account that is active and not locked.
   */
  function RefreshCheck(cookie: Option<string>, docs: map<AdminId, Admin>, secret: string, now: nat): (r: Result<AdminId, ApiError>)
    ensures cookie.None? ==> r == Failure(NO_REFRESH_TOKEN)
    ensures r.Failure? && r.error.statusCode == 0 <==> cookie.Some? && VerifyRefreshToken(secret, cookie.value, now).Failure?
    ensures r.Failure? && r.error.statusCode == 0 ==> r.error.message == REFRESH_VERIFY_ERROR
    ensures r.Success? ==>
      cookie.Some? && VerifyRefreshToken(secret, cookie.value, now).Success?
      && r.value == VerifyRefreshToken(secret, cookie.value, now).value.adminId
      && r.value in docs && HasToken(docs[r.value].refreshTokens, cookie.value)
      && docs[r.value].isActive && !IsLocked(docs[r.value], now)
    ensures cookie.Some? && VerifyRefreshToken(secret, cookie.value, now).Success? ==>
      var id := VerifyRefreshToken(secret, cookie.value, now).value.adminId;
      (id !in docs || !HasToken(docs[id].refreshTokens, cookie.value) ==> r == Failure(INVALID_REFRESH_TOKEN))
      && (id in docs && HasToken(docs[id].refreshTokens, cookie.value) && (!docs[id].isActive || IsLocked(docs[id], now))
          ==> r == Failure(NO_LONGER_ACTIVE))
  {
    match cookie
    case None => Failure(NO_REFRESH_TOKEN)
    case Some(token) =>
      match VerifyRefreshToken(secret, token, now)
      case Failure(message) => Failure(ApiError(0, message, None))
      case Success(payload) =>
        var id := payload.adminId;
        if id !in docs || !HasToken(docs[id].refreshTokens, token) then Failure(INVALID_REFRESH_TOKEN)
        else if !docs[id].isActive || IsLocked(docs[id], now) then Failure(NO_LONGER_ACTIVE)
        else Success(id)
  }

  /** A refresh token that does not verify ends in a 500, not a 401. */
  lemma RefreshVerifyFailureIs500(cookie: string, docs: map<AdminId, Admin>, secret: string, now: nat)
    requires VerifyRefreshToken(secret, cookie, now).Failure?
    ensures RefreshCheck(Some(cookie), docs, secret, now).Failure?
    ensures ErrorStatus(RefreshCheck(Some(cookie), docs, secret, now).error) == 500
  {
  }

  /** The token set after rotation: the presented value removed, the new one appended. */
  function Rotate(entries: seq<RefreshEntry>, presented: string, minted: string, now: nat): (r: seq<RefreshEntry>)
    ensures |r| <= |entries| + 1
    ensures |r| > 0 && r[|r| - 1] == RefreshEntry(minted, now)
    ensures forall e :: e in r <==> (e in entries && e.token != presented) || e == RefreshEntry(minted, now)
  {
    RemoveToken(entries, presented) + [RefreshEntry(minted, now)]
  }

  /**
   * After rotation the new value passes the membership check, the presented
   * one fails it unless the new value is the same string, and every other
   * value is as present as before.
   */
  lemma RotationMembership(entries: seq<RefreshEntry>, presented: string, minted: string, other: string, now: nat)
    ensures HasToken(Rotate(entries, presented, minted, now), minted)
    ensures minted != presented ==> !HasToken(Rotate(entries, presented, minted, now), presented)
    ensures other != presented && other != minted ==>
      (HasToken(Rotate(entries, presented, minted, now), other) <==> HasToken(entries, other))
  {
    var r := Rotate(entries, presented, minted, now);
    assert RefreshEntry(minted, now) in r;
    RemoveTokenMembership(entries, presented, presented);
    RemoveTokenMembership(entries, presented, other);
    if other != presented && other != minted && HasToken(r, other) {
      var e :| e in r && e.token == other;
      assert e in RemoveToken(entries, presented);
    }
  }

  /**
   * Tokens carry no unique identifier: a refresh within the second in which
   * the presented token was issued mints the very same string, which then
   * stays in the set and stays usable.
   */
  lemma SameSecondRotationKeepsToken(entries: seq<RefreshEntry>, secret: string, p: Payload, issuedAt: nat, now: nat)
    requires issuedAt / 1000 == now / 1000
    ensures GenerateTokenPair(secret, p, now).refreshToken == GenerateRefreshToken(secret, p, issuedAt)
    ensures HasToken(Rotate(entries, GenerateRefreshToken(secret, p, issuedAt), GenerateTokenPair(secret, p, now).refreshToken, now),
                     GenerateRefreshToken(secret, p, issuedAt))
  {
    SameSecondSameToken(secret, p, issuedAt, now);
    RotationMembership(entries, GenerateRefreshToken(secret, p, issuedAt), GenerateTokenPair(secret, p, now).refreshToken, "", now);
  }

  /** The two writes of the rotation: the presented token is pulled, then the new one pushed. */
  method RotateStored(store: AdminStore, id: AdminId, presented: string, token: string, now: nat)
    requires store.Valid() && id in store.docs
    modifies store
    ensures store.Valid()
    ensures var a := old(store.docs)[id];
      store.docs == old(store.docs)[id := a.(refreshTokens := Rotate(a.refreshTokens, presented, token, now))]
  {
    store.RemoveRefreshToken(id, presented);
    store.AddRefreshToken(id, token, now);
  }

  /** The success path of `refreshToken`: rotate the stored token, set both cookies, reply. */
  method IssueRotated(res: Response<AuthData>, store: AdminStore, id: AdminId, presented: string,
                      secret: string, isProduction: bool, now: nat)
    requires store.Valid() && id in store.docs
    modifies store, res
    ensures store.Valid()
    ensures var a := old(store.docs)[id];
      var pair := GenerateTokenPair(secret, PayloadFor(id, a), now);
      store.docs == old(store.docs)[id := a.(refreshTokens := Rotate(a.refreshTokens, presented, pair.refreshToken, now))]
      && res.cookies == old(res.cookies) + [SetCookie(ACCESS_COOKIE, pair.accessToken, GetCookieConfig(isProduction)),
                                            SetCookie(REFRESH_COOKIE, pair.refreshToken, GetRefreshCookieConfig(isProduction))]
      && res.status == 200 && res.body == Some(Data(RefreshData(pair.accessToken, JWT_EXPIRE), "Token refreshed successfully"))
  {
    var pair := GenerateTokenPair(secret, PayloadFor(id, store.docs[id]), now);
    RotateAndReply(res, store, id, presented, pair.accessToken, pair.refreshToken, isProduction, now);
  }

  /** The part of the success path of `refreshToken` that does not depend on how the tokens were made. */
  method RotateAndReply(res: Response<AuthData>, store: AdminStore, id: AdminId, presented: string,
                        accessToken: string, refreshToken: string, isProduction: bool, now: nat)
    requires store.Valid() && id in store.docs
    modifies store, res
    ensures store.Valid()
    ensures var a := old(store.docs)[id];
      store.docs == old(store.docs)[id := a.(refreshTokens := Rotate(a.refreshTokens, presented, refreshToken, now))]
      && res.cookies == old(res.cookies) + [SetCookie(ACCESS_COOKIE, accessToken, GetCookieConfig(isProduction)),
                                            SetCookie(REFRESH_COOKIE, refreshToken, GetRefreshCookieConfig(isProduction))]
      && res.status == 200 && res.body == Some(Data(RefreshData(accessToken, JWT_EXPIRE), "Token refreshed successfully"))
  {
    RotateStored(store, id, presented, refreshToken, now);
    res.Cookie(ACCESS_COOKIE, accessToken, GetCookieConfig(isProduction));
    res.Cookie(REFRESH_COOKIE, refreshToken, GetRefreshCookieConfig(isProduction));
    res.Json(200, Data(RefreshData(accessToken, JWT_EXPIRE), "Token refreshed successfully"));
  }

  /**
   * `refreshToken`: on any failed check the error is answered and nothing is
   * written; on success the presented token is replaced by a new one, both
   * cookies are set and the new access token is returned.
   */
  method RefreshToken(req: Request, res: Response<AuthData>, store: AdminStore, secret: string, isProduction: bool, now: nat)
    requires store.Valid()
    modifies store, res
    ensures store.Valid()
    ensures var check := RefreshCheck(req.CookieValue(REFRESH_COOKIE), old(store.docs), secret, now);
      check.Failure? ==>
        store.docs == old(store.docs) && res.status == ErrorStatus(check.error)
        && res.body == Some(Fail(check.error.message, None, None)) && res.cookies == old(res.cookies)
    ensures var check := RefreshCheck(req.CookieValue(REFRESH_COOKIE), old(store.docs), secret, now);
      check.Success? ==>
        var id := check.value;
        var a := old(store.docs)[id];
        var pair := GenerateTokenPair(secret, PayloadFor(id, a), now);
        store.docs == old(store.docs)[id := a.(refreshTokens := Rotate(a.refreshTokens, req.CookieValue(REFRESH_COOKIE).value, pair.refreshToken, now))]
        && res.cookies == old(res.cookies) + [SetCookie(ACCESS_COOKIE, pair.accessToken, GetCookieConfig(isProduction)),
                                              SetCookie(REFRESH_COOKIE, pair.refreshToken, GetRefreshCookieConfig(isProduction))]
        && res.status == 200 && res.body == Some(Data(RefreshData(pair.accessToken, JWT_EXPIRE), "Token refreshed successfully"))
  {
    var cookie := req.CookieValue(REFRESH_COOKIE);
    var check := RefreshCheck(cookie, store.docs, secret, now);
    if check.Failure? {
      res.Error(check.error);
    } else {
      IssueRotated(res, store, check.value, cookie.value, secret, isProduction, now);
    }
  }

  /** Reading a property of a missing `req.admin`. */
  const NO_ADMIN_ERROR := ApiError(0, "Cannot read properties of undefined (reading '_id')", None)

  /** `verifyToken`: echoes the account the strict gate attached. */
  method VerifyToken(req: Request, res: Response<AuthData>)
    modifies res
    ensures req.admin.Some? ==>
      res.status == 200
      && res.body == Some(Data(SessionData(Summary(req.admin.value.id, req.admin.value.name, req.admin.value.email,
                                                   req.admin.value.role, req.admin.value.lastLogin)), "Token is valid"))
    ensures req.admin.None? ==> res.status == 500
    ensures res.cookies == old(res.cookies)
  {
    if req.admin.None? {
      res.Error(NO_ADMIN_ERROR);
      return;
    }
    var v := req.admin.value;
    res.Json(200, Data(SessionData(Summary(v.id, v.name, v.email, v.role, v.lastLogin)), "Token is valid"));
  }

  /** `getProfile`: echoes the attached account with its creation time. */
  method GetProfile(req: Request, res: Response<AuthData>)
    modifies res
    ensures req.admin.Some? ==>
      res.status == 200
      && res.body == Some(Data(ProfileData(Summary(req.admin.value.id, req.admin.value.name, req.admin.value.email,
                                                   req.admin.value.role, req.admin.value.lastLogin), req.admin.value.createdAt),
                               "Profile retrieved successfully"))
    ensures req.admin.None? ==> res.status == 500
    ensures res.cookies == old(res.cookies)
  {
    if req.admin.None? {
      res.Error(NO_ADMIN_ERROR);
      return;
    }
    var v := req.admin.value;
    res.Json(200, Data(ProfileData(Summary(v.id, v.name, v.email, v.role, v.lastLogin), v.createdAt), "Profile retrieved successfully"));
  }
}
