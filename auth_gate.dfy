/**
 * The per-request gates of backend/src/middlewares/auth.js: the strict
 * authentication gate, the optional one, the role gate, the per-address
 * fixed-window rate limiter for login attempts, and the session check.
 */
module AuthMiddleware {
  import opened Wrappers
  import opened Text
  import opened TokenCodec
  import opened Jwt
  import opened AdminModel
  import opened Http

  const ACCESS_COOKIE := "adminToken"

  /**
   * The token a request presents: the `adminToken` cookie when it is
   * non-empty, otherwise the Bearer credentials of the Authorization header.
   * An empty result, as from a bare "Bearer ", counts as no token.
   */
  function RequestToken(cookies: map<string, string>, authorization: Option<string>): (r: Option<string>)
    ensures r.Some? ==> r.value != []
    ensures ACCESS_COOKIE in cookies && cookies[ACCESS_COOKIE] != [] ==> r == Some(cookies[ACCESS_COOKIE])
    ensures !(ACCESS_COOKIE in cookies && cookies[ACCESS_COOKIE] != []) ==>
      (r.Some? <==> ExtractTokenFromHeader(authorization).Some? && ExtractTokenFromHeader(authorization).value != [])
    ensures !(ACCESS_COOKIE in cookies && cookies[ACCESS_COOKIE] != []) && r.Some? ==> authorization == Some(BEARER + r.value)
  {
    if ACCESS_COOKIE in cookies && cookies[ACCESS_COOKIE] != [] then Some(cookies[ACCESS_COOKIE])
    else if authorization.None? || authorization.value == [] then None
    else match ExtractTokenFromHeader(authorization)
      case None => None
      case Some(t) => if t == [] then None else Some(t)
  }

  /** A rejection written by a gate: `res.status(status).json({ success: false, message, code })`. */
  datatype Rejection = Rejection(status: nat, message: string, code: string)

  const NO_TOKEN := Rejection(401, "Access denied. No authentication token provided.", "NO_TOKEN")
  const USER_NOT_FOUND := Rejection(401, "Access denied. Admin user not found.", "USER_NOT_FOUND")
  const ACCOUNT_INACTIVE := Rejection(401, "Access denied. Account is deactivated.", "ACCOUNT_INACTIVE")
  const ACCOUNT_LOCKED := Rejection(401, "Access denied. Account is temporarily locked.", "ACCOUNT_LOCKED")
  const TOKEN_EXPIRED := Rejection(401, "Access denied. Token has expired.", "TOKEN_EXPIRED")
  const INVALID_TOKEN := Rejection(401, "Access denied. Invalid token.", "INVALID_TOKEN")
  const AUTH_FAILED := Rejection(401, "Access denied. Authentication failed.", "AUTH_FAILED")

  /** The strict gate's catch block: "expired" is looked for first, then "invalid" or "malformed". */
  function ClassifyError(message: string): (r: Rejection)
    ensures Contains(message, "expired") <==> r == TOKEN_EXPIRED
    ensures r == INVALID_TOKEN <==> !Contains(message, "expired") && (Contains(message, "invalid") || Contains(message, "malformed"))
    ensures r in {TOKEN_EXPIRED, INVALID_TOKEN, AUTH_FAILED}
  {
    if Contains(message, "expired") then TOKEN_EXPIRED
    else if Contains(message, "invalid") || Contains(message, "malformed") then INVALID_TOKEN
    else AUTH_FAILED
  }

  /**
   * `authenticateAdmin` as a decision: no token, then the verifier's failure
   * as classified, then a missing account, then an inactive one, then a
   * locked one; otherwise the id of the account the token names.
   */
  function StrictGate(token: Option<string>, docs: map<AdminId, Admin>, secret: string, now: nat): (r: Result<AdminId, Rejection>)
    ensures r.Success? <==>
      token.Some? && VerifyAccessToken(secret, token.value, now).Success?
      && VerifyAccessToken(secret, token.value, now).value.adminId in docs
      && docs[VerifyAccessToken(secret, token.value, now).value.adminId].isActive
      && !IsLocked(docs[VerifyAccessToken(secret, token.value, now).value.adminId], now)
    ensures r.Success? ==> r.value == VerifyAccessToken(secret, token.value, now).value.adminId
    ensures token.None? ==> r == Failure(NO_TOKEN)
    ensures token.Some? && VerifyAccessToken(secret, token.value, now).Success? ==>
      var id := VerifyAccessToken(secret, token.value, now).value.adminId;
      (id !in docs ==> r == Failure(USER_NOT_FOUND))
      && (id in docs && !docs[id].isActive ==> r == Failure(ACCOUNT_INACTIVE))
      && (id in docs && docs[id].isActive && IsLocked(docs[id], now) ==> r == Failure(ACCOUNT_LOCKED))
    ensures r.Failure? ==> r.error.status == 401
  {
    match token
    case None => Failure(NO_TOKEN)
    case Some(t) =>
      match VerifyAccessToken(secret, t, now)
      case Failure(message) => Failure(ClassifyError(message))
      case Success(payload) =>
        if payload.adminId !in docs then Failure(USER_NOT_FOUND)
        else if !docs[payload.adminId].isActive then Failure(ACCOUNT_INACTIVE)
        else if IsLocked(docs[payload.adminId], now) then Failure(ACCOUNT_LOCKED)
        else Success(payload.adminId)
  }

  /** The verifier's single message mentions "expired", so the catch block always answers TOKEN_EXPIRED. */
  lemma VerifyFailureIsTokenExpired(secret: string, token: string, now: nat, docs: map<AdminId, Admin>)
    requires VerifyAccessToken(secret, token, now).Failure?
    ensures StrictGate(Some(token), docs, secret, now) == Failure(TOKEN_EXPIRED)
  {
    var message := ACCESS_VERIFY_ERROR;
    assert message[11..11 + |"expired"|] == "expired";
    ContainsAt(message, "expired", 11);
  }

  /** Hence the gate never answers INVALID_TOKEN or AUTH_FAILED. */
  lemma InvalidTokenUnreachable(token: Option<string>, docs: map<AdminId, Admin>, secret: string, now: nat)
    ensures StrictGate(token, docs, secret, now) != Failure(INVALID_TOKEN)
    ensures StrictGate(token, docs, secret, now) != Failure(AUTH_FAILED)
  {
    if token.Some? && VerifyAccessToken(secret, token.value, now).Failure? {
      VerifyFailureIsTokenExpired(secret, token.value, now, docs);
    }
  }

  /** A live access token of an active, unlocked account passes the gate, for that account. */
  lemma FreshTokenPasses(secret: string, id: AdminId, docs: map<AdminId, Admin>, issuedAt: nat, now: nat)
    requires id in docs && docs[id].isActive && !IsLocked(docs[id], now)
    requires now / 1000 < issuedAt / 1000 + ACCESS_TOKEN_SECONDS
    ensures StrictGate(Some(GenerateAccessToken(secret, Payload(id, docs[id].email, RoleName(docs[id].role)), issuedAt)), docs, secret, now)
      == Success(id)
  {
    AccessTokenRoundTrip(secret, Payload(id, docs[id].email, RoleName(docs[id].role)), issuedAt, now);
  }

  /**
   * `authenticateAdmin`: either the request gets the account (without password
   * and refresh tokens) and `next` runs, or a 401 is written and the request is
   * left alone.
   */
  method AuthenticateAdmin<D>(req: Request, res: Response<D>, store: AdminStore, secret: string, now: nat) returns (next: bool)
    modifies req`admin, req`adminId, res
    ensures var r := StrictGate(RequestToken(req.cookies, req.authorization), store.docs, secret, now);
      (next <==> r.Success?)
      && (next ==> req.adminId == Some(r.value) && req.admin == Some(ViewOf(r.value, store.docs[r.value]))
                   && unchanged(res))
      && (!next ==> res.status == r.error.status && res.body == Some(Fail(r.error.message, Some(r.error.code), None))
                    && res.cookies == old(res.cookies)
                    && req.admin == old(req.admin) && req.adminId == old(req.adminId))
  {
    var token := RequestToken(req.cookies, req.authorization);
    var r := StrictGate(token, store.docs, secret, now);
    if r.Failure? {
      res.Json(r.error.status, Fail(r.error.message, Some(r.error.code), None));
      return false;
    }
    req.admin := Some(ViewOf(r.value, store.docs[r.value]));
    req.adminId := Some(r.value);
    return true;
  }

  /**
   * `optionalAuth`: never answers and always continues; the account is
   * attached only when the token verifies and the account exists, is active
   * and is not locked.
   */
  method OptionalAuth(req: Request, store: AdminStore, secret: string, now: nat)
    modifies req`admin, req`adminId
    ensures var r := StrictGate(RequestToken(req.cookies, req.authorization), store.docs, secret, now);
      (r.Success? ==> req.adminId == Some(r.value) && req.admin == Some(ViewOf(r.value, store.docs[r.value])))
      && (r.Failure? ==> req.admin == old(req.admin) && req.adminId == old(req.adminId))
  {
    var token := RequestToken(req.cookies, req.authorization);
    if token.Some? {
      var verified := VerifyAccessToken(secret, token.value, now);
      if verified.Success? {
        var id := verified.value.adminId;
        if id in store.docs && store.docs[id].isActive && !IsLocked(store.docs[id], now) {
          req.admin := Some(ViewOf(id, store.docs[id]));
          req.adminId := Some(id);
        }
      }
    }
  }

  const AUTH_REQUIRED := Rejection(401, "Access denied. Authentication required.", "AUTH_REQUIRED")
  const INSUFFICIENT_PERMISSIONS := Rejection(403, "Access denied. Insufficient permissions.", "INSUFFICIENT_PERMISSIONS")

  /** `authorize(roles)`: an empty list admits every authenticated account. */
  function Authorize(admin: Option<AdminView>, roles: seq<string>): (r: Option<Rejection>)
    ensures r.None? <==> admin.Some? && (roles == [] || RoleName(admin.value.role) in roles)
    ensures admin.None? ==> r == Some(AUTH_REQUIRED)
    ensures admin.Some? && r.Some? ==> r == Some(INSUFFICIENT_PERMISSIONS)
  {
    if admin.None? then Some(AUTH_REQUIRED)
    else if |roles| > 0 && RoleName(admin.value.role) !in roles then Some(INSUFFICIENT_PERMISSIONS)
    else None
  }

  /** A super admin passes any role list that names it; an admin never passes a list of super admins only. */
  lemma AuthorizeSuperAdminOnly(v: AdminView)
    ensures Authorize(Some(v), ["super_admin"]).None? <==> v.role == RoleSuperAdmin
  {
  }

  /** One address's counter: `{ count, resetTime }`. */
  datatype Window = Window(count: nat, resetTime: nat)

  /** Fifteen minutes, in milliseconds. */
  const WINDOW_MS: nat := 15 * 60 * 1000
  const MAX_AUTH_ATTEMPTS: nat := 10

  function RateKey(ip: string): string {
    "auth_attempts_" + ip
  }

  /** `Math.ceil(ms / 1000)` for a non-negative number of milliseconds. */
  function CeilSeconds(ms: nat): (s: nat)
    ensures s * 1000 >= ms && (s == 0 || (s - 1) * 1000 < ms)
  {
    (ms + 999) / 1000
  }

  /**
   * One pass through `authRateLimit` for a stored window (or none): the
   * window after the request, whether the request may proceed, and the
   * `retryAfter` of a refusal.
   */
  function RateStep(w: Option<Window>, now: nat): (r: (Window, bool, nat))
    ensures var start := if w.None? || now > w.value.resetTime then Window(0, now + WINDOW_MS) else w.value;
      (r.1 <==> start.count < MAX_AUTH_ATTEMPTS)
      && (r.1 ==> r.0 == start.(count := start.count + 1))
      && (!r.1 ==> r.0 == start && w == Some(start) && now <= start.resetTime
                   && r.2 == CeilSeconds(start.resetTime - now))
  {
    var start := if w.None? || now > w.value.resetTime then Window(0, now + WINDOW_MS) else w.value;
    if start.count >= MAX_AUTH_ATTEMPTS then (start, false, CeilSeconds(start.resetTime - now))
    else (start.(count := start.count + 1), true, 0)
  }

  /** How many of a run of requests get through, and the window afterwards. */
  function Admitted(w: Window, times: seq<nat>): (r: (Window, nat))
    decreases |times|
  {
    if times == [] then (w, 0)
    else
      var step := RateStep(Some(w), times[0]);
      var rest := Admitted(step.0, times[1..]);
      (rest.0, rest.1 + (if step.1 then 1 else 0))
  }

  /**
   * Within one window no more requests get through than the window has room
   * for: exactly the first `10 - count`.
   */
  lemma {:induction false} AdmittedWithinWindow(w: Window, times: seq<nat>)
    requires w.count <= MAX_AUTH_ATTEMPTS
    requires forall i | 0 <= i < |times| :: times[i] <= w.resetTime
    ensures Admitted(w, times).1 == Min(|times|, MAX_AUTH_ATTEMPTS - w.count)
    ensures Admitted(w, times).0.resetTime == w.resetTime
    decreases |times|
  {
    if times != [] {
      var step := RateStep(Some(w), times[0]);
      AdmittedWithinWindow(step.0, times[1..]);
    }
  }

  /** From an address's first request, at most ten requests get through in the next fifteen minutes. */
  lemma AtMostTenPerWindow(first: nat, times: seq<nat>)
    requires forall i | 0 <= i < |times| :: times[i] <= first + WINDOW_MS
    ensures 1 + Admitted(RateStep(None, first).0, times).1 <= MAX_AUTH_ATTEMPTS
  {
    AdmittedWithinWindow(RateStep(None, first).0, times);
  }

  const RATE_LIMIT_EXCEEDED := "RATE_LIMIT_EXCEEDED"

  /** The process-wide map of counters behind `authRateLimit`. */
  class RateLimiter {
    var attempts: map<string, Window>

    constructor()
      ensures attempts == map[]
    {
      attempts := map[];
    }

    /**
     * `authRateLimit`: a refusal answers 429 and leaves every counter as it
     * was; an admitted request stores its address's advanced window; other
     * addresses are never touched.
     */
    method Check<D>(ip: string, res: Response<D>, now: nat) returns (next: bool)
      modifies this, res
      ensures var key := RateKey(ip);
        var step := RateStep(if key in old(attempts) then Some(old(attempts)[key]) else None, now);
        (next <==> step.1)
        && (next ==> attempts == old(attempts)[key := step.0] && unchanged(res))
        && (!next ==> attempts == old(attempts)
                      && res.status == 429
                      && res.body == Some(Fail("Too many authentication attempts. Please try again later.", Some(RATE_LIMIT_EXCEEDED), Some(step.2)))
                      && res.cookies == old(res.cookies))
    {
      var key := RateKey(ip);
      var step := RateStep(if key in attempts then Some(attempts[key]) else None, now);
      if !step.1 {
        res.Json(429, Fail("Too many authentication attempts. Please try again later.", Some(RATE_LIMIT_EXCEEDED), Some(step.2)));
        return false;
      }
      attempts := attempts[key := step.0];
      return true;
    }
  }

  const INVALID_SESSION := Rejection(401, "Invalid session. Please login again.", "INVALID_SESSION")

  /** `validateSession`: without an account on the request, 401; otherwise the stored `lastLogin` becomes `now`. */
  method ValidateSession<D>(req: Request, res: Response<D>, store: AdminStore, now: nat) returns (next: bool)
    requires store.Valid()
    modifies res, store
    ensures store.Valid()
    ensures next <==> req.admin.Some?
    ensures !next ==>
      store.docs == old(store.docs) && res.status == 401
      && res.body == Some(Fail(INVALID_SESSION.message, Some(INVALID_SESSION.code), None))
    ensures next && req.adminId.Some? && req.adminId.value in old(store.docs) ==>
      store.docs == old(store.docs)[req.adminId.value := old(store.docs)[req.adminId.value].(lastLogin := Some(now))]
    ensures next && (req.adminId.None? || req.adminId.value !in old(store.docs)) ==> store.docs == old(store.docs)
    ensures next ==> unchanged(res)
  {
    if req.admin.None? {
      res.Json(INVALID_SESSION.status, Fail(INVALID_SESSION.message, Some(INVALID_SESSION.code), None));
      return false;
    }
    if req.adminId.Some? {
      store.SetLastLogin(req.adminId.value, now);
    }
    return true;
  }
}
