/**
 * The administrator account (backend/src/models/Admin.js): the lockout state
 * machine driven by failed logins, the ordered credential check of
 * `getAuthenticated`, and the set of refresh tokens an account holds. The
 * collection of accounts is an `AdminStore` whose records are replaced as
 * `updateOne` and `save` write them.
 */
module AdminModel {
  import opened Wrappers
  import opened Text

  type AdminId = nat

  datatype Role = RoleAdmin | RoleSuperAdmin

  /** The role as stored and as carried in token payloads. */
  function RoleName(r: Role): (s: string)
    ensures s == "admin" || s == "super_admin"
    ensures s == "admin" <==> r == RoleAdmin
  {
    match r
    case RoleAdmin => "admin"
    case RoleSuperAdmin => "super_admin"
  }

  /**
   * A bcrypt digest as an ideal one-way function: salt and digest are not
   * modelled; the hash remembers what it was made from, so that comparing a
   * candidate succeeds exactly for that password.
   */
  datatype PasswordHash = BcryptHash(cost: nat, source: string)

  const BCRYPT_COST: nat := 12

  /** `bcrypt.compare(candidate, hash)` */
  predicate ComparePassword(candidate: string, h: PasswordHash)
    ensures ComparePassword(candidate, h) <==> h == BcryptHash(h.cost, candidate)
  {
    candidate == h.source
  }

  /** The pre-save hook's `bcrypt.hash(password, 12)`. */
  function HashPassword(plain: string): (h: PasswordHash)
    ensures h.cost == BCRYPT_COST
    ensures forall candidate :: ComparePassword(candidate, h) <==> candidate == plain
  {
    BcryptHash(BCRYPT_COST, plain)
  }

  datatype RefreshEntry = RefreshEntry(token: string, createdAt: nat)

  datatype Admin = Admin(
    name: string,
    email: string,
    password: PasswordHash,
    role: Role,
    isActive: bool,
    lastLogin: Option<nat>,
    loginAttempts: nat,
    lockUntil: Option<nat>,
    refreshTokens: seq<RefreshEntry>,
    createdAt: nat)

  const MAX_LOGIN_ATTEMPTS: nat := 5
  /** Two hours, in milliseconds. */
  const LOCK_TIME: nat := 2 * 60 * 60 * 1000
  /** Seven days, in milliseconds. */
  const REFRESH_TOKEN_LIFETIME: nat := 7 * 24 * 60 * 60 * 1000

  /** The `isLocked` virtual: a lock time is set and still in the future. */
  predicate IsLocked(a: Admin, now: nat)
    ensures IsLocked(a, now) ==> a.lockUntil.Some? && now < a.lockUntil.value
    ensures IsLocked(a, now) && LockoutConsistent(a) ==> a.loginAttempts >= MAX_LOGIN_ATTEMPTS
  {
    a.lockUntil.Some? && a.lockUntil.value > now
  }

  /**
   * Lockout bookkeeping is consistent when a lock time is recorded exactly
   * when the attempt counter has reached the maximum.
   */
  predicate LockoutConsistent(a: Admin) {
    a.lockUntil.Some? <==> a.loginAttempts >= MAX_LOGIN_ATTEMPTS
  }

  /** The record `incLoginAttempts` leaves behind after a wrong password at `now`. */
  function AfterFailedAttempt(a: Admin, now: nat): (b: Admin)
    ensures b == a.(loginAttempts := b.loginAttempts, lockUntil := b.lockUntil)
    ensures a.lockUntil.Some? && a.lockUntil.value < now ==> b.loginAttempts == 1 && b.lockUntil.None?
    ensures !(a.lockUntil.Some? && a.lockUntil.value < now) ==> b.loginAttempts == a.loginAttempts + 1
    ensures !(a.lockUntil.Some? && a.lockUntil.value < now) && a.loginAttempts + 1 >= MAX_LOGIN_ATTEMPTS && !IsLocked(a, now)
      ==> b.lockUntil == Some(now + LOCK_TIME)
    ensures !IsLocked(a, now) ==> (IsLocked(b, now) <==> b.loginAttempts >= MAX_LOGIN_ATTEMPTS)
  {
    if a.lockUntil.Some? && a.lockUntil.value < now then
      a.(loginAttempts := 1, lockUntil := None)
    else if a.loginAttempts + 1 >= MAX_LOGIN_ATTEMPTS && !IsLocked(a, now) then
      a.(loginAttempts := a.loginAttempts + 1, lockUntil := Some(now + LOCK_TIME))
    else
      a.(loginAttempts := a.loginAttempts + 1)
  }

  /** The record `resetLoginAttempts` leaves behind after a correct password at `now`. */
  function AfterSuccessfulLogin(a: Admin, now: nat): (b: Admin)
    ensures b == a.(loginAttempts := 0, lockUntil := None, lastLogin := Some(now))
    ensures forall t :: !IsLocked(b, t)
  {
    a.(loginAttempts := 0, lockUntil := None, lastLogin := Some(now))
  }

  /** The `failedLogin` table. */
  datatype FailedLogin = NotFound | PasswordIncorrect | MaxAttempts | AccountLocked | AccountInactive

  function ReasonCode(f: FailedLogin): (code: nat)
    ensures code < 5
  {
    match f
    case NotFound => 0
    case PasswordIncorrect => 1
    case MaxAttempts => 2
    case AccountLocked => 3
    case AccountInactive => 4
  }

  /** The five reasons have five distinct codes, 0 to 4. */
  lemma ReasonCodesDistinct(f: FailedLogin, g: FailedLogin)
    ensures ReasonCode(f) == ReasonCode(g) <==> f == g
    ensures NotFound == f <==> ReasonCode(f) == 0
  {
  }

  /**
   * `getAuthenticated` once the account is found: inactive, then locked, then
   * the password. Returns the record as stored afterwards and the failure, if any.
   */
  function LoginStep(a: Admin, password: string, now: nat): (r: (Admin, Option<FailedLogin>))
    ensures r.1.None? <==> a.isActive && !IsLocked(a, now) && ComparePassword(password, a.password)
    ensures r.1.Some? ==> r.1.value in {PasswordIncorrect, AccountLocked, AccountInactive}
    ensures !a.isActive ==> r == (a, Some(AccountInactive))
    ensures a.isActive && IsLocked(a, now) ==> r == (a, Some(AccountLocked))
    ensures r.1.None? ==> r.0 == AfterSuccessfulLogin(a, now)
    ensures r.1 == Some(PasswordIncorrect) ==> r.0 == AfterFailedAttempt(a, now)
    ensures r.0.email == a.email && r.0.password == a.password && r.0.refreshTokens == a.refreshTokens
    ensures LockoutConsistent(a) ==> LockoutConsistent(r.0)
  {
    if !a.isActive then (a, Some(AccountInactive))
    else if IsLocked(a, now) then (a, Some(AccountLocked))
    else if ComparePassword(password, a.password) then (AfterSuccessfulLogin(a, now), None)
    else (AfterFailedAttempt(a, now), Some(PasswordIncorrect))
  }

  /** The record after one login attempt per entry of `times`, all with `password`. */
  function Attempts(a: Admin, password: string, times: seq<nat>): Admin
    decreases |times|
  {
    if times == [] then a else Attempts(LoginStep(a, password, times[0]).0, password, times[1..])
  }

  /**
   * Wrong passwords against an active account without a lock raise the counter
   * one by one; the attempt that reaches five sets a two-hour lock from its time.
   */
  lemma {:induction false} WrongAttemptsCount(a: Admin, wrong: string, times: seq<nat>)
    requires a.isActive && a.lockUntil.None? && !ComparePassword(wrong, a.password)
    requires a.loginAttempts + |times| <= MAX_LOGIN_ATTEMPTS
    ensures Attempts(a, wrong, times).loginAttempts == a.loginAttempts + |times|
    ensures Attempts(a, wrong, times).isActive && Attempts(a, wrong, times).password == a.password
    ensures a.loginAttempts + |times| < MAX_LOGIN_ATTEMPTS ==> Attempts(a, wrong, times).lockUntil.None?
    ensures a.loginAttempts + |times| == MAX_LOGIN_ATTEMPTS && |times| > 0
      ==> Attempts(a, wrong, times).lockUntil == Some(times[|times| - 1] + LOCK_TIME)
    decreases |times|
  {
    if times != [] {
      var b := LoginStep(a, wrong, times[0]).0;
      if |times| == 1 {
        assert Attempts(b, wrong, times[1..]) == b;
      } else {
        WrongAttemptsCount(b, wrong, times[1..]);
        assert times[1..][|times[1..]| - 1] == times[|times| - 1];
      }
    }
  }

  /**
   * From a fresh counter, five wrong passwords lock the account, and the
   * correct password is then refused as locked, leaving the record as it is,
   * until the lock time has come.
   */
  lemma FiveWrongPasswordsLock(a: Admin, correct: string, wrong: string, times: seq<nat>, later: nat)
    requires a.isActive && a.loginAttempts == 0 && a.lockUntil.None?
    requires ComparePassword(correct, a.password) && !ComparePassword(wrong, a.password)
    requires |times| == MAX_LOGIN_ATTEMPTS
    requires later < times[4] + LOCK_TIME
    ensures IsLocked(Attempts(a, wrong, times), later)
    ensures LoginStep(Attempts(a, wrong, times), correct, later) == (Attempts(a, wrong, times), Some(AccountLocked))
  {
    WrongAttemptsCount(a, wrong, times);
  }

  /** Once the lock time has come, the correct password succeeds and clears the lockout. */
  lemma LockExpiresLazily(a: Admin, correct: string, wrong: string, times: seq<nat>, later: nat)
    requires a.isActive && a.loginAttempts == 0 && a.lockUntil.None?
    requires ComparePassword(correct, a.password) && !ComparePassword(wrong, a.password)
    requires |times| == MAX_LOGIN_ATTEMPTS
    requires later >= times[4] + LOCK_TIME
    ensures LoginStep(Attempts(a, wrong, times), correct, later).1.None?
    ensures LoginStep(Attempts(a, wrong, times), correct, later).0.loginAttempts == 0
  {
    WrongAttemptsCount(a, wrong, times);
  }

  /** Login attempts of any kind, at any times, keep the lockout bookkeeping consistent. */
  lemma {:induction false} AttemptsKeepLockoutConsistent(a: Admin, password: string, times: seq<nat>)
    requires LockoutConsistent(a)
    ensures LockoutConsistent(Attempts(a, password, times))
    decreases |times|
  {
    if times != [] {
      AttemptsKeepLockoutConsistent(LoginStep(a, password, times[0]).0, password, times[1..]);
    }
  }

  /**
   * An account as the request gates load it, `select('-password -refreshTokens')`:
   * everything but the password hash and the refresh-token set.
   */
  datatype AdminView = AdminView(
    id: AdminId,
    name: string,
    email: string,
    role: Role,
    isActive: bool,
    lastLogin: Option<nat>,
    loginAttempts: nat,
    lockUntil: Option<nat>,
    createdAt: nat)

  function ViewOf(id: AdminId, a: Admin): AdminView {
    AdminView(id, a.name, a.email, a.role, a.isActive, a.lastLogin, a.loginAttempts, a.lockUntil, a.createdAt)
  }

  /** What `getAuthenticated` returns: the account as found, or why it failed. */
  datatype AuthResult = Authenticated(id: AdminId, admin: Admin) | Rejected(reason: FailedLogin)

  /** The outcome part of an `AuthResult`, as `LoginStep` reports it. */
  function Outcome(r: AuthResult): Option<FailedLogin> {
    match r
    case Authenticated(_, _) => None
    case Rejected(reason) => Some(reason)
  }

  /** `refreshTokens.filter(keep)` */
  function FilterEntries(entries: seq<RefreshEntry>, keep: RefreshEntry -> bool): (r: seq<RefreshEntry>)
    ensures |r| <= |entries|
    ensures forall e :: e in r <==> e in entries && keep(e)
  {
    if entries == [] then []
    else (if keep(entries[0]) then [entries[0]] else []) + FilterEntries(entries[1..], keep)
  }

  /** Filtering keeps order: it distributes over concatenation. */
  lemma {:induction false} FilterAppend(a: seq<RefreshEntry>, b: seq<RefreshEntry>, keep: RefreshEntry -> bool)
    ensures FilterEntries(a + b, keep) == FilterEntries(a, keep) + FilterEntries(b, keep)
    decreases |a|
  {
    if a == [] {
      assert a + b == b;
    } else {
      FilterAppend(a[1..], b, keep);
      assert (a + b)[0] == a[0];
      assert (a + b)[1..] == a[1..] + b;
      var head := if keep(a[0]) then [a[0]] else [];
      assert FilterEntries(a + b, keep) == head + FilterEntries(a[1..] + b, keep);
      assert FilterEntries(a, keep) == head + FilterEntries(a[1..], keep);
    }
  }

  /** A filter that keeps everything changes nothing. */
  lemma {:induction false} FilterKeepAll(entries: seq<RefreshEntry>, keep: RefreshEntry -> bool)
    requires forall i | 0 <= i < |entries| :: keep(entries[i])
    ensures FilterEntries(entries, keep) == entries
    decreases |entries|
  {
    if entries != [] {
      FilterKeepAll(entries[1..], keep);
    }
  }

  /** `refreshTokens.some(t => t.token === token)` */
  predicate HasToken(entries: seq<RefreshEntry>, token: string) {
    exists e | e in entries :: e.token == token
  }

  /** `removeRefreshToken`'s filter: every entry holding `token` goes, the rest stay in order. */
  function RemoveToken(entries: seq<RefreshEntry>, token: string): (r: seq<RefreshEntry>)
    ensures |r| <= |entries|
    ensures forall e :: e in r <==> e in entries && e.token != token
  {
    FilterEntries(entries, (e: RefreshEntry) => e.token != token)
  }

  /** After removal the value is gone and every other value is as present as before. */
  lemma RemoveTokenMembership(entries: seq<RefreshEntry>, token: string, other: string)
    ensures !HasToken(RemoveToken(entries, token), token)
    ensures other != token ==> (HasToken(RemoveToken(entries, token), other) <==> HasToken(entries, other))
  {
    if other != token && HasToken(entries, other) {
      var e :| e in entries && e.token == other;
      assert e in RemoveToken(entries, token);
    }
  }

  /** `cleanExpiredTokens`'s filter: exactly the entries younger than seven days. */
  function LiveTokens(entries: seq<RefreshEntry>, now: nat): (r: seq<RefreshEntry>)
    ensures |r| <= |entries|
    ensures forall e :: e in r <==> e in entries && e.createdAt + REFRESH_TOKEN_LIFETIME > now
  {
    FilterEntries(entries, (e: RefreshEntry) => e.createdAt + REFRESH_TOKEN_LIFETIME > now)
  }

  /** Purging twice at the same time purges nothing more. */
  lemma LiveTokensIdempotent(entries: seq<RefreshEntry>, now: nat)
    ensures LiveTokens(LiveTokens(entries, now), now) == LiveTokens(entries, now)
  {
    var live := LiveTokens(entries, now);
    forall i | 0 <= i < |live| ensures live[i].createdAt + REFRESH_TOKEN_LIFETIME > now {
      assert live[i] in live;
    }
    FilterKeepAll(live, (e: RefreshEntry) => e.createdAt + REFRESH_TOKEN_LIFETIME > now);
  }

  /** No two accounts share an email (the schema's unique index). */
  ghost predicate UniqueEmails(docs: map<AdminId, Admin>) {
    forall i, j | i in docs && j in docs && docs[i].email == docs[j].email :: i == j
  }

  /** The `admins` collection. */
  class AdminStore {
    var docs: map<AdminId, Admin>

    ghost predicate Valid()
      reads this
    {
      UniqueEmails(docs)
    }

    constructor()
      ensures docs == map[] && Valid()
    {
      docs := map[];
    }

    /** `findOne({ email })`, with the email already normalised. */
    method FindByEmail(email: string) returns (r: Option<AdminId>)
      requires Valid()
      ensures r.Some? ==> r.value in docs && docs[r.value].email == email
      ensures r.None? <==> forall id | id in docs :: docs[id].email != email
    {
      var rest := docs.Keys;
      r := None;
      while rest != {}
        invariant rest <= docs.Keys
        invariant r.Some? ==> r.value in docs && docs[r.value].email == email
        invariant r.None? ==> forall id | id in docs && id !in rest :: docs[id].email != email
        decreases |rest|
      {
        var id :| id in rest;
        if docs[id].email == email {
          r := Some(id);
        }
        rest := rest - {id};
      }
    }

    /** Writes back a record whose email is unchanged. */
    method Replace(id: AdminId, a: Admin)
      requires Valid() && id in docs && a.email == docs[id].email
      modifies this
      ensures Valid()
      ensures docs == old(docs)[id := a]
    {
      docs := docs[id := a];
    }

    /** `new Admin(data).save()` for a fresh id and an unused email. */
    method Insert(id: AdminId, a: Admin)
      requires Valid() && id !in docs
      requires forall other | other in docs :: docs[other].email != a.email
      modifies this
      ensures Valid()
      ensures docs == old(docs)[id := a]
    {
      docs := docs[id := a];
    }

    /** `incLoginAttempts` */
    method IncLoginAttempts(id: AdminId, now: nat)
      requires Valid() && id in docs
      modifies this
      ensures Valid()
      ensures docs == old(docs)[id := AfterFailedAttempt(old(docs)[id], now)]
    {
      Replace(id, AfterFailedAttempt(docs[id], now));
    }

    /** `resetLoginAttempts` */
    method ResetLoginAttempts(id: AdminId, now: nat)
      requires Valid() && id in docs
      modifies this
      ensures Valid()
      ensures docs == old(docs)[id := AfterSuccessfulLogin(old(docs)[id], now)]
    {
      Replace(id, AfterSuccessfulLogin(docs[id], now));
    }

    /** `addRefreshToken`: one entry appended, stamped with the time of the save. */
    method AddRefreshToken(id: AdminId, token: string, now: nat)
      requires Valid() && id in docs
      modifies this
      ensures Valid()
      ensures docs == old(docs)[id := old(docs)[id].(refreshTokens := old(docs)[id].refreshTokens + [RefreshEntry(token, now)])]
    {
      var a := docs[id];
      Replace(id, a.(refreshTokens := a.refreshTokens + [RefreshEntry(token, now)]));
    }

    /** `removeRefreshToken` */
    method RemoveRefreshToken(id: AdminId, token: string)
      requires Valid() && id in docs
      modifies this
      ensures Valid()
      ensures docs == old(docs)[id := old(docs)[id].(refreshTokens := RemoveToken(old(docs)[id].refreshTokens, token))]
    {
      var a := docs[id];
      Replace(id, a.(refreshTokens := RemoveToken(a.refreshTokens, token)));
    }

    /** `cleanExpiredTokens` */
    method CleanExpiredTokens(id: AdminId, now: nat)
      requires Valid() && id in docs
      modifies this
      ensures Valid()
      ensures docs == old(docs)[id := old(docs)[id].(refreshTokens := LiveTokens(old(docs)[id].refreshTokens, now))]
    {
      var a := docs[id];
      Replace(id, a.(refreshTokens := LiveTokens(a.refreshTokens, now)));
    }

    /** `findByIdAndUpdate(id, { lastLogin: now })`; an unknown id updates nothing. */
    method SetLastLogin(id: AdminId, now: nat)
      requires Valid()
      modifies this
      ensures Valid()
      ensures id in old(docs) ==> docs == old(docs)[id := old(docs)[id].(lastLogin := Some(now))]
      ensures id !in old(docs) ==> docs == old(docs)
    {
      if id in docs {
        var a := docs[id];
        Replace(id, a.(lastLogin := Some(now)));
      }
    }

    /**
     * `getAuthenticated` for an email already in stored form: no account
     * gives `NotFound` and writes nothing; otherwise the found record goes
     * through `LoginStep`, which is written back. On success the account
     * returned is the record as it was read, before the reset was written.
     */
    method Authenticate(key: string, password: string, now: nat) returns (r: AuthResult)
      requires Valid()
      modifies this
      ensures Valid()
      ensures r == Rejected(NotFound) <==> forall id | id in old(docs) :: old(docs)[id].email != key
      ensures r == Rejected(NotFound) ==> docs == old(docs)
      ensures forall id | id in old(docs) && old(docs)[id].email == key ::
        docs == old(docs)[id := LoginStep(old(docs)[id], password, now).0]
        && Outcome(r) == LoginStep(old(docs)[id], password, now).1
        && (r.Authenticated? ==> r.id == id && r.admin == old(docs)[id])
    {
      var found := FindByEmail(key);
      if found.None? {
        return Rejected(NotFound);
      }
      var id := found.value;
      var a := docs[id];
      ghost var step := LoginStep(a, password, now);
      if !a.isActive {
        return Rejected(AccountInactive);
      }
      if IsLocked(a, now) {
        return Rejected(AccountLocked);
      }
      if ComparePassword(password, a.password) {
        ResetLoginAttempts(id, now);
        assert step == (AfterSuccessfulLogin(a, now), None);
        return Authenticated(id, a);
      }
      IncLoginAttempts(id, now);
      assert step == (AfterFailedAttempt(a, now), Some(PasswordIncorrect));
      return Rejected(PasswordIncorrect);
    }

    /** `getAuthenticated(email, password)`: the query value is normalised as the schema stores emails. */
    method GetAuthenticated(email: string, password: string, now: nat) returns (r: AuthResult)
      requires Valid()
      modifies this
      ensures Valid()
      ensures r == Rejected(NotFound) <==> forall id | id in old(docs) :: old(docs)[id].email != NormalizeEmail(email)
      ensures r == Rejected(NotFound) ==> docs == old(docs)
      ensures forall id | id in old(docs) && old(docs)[id].email == NormalizeEmail(email) ::
        docs == old(docs)[id := LoginStep(old(docs)[id], password, now).0]
        && Outcome(r) == LoginStep(old(docs)[id], password, now).1
        && (r.Authenticated? ==> r.id == id && r.admin == old(docs)[id])
    {
      r := Authenticate(NormalizeEmail(email), password, now);
    }
  }
}
