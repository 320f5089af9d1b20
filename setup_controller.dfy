/**
 * The one-shot setup of backend/src/controllers/setupController.js: the first
 * administrator can be created only while the account collection is empty.
 */
module SetupController {
  import opened Wrappers
  import opened AdminModel
  import opened Http

  const INITIAL_NAME := "Portfolio Admin"
  const INITIAL_EMAIL := "admin@portfolio.com"
  const INITIAL_PASSWORD := "admin123456"

  datatype SetupData =
    | Created(id: AdminId, name: string, email: string, role: string, credentialsEmail: string, credentialsPassword: string)
    | Status(setupNeeded: bool, adminCount: nat)

  const ADMIN_EXISTS := ApiError(400, "Admin user already exists. Setup not needed.", Some("ADMIN_EXISTS"))

  /**
   * The record `new Admin(adminData).save()` stores at `now`: schema defaults
   * for the counters and the token set, and the password replaced by its hash
   * by the pre-save hook.
   */
  function InitialAdmin(now: nat): (a: Admin)
    ensures a.role == RoleSuperAdmin && a.isActive && a.email == INITIAL_EMAIL
    ensures ComparePassword(INITIAL_PASSWORD, a.password) && a.password == HashPassword(INITIAL_PASSWORD)
    ensures forall t :: !IsLocked(a, t)
    ensures LockoutConsistent(a) && a.refreshTokens == [] && a.lastLogin.None?
  {
    Admin(INITIAL_NAME, INITIAL_EMAIL, HashPassword(INITIAL_PASSWORD), RoleSuperAdmin, true, None, 0, None, [], now)
  }

  /** The initial account accepts its published credentials. */
  lemma InitialAdminCanLogIn(now: nat, later: nat)
    ensures LoginStep(InitialAdmin(now), INITIAL_PASSWORD, later).1.None?
    ensures forall p :: p != INITIAL_PASSWORD ==> LoginStep(InitialAdmin(now), p, later).1 == Some(PasswordIncorrect)
  {
  }

  /**
   * `createInitialAdmin`: refused with 400 while any account exists, writing
   * nothing; otherwise exactly one account, the initial one, is stored and
   * the reply is 201 with the credentials.
   */
  method CreateInitialAdmin(res: Response<SetupData>, store: AdminStore, newId: AdminId, now: nat)
    requires store.Valid()
    modifies store, res
    ensures store.Valid()
    ensures |old(store.docs)| > 0 ==>
      store.docs == old(store.docs) && res.status == 400 && res.body == Some(Fail(ADMIN_EXISTS.message, None, None))
    ensures |old(store.docs)| == 0 ==>
      store.docs == map[newId := InitialAdmin(now)] && res.status == 201
      && res.body == Some(Data(Created(newId, INITIAL_NAME, INITIAL_EMAIL, "super_admin", INITIAL_EMAIL, INITIAL_PASSWORD),
                               "Initial admin user created successfully!"))
    ensures res.cookies == old(res.cookies)
  {
    if |store.docs| > 0 {
      res.Error(ADMIN_EXISTS);
      return;
    }
    assert store.docs == map[];
    store.Insert(newId, InitialAdmin(now));
    res.Json(201, Data(Created(newId, INITIAL_NAME, INITIAL_EMAIL, RoleName(RoleSuperAdmin), INITIAL_EMAIL, INITIAL_PASSWORD),
                       "Initial admin user created successfully!"));
  }

  /** The reply of `checkSetupStatus` for a collection of `count` accounts. */
  function SetupStatus(count: nat): (d: SetupData)
    ensures d.Status? && d.adminCount == count
    ensures d.setupNeeded <==> count == 0
  {
    Status(count == 0, count)
  }

  /** `checkSetupStatus` */
  method CheckSetupStatus(res: Response<SetupData>, store: AdminStore)
    modifies res
    ensures res.status == 200 && res.body == Some(Data(SetupStatus(|store.docs|), "Setup status retrieved successfully"))
    ensures res.cookies == old(res.cookies)
  {
    res.Json(200, Data(SetupStatus(|store.docs|), "Setup status retrieved successfully"));
  }

  /**
   * Setup on an empty collection, twice: the first call creates the account,
   * the second is refused, one account remains and setup is no longer needed.
   */
  method SetupTwiceScenario(now: nat) returns (first: nat, second: nat, count: nat, needed: bool)
    ensures first == 201 && second == 400 && count == 1 && !needed
  {
    var store := new AdminStore();
    var res1 := new Response<SetupData>();
    CreateInitialAdmin(res1, store, 1, now);
    var res2 := new Response<SetupData>();
    CreateInitialAdmin(res2, store, 2, now + 1);
    var res3 := new Response<SetupData>();
    CheckSetupStatus(res3, store);
    first, second, count := res1.status, res2.status, |store.docs|;
    needed := res3.body.value.data.setupNeeded;
  }
}
