/**
 * Sign-in and sign-up (components/Auth.tsx): a literal administrator
 * principal, lookup by email, and registration on the free trial.
 */
module Auth {
  import opened Wrappers
  import opened Types
  import opened Store
  import Catalog

  const AdminEmail: string := "admin@productgenius.com"
  const AdminPassword: string := "admin123"

  /** `new Date('2099-01-01')`: midnight UTC, in milliseconds. */
  const AdminExpiry: Timestamp := 4070908800000

  /** The built-in administrator record; it is never stored in the user list. */
  const AdminUser: User := User("admin", AdminEmail, "Sistem Yöneticisi", Admin, 9999, TwelveMonths,
                                Some(AdminExpiry), false, None)

  predicate IsAdminCredential(email: string, password: string) {
    email == AdminEmail && password == AdminPassword
  }

  /**
   * Sign-in: the administrator credentials yield the built-in record; any
   * other email yields the first stored record with exactly that email. The
   * password of a stored account is never compared.
   */
  function Login(db: Db, email: string, password: string): (r: Option<User>)
    ensures IsAdminCredential(email, password) ==> r == Some(AdminUser)
    ensures !IsAdminCredential(email, password) ==>
              (r.None? <==> forall i :: 0 <= i < |db| ==> db[i].email != email)
    ensures !IsAdminCredential(email, password) && r.Some? ==>
              exists i :: 0 <= i < |db| && db[i] == r.value && db[i].email == email &&
                          forall j :: 0 <= j < i ==> db[j].email != email
  {
    if IsAdminCredential(email, password) then Some(AdminUser)
    else FindByEmail(db, email)
  }

  /** The administrator login does not depend on the stored list at all. */
  lemma AdminLoginIgnoresStore(db1: Db, db2: Db)
    ensures Login(db1, AdminEmail, AdminPassword) == Login(db2, AdminEmail, AdminPassword)
    ensures Login(db1, AdminEmail, AdminPassword).value.role == Admin
  {
  }

  /** For every email but the administrator's, any password gives the same answer. */
  lemma LoginIgnoresPassword(db: Db, email: string, p1: string, p2: string)
    requires email != AdminEmail
    ensures Login(db, email, p1) == Login(db, email, p2)
  {
  }

  datatype Registered = Registered(db: Db, user: User)

  /** Sign-up: always appends a trial account; no duplicate-email check. */
  function Register(db: Db, freshId: string, email: string, businessName: string, now: Timestamp)
    : (r: Registered)
    ensures |r.db| == |db| + 1
    ensures r.db[..|db|] == db && r.db[|db|] == r.user
    ensures r.user == Catalog.TrialAccount(freshId, email, businessName, now)
  {
    var u := Catalog.TrialAccount(freshId, email, businessName, now);
    Registered(db + [u], u)
  }

  /** Registering the same email twice stores two records under it. */
  lemma RegisterTwiceDuplicates(db: Db, id1: string, id2: string, email: string,
                                name1: string, name2: string, now1: Timestamp, now2: Timestamp)
    ensures var once := Register(db, id1, email, name1, now1).db;
            var twice := Register(once, id2, email, name2, now2).db;
            CountEmail(twice, email) == CountEmail(db, email) + 2
  {
    var once := Register(db, id1, email, name1, now1);
    CountEmailAppend(db, once.user, email);
    var twice := Register(once.db, id2, email, name2, now2);
    CountEmailAppend(once.db, twice.user, email);
  }

  /** After signing up with an unused, non-administrator email, signing in returns the new account. */
  lemma RegisterThenLogin(db: Db, freshId: string, email: string, businessName: string,
                          now: Timestamp, password: string)
    requires forall i :: 0 <= i < |db| ==> db[i].email != email
    requires !IsAdminCredential(email, password)
    ensures var r := Register(db, freshId, email, businessName, now);
            Login(r.db, email, password) == Some(r.user)
  {
    var r := Register(db, freshId, email, businessName, now);
    var found := Login(r.db, email, password);
    assert r.db[|db|].email == email;
    var i :| 0 <= i < |r.db| && r.db[i] == found.value && r.db[i].email == email &&
             forall j :: 0 <= j < i ==> r.db[j].email != email;
    assert i == |db|;
  }

  /**
   * Signing up with an email already in use creates an account that sign-in
   * does not reach while the older account is stored.
   */
  lemma DuplicateRegistrationShadowed(db: Db, freshId: string, email: string, businessName: string,
                                      now: Timestamp, password: string)
    requires exists i :: 0 <= i < |db| && db[i].email == email
    requires !IsAdminCredential(email, password)
    ensures var r := Register(db, freshId, email, businessName, now);
            Login(r.db, email, password) == Login(db, email, password)
  {
    var r := Register(db, freshId, email, businessName, now);
    assert r.db[..|db|] == db;
    PrefixFindByEmail(db, [r.user], email);
  }

  lemma {:induction false} PrefixFindByEmail(db: Db, tail: Db, email: string)
    requires exists i :: 0 <= i < |db| && db[i].email == email
    ensures FindByEmail(db + tail, email) == FindByEmail(db, email)
  {
    assert (db + tail)[0] == db[0];
    if db[0].email != email {
      assert (db + tail)[1..] == db[1..] + tail;
      PrefixFindByEmail(db[1..], tail, email);
    }
  }

  datatype SubmitResult = SignedIn(db: Db, user: User) | AccountNotFound

  /** `handleSubmit`: the form is in sign-in mode or in sign-up mode. */
  function HandleSubmit(db: Db, isLogin: bool, email: string, password: string, businessName: string,
                        freshId: string, now: Timestamp): (r: SubmitResult)
    ensures isLogin && r.SignedIn? ==> r.db == db && Some(r.user) == Login(db, email, password)
    ensures isLogin ==> (r.AccountNotFound? <==> Login(db, email, password).None?)
    ensures !isLogin ==> r.SignedIn? && |r.db| == |db| + 1 && r.db[..|db|] == db && r.db[|db|] == r.user
    ensures !isLogin ==> r.user == Catalog.TrialAccount(freshId, email, businessName, now) &&
                         r.user.role == Business
  {
    if isLogin then
      match Login(db, email, password)
      case Some(u) => SignedIn(db, u)
      case None => AccountNotFound
    else
      var reg := Register(db, freshId, email, businessName, now);
      SignedIn(reg.db, reg.user)
  }
}
