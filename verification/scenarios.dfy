/**
 * Whole-application runs across the components: sign-up through the
 * exhaustion of the trial credit, the purchase cycle from request to
 * approval, and the difference between the two ways of creating accounts.
 */
module Scenarios {
  import opened Wrappers
  import opened Types
  import opened Store
  import Catalog
  import Auth
  import Admin
  import Dashboard
  import Gemini
  import App

  /**
   * A new sign-up lands on the dashboard with one credit; one successful
   * generation spends it, and after the refresh the next attempt is refused
   * without touching the store or the history.
   */
  lemma TrialAllowsOneGeneration(db: Db, freshId: string, email: string, businessName: string, now: Timestamp,
                                 t1: Timestamp, t2: Timestamp, f1: Dashboard.FinishTimes, f2: Dashboard.FinishTimes,
                                 input: Dashboard.GenerateInput, dataUrl: string, second: Gemini.Outcome)
    requires forall i :: 0 <= i < |db| ==> db[i].id != freshId
    requires now <= t1 <= now + Catalog.TrialLength
    ensures var reg := Auth.Register(db, freshId, email, businessName, now);
            var s1 := App.AuthSuccess(App.Startup(None), reg.user);
            var p1 := Dashboard.Generate(s1.user.value, Dashboard.Panel(reg.db, [], None, false), input, t1, f1,
                                         Gemini.Produced(dataUrl));
            var s2 := App.Refresh(s1, p1.db);
            var p2 := Dashboard.Generate(s2.user.value, p1, input, t2, f2, second);
            && App.ShowsDashboard(s1)
            && |p1.history| == 1
            && s2.user.value.credits == 0
            && p2.error == Some(Dashboard.IneligibleMessage)
            && p2.db == p1.db && p2.history == p1.history
  {
    var reg := Auth.Register(db, freshId, email, businessName, now);
    assert IndexOfId(reg.db, freshId) == Some(|db|) by {
      assert reg.db[|db|].id == freshId;
      assert forall i :: 0 <= i < |db| ==> reg.db[i].id != freshId;
    }
    var s1 := App.AuthSuccess(App.Startup(None), reg.user);
    var p1 := Dashboard.Generate(s1.user.value, Dashboard.Panel(reg.db, [], None, false), input, t1, f1,
                                 Gemini.Produced(dataUrl));
    assert p1.db[|db|].credits == 0;
    assert IndexOfId(p1.db, freshId) == Some(|db|) by {
      assert forall i :: 0 <= i < |db| ==> p1.db[i].id != freshId;
    }
  }

  /**
   * The purchase cycle: a request followed by the administrator's approval
   * of the requested package leaves the account on that package with the
   * package's credits as its whole balance and nothing pending; every other
   * record is as it was.
   */
  lemma PurchaseCycle(db: Db, userId: string, p: Package, now: Timestamp,
                      calendar: (Timestamp, Catalog.Span) -> Timestamp, k: nat)
    requires UniqueIds(db) && Catalog.Advances(calendar)
    requires k < |db| && db[k].id == userId
    ensures var requested := Dashboard.RequestUpgrade(db, userId, p);
            && requested[k].paymentPending && requested[k].requestedPackage == Some(p)
            && var approved := Admin.ApprovePackage(requested, userId, requested[k].requestedPackage.value, now, calendar);
            && |approved| == |db|
            && approved[k].package == p && approved[k].credits == Catalog.PackageCredits(p)
            && approved[k].expiryDate.Some? && approved[k].expiryDate.value > now
            && !approved[k].paymentPending && approved[k].requestedPackage.None?
            && approved[k].id == db[k].id && approved[k].email == db[k].email
            && forall i :: 0 <= i < |db| && i != k ==> approved[i] == db[i]
  {
    assert IndexOfId(db, userId) == Some(k) by {
      assert IndexOfId(db, userId).Some?;
    }
    var requested := Dashboard.RequestUpgrade(db, userId, p);
    var approved := Admin.ApprovePackage(requested, userId, p, now, calendar);
    forall i | 0 <= i < |db| && i != k
      ensures approved[i] == db[i]
    {
      assert requested[i] == db[i];
      assert db[i].id != userId;
    }
  }

  /** The literal approval check: a pending three-month request on a trial account. */
  lemma ApproveThreeMonthRequest(u: User, now: Timestamp, calendar: (Timestamp, Catalog.Span) -> Timestamp)
    requires Catalog.Advances(calendar)
    requires u.credits == 1 && u.package == Free && u.paymentPending && u.requestedPackage == Some(ThreeMonths)
    ensures var r := Admin.ApprovePackage([u], u.id, ThreeMonths, now, calendar)[0];
            r == u.(credits := 80, package := ThreeMonths, paymentPending := false, requestedPackage := None,
                    expiryDate := Some(calendar(now, Catalog.Months(3))))
  {
  }

  /**
   * An account the administrator creates can sign in by its email, because
   * creation refuses an email already in use; a duplicate sign-up instead
   * yields an account sign-in does not reach while the older one is stored.
   */
  lemma CreatedAccountCanSignIn(db: Db, freshId: string, email: string, businessName: string, now: Timestamp,
                                password: string)
    requires !Auth.IsAdminCredential(email, password)
    ensures var r := Admin.CreateUser(db, freshId, email, businessName, now);
            r.Success? ==> Auth.Login(r.value, email, password) == Some(r.value[|db|])
    ensures var r := Admin.CreateUser(db, freshId, email, businessName, now);
            r.Failure? ==> Auth.Login(Auth.Register(db, freshId, email, businessName, now).db, email, password) ==
                           Auth.Login(db, email, password)
  {
    var r := Admin.CreateUser(db, freshId, email, businessName, now);
    if r.Success? {
      Auth.RegisterThenLogin(db, freshId, email, businessName, now, password);
      assert r.value == Auth.Register(db, freshId, email, businessName, now).db;
    } else {
      Auth.DuplicateRegistrationShadowed(db, freshId, email, businessName, now, password);
    }
  }

  /**
   * A duplicate sign-up is shadowed only while the older account is stored:
   * once the administrator deletes it, sign-in returns the duplicate.
   */
  lemma DeleteUncoversDuplicate(prior: User, freshId: string, businessName: string, now: Timestamp,
                                password: string)
    requires prior.id != freshId
    requires !Auth.IsAdminCredential(prior.email, password)
    ensures var reg := Auth.Register([prior], freshId, prior.email, businessName, now);
            && Auth.Login(reg.db, prior.email, password) == Some(prior)
            && Auth.Login(Admin.DeleteUser(reg.db, prior.id, true), prior.email, password) == Some(reg.user)
  {
    var reg := Auth.Register([prior], freshId, prior.email, businessName, now);
    var left := Admin.DeleteUser(reg.db, prior.id, true);
    assert reg.db == [prior, reg.user];
    assert reg.db[1..] == [reg.user] && reg.db[1..][1..] == [];
    assert left == [reg.user];
    assert Store.FindByEmail(reg.db, prior.email) == Some(prior);
  }

  /**
   * A package the administrator grants lets the account generate, provided
   * it has credits, from the moment of approval up to its expiry.
   */
  lemma GrantedCanGenerate(u: User, p: Package, now: Timestamp, calendar: (Timestamp, Catalog.Span) -> Timestamp,
                           t: Timestamp)
    requires Catalog.Advances(calendar)
    requires t <= Catalog.ExpiryFor(p, now, calendar)
    ensures Dashboard.CanGenerate(Admin.Grant(u, p, now, calendar), t)
  {
  }
}
