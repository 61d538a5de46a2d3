/**
 * The administrator's mutations of the user list (components/AdminPanel.tsx):
 * create, whole-record update, approval of a pending purchase, delete,
 * search, and the credit controls of the edit form.
 */
module Admin {
  import opened Wrappers
  import opened Types
  import opened Store
  import Catalog
  import Text

  datatype AdminError = DuplicateEmail

  /**
   * `handleCreateUser`: refused when any record already has exactly this
   * email; otherwise a trial account is appended at the end.
   */
  function CreateUser(db: Db, freshId: string, email: string, businessName: string, now: Timestamp)
    : (r: Result<Db, AdminError>)
    ensures r.Failure? <==> exists i :: 0 <= i < |db| && db[i].email == email
    ensures r.Success? ==> |r.value| == |db| + 1 && r.value[..|db|] == db
    ensures r.Success? ==> r.value[|db|] == Catalog.TrialAccount(freshId, email, businessName, now)
  {
    if exists i :: 0 <= i < |db| && db[i].email == email then Failure(DuplicateEmail)
    else Success(db + [Catalog.TrialAccount(freshId, email, businessName, now)])
  }

  /** `handleUpdateUser`: every record with the edited id is replaced whole. */
  function UpdateUser(db: Db, selected: Option<User>): (r: Db)
    ensures selected.None? ==> r == db
    ensures |r| == |db|
    ensures selected.Some? ==> forall i :: 0 <= i < |db| ==>
              r[i] == (if db[i].id == selected.value.id then selected.value else db[i])
  {
    match selected
    case None => db
    case Some(s) => MapWhereId(db, s.id, _ => s)
  }

  /** The record an approval produces: the entitlement replaced, not topped up. */
  function Grant(u: User, p: Package, now: Timestamp, calendar: (Timestamp, Catalog.Span) -> Timestamp): (g: User)
    requires Catalog.Advances(calendar)
    ensures g.id == u.id && g.email == u.email && g.businessName == u.businessName && g.role == u.role
    ensures g.package == p && g.credits == Catalog.PackageCredits(p)
    ensures g.expiryDate == Some(Catalog.ExpiryFor(p, now, calendar)) && g.expiryDate.value > now
    ensures !g.paymentPending && g.requestedPackage.None?
  {
    u.(package := p, credits := Catalog.PackageCredits(p), expiryDate := Some(Catalog.ExpiryFor(p, now, calendar)),
       paymentPending := false, requestedPackage := None)
  }

  /** `approvePackage(userId, pkg)`: grants `pkg` to every record with `userId`. */
  function ApprovePackage(db: Db, userId: string, p: Package, now: Timestamp,
                          calendar: (Timestamp, Catalog.Span) -> Timestamp): (r: Db)
    requires Catalog.Advances(calendar)
    ensures |r| == |db|
    ensures forall i :: 0 <= i < |db| && db[i].id != userId ==> r[i] == db[i]
    ensures forall i :: 0 <= i < |db| && db[i].id == userId ==>
              r[i] == Grant(db[i], p, now, calendar)
  {
    MapWhereId(db, userId, (u: User) => Grant(u, p, now, calendar))
  }

  /** `deleteUser`: when confirmed, every record with the id is removed. */
  function DeleteUser(db: Db, userId: string, confirmed: bool): (r: Db)
    ensures !confirmed ==> r == db
    ensures confirmed ==> forall u :: u in r <==> u in db && u.id != userId
    ensures confirmed ==> forall i :: 0 <= i < |r| ==> r[i].id != userId
  {
    if confirmed then Filter(db, (u: User) => u.id != userId) else db
  }

  lemma DeleteKeepsOrder(db: Db, userId: string)
    ensures Subsequence(DeleteUser(db, userId, true), db)
  {
    FilterIsSubsequence(db, (u: User) => u.id != userId);
  }

  /** The search box: business name or email contains the term, ignoring ASCII case. */
  predicate MatchesTerm(u: User, term: string) {
    Text.Contains(Text.ToLower(u.businessName), Text.ToLower(term)) ||
    Text.Contains(Text.ToLower(u.email), Text.ToLower(term))
  }

  /** `filteredUsers`. */
  function SearchUsers(db: Db, term: string): (r: Db)
    ensures forall u :: u in r <==> u in db && MatchesTerm(u, term)
    ensures term == "" ==> r == db
  {
    assert term == "" ==> forall i :: 0 <= i < |db| ==> MatchesTerm(db[i], term) by {
      if term == "" {
        forall i | 0 <= i < |db| ensures MatchesTerm(db[i], term) {
          assert Text.OccursAt(Text.ToLower(db[i].businessName), Text.ToLower(term), 0);
        }
      }
    }
    Filter(db, (u: User) => MatchesTerm(u, term))
  }

  lemma SearchKeepsOrder(db: Db, term: string)
    ensures Subsequence(SearchUsers(db, term), db)
  {
    FilterIsSubsequence(db, (u: User) => MatchesTerm(u, term));
  }

  /** The minus button of the edit form: one credit less, never below zero. */
  function StepDown(u: User): (r: User)
    ensures r.credits >= 0
    ensures u.credits >= 1 ==> r.credits == u.credits - 1
    ensures u.credits < 1 ==> r.credits == 0
    ensures r == u.(credits := r.credits)
  {
    u.(credits := if u.credits - 1 > 0 then u.credits - 1 else 0)
  }

  /** The plus button of the edit form. */
  function StepUp(u: User): (r: User)
    ensures r.credits == u.credits + 1
    ensures r == u.(credits := r.credits)
  {
    u.(credits := u.credits + 1)
  }

  /** The typed credit field: `parseInt(value) || 0`, with no clamping. */
  function TypeCredits(u: User, value: string): (r: User)
    ensures Text.ParseInt(value).None? ==> r.credits == 0
    ensures Text.ParseInt(value).Some? ==> r.credits == Text.ParseInt(value).value
    ensures r == u.(credits := r.credits)
  {
    u.(credits := Text.ParseInt(value).GetOr(0))
  }

  /** Typing a non-negative count stores exactly that count. */
  lemma TypeCreditsExact(u: User, n: nat)
    ensures TypeCredits(u, Text.DecimalString(n)).credits == n
  {
    Text.ParseDecimalRoundTrip(n);
  }

  /** Typing a minus sign stores a negative balance: the field is not clamped. */
  lemma TypeCreditsNotClamped(u: User, n: nat)
    requires n > 0
    ensures TypeCredits(u, "-" + Text.DecimalString(n)).credits == -(n as int) < 0
  {
    Text.ParseNegativeRoundTrip(n);
  }

  /** The two buttons undo each other while the balance is not negative. */
  lemma SteppersInverse(u: User)
    ensures u.credits >= 0 ==> StepDown(StepUp(u)) == u
    ensures u.credits >= 1 ==> StepUp(StepDown(u)) == u
    ensures u.credits < 0 ==> StepDown(StepUp(u)).credits == 0 != u.credits
  {
  }

  /** Editing a record and saving it, then reading it back by id, returns the edit. */
  lemma UpdateThenFind(db: Db, edited: User)
    requires exists i :: 0 <= i < |db| && db[i].id == edited.id
    ensures FindById(UpdateUser(db, Some(edited)), edited.id) == Some(edited)
  {
    var r := UpdateUser(db, Some(edited));
    var k := IndexOfId(r, edited.id);
    assert k.Some?;
  }

  /** Every administrative mutation keeps ids unique (create needs a fresh id). */
  lemma MutationsKeepUniqueIds(db: Db, userId: string, p: Package, now: Timestamp,
                               calendar: (Timestamp, Catalog.Span) -> Timestamp, edited: User)
    requires UniqueIds(db) && Catalog.Advances(calendar)
    ensures UniqueIds(ApprovePackage(db, userId, p, now, calendar))
    ensures UniqueIds(UpdateUser(db, Some(edited)))
    ensures UniqueIds(DeleteUser(db, userId, true))
  {
    var d := DeleteUser(db, userId, true);
    DeleteKeepsOrder(db, userId);
    SubsequenceKeepsUniqueIds(d, db);
  }

  lemma {:induction false} SubsequenceKeepsUniqueIds(a: Db, b: Db)
    requires Subsequence(a, b) && UniqueIds(b)
    ensures UniqueIds(a)
  {
    if |a| > 0 && |b| > 0 {
      if a[0] == b[0] {
        SubsequenceKeepsUniqueIds(a[1..], b[1..]);
        SubsequenceMembers(a[1..], b[1..]);
        forall j | 0 < j < |a| ensures a[0].id != a[j].id {
          assert a[1..][j - 1] in b[1..];
        }
      } else {
        SubsequenceKeepsUniqueIds(a, b[1..]);
      }
    }
  }

  lemma {:induction false} SubsequenceMembers(a: Db, b: Db)
    requires Subsequence(a, b)
    ensures forall u :: u in a ==> u in b
  {
    if |a| > 0 && |b| > 0 {
      if a[0] == b[0] {
        SubsequenceMembers(a[1..], b[1..]);
        assert forall u :: u in a ==> u == a[0] || u in a[1..];
      } else {
        SubsequenceMembers(a, b[1..]);
      }
    }
  }

  /** A fresh id keeps ids unique on create. */
  lemma CreateKeepsUniqueIds(db: Db, freshId: string, email: string, businessName: string, now: Timestamp)
    requires UniqueIds(db)
    requires forall i :: 0 <= i < |db| ==> db[i].id != freshId
    ensures var r := CreateUser(db, freshId, email, businessName, now);
            r.Success? ==> UniqueIds(r.value)
  {
  }

  /** Approval leaves every record's pending flag consistent with its request. */
  lemma ApproveKeepsPendingConsistent(db: Db, userId: string, p: Package, now: Timestamp,
                                      calendar: (Timestamp, Catalog.Span) -> Timestamp)
    requires AllPendingConsistent(db) && Catalog.Advances(calendar)
    ensures AllPendingConsistent(ApprovePackage(db, userId, p, now, calendar))
  {
  }
}
