/**
 * The user list kept under the `pg_users_db` key, as a sequence of records,
 * and the list operations the components perform on it: `find`/`findIndex`
 * (first match), `map` over matching ids, and `filter`.
 */
module Store {
  import opened Wrappers
  import opened Types

  type Db = seq<User>

  /** `findIndex(u => u.id === id)`: the first position holding `id`. */
  function IndexOfId(db: Db, id: string): (r: Option<nat>)
    ensures r.None? <==> forall i :: 0 <= i < |db| ==> db[i].id != id
    ensures r.Some? ==> r.value < |db| && db[r.value].id == id
    ensures r.Some? ==> forall i :: 0 <= i < r.value ==> db[i].id != id
  {
    if |db| == 0 then None
    else if db[0].id == id then Some(0)
    else
      match IndexOfId(db[1..], id)
      case None => None
      case Some(k) => Some(k + 1)
  }

  /** `find(u => u.id === id)`. */
  function FindById(db: Db, id: string): (r: Option<User>)
    ensures r.None? <==> forall i :: 0 <= i < |db| ==> db[i].id != id
    ensures r.Some? ==> r.value in db && r.value.id == id
    ensures r.Some? ==> exists i :: 0 <= i < |db| && db[i] == r.value &&
                                    forall j :: 0 <= j < i ==> db[j].id != id
  {
    match IndexOfId(db, id)
    case None => None
    case Some(k) => Some(db[k])
  }

  /** `find(u => u.email === email)`: exact, case-sensitive comparison. */
  function FindByEmail(db: Db, email: string): (r: Option<User>)
    ensures r.None? <==> forall i :: 0 <= i < |db| ==> db[i].email != email
    ensures r.Some? ==> exists i :: 0 <= i < |db| && db[i] == r.value && db[i].email == email &&
                                    forall j :: 0 <= j < i ==> db[j].email != email
  {
    if |db| == 0 then None
    else if db[0].email == email then Some(db[0])
    else
      var r := FindByEmail(db[1..], email);
      if r.Some? then
        var i :| 0 <= i < |db[1..]| && db[1..][i] == r.value && db[1..][i].email == email &&
                 forall j :: 0 <= j < i ==> db[1..][j].email != email;
        assert db[i + 1] == r.value;
        r
      else r
  }

  /** Number of records stored under `email`. */
  function CountEmail(db: Db, email: string): (n: nat)
    ensures n <= |db|
    ensures n == 0 <==> forall i :: 0 <= i < |db| ==> db[i].email != email
  {
    if |db| == 0 then 0
    else (if db[0].email == email then 1 else 0) + CountEmail(db[1..], email)
  }

  lemma {:induction false} CountEmailAppend(db: Db, u: User, email: string)
    ensures CountEmail(db + [u], email) == CountEmail(db, email) + (if u.email == email then 1 else 0)
  {
    if |db| > 0 {
      assert (db + [u])[1..] == db[1..] + [u];
      CountEmailAppend(db[1..], u, email);
    }
  }

  /** `users.map(u => u.id === id ? f(u) : u)`. */
  function MapWhereId(db: Db, id: string, f: User -> User): (r: Db)
    ensures |r| == |db|
    ensures forall i :: 0 <= i < |db| ==> r[i] == (if db[i].id == id then f(db[i]) else db[i])
  {
    seq(|db|, i requires 0 <= i < |db| => if db[i].id == id then f(db[i]) else db[i])
  }

  /** `filter(keep)`. */
  function Filter(db: Db, keep: User -> bool): (r: Db)
    ensures |r| <= |db|
    ensures forall u :: u in r <==> u in db && keep(u)
    ensures (forall i :: 0 <= i < |db| ==> keep(db[i])) ==> r == db
  {
    if |db| == 0 then []
    else if keep(db[0]) then [db[0]] + Filter(db[1..], keep)
    else Filter(db[1..], keep)
  }

  /** `a` is `b` with some elements removed and the rest in their original order. */
  ghost predicate Subsequence(a: Db, b: Db) {
    if |a| == 0 then true
    else if |b| == 0 then false
    else if a[0] == b[0] then Subsequence(a[1..], b[1..])
    else Subsequence(a, b[1..])
  }

  lemma {:induction false} FilterIsSubsequence(db: Db, keep: User -> bool)
    ensures Subsequence(Filter(db, keep), db)
  {
    if |db| > 0 {
      FilterIsSubsequence(db[1..], keep);
      if keep(db[0]) {
        assert Filter(db, keep)[1..] == Filter(db[1..], keep);
      } else {
        var r := Filter(db, keep);
        if |r| > 0 {
          assert r[0] in r;
          SkipHeadSubsequence(r, db);
        }
      }
    }
  }

  lemma {:induction false} SkipHeadSubsequence(a: Db, b: Db)
    requires |a| > 0 && |b| > 0 && a[0] != b[0]
    requires Subsequence(a, b[1..])
    ensures Subsequence(a, b)
  {
  }

  /** Filtering distributes over concatenation: relative order is kept. */
  lemma {:induction false} FilterAppend(a: Db, b: Db, keep: User -> bool)
    ensures Filter(a + b, keep) == Filter(a, keep) + Filter(b, keep)
  {
    if |a| > 0 {
      assert (a + b)[1..] == a[1..] + b;
      FilterAppend(a[1..], b, keep);
    } else {
      assert a + b == b;
    }
  }

  /** No two records share an id. */
  ghost predicate UniqueIds(db: Db) {
    forall i, j :: 0 <= i < j < |db| ==> db[i].id != db[j].id
  }

  /** The pending flag is set exactly when a package is requested. */
  predicate PendingConsistent(u: User) {
    u.paymentPending <==> u.requestedPackage.Some?
  }

  ghost predicate AllPendingConsistent(db: Db) {
    forall i :: 0 <= i < |db| ==> PendingConsistent(db[i])
  }
}
