/**
 * The package catalog of the admin panel (components/AdminPanel.tsx): the
 * credit balance each package grants and how long it stays valid, plus the
 * seven-day trial account that sign-up and the admin's "create" both build.
 */
module Catalog {
  import opened Wrappers
  import opened Types
  import Text

  /** Credits a package grants; approval sets the balance to this value. */
  function PackageCredits(p: Package): (r: nat)
    ensures r >= 1
    ensures r == 1 <==> p == Free
  {
    match p
    case OneMonth => 25
    case ThreeMonths => 80
    case SixMonths => 150
    case TwelveMonths => 350
    case Free => 1
  }

  /** A calendar offset: `setMonth(getMonth() + n)` or `setDate(getDate() + n)`. */
  datatype Span = Months(count: nat) | Days(count: nat)

  /** The offset `getExpiryDate` applies: months for a paid package, seven days otherwise. */
  function Validity(p: Package): (s: Span)
    ensures s.count > 0
    ensures s.Days? <==> p == Free
  {
    match p
    case OneMonth => Months(1)
    case ThreeMonths => Months(3)
    case SixMonths => Months(6)
    case TwelveMonths => Months(12)
    case Free => Days(7)
  }

  /**
   * The local-time calendar arithmetic of `Date` is a parameter of the model;
   * all it must do is move a positive offset strictly into the future.
   */
  ghost predicate Advances(calendar: (Timestamp, Span) -> Timestamp) {
    forall t: Timestamp, s: Span :: s.count > 0 ==> calendar(t, s) > t
  }

  /** `getExpiryDate(pkg)` evaluated at time `now`. */
  function ExpiryFor(p: Package, now: Timestamp, calendar: (Timestamp, Span) -> Timestamp): (r: Timestamp)
    requires Advances(calendar)
    ensures r > now
    ensures r == calendar(now, Validity(p))
  {
    calendar(now, Validity(p))
  }

  /** The paid package codes name their validity: "1m" is one month, "12m" twelve. */
  lemma PaidCodeNamesValidity(p: Package)
    requires p != Free
    ensures Validity(p).Months?
    ensures p.Code() == Text.DecimalString(Validity(p).count) + "m"
  {
    match p
    case OneMonth =>
    case ThreeMonths =>
    case SixMonths =>
    case TwelveMonths =>
      assert Text.DecimalString(12) == Text.DecimalString(1) + [Text.DigitChar(2)];
  }

  /** A longer paid package always grants more credits. */
  lemma CreditsGrowWithValidity(p: Package, q: Package)
    requires p != Free && q != Free
    requires Validity(p).count < Validity(q).count
    ensures PackageCredits(p) < PackageCredits(q)
  {
  }

  const DayLength: int := 24 * 60 * 60 * 1000

  /** The trial offset `7 * 24 * 60 * 60 * 1000` used at sign-up and admin create. */
  const TrialLength: int := 7 * DayLength

  /** A fresh business account on the free trial. */
  function TrialAccount(id: string, email: string, businessName: string, now: Timestamp): (u: User)
    ensures u.id == id && u.email == email && u.businessName == businessName
    ensures u.role == Business
    ensures u.package == Free && u.credits == PackageCredits(Free)
    ensures u.expiryDate.Some? && u.expiryDate.value > now
    ensures u.expiryDate.value - now == Validity(Free).count * DayLength
    ensures !u.paymentPending && u.requestedPackage.None?
  {
    User(id, email, businessName, Business, 1, Free, Some(now + TrialLength), false, None)
  }

  /**
   * A calendar whose day offsets are exact multiples of a day, as they are
   * away from a daylight-saving change.
   */
  ghost predicate DaysExact(calendar: (Timestamp, Span) -> Timestamp) {
    forall t: Timestamp, n: nat :: calendar(t, Days(n)) == t + n * DayLength
  }

  /**
   * The trial account expires exactly when a free package granted at the
   * same moment would: the fixed seven-day offset of sign-up and create
   * agrees with the free package's validity.
   */
  lemma TrialIsFreeExpiry(id: string, email: string, businessName: string, now: Timestamp,
                          calendar: (Timestamp, Span) -> Timestamp)
    requires Advances(calendar) && DaysExact(calendar)
    ensures TrialAccount(id, email, businessName, now).expiryDate == Some(ExpiryFor(Free, now, calendar))
  {
    assert calendar(now, Days(7)) == now + 7 * DayLength;
  }
}
