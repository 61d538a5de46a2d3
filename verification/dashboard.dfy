/**
 * The business user's dashboard (components/Dashboard.tsx): the eligibility
 * gate, the purchase request, and the reconciliation of the credit balance
 * and the session history after the generator answers.
 */
module Dashboard {
  import opened Wrappers
  import opened Types
  import opened Store
  import Text
  import Gemini
  import Catalog

  const IneligibleMessage: string := "Krediniz bitti veya üyeliğiniz sona erdi. Lütfen paket yenileyin."
  const KeyNotFoundMarker: string := "Requested entity was not found"
  const KeyMissingMessage: string := "API anahtarı bulunamadı veya yetkisiz."
  const DefaultFailureMessage: string := "Oluşturma hatası."

  /** `isExpired`: an expiry date exists and lies before `now`. */
  predicate IsExpired(u: User, now: Timestamp) {
    u.expiryDate.Some? && u.expiryDate.value < now
  }

  /** The gate of `handleGenerate`, evaluated on the session's copy of the user. */
  predicate CanGenerate(u: User, now: Timestamp) {
    u.credits > 0 && !IsExpired(u, now)
  }

  /** An account without an expiry date never expires. */
  lemma NoExpiryNeverExpires(u: User, now: Timestamp)
    requires u.expiryDate.None?
    ensures !IsExpired(u, now)
  {
  }

  /** Once expired, an account stays expired at every later moment. */
  lemma ExpiryIsPermanent(u: User, now: Timestamp, later: Timestamp)
    requires IsExpired(u, now) && now <= later
    ensures IsExpired(u, later)
  {
  }

  /** A trial account created at `t` is expired exactly after its seven days have passed. */
  lemma TrialExpiresAfterAWeek(id: string, email: string, businessName: string, t: Timestamp, now: Timestamp)
    ensures IsExpired(Catalog.TrialAccount(id, email, businessName, t), now) <==> now > t + Catalog.TrialLength
  {
  }

  /** A fresh trial account passes the gate throughout its week and fails it afterwards. */
  lemma TrialGate(id: string, email: string, businessName: string, t: Timestamp, now: Timestamp)
    ensures CanGenerate(Catalog.TrialAccount(id, email, businessName, t), now) <==> now <= t + Catalog.TrialLength
  {
    TrialExpiresAfterAWeek(id, email, businessName, t, now);
  }

  /**
   * `handleUpgradeRequest(pkg)`: marks the first stored record with the
   * session user's id as waiting for `pkg`. Nothing checks whether a request
   * is already pending; only the disabled button prevents it.
   */
  function RequestUpgrade(db: Db, userId: string, p: Package): (r: Db)
    ensures |r| == |db|
    ensures IndexOfId(db, userId).None? ==> r == db
    ensures IndexOfId(db, userId).Some? ==>
              var k := IndexOfId(db, userId).value;
              r[k].paymentPending && r[k].requestedPackage == Some(p) &&
              r[k] == db[k].(paymentPending := r[k].paymentPending, requestedPackage := r[k].requestedPackage) &&
              forall i :: 0 <= i < |db| && i != k ==> r[i] == db[i]
  {
    match IndexOfId(db, userId)
    case None => db
    case Some(k) => db[k := db[k].(paymentPending := true, requestedPackage := Some(p))]
  }

  /** A second request simply replaces the first one. */
  lemma UpgradeTwiceKeepsLast(db: Db, userId: string, p1: Package, p2: Package)
    ensures RequestUpgrade(RequestUpgrade(db, userId, p1), userId, p2) == RequestUpgrade(db, userId, p2)
  {
    var once := RequestUpgrade(db, userId, p1);
    match IndexOfId(db, userId)
    case None =>
    case Some(k) =>
      assert IndexOfId(once, userId) == Some(k) by {
        forall i | 0 <= i < k ensures once[i].id != userId { }
      }
  }

  /** A purchase request leaves every record's pending flag consistent with its request. */
  lemma UpgradeKeepsPendingConsistent(db: Db, userId: string, p: Package)
    requires AllPendingConsistent(db)
    ensures AllPendingConsistent(RequestUpgrade(db, userId, p))
  {
  }

  /** The success path: the first record with the id loses one credit, unclamped. */
  function ConsumeCredit(db: Db, userId: string): (r: Db)
    ensures |r| == |db|
    ensures IndexOfId(db, userId).None? ==> r == db
    ensures IndexOfId(db, userId).Some? ==>
              var k := IndexOfId(db, userId).value;
              r[k].credits == db[k].credits - 1 && r[k] == db[k].(credits := r[k].credits) &&
              forall i :: 0 <= i < |db| && i != k ==> r[i] == db[i]
  {
    match IndexOfId(db, userId)
    case None => db
    case Some(k) => db[k := db[k].(credits := db[k].credits - 1)]
  }

  /** The error text shown for a failed generation. */
  function FailureText(message: Option<string>): (r: string)
    ensures message.Some? && Text.Contains(message.value, KeyNotFoundMarker) ==> r == KeyMissingMessage
    ensures message.Some? && message.value != "" && !Text.Contains(message.value, KeyNotFoundMarker) ==>
              r == message.value
    ensures message.None? || message.value == "" ==> r == DefaultFailureMessage
  {
    match message
    case Some(m) =>
      if Text.Contains(m, KeyNotFoundMarker) then KeyMissingMessage
      else if m != "" then m
      else DefaultFailureMessage
    case None => DefaultFailureMessage
  }

  /** The generation form. */
  datatype GenerateInput = GenerateInput(
    sourceImage: string,
    businessType: BusinessType,
    style: SceneStyle,
    quality: ImageQuality,
    customPrompt: string)

  /** The request the form sends: the user's free text goes into the prompt verbatim. */
  function RequestFor(input: GenerateInput): (q: Gemini.Request)
    ensures q.config.aspectRatio == "1:1" && q.config.imageSize == input.quality.Code()
    ensures |q.parts| == 2 && q.parts[1].text.Some?
    ensures Gemini.InOrder(q.parts[1].text.value,
              [Gemini.TaskLine, input.businessType.Name(), Gemini.NicheText(input.businessType),
               Gemini.StyleText(input.style), input.customPrompt, Gemini.ClosingInstruction])
  {
    Gemini.BuildRequest(input.sourceImage, input.businessType, input.style, input.quality, input.customPrompt)
  }

  /** The prompt recorded in the history: the user's text, or a summary when it is empty. */
  function RecordedPrompt(input: GenerateInput): (r: string)
    ensures input.customPrompt != "" ==> r == input.customPrompt
    ensures input.customPrompt == "" ==>
              r == input.businessType.Name() + " in " + input.style.Name() + " style"
  {
    if input.customPrompt != "" then input.customPrompt
    else input.businessType.Name() + " in " + input.style.Name() + " style"
  }

  /**
   * The two clock readings taken when the history entry is built: one for
   * its id and one for its timestamp. They may differ.
   */
  datatype FinishTimes = FinishTimes(idAt: nat, stampAt: nat)

  /** The history entry of a successful generation finished at `finishedAt`. */
  function NewProduct(input: GenerateInput, dataUrl: string, finishedAt: FinishTimes): (g: GeneratedProduct)
    ensures g.id == Text.DecimalString(finishedAt.idAt) && g.timestamp == finishedAt.stampAt
    ensures g.data == dataUrl && g.originalImage == input.sourceImage
    ensures g.prompt == RecordedPrompt(input)
    ensures g.businessType == input.businessType && g.style == input.style && g.quality == input.quality
  {
    GeneratedProduct(Text.DecimalString(finishedAt.idAt), dataUrl, input.sourceImage, RecordedPrompt(input),
                     finishedAt.stampAt, input.businessType, input.style, input.quality)
  }

  /** The stored user list together with the dashboard's own state. */
  datatype Panel = Panel(db: Db, history: seq<GeneratedProduct>, error: Option<string>, loading: bool)

  /**
   * `handleGenerate`: the gate on the session's copy of the user, then the
   * generator's `outcome`. On success the stored record loses a credit and
   * the new image goes to the front of the history; on failure only the
   * error text changes. The loading flag ends cleared on every path that
   * reaches the generator.
   */
  function Generate(user: User, st: Panel, input: GenerateInput, now: Timestamp, finishedAt: FinishTimes,
                    outcome: Gemini.Outcome): (r: Panel)
    ensures !CanGenerate(user, now) ==> r == st.(error := Some(IneligibleMessage))
    ensures CanGenerate(user, now) ==> !r.loading
    ensures CanGenerate(user, now) && outcome.Failed? ==>
              r.db == st.db && r.history == st.history && r.error == Some(FailureText(outcome.message))
    ensures CanGenerate(user, now) && outcome.Produced? ==>
              r.db == ConsumeCredit(st.db, user.id) && r.error.None? &&
              |r.history| == |st.history| + 1 && r.history[1..] == st.history &&
              r.history[0] == NewProduct(input, outcome.dataUrl, finishedAt)
  {
    if !CanGenerate(user, now) then
      st.(error := Some(IneligibleMessage))
    else
      match outcome
      case Produced(url) =>
        Panel(ConsumeCredit(st.db, user.id), [NewProduct(input, url, finishedAt)] + st.history, None, false)
      case Failed(message) =>
        Panel(st.db, st.history, Some(FailureText(message)), false)
  }

  /** A response without image data changes neither the stored list nor the history. */
  lemma NoImageChangesNothing(user: User, st: Panel, input: GenerateInput, now: Timestamp, finishedAt: FinishTimes)
    ensures var r := Generate(user, st, input, now, finishedAt, Gemini.OutcomeOf(Gemini.NoImage));
            r.db == st.db && r.history == st.history && r.error.Some?
  {
  }

  /** A generation never touches a record other than the session user's, nor a field other than credits. */
  lemma GenerateFrame(user: User, st: Panel, input: GenerateInput, now: Timestamp, finishedAt: FinishTimes,
                      outcome: Gemini.Outcome, i: nat)
    requires i < |st.db|
    ensures var r := Generate(user, st, input, now, finishedAt, outcome);
            |r.db| == |st.db| && r.db[i] == st.db[i].(credits := r.db[i].credits)
    ensures var r := Generate(user, st, input, now, finishedAt, outcome);
            st.db[i].id != user.id ==> r.db[i] == st.db[i]
    ensures var r := Generate(user, st, input, now, finishedAt, outcome);
            st.db[i].credits - 1 <= r.db[i].credits <= st.db[i].credits
  {
  }

  /**
   * When the session's copy agrees with the stored record, a successful
   * generation never drives the stored balance below zero.
   */
  lemma InSyncStaysNonNegative(user: User, st: Panel, input: GenerateInput, now: Timestamp, finishedAt: FinishTimes,
                               dataUrl: string)
    requires FindById(st.db, user.id) == Some(user)
    ensures var r := Generate(user, st, input, now, finishedAt, Gemini.Produced(dataUrl));
            forall i :: 0 <= i < |r.db| && st.db[i].credits >= 0 ==> r.db[i].credits >= 0
  {
  }

  /**
   * With a stale session copy (one credit left there, none in the store),
   * the unclamped decrement stores a negative balance.
   */
  lemma StaleCopyGoesNegative(input: GenerateInput, now: Timestamp, finishedAt: FinishTimes, dataUrl: string)
    ensures var stored := User("u1", "a@b.c", "Shop", Business, 0, Free, None, false, None);
            var session := stored.(credits := 1);
            var r := Generate(session, Panel([stored], [], None, false), input, now, finishedAt,
                              Gemini.Produced(dataUrl));
            r.db[0].credits == -1
  {
  }

  /** No generation ever changes the ids in the stored list. */
  lemma GenerateKeepsIds(user: User, st: Panel, input: GenerateInput, now: Timestamp, finishedAt: FinishTimes,
                         outcome: Gemini.Outcome)
    requires UniqueIds(st.db) && AllPendingConsistent(st.db)
    ensures var r := Generate(user, st, input, now, finishedAt, outcome);
            UniqueIds(r.db) && AllPendingConsistent(r.db)
  {
  }
}
