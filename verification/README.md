# Product Genius Studio: entitlement and credit lifecycle in Dafny

This project models the core of a small single-page application. Business users upload a product photo and spend one credit to have an external image model re-render it in a commercial style. They live on a free trial or a paid package ("1m", "3m", "6m", "12m"), and an administrator approves their purchase requests.

The application keeps all of its state in the browser's local storage. The model treats that state as follows:

- the user list (`pg_users_db`) is a `seq<User>`;
- the cached session user (`pg_user`) is an `Option<User>`;
- the clock, the id generator, the month arithmetic of `Date` and the generator's answer are all parameters.

Every step of the application then becomes a pure function over immutable records.

Modules, following the source files:

- `Wrappers`: `Option` and `Result`.
- `Text`: the JavaScript string built-ins used by the core: `includes`, the comma search behind `split`, ASCII `toLowerCase`, integer `toString` and `parseInt`.
- `Types`: the records and enumerations of `types.ts`.
- `Catalog`: the package table, the expiry rule and the trial account (`components/AdminPanel.tsx`).
- `Store`: first-match lookups, map-by-id and filter over the user list.
- `Admin`: create, update, approve, delete, search and the credit controls of the edit form (`components/AdminPanel.tsx`).
- `Auth`: sign-in and sign-up (`components/Auth.tsx`).
- `Gemini`: base64 cleaning, the instruction tables, prompt composition, the request, and the scan of the response (`services/geminiService.ts`).
- `Dashboard`: the eligibility gate, the purchase request, and reconciliation after generation (`components/Dashboard.tsx`).
- `App`: session and view state (`App.tsx`).
- `Scenarios`: end-to-end runs across the components.

The code leaves several checks out that a caller might expect. The model keeps each gap and states it as a lemma:

- A caller might expect a second purchase request to be rejected while one is pending. It is not: the second request replaces the first (`Dashboard.UpgradeTwiceKeepsLast`). Only the disabled button at `components/Dashboard.tsx:146` prevents it.
- Sign-up does not check for a duplicate email (`Auth.RegisterTwiceDuplicates`). The second account is not reached by sign-in while the older account is stored (`Auth.DuplicateRegistrationShadowed`); once the administrator deletes the older one, sign-in returns the duplicate (`Scenarios.DeleteUncoversDuplicate`).
- The decrement after a successful generation is not clamped. The gate reads the session's cached copy of the user, while the decrement writes the stored record. If the two disagree, the stored balance can go to -1 (`Dashboard.StaleCopyGoesNegative`). When they agree, it cannot (`Dashboard.InSyncStaysNonNegative`).
- The typed credit field of the admin's edit form accepts negative numbers (`Admin.TypeCreditsNotClamped`). Only the minus button clamps at zero.

In these places the code behaves differently from what its surroundings suggest. The model follows the code:

- The built-in administrator gets the expiry date `2099-01-01` rather than no expiry at all.
- A purchase request while one is already pending is accepted; there is no error for it.
- Admin approval does not require a pending request.
- Administrative credit edits are not clamped at zero.

## Model

| member | source | states |
|---|---|---|
| Types.BusinessTypeOfName | types.ts:6-15 | recognises exactly the nine niche names |
| Types.SceneStyleOfName | types.ts:17-23 | recognises exactly the six style names |
| Catalog.PackageCredits | components/AdminPanel.tsx:31-39 | every package grants at least one credit, and exactly one only for the free package (1m 25, 3m 80, 6m 150, 12m 350) |
| Catalog.CreditsGrowWithValidity | components/AdminPanel.tsx:31-47 | a paid package with a longer validity grants strictly more credits |
| Catalog.Validity | components/AdminPanel.tsx:43-48 | every package has a positive offset; it is counted in days exactly for the free package and in months for the paid ones |
| Catalog.ExpiryFor | components/AdminPanel.tsx:41-51 | the package's offset (months for paid packages, seven days for free) applied to now, always strictly after now |
| Catalog.PaidCodeNamesValidity | components/AdminPanel.tsx:43-47 | each paid package is valid for the number of months its code names ("1m" one month, ..., "12m" twelve) |
| Catalog.TrialIsFreeExpiry | components/AdminPanel.tsx:40-68 | with a calendar whose day offsets are exact, the trial account created at `now` expires exactly when a free package granted at `now` would |
| Catalog.TrialAccount | components/AdminPanel.tsx:60-70 | a trial account is a business account on the free package, with the free credit grant, not pending, expiring seven days after now |
| Store.IndexOfId | components/Dashboard.tsx:41 | the first position holding the id, or none exactly when no record has it |
| Store.FindById | App.tsx:43 | the first stored record with the id, or none exactly when no record has it |
| Store.FindByEmail | components/Auth.tsx:40 | the first stored record with exactly this email, or none exactly when no record has it |
| Store.MapWhereId | components/AdminPanel.tsx:81 | same length; records with the id are transformed, all others kept |
| Store.Filter | components/AdminPanel.tsx:106 | keeps exactly the records satisfying the condition; keeps everything when all satisfy it |
| Store.FilterIsSubsequence | components/AdminPanel.tsx:106 | the filtered list is a subsequence of the original: relative order is kept |
| Store.FilterAppend | components/AdminPanel.tsx:110-113 | filtering a concatenation is the concatenation of the filtered parts |
| Admin.CreateUser | components/AdminPanel.tsx:53-75 | refused with DuplicateEmail iff some record has exactly this email; otherwise the old list plus one trial account at the end |
| Admin.CreateKeepsUniqueIds | components/AdminPanel.tsx:60-72 | with a fresh id, creation keeps ids unique |
| Admin.UpdateUser | components/AdminPanel.tsx:77-85 | no edit leaves the list as it was; otherwise every record with the edited id is replaced whole and the length is kept |
| Admin.UpdateThenFind | components/AdminPanel.tsx:81 | after saving an edit of a stored record, reading it back by id returns the edit |
| Admin.Grant | components/AdminPanel.tsx:90-97 | id, email, name and role kept; package set; balance set to the package's credits, not added to the old one; expiry after now; nothing pending |
| Admin.ApprovePackage | components/AdminPanel.tsx:87-102 | every record with the id receives the grant; every other record and the length are unchanged |
| Admin.ApproveKeepsPendingConsistent | components/AdminPanel.tsx:87-102 | approval keeps "pending iff a package is requested" true of every record |
| Admin.DeleteUser | components/AdminPanel.tsx:104-108 | unconfirmed, nothing changes; confirmed, exactly the records without the id remain |
| Admin.DeleteKeepsOrder | components/AdminPanel.tsx:106 | the records left after a delete keep their order |
| Admin.MutationsKeepUniqueIds | components/AdminPanel.tsx:77-108 | approve, update and delete keep ids unique |
| Admin.SearchUsers | components/AdminPanel.tsx:110-113 | exactly the users whose lower-cased name or email contains the lower-cased term; an empty term returns all users |
| Admin.SearchKeepsOrder | components/AdminPanel.tsx:110-113 | the search result keeps the list's order |
| Admin.StepDown | components/AdminPanel.tsx:308 | one credit less, never below zero; only the balance changes |
| Admin.StepUp | components/AdminPanel.tsx:315 | one credit more; only the balance changes |
| Admin.SteppersInverse | components/AdminPanel.tsx:308-315 | minus undoes plus on a non-negative balance and plus undoes minus on a positive one; minus after plus on a negative balance lands on zero |
| Admin.TypeCredits | components/AdminPanel.tsx:312 | the balance becomes the parsed number, or zero when nothing parses; only the balance changes |
| Admin.TypeCreditsExact | components/AdminPanel.tsx:312 | typing a count stores exactly that count |
| Admin.TypeCreditsNotClamped | components/AdminPanel.tsx:312 | typing a minus sign stores a negative balance |
| Text.Contains | components/AdminPanel.tsx:111 | true iff the term occurs somewhere in the text |
| Text.IndexOf | services/geminiService.ts:49 | the first position of the character, none iff it does not occur |
| Text.DecimalString | components/Dashboard.tsx:83 | a non-empty digit string without a leading zero |
| Text.ParseInt | components/AdminPanel.tsx:312 | no number exactly when no digit of the radix follows the optional white space, sign and "0x" prefix; a minus sign gives a non-positive result, no sign a non-negative one |
| Text.ParseHexRoundTrip | components/AdminPanel.tsx:312 | without a radix, "0x" followed by hexadecimal digits is read in base 16 |
| Text.ParseHexWithoutDigits | components/AdminPanel.tsx:312 | a "0x" prefix followed by no hexadecimal digit gives no number |
| Text.ParseDecimalRoundTrip | components/AdminPanel.tsx:312 | parsing the decimal text of a count gives the count back |
| Text.ParseNegativeRoundTrip | components/AdminPanel.tsx:312 | parsing a minus sign followed by a count gives its negation |
| Auth.Login | components/Auth.tsx:23-45 | the administrator credentials give the built-in administrator; otherwise the first stored record with exactly this email, or none iff no record has it |
| Auth.AdminLoginIgnoresStore | components/Auth.tsx:24-37 | the administrator sign-in is the same whatever the store holds, and has the admin role |
| Auth.LoginIgnoresPassword | components/Auth.tsx:40-42 | for any email but the administrator's, the password does not affect the answer |
| Auth.Register | components/Auth.tsx:47-60 | the store grows by exactly one trial account at the end and that account is returned |
| Auth.RegisterTwiceDuplicates | components/Auth.tsx:47-59 | signing up twice with one email adds two records under it |
| Auth.RegisterThenLogin | components/Auth.tsx:40-59 | after signing up with an unused email, signing in returns the new account |
| Auth.DuplicateRegistrationShadowed | components/Auth.tsx:40-59 | after signing up with an email in use, sign-in still returns the older account |
| Auth.HandleSubmit | components/Auth.tsx:17-62 | sign-in never changes the store, signs in exactly the user sign-in finds, and fails iff it finds none; sign-up always succeeds, keeps the old list as a prefix and signs in the trial account it appends |
| Gemini.CleanBase64 | services/geminiService.ts:49 | text without a comma unchanged; otherwise the segment after the first comma up to the next comma or the end |
| Gemini.CleanReturnedImage | services/geminiService.ts:49 | cleaning a returned data URL gives back the raw image data |
| Gemini.BusinessInstruction | services/geminiService.ts:15-28 | each niche name gets its table entry; any other name gets the generic fallback |
| Gemini.StyleInstruction | services/geminiService.ts:30-40 | each style name (Minimalist included) gets its table entry; any other name gets the fallback |
| Gemini.TemplateInOrder | services/geminiService.ts:54-66 | the template places task line, niche name, niche instruction, style instruction, user text and closing instruction in this order, each intact |
| Gemini.PromptFor | services/geminiService.ts:51-66 | the prompt starts with the task line and contains, in order, the niche, its instruction, the style instruction, the user's text verbatim and the identity-preservation instruction |
| Gemini.BuildRequest | services/geminiService.ts:68-83 | fixed model, aspect ratio "1:1", image size equal to the quality; first the upload cleaned of its data-URL header as JPEG data, then the prompt with its pieces in order |
| Gemini.ExtractImage | services/geminiService.ts:85-92 | the first part, candidates outer and parts inner, with non-empty inline data, prefixed as a PNG data URL; no image iff no part carries data |
| Gemini.OutcomeOf | services/geminiService.ts:94 | a missing image becomes a failure carrying the no-image message |
| Dashboard.IsExpired | components/Dashboard.tsx:51 | an account is expired when it has an expiry date lying before now |
| Dashboard.NoExpiryNeverExpires | components/Dashboard.tsx:51 | an account without an expiry date is never expired |
| Dashboard.ExpiryIsPermanent | components/Dashboard.tsx:51 | an expired account stays expired at every later moment |
| Dashboard.TrialExpiresAfterAWeek | components/Dashboard.tsx:51 | a trial account created at t is expired at now exactly when now lies after t plus seven days |
| Dashboard.CanGenerate | components/Dashboard.tsx:55 | generation is allowed when the balance is positive and the account is not expired |
| Dashboard.TrialGate | components/Dashboard.tsx:55 | a fresh trial account passes the generation gate exactly during its seven days |
| Scenarios.GrantedCanGenerate | components/Dashboard.tsx:55 | an account granted a package passes the generation gate from the approval up to the package's expiry |
| Dashboard.RequestUpgrade | components/Dashboard.tsx:39-49 | the first record with the user's id becomes pending for the package, every other field and record kept; an absent id writes nothing |
| Dashboard.UpgradeTwiceKeepsLast | components/Dashboard.tsx:39-49 | a second request overwrites the first |
| Dashboard.UpgradeKeepsPendingConsistent | components/Dashboard.tsx:43-44 | a request keeps "pending iff a package is requested" true of every record |
| Dashboard.ConsumeCredit | components/Dashboard.tsx:74-80 | the first record with the id loses exactly one credit and nothing else; an absent id changes nothing |
| Dashboard.FailureText | components/Dashboard.tsx:94-103 | a message naming the missing entity gives the fixed key message; another non-empty message is shown as it is; no message gives the default text |
| Dashboard.RequestFor | components/Dashboard.tsx:72 | the request carries the user's free text verbatim after the niche and style instructions, at 1:1 and the chosen quality |
| Dashboard.RecordedPrompt | components/Dashboard.tsx:86 | the user's text when non-empty, otherwise "<niche> in <style> style" |
| Dashboard.NewProduct | components/Dashboard.tsx:82-91 | the entry holds the returned image, the source image, the recorded prompt, the form's choices; the id is the decimal text of one clock reading and the timestamp another reading |
| Dashboard.Generate | components/Dashboard.tsx:53-107 | no credits or an expired plan: only the error is set; failure: store and history unchanged, classified error, loading cleared; success: one credit consumed, the new entry in front of the unchanged history, no error, loading cleared |
| Dashboard.NoImageChangesNothing | components/Dashboard.tsx:94-103 | a response without image data leaves the store and the history unchanged and shows an error |
| Dashboard.GenerateFrame | components/Dashboard.tsx:74-80 | only the credits of a record can change, by at most one, and only for the session user's id |
| Dashboard.InSyncStaysNonNegative | components/Dashboard.tsx:55-77 | if the session copy equals the stored record, success never makes a balance negative |
| Dashboard.StaleCopyGoesNegative | components/Dashboard.tsx:55-77 | a stale session copy with one credit over a stored zero leaves a stored balance of -1 |
| Dashboard.GenerateKeepsIds | components/Dashboard.tsx:74-80 | generation keeps ids unique and pending flags consistent |
| App.HomeView | App.tsx:32 | the admin view iff the user is the administrator, the dashboard otherwise |
| App.Startup | App.tsx:21-26 | a cached user is restored on the dashboard view whatever the role; without one, the landing page |
| App.AuthSuccess | App.tsx:29-33 | the user becomes the session user and its cached copy; the view is the user's home view |
| App.Logout | App.tsx:35-39 | no session user, no cached copy, landing view |
| App.Refresh | App.tsx:41-47 | the session user is replaced by the stored record with its id; without such a record, or without a session user, nothing changes |
| App.ShowsDashboard | App.tsx:86 | the dashboard renders on its view with a signed-in user |
| App.ShowsAdminPanel | App.tsx:87 | the admin panel renders on its view only for a signed-in administrator |
| App.ScreensExclusive | App.tsx:86-87 | the dashboard and the admin panel are never both rendered |
| App.AuthSuccessRoutes | App.tsx:86-87 | after sign-in the admin panel is rendered iff the user is the administrator and the dashboard iff not |
| App.LogoutClosesSession | App.tsx:35-39 | after logout neither working screen is rendered and a restart shows the landing page |
| App.TransitionsKeepCacheInSync | App.tsx:29-47 | sign-in, logout and refresh keep the cached copy equal to the session user |
| App.RestartRestoresUser | App.tsx:21-26 | a restart restores the session user from its cached copy and shows the dashboard |
| App.ToggleTheme | App.tsx:19-27 | toggling the theme re-reads the cached user and shows the dashboard view; without a cached user nothing changes |
| App.ToggleIsRestore | App.tsx:19-27 | for a signed-in, in-sync session, toggling the theme gives the state a restart gives, keeps the cache in sync and a second toggle changes nothing more |
| App.ToggleLeavesAdminPanel | App.tsx:19-27 | an administrator on the admin panel who toggles the theme ends up on the dashboard view |
| Scenarios.TrialAllowsOneGeneration | components/Dashboard.tsx:53-93 | sign-up, one successful generation and a refresh leave zero credits, and the next attempt is refused without changes |
| Scenarios.PurchaseCycle | components/AdminPanel.tsx:87-102 | request then approval of the requested package: the package's credits as the whole balance, nothing pending, expiry after now, other records unchanged |
| Scenarios.ApproveThreeMonthRequest | components/AdminPanel.tsx:87-102 | a pending three-month request on a trial account becomes 80 credits on the three-month package with a three-month expiry |
| Scenarios.CreatedAccountCanSignIn | components/AdminPanel.tsx:55-72 | an account the administrator creates is found by sign-in; when the email is in use, a sign-up with it is not reached by sign-in while the older account is stored |
| Scenarios.DeleteUncoversDuplicate | components/AdminPanel.tsx:104-108 | after the administrator deletes the older account, sign-in with the shared email returns the duplicate created at sign-up |

## Left out

- The call to the image model and the key-selection dialogs (`window.aistudio`) are foreign asynchronous calls. The generator's answer is the `Gemini.Outcome` parameter of `Dashboard.Generate`, and `Gemini.ExtractImage` models the scan of a response.
- Local storage and JSON serialization are not modelled. The user list is a sequence and the cached session user an option.
- `Math.random` ids and `Date.now` are parameters: `freshId`, `now` and `finishedAt`.
- Catalog.ExpiryFor: the local-time calendar arithmetic of `Date.setMonth`/`setDate` is the parameter `calendar`. The model only requires that a positive offset moves strictly forward, so month lengths and day overflow are not modelled.
- Two browser tabs writing the store concurrently are out of scope for this sequential model. The effect of a stale read is shown by `Dashboard.StaleCopyGoesNegative`.
- Text.ToLower: only ASCII letters are lower-cased; Unicode case mapping is not modelled.
- Text.ParseInt: only ASCII white space is skipped. Values beyond 2^53 are not rounded as JavaScript numbers would be. A `-0` result is the integer 0; the `|| 0` that follows turns it into 0 anyway.
- Admin.StepUp: credits are JavaScript numbers, so adding one is exact only below 2^53; the model uses unbounded integers.
- Dashboard.ConsumeCredit: likewise, subtracting one is exact only above -2^53.
- Gemini.BusinessInstruction: does not state that the nine instruction texts differ from each other and from the fallback. Proving long literal texts pairwise distinct is too costly for the verifier.
- Gemini.StyleInstruction: likewise, the six texts are not proved pairwise distinct.
- Gemini.ExtractImage: a candidate without `content` makes the source throw a TypeError. The model treats every candidate as a list of parts.
- `confirm` before a delete is the `confirmed` parameter of `Admin.DeleteUser`. The `alert`s on a duplicate email or an unknown account are the `DuplicateEmail` and `AccountNotFound` results.
- The edit form's business-name and date fields are plain field assignments on the record being edited. An emptied date field makes the source throw a RangeError; this is not modelled.
- The dashboard does not guard against an empty file selection or a generation already in flight inside its handler. Only disabled buttons prevent these, and the model takes the source image as a given string.
- Plain navigation (landing to sign-in, back, the header logo, the admin button) and all markup are not modelled. Of the theme toggle only its view effect is modelled (`App.ToggleTheme`): it re-runs the start-up restore and so moves an administrator from the admin panel to the dashboard view. The theme class itself is not modelled. So are the package labels and the presentation-only components: the landing page, the intro screen, the loading screen and the product display.
