# Construction-materials ordering app: validation, order draft, geocoding, notifications and live views

This project models, in Dafny, the pure logic at the core of a Next.js/Firebase
ordering app for a construction-materials retailer. It covers five parts.

- **Account form schemas** (`AuthValidation`): password strength, login,
  password recovery, and personal and business signup. The business form also
  checks the Mexican RFC taxpayer identifier. Each schema is the list of issues
  it reports (`Schema.Issue`), in the order the schema library reports them:
  fields in declaration order, then the checks of each field in chain order,
  then the object-level refinement. A failed field check does not stop the
  refinement from running, so a password mismatch is reported even when other
  fields are wrong. A form is accepted exactly when its list is empty.
- **The signup forms' submissions** (`SignupForms`): what each signup form
  hands its schema. A key the form never registers arrives as `undefined`.
  The schema library reports it as `Required` and skips the refinement.
- **The new-order page** (`NewOrder`): the material catalogue and how a
  material is looked up; the draft the page keeps (form values plus the
  selected state and the selected material); the digit-only input filters
  (`Chars.KeepDigits`); the quantity input parser; the order schema; the total;
  submission; and the priority-analysis request that runs when the delivery
  dates change.
- **Reverse geocoding** (`ReverseGeocode`): the API-key check, the answer
  check, and the extraction of six address fields from the first result's
  components.
- **The notification bell** (`NotificationBell`): which notifications count as
  unread; opening the popover; and the all-or-nothing batch that marks every
  notification read.
- **The live-subscription hooks** (`UseCollection`, `UseDoc`): the
  `{data, isLoading, error}` state each hook keeps. It changes through the
  effect run, snapshot and error events. `UseCollection` also has the
  render-time memoisation check. `FirestoreDocs` holds what the two hooks
  share: merging the document id into the fields, and the permission error.

The Dafny modules are one module per core source file, plus the following:
- small helper modules: `Wrappers` (Option/Result), `Chars` (ASCII character
  classes, digit strings, decimal parsing), `Find` (`Array.prototype.find`)
  and `Schema` (checks and issues);
- `FirestoreDocs`, which both hook modules share: documents, the id merge
  and the permission error;
- `SignupForms`, which models what the two signup form components
  (`src/components/auth/personal-signup-form.tsx`,
  `src/components/auth/business-signup-form.tsx`) hand to their schemas.

Email validity is the schema library's own check. The model takes it as an
uninterpreted parameter, `isEmail: string -> bool`. The state/municipality
table is also a parameter, `states: seq<StateEntry>`. The network answer of
the geocoding service is an input (`fetched`), as is whether a batch commit
succeeds (`commitOk`).

Three things are absent from the code and so from the model. Orders have no
status transitions: `src/components/profile/user-order-list.tsx:13` only
declares the five status labels (`Pendiente`, `En proceso`, `Enviado`,
`Entregado`, `Cancelado`) so that badges can be coloured. Priority is decided
by a language-model prompt; the only thing code enforces is the three-label
output enum of `src/ai/flows/analyze-delivery-date-flow.ts:20-22`
(`NewOrder.Priority`). The order schema imposes no order between the two
delivery dates (`NewOrder.OrderSchemaLeniency`).

## Model

| member | source | states |
|---|---|---|
| AuthValidation.PasswordIssues | src/lib/auth-validation.ts:3-9 | a password is accepted iff it has at least 8 characters, an A–Z, an a–z, a 0–9 and a character outside [A-Za-z0-9]; each rule reports its own issue exactly when it fails (length under 8, no upper-case, no lower-case, no digit, no symbol); every issue is on the password field |
| AuthValidation.ScanPassword | src/lib/auth-validation.ts:6-9 | one left-to-right pass finds each of the four character classes exactly when the string contains one |
| AuthValidation.AcceptsPassword | src/lib/auth-validation.ts:3-9 | deciding strength with the single scan agrees with the password schema on every string |
| AuthValidation.LoginIssues | src/lib/auth-validation.ts:11-14 | login is accepted iff the email is valid and the password is non-empty; the email issue appears iff the email is invalid and the password issue iff the password is empty |
| AuthValidation.LoginIgnoresStrength | src/lib/auth-validation.ts:11-14 | a one-letter password that fails the strength rules is still accepted at login |
| AuthValidation.ForgotPasswordIssues | src/lib/auth-validation.ts:16-18 | recovery is accepted iff the email is valid; the only possible issue is an invalid email |
| AuthValidation.PhoneIssues | src/lib/auth-validation.ts:23 | a signup phone is accepted iff it has at least 10 characters, all ASCII digits (so it is never empty); every issue is on the phone field |
| AuthValidation.RfcIssues | src/lib/auth-validation.ts:39-42 | an RFC is accepted iff it is 3 or 4 of [A-Z&Ñ], then 6 digits, then 3 of [A-Z0-9], and nothing else |
| AuthValidation.RfcPatternFixesLength | src/lib/auth-validation.ts:39-42 | any string matching the RFC pattern has length 12 or 13, and length 12 means exactly a 3-letter name part |
| AuthValidation.RfcLengthChecksRedundant | src/lib/auth-validation.ts:40-42 | every string rejected by the 12/13 length checks is also rejected by the pattern |
| AuthValidation.MatchRfc | src/lib/auth-validation.ts:42 | a scan that fixes the name length from the total length and checks each position's class decides the RFC pattern exactly |
| AuthValidation.PersonalSignupIssues | src/lib/auth-validation.ts:20-33 | personal signup is accepted iff first and last name are non-empty, the phone is valid, the email is valid, the password is strong, it equals the confirmation, and the terms are accepted; the mismatch issue on confirmPassword appears iff the passwords differ; the terms issue appears iff terms are not accepted |
| AuthValidation.BusinessSignupIssues | src/lib/auth-validation.ts:35-52 | business signup is accepted iff company and legal-representative names are non-empty, email, RFC and phone are valid, the password is strong and equals the confirmation, and the terms are accepted; mismatch and terms issues appear exactly when those conditions fail |
| AuthValidation.MismatchReportedLast | src/lib/auth-validation.ts:30-33 | whenever the passwords differ, the last issue of personal signup is the mismatch, attached to confirmPassword, whatever else is wrong |
| AuthValidation.PersonalFieldIssues | src/lib/auth-validation.ts:20-25 | the field checks of personal signup pass iff both names are non-empty, the phone is valid, the email is valid and the password is strong; none of their issues concerns the confirmation or the terms |
| AuthValidation.BusinessFieldIssues | src/lib/auth-validation.ts:35-45 | the field checks of business signup pass iff both names are non-empty, the email, RFC and phone are valid and the password is strong; none of their issues concerns the confirmation or the terms |
| SignupForms.ParsePersonal | src/lib/auth-validation.ts:20-33 | a submission is accepted iff it carries both the confirmation and the terms and the typed schema accepts it; a missing confirmation reports `Required` and never the mismatch, and missing terms report `Required` |
| SignupForms.ParseBusiness | src/lib/auth-validation.ts:35-52 | the same for business signup |
| SignupForms.SubmitPersonalForm | src/components/auth/personal-signup-form.tsx:26-34 | the personal form as written is rejected on every input, with `Required` on the confirmation and no mismatch issue |
| SignupForms.SubmitBusinessForm | src/components/auth/business-signup-form.tsx:23-31 | the business form as written is rejected on every input, with `Required` on both the confirmation and the terms |
| SignupForms.SubmitCorrectedPersonalForm | src/components/auth/personal-signup-form.tsx:26-34 | with a confirmation registered, the form is accepted exactly when the typed schema accepts its values, and otherwise reports that schema's issues |
| SignupForms.SubmitCorrectedBusinessForm | src/components/auth/business-signup-form.tsx:23-31 | with a confirmation and terms registered, the form is accepted exactly when the typed schema accepts its values, and otherwise reports that schema's issues |
| SignupForms.PersonalSignupBlocked | src/components/auth/personal-signup-form.tsx:26-34 | entries that satisfy every rule of the personal schema are still rejected by the form as written and accepted by the corrected form |
| Chars.KeepDigits | src/app/new-order/page.tsx:173 | the digit filter's output contains only digits and is never longer than its input |
| Chars.DigitPositions | src/app/new-order/page.tsx:173 | the positions of the digits of a string: ascending, each holding a digit, and listing every digit position |
| Chars.KeepDigitsIsDigitSubsequence | src/app/new-order/page.tsx:173 | the filter's output is exactly the characters at the digit positions, in order |
| Chars.KeepDigitsOfDigits | src/app/new-order/page.tsx:213 | an all-digit string passes the filter unchanged |
| Chars.KeepDigitsIdempotent | src/app/new-order/page.tsx:238 | applying the filter twice equals applying it once |
| Chars.FilterDigits | src/app/new-order/page.tsx:172-175 | the one-pass `replace(/\D/g, '')` computes the digit subsequence |
| Chars.ParseDecimal | src/app/new-order/page.tsx:348 | `parseInt(value, 10)` on a digit string computes its decimal value |
| Chars.DecimalRoundTrip | src/app/new-order/page.tsx:348 | parsing the usual decimal rendering of a number gives the number back |
| Chars.LeadingZero | src/app/new-order/page.tsx:348 | a leading zero does not change a digit string's value |
| NewOrder.FindMaterial | src/app/new-order/page.tsx:116-117 | the lookup returns a catalogue entry carrying exactly the given name, and returns nothing iff no entry has that name |
| NewOrder.FindMaterialReturnsEntry | src/app/new-order/page.tsx:46-51 | looking up any catalogue entry's name returns that entry (names are distinct) |
| NewOrder.FindMaterialUnknown | src/app/new-order/page.tsx:46-51 | a name outside cemento, mortero, cal and alambre (the initial empty value included) selects nothing |
| NewOrder.FindState | src/app/new-order/page.tsx:111 | the state lookup returns an entry of the table with exactly that name, or nothing iff no entry has it |
| NewOrder.ChangeState | src/app/new-order/page.tsx:110-114 | changing the state sets the state field to the name, selects the table entry of that name (or none), always clears the municipality, and changes nothing else |
| NewOrder.ChooseMunicipality | src/app/new-order/page.tsx:278-289 | while a state is selected, picking one of its municipalities sets the municipality field and changes nothing else; any other pick leaves the draft unchanged |
| NewOrder.ChangeMaterial | src/app/new-order/page.tsx:116-120 | the material field takes the given name either way and the selected state is kept; the selection is a catalogue entry of that name, and is empty only for names outside the catalogue |
| NewOrder.TypeDigits | src/app/new-order/page.tsx:172-175 | typing into the phone, number or postal-code input stores only the digits typed, in order, and changes no other field |
| NewOrder.QuantityInput | src/app/new-order/page.tsx:345-349 | the empty input sets 0, an all-digit input sets its decimal value, any other input leaves the quantity unchanged |
| NewOrder.QuantityInputRoundTrip | src/app/new-order/page.tsx:345-349 | typing a number's usual rendering, or that rendering with a leading zero, sets exactly that number |
| NewOrder.QuantityInputNonNegative | src/app/new-order/page.tsx:345-349 | a non-negative quantity stays non-negative whatever is typed |
| NewOrder.HandleQuantityInput | src/app/new-order/page.tsx:344-350 | the handler, parsing digit by digit, agrees with the quantity rule on every input |
| NewOrder.Total | src/app/new-order/page.tsx:82 | the total is the quantity times the selected material's price, and 0 while no material is selected |
| NewOrder.TotalFollowsMaterialField | src/app/new-order/page.tsx:82 | in a consistent draft the total is quantity × catalogue price of the form's material field (0 for a name outside the catalogue) and never negative |
| NewOrder.ApplyPreservesConsistency | src/app/new-order/page.tsx:110-120 | every edit keeps the draft consistent: the selections match the form's fields, the municipality belongs to the selected state, and the digit fields hold only digits |
| NewOrder.EditsPreserveConsistency | src/app/new-order/page.tsx:110-120 | every draft reachable from the initial page by any sequence of edits is consistent |
| NewOrder.DigitFieldIssues | src/app/new-order/page.tsx:26-29 | a digits-only field is accepted iff it is at least its minimum length and all digits; the length issue appears iff it is too short, and the pattern issue iff it is empty or has a non-digit |
| NewOrder.ContactIssues | src/app/new-order/page.tsx:25-26 | the contact part is accepted iff the name is non-empty and the phone has at least 10 characters, all digits |
| NewOrder.AddressIssues | src/app/new-order/page.tsx:27-31 | the address part is accepted iff street, state and municipality are non-empty, the number is at least 1 digit and the postal code at least 5, all digits |
| NewOrder.MaterialIssues | src/app/new-order/page.tsx:32-37 | the material part is accepted iff a material is named, the quantity is at least 1, and both delivery dates are present |
| NewOrder.OrderIssues | src/app/new-order/page.tsx:24-38 | an order is accepted iff all of the field conditions above hold together |
| NewOrder.OrderSchemaLeniency | src/app/new-order/page.tsx:24-38 | an end date before the start date, a 10-digit postal code and a material outside the catalogue are all accepted |
| NewOrder.FilteredFieldFailsOnlyOnLength | src/app/new-order/page.tsx:172-175 | behind the filter, a digit field can fail the digits-only rule only by being empty, and then it also fails its length rule |
| NewOrder.Submit | src/app/new-order/page.tsx:122-131 | a valid draft is submitted with its values and its total, and the page is reset to its initial draft; an invalid draft is refused with its (non-empty) issues |
| NewOrder.SubmittedTotalPositive | src/app/new-order/page.tsx:82 | a submitted consistent draft naming a catalogue material carries a total of at least 15 |
| NewOrder.OnDatesChanged | src/app/new-order/page.tsx:84-107 | a date change always clears the shown analysis; a request for exactly the two dates is issued iff both are set, and then analysing starts |
| NewOrder.OnAnalysisDone | src/app/new-order/page.tsx:94-99 | a completion ends analysing and always shows something: the returned label, or the failure message |
| NewOrder.IncompleteDatesClearAnalysis | src/app/new-order/page.tsx:101-103 | with a missing end date no request is made and nothing is shown |
| NewOrder.StaleAnalysisShown | src/app/new-order/page.tsx:84-107 | as written, an answer arriving after the end date was cleared is shown under an incomplete window |
| NewOrder.TrackDatesChanged | src/app/new-order/page.tsx:84-107 | the corrected date effect records the outstanding request for exactly the current dates and keeps the display invariant |
| NewOrder.TrackAnalysisDone | src/app/new-order/page.tsx:94-99 | the corrected completion is applied only when it answers the outstanding request, and the label shown records that request; otherwise nothing changes |
| NewOrder.TrackedShowsCurrentWindow | src/app/new-order/page.tsx:84-107 | with the correction, after any interleaving of date changes and answers, a shown label is the answer to the request for exactly the dates currently chosen, so nothing is shown for an incomplete window or a superseded request |
| ReverseGeocode.GetAddressComponent | src/ai/flows/reverse-geocode-flow.ts:56-59 | a non-empty result is the long name of the first component, in component order, that carries one of the requested types; with no such component the result is empty |
| ReverseGeocode.ExtractAddress | src/ai/flows/reverse-geocode-flow.ts:61-68 | each address field is the first component's name for its own types: street for `route`, number for `street_number`, colony for `neighborhood` or `sublocality`, municipality for `locality` or `administrative_area_level_2`, state for `administrative_area_level_1`, postal code for `postal_code`; empty when no component carries them |
| ReverseGeocode.FirstMatchingComponentWins | src/ai/flows/reverse-geocode-flow.ts:57-58 | the earliest matching component decides the field, whichever requested type it carries |
| ReverseGeocode.TypeOrderIrrelevant | src/ai/flows/reverse-geocode-flow.ts:64-65 | requesting the same set of types in another order or with repeats gives the same field |
| ReverseGeocode.ColonyDecidedByPosition | src/ai/flows/reverse-geocode-flow.ts:64 | an earlier sublocality beats a later neighbourhood for the colony, although neighbourhood is requested first |
| ReverseGeocode.LookupComponent | src/ai/flows/reverse-geocode-flow.ts:56-59 | the nested `find`/`some` loops compute the same field as the specification of the lookup |
| ReverseGeocode.Normalize | src/ai/flows/reverse-geocode-flow.ts:48-68 | the answer fails iff its status is not "OK" or it has no results, carrying the status and message; otherwise the six fields are extracted from the first result |
| ReverseGeocode.ReverseGeocode | src/ai/flows/reverse-geocode-flow.ts:37-69 | a missing or empty key fails before anything else; a failed request propagates its reason; a received answer is normalised |
| ReverseGeocode.MissingKeyIgnoresAnswer | src/ai/flows/reverse-geocode-flow.ts:38-41 | without a key the outcome does not depend on any answer, so no request is made |
| ReverseGeocode.LaterResultsIgnored | src/ai/flows/reverse-geocode-flow.ts:53-54 | appending further results never changes the outcome |
| ReverseGeocode.AbsentComponentsAreEmpty | src/ai/flows/reverse-geocode-flow.ts:61-68 | an OK answer with results always succeeds; a type no component carries yields an empty field instead of a failure |
| FirestoreDocs.WithId | src/firebase/firestore/use-collection.tsx:86 | the merged document has every stored field except `id` unchanged, and `id` is the document's id, overriding any stored `id` |
| FirestoreDocs.WithIdKeepsMatchingId | src/firebase/firestore/use-doc.tsx:65 | a document whose stored `id` already equals its id is returned as stored |
| UseCollection.Init | src/firebase/firestore/use-collection.tsx:66-68 | the first state is loading iff not disabled, with no data and no error |
| UseCollection.RunEffect | src/firebase/firestore/use-collection.tsx:70-79 | when disabled or without a target the state is cleared and no listener is attached; otherwise the target is listened to, loading is on, the error is cleared and the previous data is kept |
| UseCollection.OnSnapshot | src/firebase/firestore/use-collection.tsx:83-91 | a snapshot shows the documents in snapshot order with their ids merged in, ends loading and clears the error; without a listener nothing changes |
| UseCollection.OnError | src/firebase/firestore/use-collection.tsx:92-108 | an error shows and emits once a `list` permission error for the target's path, with no data and loading off; the listener is gone afterwards |
| UseCollection.Render | src/firebase/firestore/use-collection.tsx:114-118 | rendering fails iff the target is present, enabled and not memoised; otherwise it returns the current state |
| UseCollection.RunKeepsCoherent | src/firebase/firestore/use-collection.tsx:66-108 | after any sequence of events an error is never shown together with data or while loading |
| UseCollection.DetachedStaysCleared | src/firebase/firestore/use-collection.tsx:71-76 | after the hook is disabled or loses its target, later snapshots and errors leave the state cleared |
| UseCollection.ErrorIsFinal | src/firebase/firestore/use-collection.tsx:92-108 | after an error, further snapshots and errors change nothing until the effect runs again |
| UseDoc.Init | src/firebase/firestore/use-doc.tsx:45-47 | the first state has no data, no error, and is not loading |
| UseDoc.RunEffect | src/firebase/firestore/use-doc.tsx:49-59 | a null reference clears the state; otherwise the reference is listened to, loading is on, the error is cleared and the previous data is kept |
| UseDoc.OnSnapshot | src/firebase/firestore/use-doc.tsx:63-71 | an existing document shows its fields with its id merged in, an absent one shows nothing; both end loading and clear the error |
| UseDoc.OnError | src/firebase/firestore/use-doc.tsx:73-84 | an error shows and emits once a `get` permission error for the document's path, with no data and loading off; the listener is gone afterwards |
| UseDoc.ErrorIsFinal | src/firebase/firestore/use-doc.tsx:73-84 | after an error, further snapshots and errors change nothing until the effect runs again |
| UseDoc.RunKeepsCoherent | src/firebase/firestore/use-doc.tsx:45-88 | after any sequence of events an error is never shown with data or while loading, and nothing loads without a listener |
| UseDoc.DataCarriesDocId | src/firebase/firestore/use-doc.tsx:65 | the shown document's `id` is the snapshot's id |
| NotificationBell.UnreadOf | src/components/layout/notification-bell.tsx:34 | the unread list contains only notifications whose `read` is false or missing, taken from the list, and contains all of them |
| NotificationBell.HasUnreadIff | src/components/layout/notification-bell.tsx:34-35 | `hasUnread` holds iff the list is loaded and some notification in it is unread |
| NotificationBell.BatchIds | src/components/layout/notification-bell.tsx:48-51 | the batch names one id per unread notification, and every unread notification's id |
| NotificationBell.MarkAllAsRead | src/components/layout/notification-bell.tsx:45-59 | nothing is written iff there is no user or nothing unread; a committed batch applies to every unread id; a failed commit leaves every notification as it was |
| NotificationBell.MarkAllReadsEverything | src/components/layout/notification-bell.tsx:48-55 | after a committed batch every notification is read, already-read ones are unchanged, and no other field changes |
| NotificationBell.MarkAllIdempotent | src/components/layout/notification-bell.tsx:45-55 | a second mark-all after a committed one finds nothing to do and writes nothing |
| NotificationBell.OpenChange | src/components/layout/notification-bell.tsx:38-43 | the popover takes the requested state; closing never writes, and opening writes only when something is unread |
| NotificationBell.OpenTwiceWritesOnce | src/components/layout/notification-bell.tsx:38-59 | opening the bell twice with an up-to-date view commits one batch the first time and writes nothing the second time |

## Left out

- Validation messages: the Spanish texts attached to each check are not modelled. Each issue records the field and the kind of check instead.
- Schema type errors: `AuthValidation`'s schemas take typed values. `SignupForms` models the two keys that the signup forms leave `undefined` (`confirmPassword`, `acceptTerms`): each reports `Required`, and the refinement is skipped. A missing or wrongly typed value in any other field is not modelled, because the forms give every other field a default of the right type.
- Signup confirmation: the typed schemas (`AuthValidation.PersonalSignupIssues`, `AuthValidation.BusinessSignupIssues`) are the schemas on fully typed values. What the forms actually submit is modelled in `SignupForms`, and it never reaches them with a confirmation; see "## Findings".
- Email validity: this is the schema library's own check, taken as the parameter `isEmail`.
- String length: JavaScript counts UTF-16 code units, and the model counts one per character. The two differ only for characters outside the Basic Multilingual Plane.
- NewOrder.QuantityInput: does not model the rounding of `parseInt` above 2^53, because the model's integers are unbounded.
- NewOrder.Total: exact only while quantity × price is at most 2^53. The page computes the product in IEEE doubles, which round above that, and the model's integers do not.
- Dates: modelled as day numbers. The calendar's "not before today" restriction, date formatting and `toISOString` are left out; they are presentation and library behaviour.
- Priority analysis: its result comes from a language-model prompt. Only the three labels are modelled; the request itself is I/O.
- The state/municipality table: the static data is a parameter, so its contents are not transcribed.
- NewOrder.ChooseMunicipality: models the select's offered options as a guard. The widget itself is not modelled.
- Geocoding request: building the URL, `fetch` and JSON decoding are I/O, so the fetched answer is an input. The model assumes every result carries its `address_components` and that a missing `long_name` reads as the empty string.
- Firestore: query ordering, permissions, the conditions under which a batch commit fails, and the error emitter's listeners are external. Commit success is an input, and the emitted error is returned.
- Listener cancellation: after an error the hooks' listeners are modelled as detached (`UseCollection.OnError`, `UseDoc.OnError`). The hooks do not unsubscribe themselves; Firestore cancels a listener once it reports an error, and that library behaviour is taken as given.
- Hook re-runs: the effects re-run when their dependencies change. The model leaves that to the caller, which applies the effect event.
- Rendering: loading text, badges and popover layout are not modelled.

## Findings

| source | as written | input that shows it | evidently intended | confidence | as-written member | corrected member |
|---|---|---|---|---|---|---|
| src/app/new-order/page.tsx:84-107 | an analysis answer is applied whenever it arrives, without being matched to the dates it was requested for | pick dates 1–3, then clear the end date before the answer arrives; the late "Urgente" is shown under an incomplete window (and an older answer can likewise replace a newer one) | show only the answer to the request for the dates currently chosen | medium, not executed | NewOrder.StaleAnalysisShown | NewOrder.TrackedShowsCurrentWindow |
| src/components/auth/personal-signup-form.tsx:26-34 | the form neither gives `confirmPassword` a default nor renders an input for it (its inputs are at lines 50-147), so the key is `undefined` on every submission | any entries, even valid ones with a strong password: the schema reports `Required` on `confirmPassword`, the password-match refinement is skipped, and signup never succeeds | a confirmation input registered beside the password, so the schema sees both values | high, not executed | SignupForms.PersonalSignupBlocked | SignupForms.SubmitCorrectedPersonalForm |
| src/components/auth/business-signup-form.tsx:23-31 | the form registers neither `confirmPassword` nor `acceptTerms`, by default or by input (its inputs are at lines 46-123) | any entries: the schema reports `Required` on both keys and signup never succeeds | a confirmation input and a terms checkbox registered | high, not executed | SignupForms.SubmitBusinessForm | SignupForms.SubmitCorrectedBusinessForm |
