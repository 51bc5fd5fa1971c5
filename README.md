# tenantfit web client: navigation and session model

The tenantfit web client is a single-page app for landlords (owners) and
tenants. An owner signs in, lists properties, edits them, reviews tenant
candidates and emails them. A tenant opens a public property link and fills
in an application. One script, `code.js`, does all of this. It keeps the
signed-in user in browser storage. It shows one screen container at a time
and records each screen in session history, so that reload and the back and
forward buttons return to it. It checks every form before it sends anything.

This project models that script's navigation and session logic in Dafny and
proves what it promises:

- **Session** (`session.dfy`, `user_json.dfy`): the global user and its two
  storage keys. Saving, loading and the bearer header are modelled. A stored
  user reads back unchanged after a reload, and the JSON writer and reader
  are proved to round-trip.
- **Routes** (`routes.dfy`): the history-state record, the show call a URL
  hash selects, the show call a popped history state selects, and the entry
  each show call pushes. The prefix tests form an if-chain. It is proved
  equal to a table where the first matching prefix decides, and the prefixes
  are proved never to overlap. Back/forward (`Routes.PopRestoresRoute`) and a
  reload (the `Routes.Reload…` lemmas) are proved to lead back to the show
  call that pushed the entry, with these exceptions. A popped landing record
  shows login. A popped confirm or reset record comes back with its fields
  unfilled, and reloading its URL shows landing. A reload reads an id in its
  percent-encoded form, so an id holding a reserved character comes back
  changed.
- **Navigation** (`navigation.dfy`): what one show call does to the page, as
  functions. This covers the hidden containers, session history, the alert,
  the form fields, the save button's label and the request issued. Session
  history is a list of entries with a current position. `pushState` drops
  the forward entries. Back and forward move the position.
- **Screens** (`screens.dfy`): the page as a class whose fields the handlers
  update step by step. This covers `hideAllScreens`, every show call,
  `requireLogin`, `handleHashOrDefault`, `onpopstate`, logout, every form
  handler up to its request, and the handler of each request's reply. Each
  method is proved to leave the page as the functions in Navigation and
  Forms say.
- **Forms** (`forms.dfy`): the checks of the login, registration,
  confirmation, reset-code, reset-password, property, email-to-candidate and
  feedback forms, and the text-area length rule. It also holds the loop that
  collects the application form's error lines.
- **Display** (`display.dfy`): the score badge colour, the Yes/No rendering
  of answers, the dashboard's usage meter, and which detail sections of the
  application form open for the answers given.
- **Text** (`text.dfy`): the JavaScript string operations the script relies
  on, with JavaScript's semantics. These are `split`, `trim`, `startsWith`,
  `length` in UTF-16 code units, `<` on strings, `encodeURIComponent` and
  `URLSearchParams.get`.

The network is a parameter. A form handler ends by appending the request it
would send to the page's `sent` log. The reply arrives later as an argument
of the matching `Finish…` method (`Accepted`, `Refused` or `Failed`). The
current date and the browser's URL parser are parameters of the property
check. Where a JavaScript value can be `null`, `undefined` or empty, a
falsy id is modelled as the empty string. An absent key in a history-state
record is `None`.

Where the code differs from its own documentation, the model follows the code:

- A user counts as signed in when its `userId` is non-empty
  (code.js:8, code.js:22). A stored token is not required.
- The thirteen hash prefixes are checked in order, but no prefix starts
  another (`Routes.PrefixesExclusive`), so their order cannot change the
  result.
- A `#tenantCandidates/` or `#candidateDetails/` hash without an id shows
  the landing screen (code.js:965-976). Only a popped history state without
  an id falls back to the dashboard (code.js:903-904, 915-916).
- Two cases push an entry even though the screen is already current. The
  landing screen compares the current record with the empty screen name, so
  it pushes on every call (`Navigation.LandingAlwaysPushes`). The email
  screen reads its candidate id back from the hash, where it is already
  percent-encoded, and encodes it again before pushing. A second call with an
  id holding reserved characters therefore pushes a new entry with a
  different id (`Navigation.EmailIdEncodedTwice`,
  `Navigation.EncodeTwiceDiffers`). `Navigation.RepeatPushesNothing` proves
  that every other repeated show call pushes nothing.
- The bedroom and parking checks also test `parseInt(…) < 0`. That test can
  never fail once the digits-only pattern has matched, so the model drops
  it. A count such as `-1` is rejected by the pattern.

## Model

| member | source | states |
|---|---|---|
| Session.LoadedUser | code.js:19-30 | a missing key or unparsable text gives nobody; otherwise the loaded user is exactly the parsed record, and it is present exactly when that record has a `userId` |
| Session.SavedStorage | code.js:6-17 | the user key is present exactly when a signed-in user is saved, and holds that user's JSON text; the token key holds the new token when there is one, keeps the old one when the user has none, and is removed on sign-out |
| Session.AuthHeaders | code.js:346-349 | there is an `Authorization: Bearer <token>` header exactly when a non-empty token is stored, and no header otherwise |
| Session.SaveThenLoad | code.js:6-30 | a signed-in user that is saved and then loaded again (a reload) comes back unchanged |
| Session.SaveSignedOut | code.js:13-16 | saving `null` or a user without `userId` leaves nobody to load and no auth header |
| Session.SaveHeaders | code.js:8-12 | after saving a signed-in user, the header carries that user's token; with no token in the user, the previously stored token stays |
| Session.SaveKeepsOtherKeys | code.js:6-17 | saving changes no storage key but the two the session owns |
| Session.SessionStore.constructor | code.js:4 | a fresh page has nobody signed in, with storage as the browser holds it |
| Session.SessionStore.Save | code.js:6-17 | `currentUser` becomes the argument; storage is written or cleared as `SavedStorage` says |
| Session.SessionStore.Load | code.js:19-30 | `currentUser` becomes the user read from storage, or nobody |
| UserJson.Stringify | code.js:9 | the stored text is a JSON object that begins with the `email` key; `UserJson.ParseStringify` proves it reads back |
| UserJson.ParseUser | code.js:21 | only a text that begins with the `email` key is accepted; `UserJson.ParseStringify` proves every written user is read back |
| UserJson.ParseStringify | code.js:9-21 | what `JSON.stringify` writes for a user, `JSON.parse` reads back as the same user |
| Text.Split | code.js:759 | `split` on one character always yields at least one piece, and no piece contains the separator |
| Text.JoinSplit | code.js:759 | splitting and joining with the same separator gives back the original text |
| Text.Trim | code.js:1300 | `trim` never lengthens the text, and its result neither starts nor ends with white space |
| Text.TrimShape | code.js:1300 | `trim` returns a slice of the text that neither starts nor ends with white space, and trimming again changes nothing |
| Text.Utf16Length | code.js:1304 | `length` counts UTF-16 code units: between one and two per character, and zero only for empty text |
| Text.Lower | code.js:118 | `toLowerCase` keeps the length, lowers each ASCII capital and leaves no ASCII capital |
| Text.EncodeComponent | code.js:605 | `encodeURIComponent` output holds only unreserved characters and `%`, so never a `/`; text of unreserved characters is unchanged |
| Text.FirstValue | code.js:762-763 | `URLSearchParams.get` finds a value exactly when some non-empty pair has that name, and the value is the text after `=` of the first such pair |
| Text.QueryGet | code.js:762-763 | a missing query gives no value, and a value never contains `&` |
| Routes.IdSegment | code.js:759 | `hash.split('/')[1]` is one path segment: it never contains `/` |
| Routes.GetPropertyId | code.js:755-764 | a `#publicProperty/` hash gives one path segment; any other hash without `?` gives no id |
| Routes.GetCandidateId | code.js:1215-1224 | the id is one path segment, and is found only in an email or candidate-details hash |
| Routes.HashRoute | code.js:924-996 | the hash never sends an id screen an empty id, and a confirm or reset screen reached from a hash always carries its link's email and code |
| Routes.NoHashLanding | code.js:924-996 | an empty hash, or one without a leading `#`, shows the landing screen |
| Routes.PopRoute | code.js:841-922 | a popped record never shows landing or the public property screen, never sends an id screen an empty id, and never prefills a form |
| Routes.NavRoute | code.js:833-839 | `onpopstate` never sends an id screen an empty id, and a non-null state never shows landing or the public property screen |
| Routes.PushFor | code.js:243-245 | every entry a show call pushes carries a state record; `Routes.NoDuplicatePush` and `Routes.PopRestoresRoute` state what that record does |
| Routes.ScreenListComplete | code.js:817-823 | the list `hideAllScreens` walks names each of the sixteen containers exactly once |
| Routes.FirstMatch | code.js:924-996 | the index found is the first prefix the hash starts with; no earlier prefix matches, and `None` means no prefix matches |
| Routes.HashRouteIsFirstMatch | code.js:924-996 | `handleHashOrDefault` runs the branch of the first matching prefix, and shows landing when that branch finds no id or no prefix matches |
| Routes.PrefixesExclusive | code.js:926-987 | no hash starts with two of the thirteen prefixes, so the order of the tests does not matter |
| Routes.RouteOfPrefix | code.js:924-996 | a hash that starts with prefix number k goes to the branch for k |
| Routes.NoDuplicatePush | code.js:231-290 | when the pushed record is already current, the guard of every show call skips the push, except the landing screen's guard |
| Routes.PopRestoresRoute | code.js:833-922 | back or forward to an entry a show call pushed runs the same show call with the same id, whatever the hash. The prefilled links come back unfilled, and the landing record shows login |
| Routes.PopRestoresNamed | code.js:841-866 | the records of screens without an id dispatch as `Restored` says: to their own show call, except that the landing record shows login and the confirm and reset records come back unfilled |
| Routes.PopRestoresProperty | code.js:867-906 | the tenant-candidates, edit-property and add-property records dispatch with the property id they carry |
| Routes.PopRestoresCandidate | code.js:880-918 | the candidate-details and email records dispatch to their screens through the candidate id they carry |
| Routes.ReloadNamed | code.js:950-964 | reloading the URL pushed by the login, register, forgot-password or feedback screen returns to that screen |
| Routes.ReloadSignedInNamed | code.js:977-995 | reloading the URL pushed by the landing, dashboard or add-property screen returns to that screen |
| Routes.ReloadLegacy | code.js:926-949 | reloading the bare `#confirmEmail` or `#resetPassword` URL, which carries no parameters, shows landing |
| Routes.ReloadTenantCandidates | code.js:965-970 | reloading a property's candidates URL returns to that screen, with the id as `encodeURIComponent` wrote it |
| Routes.ReloadCandidateDetails | code.js:971-976 | reloading a candidate's details URL returns to that screen, with the encoded id |
| Routes.ReloadEditProperty | code.js:983-986 | reloading an edit URL returns to the edit form, with the encoded id |
| Routes.ReloadEmailCandidate | code.js:987-992 | reloading the email URL returns to the email screen, whose own lookup then finds the encoded candidate id |
| Routes.ReloadWithId | code.js:965-992 | a REST-style hash built from an id prefix and an encoded non-empty id selects that prefix's branch, and the id segment is the encoded id |
| Routes.CandidateIdOfDetails | code.js:1215-1224 | `getCandidateId` on a candidate-details hash returns its id segment |
| Routes.BareLegacyHash | code.js:926-949 | a confirm-email or reset-password hash with no query shows landing |
| Routes.LegacyNeedsQuery | code.js:928-932 | a hash without `?` has no legacy email and code |
| Navigation.History.Back | code.js:833-839 | the back button moves one entry back and keeps every entry; at the first entry it stays put |
| Navigation.History.Forward | code.js:833-839 | the forward button moves one entry forward and keeps every entry; at the last entry it stays put |
| Navigation.History.Push | code.js:243-245 | `pushState` makes the new entry current, directly after the old current one, and drops the forward entries |
| Navigation.BackAfterPush | code.js:833-839 | after a push, back returns to the entry that was current before it, and forward then restores the pushed entry |
| Navigation.Outcome | code.js:1350-1357 | a show call never ends on a gated screen without a signed-in user |
| Navigation.HistoryAfter | code.js:243-245 | history stays a valid list with a current entry; `Navigation.AtMostOnePush` states that it is unchanged or has exactly one entry pushed |
| Navigation.ShowAfter | code.js:231-1297 | the page after any show call keeps a valid history; the `Show…Page` lemmas below state each screen's page |
| Navigation.HiddenAfter | code.js:815-830 | after a show call every container is hidden but its own; the public property screen without an id changes nothing |
| Navigation.FetchFor | code.js:280-290 | a show call issues at most one request |
| Navigation.ClearedFields | code.js:297-303 | resetting the property form empties exactly its eight fields and keeps every other field |
| Navigation.ShowPlainPage | code.js:231-278 | the screens without a gate or a request reveal their container and push their record unless it is current; nothing else on the page changes |
| Navigation.ShowConfirmLinkPage | code.js:938-949 | a confirmation link puts its email and code into the form, then shows the plain confirm screen |
| Navigation.ShowResetLinkPage | code.js:926-937 | a reset link puts its email and code into the form, then shows the plain reset screen |
| Navigation.ShowBlockedPage | code.js:1350-1357 | a gated show call without a signed-in user is the login screen's show call plus a danger alert with the screen's message |
| Navigation.ShowDashboardPage | code.js:280-290 | for a signed-in user the dashboard is revealed and pushed, and the user's property list is requested |
| Navigation.ShowPropertyFormPage | code.js:292-340 | the property form is reset with the edit id in its hidden field and its validation mark removed; the button reads Update or Add; the property is requested only when editing; the push carries the edit id |
| Navigation.ShowTenantCandidatesPage | code.js:529-607 | a property's candidates are revealed, requested by property id, and pushed with that id |
| Navigation.ShowCandidateDetailsPage | code.js:609-745 | a candidate's details are revealed, requested by candidate id, and pushed with that id |
| Navigation.ShowPublicPropertyPage | code.js:767-807 | the public property screen changes nothing without an id; with one it is revealed and requested for anybody, and never pushed |
| Navigation.ShowEmailCandidatePage | code.js:1230-1297 | with no candidate id in the hash, the email screen clears its fields and raises "Candidate not found." with no push; with an id it requests the prefill and pushes |
| Navigation.AtMostOnePush | code.js:604-606 | a show call leaves history unchanged or pushes exactly the entry the screen defines on top of the current one |
| Navigation.GateBlocks | code.js:1350-1357 | a gated screen without a session shows only the login screen, raises the screen's message, sends no request, and pushes at most the login entry |
| Navigation.UngatedScreens | code.js:351-359 | the feedback, account and landing screens are shown whoever is signed in |
| Navigation.LandingAlwaysPushes | code.js:231-237 | the landing screen pushes its root entry on every call |
| Navigation.PublicPropertyNeverPushes | code.js:767-807 | the public property screen never touches history |
| Navigation.RepeatPushesNothing | code.js:1293-1295 | repeating a show call leaves history as the first call left it, except for landing and for an email id that encoding changes |
| Navigation.EmailIdEncodedTwice | code.js:1293-1294 | from a candidate's details, the email screen pushes the candidate id encoded twice |
| Navigation.EncodeTwiceDiffers | code.js:1294 | encoding an encoded id again changes it whenever the id holds a reserved character |
| Forms.LoginVerdict | code.js:133-141 | login is sent exactly when both fields are filled; otherwise the form is marked |
| Forms.RegisterVerdict | code.js:63-74 | registration is sent exactly when every field is filled, the terms are accepted and the passwords agree |
| Forms.ConfirmVerdict | code.js:103-111 | confirmation is sent exactly when address and code are filled |
| Forms.ResetCodeVerdict | code.js:165-172 | a reset code is requested exactly when the address is filled |
| Forms.ResetPasswordVerdict | code.js:194-209 | a missing field marks the form; with all fields filled, a password mismatch raises the mismatch alert; otherwise the reset is sent |
| Forms.PropertyVerdict | code.js:362-399 | a property is saved exactly when the six required fields are filled, the trimmed counts are all digits, the date is not before today and a given link parses; a missing field marks the form, and each later check raises its own message exactly when every earlier check passes and it fails |
| Forms.SaveEndpoint | code.js:402 | a filled hidden id edits the property, an empty one adds it |
| Forms.IsoDateOrder | code.js:388-393 | for two `YYYY-MM-DD` texts, the string `<` test agrees with calendar order |
| Forms.EmailVerdict | code.js:1299-1319 | an email is sent exactly when the trimmed subject has at least three units, the trimmed message at least five, and the hash yields a candidate id; each failed check raises its own message exactly when the earlier checks pass |
| Forms.MatchesEmailPattern | code.js:1385 | the scan of the feedback address accepts exactly the texts the email regular expression matches |
| Forms.FeedbackCheck | code.js:1372-1393 | feedback text is flagged exactly when its trim is shorter than five units; the email is flagged exactly when its trim is non-empty and does not match the pattern |
| Forms.TextareaMessage | code.js:1204-1213 | a required text area carries the five-character message exactly when its trim is shorter than five units |
| Forms.ErrorLines | code.js:1134-1140 | there are at most as many error lines as fields, and none exactly when no rendered field fails |
| Forms.CollectErrors | code.js:1126-1143 | the loop collects the failing fields' lines in form order, and the valid flag holds exactly when there is none |
| Screens.OrElse | code.js:96 | `message \|\| fallback` keeps a non-empty message and otherwise gives the fallback |
| Screens.FailureAlert | code.js:96-99 | a refusal or a failure raises a danger alert, showing the server's message when it sent one |
| Screens.StepNext | code.js:91-97 | every account step continues to a screen without a gate |
| Screens.App.constructor | code.js:3-4 | the loaded page has one history entry and nobody signed in |
| Screens.App.HideAllScreens | code.js:815-830 | every container is hidden and nothing else on the page changes |
| Screens.App.Reveal | code.js:242 | one container loses its hidden mark |
| Screens.App.PushUnlessCurrent | code.js:243-245 | history becomes what `HistoryAfter` says for the screen |
| Screens.App.RequireLogin | code.js:1350-1357 | returns true exactly when a user with `userId` is signed in, and then changes nothing; otherwise the login screen is shown with the message as a danger alert |
| Screens.App.ShowPlain | code.js:231-278 | the page becomes `ShowAfter` for the ungated screens |
| Screens.App.ShowDashboard | code.js:280-290 | the page becomes `ShowAfter` for the dashboard |
| Screens.App.OpenDashboard | code.js:282-289 | after the gate, the page becomes `DashboardPage` |
| Screens.App.ShowPropertyForm | code.js:292-340 | the page becomes `ShowAfter` for the property form |
| Screens.App.OpenPropertyForm | code.js:294-339 | after the gate, the page becomes `PropertyFormPage` |
| Screens.App.ResetPropertyForm | code.js:297-329 | the mark is dropped, the caption chosen, the fields emptied except the id, and the property requested when editing |
| Screens.App.ShowTenantCandidates | code.js:529-607 | the page becomes `ShowAfter` for a property's candidates |
| Screens.App.OpenTenantCandidates | code.js:531-606 | after the gate, the page becomes `TenantCandidatesPage` |
| Screens.App.ShowCandidateDetails | code.js:609-745 | the page becomes `ShowAfter` for a candidate's details |
| Screens.App.OpenCandidateDetails | code.js:611-744 | after the gate, the page becomes `CandidateDetailsPage` |
| Screens.App.ShowPublicProperty | code.js:767-807 | returns true exactly when there is an id; the page becomes `ShowAfter` for the public property |
| Screens.App.ShowEmailCandidate | code.js:1230-1297 | the page becomes `ShowAfter` for the email screen |
| Screens.App.OpenEmailCandidate | code.js:1232-1296 | after the gate, the page becomes `EmailCandidatePage` |
| Screens.App.ShowThankYou | code.js:1112-1118 | only the thank-you container is shown, with the message; history is untouched |
| Screens.App.ShowConfirmEmail | code.js:938-949 | the page becomes `ShowAfter` for the confirm screen, prefilled from the link |
| Screens.App.ShowResetPassword | code.js:926-937 | the page becomes `ShowAfter` for the reset screen, prefilled from the link |
| Screens.App.Show | code.js:841-922 | every route's show call leaves the page as `ShowAfter` says |
| Screens.App.HandleHashOrDefault | code.js:924-996 | the page becomes `ShowAfter` for the route of the current hash |
| Screens.App.OnPopState | code.js:833-839 | the page becomes `ShowAfter` for the popped state's route, or for the hash's route when the state is null |
| Screens.App.GoBack | code.js:833-839 | the back button moves history one entry back, then the pop handler runs; at the first entry no `popstate` fires and the page is unchanged |
| Screens.App.GoForward | code.js:833-839 | the forward button moves one entry forward, then the pop handler runs; at the last entry no `popstate` fires and the page is unchanged |
| Screens.App.Boot | code.js:998-1001 | on load the stored user is read back, then the hash decides the screen |
| Screens.App.Logout | code.js:809-813 | nobody is signed in and storage is cleared; the login screen is shown with the info alert |
| Screens.App.Check | code.js:138-141 | a verdict marks the form, raises its alert or sends the request |
| Screens.App.SendLogin | code.js:133-149 | login posts the two fields when `LoginVerdict` passes |
| Screens.App.SendRegistration | code.js:63-89 | registration posts the address and password when `RegisterVerdict` passes |
| Screens.App.SendConfirmation | code.js:103-119 | confirmation posts the address and the lower-cased code when `ConfirmVerdict` passes |
| Screens.App.SendResetCode | code.js:165-180 | the reset-code request posts the address when `ResetCodeVerdict` passes |
| Screens.App.SendNewPassword | code.js:194-217 | the reset posts address, code and new password when `ResetPasswordVerdict` passes |
| Screens.App.SaveProperty | code.js:362-419 | the property form posts to the add or edit endpoint, with the owner's id, when `PropertyVerdict` passes |
| Screens.App.SendEmailToCandidate | code.js:1299-1332 | a complaint goes to the notice box; otherwise the notice is hidden and the trimmed subject and message are posted with the candidate id from the hash |
| Screens.App.SendFeedback | code.js:1359-1410 | both fields are re-marked in one pass; any mark sets the form's mark and sends nothing; otherwise the mark is removed and the trimmed fields are posted |
| Screens.App.SubmitApplication | code.js:1120-1191 | the error box shows the joined lines when any rendered field fails; otherwise it stays empty and the application is posted with the property id from the hash |
| Screens.App.Fail | code.js:96-99 | a refused or failed request raises `FailureAlert` |
| Screens.App.FinishAccountStep | code.js:90-98 | on success, the success alert and then the step's next screen; otherwise the failure alert |
| Screens.App.FinishLogin | code.js:150-162 | on success, the user is saved from the reply, then the success alert and the dashboard; otherwise the failure alert with the session untouched |
| Screens.App.FinishSaveProperty | code.js:420-434 | on success, the server's prompt as a warning or the handler's own message, then the dashboard; otherwise the failure alert |
| Screens.App.FinishEmail | code.js:1333-1347 | on success, the alert and the candidate's details; otherwise a message in the notice box |
| Screens.App.FinishFeedback | code.js:1411-1426 | on success, the thanks, the dashboard and both fields emptied; otherwise an alert |
| Screens.App.FinishApplication | code.js:1192-1201 | on success, the thank-you screen with the server's message; otherwise the failure alert |
| Display.BadgeClass | code.js:747-753 | a missing or zero score is grey; the other scores fall into the 90, 70 and 50 bands, each an if-and-only-if |
| Display.BadgeMonotone | code.js:747-753 | a higher non-zero score never gets a worse badge |
| Display.NatTextValue | code.js:492 | the count as the template writes it reads back as the same number |
| Display.UsageMeter | code.js:489-495 | the text is "count of limit properties used"; the meter is red exactly from the limit on and blue exactly below it |
| Display.UpdateUsageMeter | code.js:490-491 | a page without the meter element is left as it is |
| Display.Limit | code.js:483 | a missing or zero limit counts as one; any other limit is kept |
| Display.MeterCount | code.js:492 | the meter's text starts with the count's digits, which read back as the count |
| Display.DefaultLimit | code.js:483 | with no limit from the server, the meter is red from one property on |
| Display.BoolDisplay | code.js:654-659 | booleans and their spellings render as Yes or No; the result is never empty |
| Display.BoolDisplayOthers | code.js:658 | any other value shows as its text, and a falsy one as N/A |
| Display.BoolDisplayIdempotent | code.js:654-659 | rendering a rendered value again gives the same text |
| Display.UpdateVisibility | code.js:1047-1090 | the update sets the sections it handles and keeps every other section's display; `Display.VisibilityMeaning` states each set section's value |
| Display.DisplayFor | code.js:1047-1090 | a section is displayed exactly when its answer opens it |
| Display.VisibilityMeaning | code.js:1047-1090 | every section's display follows its own question's answer; when the housing elements are missing, that section is left alone |
| Display.InAllSections | code.js:1082-1089 | the update sets every section, and the housing one only when its elements are present |
| Display.EmptyFormClosesAll | code.js:1047-1090 | on an empty form every section the update sets is closed |
| Display.OneAnswerOneSection | code.js:1093-1103 | changing one question's answer changes the display of that question's section only |
| Display.VisibilityIdempotent | code.js:1107-1110 | running the update twice on the same answers changes nothing more |

## Left out

- The content of replies: rendering of the property table, candidate tables and detail cards and the public property card. The property and email forms filled in from a reply are left out too. Only which request is sent, and what the reply handlers do with success or failure, is modelled.
- `fetchWithOverlay`, the overlay and the alert's three-second timeout: these are timing and presentation. The model also does not capture that concurrent replies can land in any order.
- `injectNavbar`, `copyLink` (clipboard), `renderProperties`, `updatePropertyStatus` and the status buttons: these are rendering, or are outside the navigation core.
- The move-in date listener (code.js:1035-1045): it compares `Date` objects in local time, and the clock is not part of this model.
- The Enter key on the login form (code.js:1003-1008) only calls `login()`, which `Screens.App.SendLogin` models.
- `editProperty(id)` (code.js:342-344) is `showAddPropertyScreen(id)`, modelled by `Screens.App.ShowPropertyForm`.
- The back-to helpers (code.js:524-527, 1226-1228) can pass a `null` id to a show call. Show calls here take a falsy id as the empty text. In the browser, `encodeURIComponent(null)` is `"null"`, so that call pushes `#tenantCandidates/null` or `#candidateDetails/null` (code.js:604-606, 742-744), and a later pop or reload of that entry opens the screen for the id `"null"` (code.js:880-904, 965-976). The model pushes `#tenantCandidates/` or `#candidateDetails/` instead, so a pop of that entry shows the dashboard and a reload shows landing.
- The browser's back and forward buttons are modelled as moving one entry in session history. Real browsers also fire `popstate` for hash changes, which this model does not capture.
- `landing/code.js` is not part of this model.
- Forms.PropertyVerdict: takes the URL parser's verdict as the `linkParses` parameter and the current date as `today`; `new URL` and `Date` are not modelled.
- Text.Lower: lowers only the ASCII capitals; `toLowerCase` on other letters is not modelled.
- Text.FirstValue: returns names and values as written, while `URLSearchParams` percent-decodes both and reads `+` as a space. A link whose parameter name is encoded (`#resetPassword?%65mail=a&code=b`) therefore finds no email in the model and shows landing, where the browser shows the prefilled form. A prefilled field holds the raw text (`a%40b.com`) where the browser's holds the decoded `a@b.com`, and the confirmation and reset requests posted from it carry that raw text too.
- UserJson.ParseUser: the reader accepts the layout the writer produces and treats any other JSON text as unparsable. A stored record with other keys or key order, written by another program, is not covered.
- Display.BadgeClass: scores are real numbers; `NaN` and non-numeric scores are not modelled.
- Display.BoolDisplay: numbers are integers; fractional numbers and objects are not modelled.
- Display.VisibilityMeaning: a missing element other than the housing ones makes the source throw; the model assumes those elements exist. The special-vehicles answer is compared with the literal exactly as the source writes it: the three characters an em dash's UTF-8 bytes become when read as Windows-1252. The markup's option values are not part of this model, so whether an option can ever match is open.
- Screens.App.SendRegistration: the posted body omits the two boolean check-box fields, because request bodies are modelled as text fields.
- Screens.App.SubmitApplication: the posted body omits the consent and declaration check boxes. The `null` sent for empty optional fields is modelled as the empty text. The `.hidden` and `offsetParent` tests are the `rendered` flag of each field passed in.
- Screens.App.SendFeedback: the error texts shown in the fields' sibling elements are not modelled; the invalid marks are.
- Screens.App.FinishLogin: the reply's `userId` and `token` are read as text, and a missing one as empty.
