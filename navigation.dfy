/**
 * What one show call does to the page, as functions of the state before it:
 * which containers end up hidden, what session history becomes, which alert
 * is raised, which form fields are reset or prefilled and which request is
 * issued. The page object in the Screens module is proved to follow these.
 */
module Navigation {
  import opened Base
  import opened Text
  import opened Routes
  import opened UserJson
  import opened Session

  // ---------------------------------------------------------------------------
  // session history
  // ---------------------------------------------------------------------------

  /** The browser's session history: its entries and the index of the current one. */
  datatype History = History(entries: seq<Entry>, pos: nat) {

    predicate Valid()
    {
      pos < |entries|
    }

    /** The entry the page is showing: `history.state` and `location.hash`. */
    function Current(): Entry
      requires Valid()
    {
      entries[pos]
    }

    /** `history.pushState`: forward entries are discarded and the new entry becomes current. */
    function Push(e: Entry): (h: History)
      requires Valid()
      ensures h.Valid() && h.Current() == e
      ensures |h.entries| == pos + 2 && h.entries[..pos + 1] == entries[..pos + 1]
    {
      History(entries[..pos + 1] + [e], pos + 1)
    }

    /** The back button: one entry back, or nothing when there is none. */
    function Back(): (h: History)
      requires Valid()
      ensures h.Valid() && h.entries == entries
      ensures h.pos == if pos == 0 then 0 else pos - 1
    {
      if pos == 0 then this else History(entries, pos - 1)
    }

    /** The forward button: one entry forward, or nothing when there is none. */
    function Forward(): (h: History)
      requires Valid()
      ensures h.Valid() && h.entries == entries
      ensures h.pos == if pos == |entries| - 1 then pos else pos + 1
    {
      if pos == |entries| - 1 then this else History(entries, pos + 1)
    }
  }

  /** After a push, the back button returns to the entry that was current before it, and forward undoes that. */
  lemma BackAfterPush(h: History, e: Entry)
    requires h.Valid()
    ensures h.Push(e).Back().Current() == h.Current()
    ensures h.Push(e).Back().Forward() == h.Push(e)
  {
  }

  // ---------------------------------------------------------------------------
  // what a show call shows
  // ---------------------------------------------------------------------------

  /** A message in the alert container and its Bootstrap variant (`success`, `danger`, `info`, `warning`). */
  datatype Alert = Alert(message: string, kind: string)

  /**
   * A request sent to the API: a `GET` with its path and the id (or owner id)
   * in its query, or a `POST` with its path and the text fields of its body.
   */
  datatype Request = Get(endpoint: string, id: string) | Post(endpoint: string, body: map<string, string>)

  /** The container the show call for `r` reveals. */
  function ScreenOf(r: Route): ScreenId
  {
    match r
    case Landing => LandingScreen
    case Login => LoginScreen
    case Register => RegisterScreen
    case ForgotPassword => ForgotPasswordScreen
    case Feedback => FeedbackScreen
    case Dashboard => DashboardScreen
    case ConfirmEmail(_) => ConfirmEmailScreen
    case ResetPassword(_) => ResetPasswordScreen
    case PublicProperty(_) => PublicPropertyScreen
    case TenantCandidates(_) => TenantCandidatesScreen
    case CandidateDetails(_) => CandidateDetailsScreen
    case PropertyForm(_) => AddPropertyScreen
    case EmailCandidate => EmailCandidateScreen
  }

  /** The owner-only screens, whose show calls begin with `requireLogin`. */
  predicate Gated(r: Route)
  {
    r.Dashboard? || r.PropertyForm? || r.TenantCandidates? || r.CandidateDetails? || r.EmailCandidate?
  }

  /** The message `requireLogin` raises for each gated screen. */
  function GateMessage(r: Route): string
  {
    match r
    case TenantCandidates(_) => "Please log in to view tenant candidates."
    case CandidateDetails(_) => "Please log in to view candidate details."
    case EmailCandidate => "Please log in to email a candidate."
    case _ => "Please log in to continue."
  }

  /** The screen a show call ends up on: a gated screen without a signed-in user turns into the login screen. */
  function Outcome(r: Route, signedIn: bool): (o: Route)
    ensures !Gated(o) || signedIn
  {
    if Gated(r) && !signedIn then Login else r
  }

  /** Whether the show call changes the page at all: the public property screen returns early without an id. */
  predicate Reveals(r: Route, signedIn: bool)
  {
    var o := Outcome(r, signedIn);
    !(o.PublicProperty? && o.propertyId == "")
  }

  /** The hidden containers after the show call: all of them but its own. */
  function HiddenAfter(hidden: set<ScreenId>, r: Route, signedIn: bool): (after: set<ScreenId>)
    ensures Reveals(r, signedIn) ==> after == AllScreens - {ScreenOf(Outcome(r, signedIn))}
    ensures !Reveals(r, signedIn) ==> after == hidden
  {
    if Reveals(r, signedIn) then AllScreens - {ScreenOf(Outcome(r, signedIn))} else hidden
  }

  /** Session history after the show call: its entry is pushed unless the current record already names it. */
  function HistoryAfter(h: History, r: Route, signedIn: bool): (after: History)
    requires h.Valid()
    ensures after.Valid()
  {
    var o := Outcome(r, signedIn);
    match PushFor(o, h.Current().hash)
    case None => h
    case Some(e) => if SkipsPush(o, h.Current().state, e.state.value) then h else h.Push(e)
  }

  /** The alert after the show call: the gate's message, or the email screen's complaint that it found no candidate. */
  function AlertAfter(alert: Option<Alert>, r: Route, signedIn: bool, hash: string): Option<Alert>
  {
    if Gated(r) && !signedIn then Some(Alert(GateMessage(r), "danger"))
    else if r.EmailCandidate? && GetCandidateId(hash) == "" then Some(Alert("Candidate not found.", "danger"))
    else alert
  }

  /** The request the show call issues (`ownerId` is the signed-in user's id). */
  function FetchFor(r: Route, signedIn: bool, userId: string, hash: string): (reqs: seq<Request>)
    ensures |reqs| <= 1
  {
    match Outcome(r, signedIn)
    case Dashboard => [Get("/list-properties", userId)]
    case PropertyForm(id) => if id != "" then [Get("/get-property", id)] else []
    case TenantCandidates(id) => [Get("/get-tenant-candidates", id)]
    case CandidateDetails(id) => [Get("/get-tenant-candidate-details", id)]
    case PublicProperty(id) => if id != "" then [Get("/get-public-property", id)] else []
    case EmailCandidate =>
      var c := GetCandidateId(hash);
      if c != "" then [Get("/get-candidate-property-info", c)] else []
    case _ => []
  }

  /** The fields of the property form that `reset()` clears. */
  const PropertyFields: seq<string> := [
    "property_id", "property_address", "property_description", "property_link",
    "property_availability", "property_rent", "property_bedrooms", "property_parking"
  ]

  /** Every field in `names` set to the empty text. */
  function Cleared(inputs: map<string, string>, names: seq<string>): map<string, string>
  {
    if names == [] then inputs else Cleared(inputs, names[1..])[names[0] := ""]
  }

  /** Clearing empties exactly the named fields, adding those the page lacked, and keeps every other field. */
  lemma {:induction false} ClearedFields(inputs: map<string, string>, names: seq<string>, k: string)
    ensures k in Cleared(inputs, names) <==> k in inputs || k in names
    ensures k in names ==> Cleared(inputs, names)[k] == ""
    ensures k !in names && k in inputs ==> Cleared(inputs, names)[k] == inputs[k]
  {
    if names != [] {
      ClearedFields(inputs, names[1..], k);
    }
  }

  /**
   * The form fields after the show call: the legacy links prefill the
   * confirm-email and reset-password forms, the property form is reset with
   * the id to edit in its hidden field, and the email screen clears its
   * subject and text when it finds no candidate.
   */
  function InputsAfter(inputs: map<string, string>, r: Route, signedIn: bool, hash: string): map<string, string>
  {
    match Outcome(r, signedIn)
    case ConfirmEmail(Some((email, code))) => inputs["confirmEmailInput" := email]["confirmationCode" := code]
    case ResetPassword(Some((email, code))) => inputs["resetEmail" := email]["resetCode" := code]
    case PropertyForm(id) => Cleared(inputs, PropertyFields)["property_id" := id]
    case EmailCandidate =>
      if GetCandidateId(hash) == "" then inputs["emailCandidateText" := ""]["emailCandidateSubject" := ""] else inputs
    case _ => inputs
  }

  /** The label of the property form's save button: `Update` when editing, `Add` otherwise. */
  function LabelAfter(caption: string, r: Route, signedIn: bool): string
  {
    match Outcome(r, signedIn)
    case PropertyForm(id) => if id != "" then "Update" else "Add"
    case _ => caption
  }

  /** The id of the signed-in user, as the dashboard's request sends it. */
  function UserIdOf(user: Option<User>): string
  {
    if user.Some? then user.value.userId else ""
  }

  /**
   * The page as the handlers see it: which containers are hidden, session
   * history, the alert, the form fields and check boxes, the save button's
   * label, the forms marked `was-validated`, the fields marked `is-invalid`,
   * the email screen's notice box,
   * the thank-you message, the application form's error box and the requests
   * sent so far.
   */
  datatype Page = Page(
    hidden: set<ScreenId>, history: History, alert: Option<Alert>,
    inputs: map<string, string>, checked: set<string>, saveLabel: string,
    validated: set<string>, flagged: set<string>, notice: Option<string>, thankYou: string,
    errors: Option<string>, sent: seq<Request>)

  /** The page after the show call for `r`, with `user` signed in or not. */
  function ShowAfter(p: Page, r: Route, user: Option<User>): (q: Page)
    requires p.history.Valid()
    ensures q.history.Valid()
  {
    var signedIn := SignedIn(user);
    var hash := p.history.Current().hash;
    var o := Outcome(r, signedIn);
    p.(hidden := HiddenAfter(p.hidden, r, signedIn),
       history := HistoryAfter(p.history, r, signedIn),
       alert := AlertAfter(p.alert, r, signedIn, hash),
       inputs := InputsAfter(p.inputs, r, signedIn, hash),
       saveLabel := LabelAfter(p.saveLabel, r, signedIn),
       validated := if o.PropertyForm? then p.validated - {"addPropertyForm"} else p.validated,
       notice := if o.EmailCandidate? then None else p.notice,
       sent := p.sent + FetchFor(r, signedIn, UserIdOf(user), hash))
  }

  /** The routes whose show call has no gate, no request and no form to fill. */
  predicate PlainRoute(r: Route)
  {
    r.Landing? || r.Login? || r.Register? || r.ForgotPassword? || r == ConfirmEmail(None) || r == ResetPassword(None) || r.Feedback?
  }

  /**
   * The show calls without a gate or a request reveal their container and
   * push their record unless it is current; nothing else on the page changes.
   */
  lemma ShowPlainPage(p: Page, r: Route, user: Option<User>)
    requires p.history.Valid()
    requires PlainRoute(r)
    ensures ShowAfter(p, r, user) == p.(hidden := AllScreens - {ScreenOf(r)}, history := HistoryAfter(p.history, r, true))
  {
    PlainFields(p, r, user);
  }

  /** Each field a plain show call leaves alone. */
  lemma PlainFields(p: Page, r: Route, user: Option<User>)
    requires p.history.Valid()
    requires PlainRoute(r)
    ensures var signedIn, hash := SignedIn(user), p.history.Current().hash;
      && Outcome(r, signedIn) == r
      && HistoryAfter(p.history, r, signedIn) == HistoryAfter(p.history, r, true)
      && HiddenAfter(p.hidden, r, signedIn) == AllScreens - {ScreenOf(r)}
      && AlertAfter(p.alert, r, signedIn, hash) == p.alert
      && InputsAfter(p.inputs, r, signedIn, hash) == p.inputs
      && LabelAfter(p.saveLabel, r, signedIn) == p.saveLabel
      && FetchFor(r, signedIn, UserIdOf(user), hash) == []
  {
  }

  /** A confirmation link's values land in the form's fields; the rest is the plain show call. */
  lemma ShowConfirmLinkPage(p: Page, email: string, code: string, user: Option<User>)
    requires p.history.Valid()
    ensures ShowAfter(p, ConfirmEmail(Some((email, code))), user)
      == ShowAfter(p.(inputs := p.inputs["confirmEmailInput" := email]["confirmationCode" := code]), ConfirmEmail(None), user)
  {
  }

  /** A reset link's values land in the form's fields; the rest is the plain show call. */
  lemma ShowResetLinkPage(p: Page, email: string, code: string, user: Option<User>)
    requires p.history.Valid()
    ensures ShowAfter(p, ResetPassword(Some((email, code))), user)
      == ShowAfter(p.(inputs := p.inputs["resetEmail" := email]["resetCode" := code]), ResetPassword(None), user)
  {
  }

  /** A gated show call without a signed-in user is the login screen's show call followed by the gate's alert. */
  lemma ShowBlockedPage(p: Page, r: Route, user: Option<User>)
    requires p.history.Valid() && Gated(r) && !SignedIn(user)
    ensures ShowAfter(p, r, user) == ShowAfter(p, Login, user).(alert := Some(Alert(GateMessage(r), "danger")))
  {
  }

  /** The dashboard, for a signed-in user: revealed, pushed, and the user's properties requested. */
  function DashboardPage(p: Page, userId: string): Page
    requires p.history.Valid()
  {
    p.(hidden := AllScreens - {DashboardScreen}, history := HistoryAfter(p.history, Dashboard, true),
       sent := p.sent + [Get("/list-properties", userId)])
  }

  /**
   * The property form, for a signed-in user: revealed, its fields reset with
   * the id to edit in the hidden one, its mark removed, the button labelled,
   * the property requested when editing, and pushed.
   */
  function PropertyFormPage(p: Page, id: string): Page
    requires p.history.Valid()
  {
    p.(hidden := AllScreens - {AddPropertyScreen},
       history := HistoryAfter(p.history, PropertyForm(id), true),
       inputs := Cleared(p.inputs, PropertyFields)["property_id" := id],
       saveLabel := if id != "" then "Update" else "Add",
       validated := p.validated - {"addPropertyForm"},
       sent := p.sent + if id != "" then [Get("/get-property", id)] else [])
  }

  /** The candidates of a property, for a signed-in user: revealed, requested, pushed. */
  function TenantCandidatesPage(p: Page, id: string): Page
    requires p.history.Valid()
  {
    p.(hidden := AllScreens - {TenantCandidatesScreen},
       history := HistoryAfter(p.history, TenantCandidates(id), true), sent := p.sent + [Get("/get-tenant-candidates", id)])
  }

  /** A candidate's details, for a signed-in user: revealed, requested, pushed. */
  function CandidateDetailsPage(p: Page, id: string): Page
    requires p.history.Valid()
  {
    p.(hidden := AllScreens - {CandidateDetailsScreen},
       history := HistoryAfter(p.history, CandidateDetails(id), true), sent := p.sent + [Get("/get-tenant-candidate-details", id)])
  }

  /**
   * The email screen, for a signed-in user: revealed with its notice hidden;
   * without a candidate id in the hash its fields are cleared and an alert
   * raised, with one the prefill is requested and the record pushed.
   */
  function EmailCandidatePage(p: Page): Page
    requires p.history.Valid()
  {
    var c := GetCandidateId(p.history.Current().hash);
    if c == "" then
      p.(hidden := AllScreens - {EmailCandidateScreen}, alert := Some(Alert("Candidate not found.", "danger")),
         inputs := p.inputs["emailCandidateText" := ""]["emailCandidateSubject" := ""], notice := None)
    else
      p.(hidden := AllScreens - {EmailCandidateScreen}, history := HistoryAfter(p.history, EmailCandidate, true),
         notice := None, sent := p.sent + [Get("/get-candidate-property-info", c)])
  }

  /** For a signed-in user each gated show call does what its screen's page function says. */
  lemma ShowDashboardPage(p: Page, user: Option<User>)
    requires p.history.Valid() && SignedIn(user)
    ensures ShowAfter(p, Dashboard, user) == DashboardPage(p, user.value.userId)
  {
  }

  lemma ShowPropertyFormPage(p: Page, id: string, user: Option<User>)
    requires p.history.Valid() && SignedIn(user)
    ensures ShowAfter(p, PropertyForm(id), user) == PropertyFormPage(p, id)
  {
  }

  lemma ShowTenantCandidatesPage(p: Page, id: string, user: Option<User>)
    requires p.history.Valid() && SignedIn(user)
    ensures ShowAfter(p, TenantCandidates(id), user) == TenantCandidatesPage(p, id)
  {
  }

  lemma ShowCandidateDetailsPage(p: Page, id: string, user: Option<User>)
    requires p.history.Valid() && SignedIn(user)
    ensures ShowAfter(p, CandidateDetails(id), user) == CandidateDetailsPage(p, id)
  {
  }

  /** The public property: nothing at all without an id; otherwise revealed and requested, for anybody, and never pushed. */
  lemma ShowPublicPropertyPage(p: Page, id: string, user: Option<User>)
    requires p.history.Valid()
    ensures id == "" ==> ShowAfter(p, PublicProperty(id), user) == p
    ensures id != "" ==> ShowAfter(p, PublicProperty(id), user) == p.(hidden := AllScreens - {PublicPropertyScreen},
      sent := p.sent + [Get("/get-public-property", id)])
  {
  }

  lemma ShowEmailCandidatePage(p: Page, user: Option<User>)
    requires p.history.Valid() && SignedIn(user)
    ensures ShowAfter(p, EmailCandidate, user) == EmailCandidatePage(p)
  {
  }

  // ---------------------------------------------------------------------------
  // properties of a show call
  // ---------------------------------------------------------------------------

  /** A show call pushes at most one entry, and only on top of the current one. */
  lemma AtMostOnePush(h: History, r: Route, signedIn: bool)
    requires h.Valid()
    ensures var after := HistoryAfter(h, r, signedIn);
      || after == h
      || (after == h.Push(after.Current()) && Some(after.Current()) == PushFor(Outcome(r, signedIn), h.Current().hash))
  {
  }

  /**
   * Without a signed-in user a gated show call shows the login screen with
   * the gate's message, issues no request and leaves the requested screen
   * hidden and out of history.
   */
  lemma GateBlocks(h: History, hidden: set<ScreenId>, r: Route, userId: string, hash: string, alert: Option<Alert>)
    requires h.Valid() && Gated(r)
    ensures HiddenAfter(hidden, r, false) == AllScreens - {LoginScreen}
    ensures ScreenOf(r) in HiddenAfter(hidden, r, false)
    ensures AlertAfter(alert, r, false, hash) == Some(Alert(GateMessage(r), "danger"))
    ensures FetchFor(r, false, userId, hash) == []
    ensures HistoryAfter(h, r, false) == HistoryAfter(h, Login, false)
    ensures var cur := h.Current().state;
      HistoryAfter(h, r, false) == if cur.Some? && cur.value.screen == "login" then h else h.Push(Entry(Some(Plain("login")), "#login"))
  {
    assert Outcome(r, false) == Login && Reveals(r, false);
    assert ScreenOf(r) != LoginScreen;
    ScreenListComplete(ScreenOf(r));
    assert PushFor(Login, h.Current().hash) == Some(Entry(Some(Plain("login")), "#login"));
  }

  /** The feedback screen and the account screens have no gate. */
  lemma UngatedScreens(r: Route)
    requires r.Feedback? || r.Login? || r.Register? || r.ForgotPassword? || r.ConfirmEmail? || r.ResetPassword? || r.Landing?
    ensures Outcome(r, false) == r
  {
  }

  /** The landing screen compares the record with the empty name, so it pushes on every call. */
  lemma LandingAlwaysPushes(h: History, signedIn: bool)
    requires h.Valid()
    requires h.Current().state.Some? ==> h.Current().state.value.screen != ""
    ensures HistoryAfter(h, Landing, signedIn) == h.Push(Entry(Some(Plain("landing")), ""))
  {
  }

  /** The public property screen never pushes. */
  lemma PublicPropertyNeverPushes(h: History, id: string, signedIn: bool)
    requires h.Valid()
    ensures HistoryAfter(h, PublicProperty(id), signedIn) == h
  {
  }

  /**
   * Repeating a show call leaves history as the first call left it: the
   * record it pushed is current, so the guard holds. The landing screen is
   * the exception, and so is an email screen whose candidate id changes when
   * percent-encoded, because the id is read back from the hash still encoded.
   */
  lemma RepeatPushesNothing(h: History, r: Route, signedIn: bool)
    requires h.Valid() && Outcome(r, signedIn) != Landing
    requires Outcome(r, signedIn).EmailCandidate? ==> EncodeComponent(GetCandidateId(h.Current().hash)) == GetCandidateId(h.Current().hash)
    ensures HistoryAfter(HistoryAfter(h, r, signedIn), r, signedIn) == HistoryAfter(h, r, signedIn)
  {
    var o := Outcome(r, signedIn);
    var after := HistoryAfter(h, r, signedIn);
    if o.EmailCandidate? && PushFor(o, h.Current().hash).Some? {
      var c := GetCandidateId(h.Current().hash);
      if after != h {
        ReloadEmailCandidate(h.Current().hash);
        assert GetCandidateId(after.Current().hash) == c;
      }
    }
  }

  /**
   * The email screen reached from a candidate's details reads the candidate id
   * back from the hash, where it is already percent-encoded, and pushes it
   * encoded once more.
   */
  lemma EmailIdEncodedTwice(h: History, id: string)
    requires h.Valid() && id != ""
    requires h.Current() == Entry(Some(HistState("candidateDetails", None, Some(id))), "#candidateDetails/" + EncodeComponent(id))
    ensures var c := EncodeComponent(id);
      HistoryAfter(h, EmailCandidate, true).Current() == Entry(Some(HistState("emailCandidate", None, Some(c))), "#emailCandidate/" + EncodeComponent(c))
  {
    var c := EncodeComponent(id);
    EncodeNonEmpty(id);
    EncodeHasNoSlash(id);
    CandidateIdOfDetails(c);
    assert GetCandidateId(h.Current().hash) == c;
    var e := Entry(Some(HistState("emailCandidate", None, Some(c))), "#emailCandidate/" + EncodeComponent(c));
    EmailPush(h.Current().hash, c);
    assert "candidateDetails" != "emailCandidate";
    assert HistoryAfter(h, EmailCandidate, true) == h.Push(e);
  }

  /** The entry the email screen pushes for the candidate id its hash yields. */
  lemma EmailPush(hash: string, c: string)
    requires GetCandidateId(hash) == c != ""
    ensures PushFor(EmailCandidate, hash) == Some(Entry(Some(HistState("emailCandidate", None, Some(c))), "#emailCandidate/" + EncodeComponent(c)))
  {
  }

  /** Encoding an encoded id again changes it whenever the id holds a character `encodeURIComponent` escapes. */
  lemma EncodeTwiceDiffers(id: string)
    requires exists i :: 0 <= i < |id| && !Unreserved(id[i])
    ensures EncodeComponent(EncodeComponent(id)) != EncodeComponent(id)
  {
    EncodeGrows(id);
    EncodeGrows(EncodeComponent(id));
    var e := EncodeComponent(id);
    var i :| 0 <= i < |id| && !Unreserved(id[i]);
    assert |e| > |id|;
    assert exists j :: 0 <= j < |e| && e[j] == '%';
    var j :| 0 <= j < |e| && e[j] == '%';
    assert !Unreserved(e[j]);
  }

  /** Encoding never shortens a text, and lengthens any text holding a character it escapes. */
  lemma {:induction false} EncodeGrows(s: string)
    ensures |EncodeComponent(s)| >= |s|
    ensures (exists i :: 0 <= i < |s| && !Unreserved(s[i])) ==> |EncodeComponent(s)| > |s|
    decreases |s|
  {
    if s != [] {
      EncodeGrows(s[1..]);
      if exists i :: 0 <= i < |s| && !Unreserved(s[i]) {
        var i :| 0 <= i < |s| && !Unreserved(s[i]);
        if i > 0 {
          assert s[1..][i - 1] == s[i];
        }
      }
    }
  }
}
