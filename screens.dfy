/**
 * The page object: the screen containers, session history, the alert, the
 * form fields and the handlers that change them step by step. Each show call
 * is proved to leave the page as `ShowAfter` says, each form handler as its
 * check in the Forms module says, and each reply handler as the handler's
 * continuation in the source does.
 */
module Screens {
  import opened Base
  import opened Text
  import opened UserJson
  import opened Session
  import opened Routes
  import opened Navigation
  import opened Forms

  /**
   * What the server answered: success with the text fields the handler reads,
   * a refusal with its message (empty when it sent none), or a request that
   * failed with an error.
   */
  datatype Reply = Accepted(fields: map<string, string>) | Refused(message: string) | Failed(error: string)

  /** A field of a successful reply; empty when the reply lacks it. */
  function FieldOf(fields: map<string, string>, key: string): string
  {
    if key in fields then fields[key] else ""
  }

  /** `message || fallback`. */
  function OrElse(message: string, fallback: string): (m: string)
    ensures message != "" ==> m == message
    ensures message == "" ==> m == fallback
  {
    if message != "" then message else fallback
  }

  /** The alert a refused or failed request raises: the server's message or the handler's own, or the error. */
  function FailureAlert(reply: Reply, fallback: string): (a: Alert)
    requires !reply.Accepted?
    ensures a.kind == "danger"
    ensures reply.Refused? && reply.message != "" ==> a.message == reply.message
  {
    match reply
    case Refused(m) => Alert(OrElse(m, fallback), "danger")
    case Failed(e) => Alert("An error occurred: " + e, "danger")
  }

  /** The page after a form handler's checks: the form marked `was-validated`, an alert raised, or the request sent. */
  function Checked(p: Page, form: string, v: Verdict, req: Request): Page
  {
    match v
    case MarkInvalid => p.(validated := p.validated + {form})
    case Warn(m) => p.(alert := Some(Alert(m, "danger")))
    case Pass => p.(sent := p.sent + [req])
  }

  /** The four account steps that share one continuation: an alert on success, then the next screen. */
  datatype AccountStep = Registration | Confirmation | CodeRequest | PasswordReset

  function StepSuccess(step: AccountStep): string
  {
    match step
    case Registration => "A confirmation email has been sent to your email address. Please check your inbox."
    case Confirmation => "Email confirmed!"
    case CodeRequest => "Reset code sent to your email."
    case PasswordReset => "Password reset successful!"
  }

  function StepFailure(step: AccountStep): string
  {
    match step
    case Registration => "Registration failed."
    case Confirmation => "Confirmation failed."
    case CodeRequest => "Failed to send reset code."
    case PasswordReset => "Failed to reset password."
  }

  /** Where each account step goes on success. */
  function StepNext(step: AccountStep): (r: Route)
    ensures !Gated(r)
  {
    match step
    case Registration => ConfirmEmail(None)
    case Confirmation => Login
    case CodeRequest => ResetPassword(None)
    case PasswordReset => Login
  }

  /** The body `saveProperty()` posts. */
  function PropertyBody(d: PropertyDraft, ownerId: string): map<string, string>
  {
    map["id" := d.id, "ownerId" := ownerId, "address" := d.address, "description" := d.description,
        "link" := d.link, "availability" := d.availability, "rent" := d.rent,
        "bedrooms" := d.bedrooms, "parking" := d.parking]
  }

  /** The text fields of the application form whose element id is also their key in the posted body. */
  const ApplicationInputs: set<string> := {
    "moveInDate", "occupants", "smokers", "pets", "petDetails", "housingSituation",
    "housingSituationDetails", "residenceDuration", "reasonForMoving", "privateLandlord",
    "rentalUnits", "rentDifficulty", "rentDifficultyDetails", "tenancyNotice",
    "tenancyNoticeDetails", "rentalDispute", "rentalDisputeDetails", "grossIncome",
    "creditConsent", "employmentStatus", "profession", "employmentDuration",
    "businessActivity", "businessActivityDetails", "vehicles", "specialVehicles",
    "specialVehiclesDetails", "additionalInfo"
  }

  function InputOf(inputs: map<string, string>, name: string): string
  {
    if name in inputs then inputs[name] else ""
  }

  /** The body `submitApplication()` posts: the property id from the hash, the applicant's email and the text fields. */
  function ApplicationBody(inputs: map<string, string>, propertyId: string): map<string, string>
  {
    (map k | k in ApplicationInputs :: InputOf(inputs, k))["propertyId" := propertyId]["email" := InputOf(inputs, "applicantEmail")]
  }

  /** The fields `sendFeedback()` marks `is-invalid`. */
  function FeedbackMarks(f: FeedbackFlags): set<string>
  {
    (if f.textInvalid then {"feedback_text"} else {}) + (if f.emailInvalid then {"feedback_email"} else {})
  }

  class App {
    /** The signed-in user and browser storage. */
    const session: SessionStore
    var hidden: set<ScreenId>
    var history: History
    var alert: Option<Alert>
    var inputs: map<string, string>
    var checked: set<string>
    var saveLabel: string
    var validated: set<string>
    var flagged: set<string>
    var notice: Option<string>
    var thankYou: string
    var errors: Option<string>
    var sent: seq<Request>

    function Snapshot(): Page
      reads this
    {
      Page(hidden, history, alert, inputs, checked, saveLabel, validated, flagged, notice, thankYou, errors, sent)
    }

    predicate Valid()
      reads this
    {
      history.Valid()
    }

    /** The value of the form field with the given id; empty when the page has none. */
    function Input(name: string): string
      reads this
    {
      InputOf(inputs, name)
    }

    /** The page as it is loaded: nobody signed in yet, one history entry, the markup's containers and fields. */
    constructor (storage: map<string, string>, entry: Entry, hidden: set<ScreenId>, inputs: map<string, string>)
      ensures fresh(session) && session.storage == storage && session.currentUser == None
      ensures Valid()
      ensures Snapshot() == Page(hidden, History([entry], 0), None, inputs, {}, "", {}, {}, None, "", None, [])
    {
      session := new SessionStore(storage);
      this.hidden := hidden;
      history := History([entry], 0);
      alert := None;
      this.inputs := inputs;
      checked := {};
      saveLabel := "";
      validated := {};
      flagged := {};
      notice := None;
      thankYou := "";
      errors := None;
      sent := [];
    }

    // -------------------------------------------------------------------------
    // the steps every show call is made of
    // -------------------------------------------------------------------------

    /** `hideAllScreens()`: every container in the list gets the `hidden` class. */
    method HideAllScreens()
      modifies this`hidden
      ensures Snapshot() == old(Snapshot()).(hidden := AllScreens)
    {
      for i := 0 to |ScreenList|
        invariant hidden == old(hidden) + set k | 0 <= k < i :: ScreenList[k]
      {
        hidden := hidden + {ScreenList[i]};
      }
      forall s | s in hidden
        ensures s in AllScreens
      {
        ScreenListComplete(s);
      }
      forall s | s in AllScreens
        ensures s in hidden
      {
        var k :| 0 <= k < |ScreenList| && ScreenList[k] == s;
      }
    }

    /** Removing the `hidden` class from one container. */
    method Reveal(s: ScreenId)
      modifies this`hidden
      ensures Snapshot() == old(Snapshot()).(hidden := old(hidden) - {s})
    {
      hidden := hidden - {s};
    }

    /** `history.pushState(...)` behind the show call's guard. */
    method PushUnlessCurrent(r: Route)
      requires Valid()
      modifies this`history
      ensures Valid()
      ensures Snapshot() == old(Snapshot()).(history := HistoryAfter(old(history), r, true))
    {
      var cur := history.Current();
      var e := PushFor(r, cur.hash);
      if e.Some? && !SkipsPush(r, cur.state, e.value.state.value) {
        history := history.Push(e.value);
      }
    }

    /** `requireLogin(message)`: without a signed-in user, the login screen and the message in a danger alert. */
    method RequireLogin(message: string) returns (ok: bool)
      requires Valid()
      modifies this
      ensures Valid()
      ensures ok <==> SignedIn(session.currentUser)
      ensures ok ==> Snapshot() == old(Snapshot())
      ensures !ok ==> Snapshot() == ShowAfter(old(Snapshot()), Login, session.currentUser).(alert := Some(Alert(message, "danger")))
    {
      ok := session.currentUser.Some? && session.currentUser.value.userId != "";
      if !ok {
        ShowPlain(Login);
        alert := Some(Alert(message, "danger"));
      }
    }

    // -------------------------------------------------------------------------
    // the show calls
    // -------------------------------------------------------------------------

    /**
     * The show calls without a gate or a request: `showLandingScreen`,
     * `showLoginScreen`, `showRegisterScreen`, `showForgotPasswordScreen`,
     * `showConfirmEmailScreen`, `showResetPasswordScreen` and `showFeedbackScreen`.
     */
    method ShowPlain(r: Route)
      requires Valid()
      requires PlainRoute(r)
      modifies this
      ensures Valid()
      ensures Snapshot() == ShowAfter(old(Snapshot()), r, session.currentUser)
    {
      ghost var p := Snapshot();
      HideAllScreens();
      Reveal(ScreenOf(r));
      PushUnlessCurrent(r);
      ShowPlainPage(p, r, session.currentUser);
    }

    /** `showDashboardScreen()`: gate, reveal, push, and the owner's property list requested. */
    method ShowDashboard()
      requires Valid()
      modifies this
      ensures Valid()
      ensures Snapshot() == ShowAfter(old(Snapshot()), Dashboard, session.currentUser)
    {
      ghost var p := Snapshot();
      var ok := RequireLogin("Please log in to continue.");
      if !ok {
        ShowBlockedPage(p, Dashboard, session.currentUser);
        return;
      }
      OpenDashboard();
      ShowDashboardPage(p, session.currentUser);
    }

    /** What `ShowDashboard` does once the user is known to be signed in. */
    method OpenDashboard()
      requires Valid() && SignedIn(session.currentUser)
      modifies this
      ensures Valid()
      ensures Snapshot() == DashboardPage(old(Snapshot()), session.currentUser.value.userId)
    {
      HideAllScreens();
      Reveal(DashboardScreen);
      PushUnlessCurrent(Dashboard);
      sent := sent + [Get("/list-properties", session.currentUser.value.userId)];
    }

    /**
     * `showAddPropertyScreen(editId)`: gate, reveal, the form reset with the id
     * in its hidden field and the button labelled for adding or updating, the
     * property requested when editing, and the push.
     */
    method ShowPropertyForm(editId: string)
      requires Valid()
      modifies this
      ensures Valid()
      ensures Snapshot() == ShowAfter(old(Snapshot()), PropertyForm(editId), session.currentUser)
    {
      ghost var p := Snapshot();
      var ok := RequireLogin("Please log in to continue.");
      if !ok {
        ShowBlockedPage(p, PropertyForm(editId), session.currentUser);
        return;
      }
      OpenPropertyForm(editId);
      ShowPropertyFormPage(p, editId, session.currentUser);
    }

    /** What `ShowPropertyForm` does once the user is known to be signed in. */
    method OpenPropertyForm(editId: string)
      requires Valid() && SignedIn(session.currentUser)
      modifies this
      ensures Valid()
      ensures Snapshot() == PropertyFormPage(old(Snapshot()), editId)
    {
      HideAllScreens();
      Reveal(AddPropertyScreen);
      ResetPropertyForm(editId);
      PushUnlessCurrent(PropertyForm(editId));
    }

    /** The form part of `showAddPropertyScreen`: marks dropped, caption chosen, fields emptied but the id, the property requested when editing. */
    method ResetPropertyForm(editId: string)
      modifies this`validated, this`saveLabel, this`inputs, this`sent
      ensures Snapshot() == old(Snapshot()).(validated := old(validated) - {"addPropertyForm"},
        saveLabel := if editId != "" then "Update" else "Add",
        inputs := Cleared(old(inputs), PropertyFields)["property_id" := editId],
        sent := old(sent) + if editId != "" then [Get("/get-property", editId)] else [])
    {
      validated := validated - {"addPropertyForm"};
      saveLabel := if editId != "" then "Update" else "Add";
      inputs := Cleared(inputs, PropertyFields)["property_id" := editId];
      if editId != "" {
        sent := sent + [Get("/get-property", editId)];
      } else {
        assert sent == sent + [];
      }
    }

    /** `showTenantCandidatesScreen(propertyId)`: gate, reveal, the candidates requested, the push. */
    method ShowTenantCandidates(propertyId: string)
      requires Valid()
      modifies this
      ensures Valid()
      ensures Snapshot() == ShowAfter(old(Snapshot()), TenantCandidates(propertyId), session.currentUser)
    {
      ghost var p := Snapshot();
      var ok := RequireLogin("Please log in to view tenant candidates.");
      if !ok {
        ShowBlockedPage(p, TenantCandidates(propertyId), session.currentUser);
        return;
      }
      OpenTenantCandidates(propertyId);
      ShowTenantCandidatesPage(p, propertyId, session.currentUser);
    }

    /** What `ShowTenantCandidates` does once the user is known to be signed in. */
    method OpenTenantCandidates(propertyId: string)
      requires Valid() && SignedIn(session.currentUser)
      modifies this
      ensures Valid()
      ensures Snapshot() == TenantCandidatesPage(old(Snapshot()), propertyId)
    {
      HideAllScreens();
      Reveal(TenantCandidatesScreen);
      sent := sent + [Get("/get-tenant-candidates", propertyId)];
      PushUnlessCurrent(TenantCandidates(propertyId));
    }

    /** `showCandidateDetailsScreen(candidateId)`: gate, reveal, the details requested, the push. */
    method ShowCandidateDetails(candidateId: string)
      requires Valid()
      modifies this
      ensures Valid()
      ensures Snapshot() == ShowAfter(old(Snapshot()), CandidateDetails(candidateId), session.currentUser)
    {
      ghost var p := Snapshot();
      var ok := RequireLogin("Please log in to view candidate details.");
      if !ok {
        ShowBlockedPage(p, CandidateDetails(candidateId), session.currentUser);
        return;
      }
      OpenCandidateDetails(candidateId);
      ShowCandidateDetailsPage(p, candidateId, session.currentUser);
    }

    /** What `ShowCandidateDetails` does once the user is known to be signed in. */
    method OpenCandidateDetails(candidateId: string)
      requires Valid() && SignedIn(session.currentUser)
      modifies this
      ensures Valid()
      ensures Snapshot() == CandidateDetailsPage(old(Snapshot()), candidateId)
    {
      HideAllScreens();
      Reveal(CandidateDetailsScreen);
      sent := sent + [Get("/get-tenant-candidate-details", candidateId)];
      PushUnlessCurrent(CandidateDetails(candidateId));
    }

    /** `showPublicPropertyScreen()`: nothing without an id; otherwise reveal and request, never a push. */
    method ShowPublicProperty(propertyId: string) returns (shown: bool)
      requires Valid()
      modifies this
      ensures Valid()
      ensures shown <==> propertyId != ""
      ensures Snapshot() == ShowAfter(old(Snapshot()), PublicProperty(propertyId), session.currentUser)
    {
      ShowPublicPropertyPage(Snapshot(), propertyId, session.currentUser);
      if propertyId == "" {
        return false;
      }
      HideAllScreens();
      Reveal(PublicPropertyScreen);
      sent := sent + [Get("/get-public-property", propertyId)];
      return true;
    }

    /**
     * `showEmailCandidateScreen()`: gate, reveal and hide the notice box; then,
     * without a candidate id in the hash, the fields cleared and an alert;
     * with one, the prefill requested and the push.
     */
    method ShowEmailCandidate()
      requires Valid()
      modifies this
      ensures Valid()
      ensures Snapshot() == ShowAfter(old(Snapshot()), EmailCandidate, session.currentUser)
    {
      ghost var p := Snapshot();
      var ok := RequireLogin("Please log in to email a candidate.");
      if !ok {
        ShowBlockedPage(p, EmailCandidate, session.currentUser);
        return;
      }
      OpenEmailCandidate();
      ShowEmailCandidatePage(p, session.currentUser);
    }

    /** What `ShowEmailCandidate` does once the user is known to be signed in. */
    method OpenEmailCandidate()
      requires Valid() && SignedIn(session.currentUser)
      modifies this
      ensures Valid()
      ensures Snapshot() == EmailCandidatePage(old(Snapshot()))
    {
      HideAllScreens();
      var candidateId := GetCandidateId(history.Current().hash);
      Reveal(EmailCandidateScreen);
      notice := None;
      if candidateId == "" {
        inputs := inputs["emailCandidateText" := ""]["emailCandidateSubject" := ""];
        alert := Some(Alert("Candidate not found.", "danger"));
      } else {
        sent := sent + [Get("/get-candidate-property-info", candidateId)];
        PushUnlessCurrent(EmailCandidate);
      }
    }

    /** `showThankYouScreen(message)`: only the thank-you container shown, with the message; no push. */
    method ShowThankYou(message: string)
      modifies this
      ensures Snapshot() == old(Snapshot()).(hidden := AllScreens - {ThankYouScreen}, thankYou := message)
    {
      HideAllScreens();
      thankYou := message;
      Reveal(ThankYouScreen);
    }

    /** The confirm-email screen, its two fields filled first when the legacy link carried an email and a code. */
    method ShowConfirmEmail(prefill: Option<(string, string)>)
      requires Valid()
      modifies this
      ensures Valid()
      ensures Snapshot() == ShowAfter(old(Snapshot()), ConfirmEmail(prefill), session.currentUser)
    {
      if prefill.Some? {
        ShowConfirmLinkPage(Snapshot(), prefill.value.0, prefill.value.1, session.currentUser);
        inputs := inputs["confirmEmailInput" := prefill.value.0]["confirmationCode" := prefill.value.1];
      }
      ShowPlain(ConfirmEmail(None));
    }

    /** The reset-password screen, its two fields filled first when the legacy link carried an email and a code. */
    method ShowResetPassword(prefill: Option<(string, string)>)
      requires Valid()
      modifies this
      ensures Valid()
      ensures Snapshot() == ShowAfter(old(Snapshot()), ResetPassword(prefill), session.currentUser)
    {
      if prefill.Some? {
        ShowResetLinkPage(Snapshot(), prefill.value.0, prefill.value.1, session.currentUser);
        inputs := inputs["resetEmail" := prefill.value.0]["resetCode" := prefill.value.1];
      }
      ShowPlain(ResetPassword(None));
    }

    /** The show call for a route; the legacy links' values are copied into their form first. */
    method Show(r: Route)
      requires Valid()
      modifies this
      ensures Valid()
      ensures Snapshot() == ShowAfter(old(Snapshot()), r, session.currentUser)
    {
      match r
      case ConfirmEmail(prefill) => ShowConfirmEmail(prefill);
      case ResetPassword(prefill) => ShowResetPassword(prefill);
      case Dashboard => ShowDashboard();
      case PropertyForm(id) => ShowPropertyForm(id);
      case TenantCandidates(id) => ShowTenantCandidates(id);
      case CandidateDetails(id) => ShowCandidateDetails(id);
      case PublicProperty(id) => var _ := ShowPublicProperty(id);
      case EmailCandidate => ShowEmailCandidate();
      case _ => ShowPlain(r);
    }

    // -------------------------------------------------------------------------
    // routing
    // -------------------------------------------------------------------------

    /** `handleHashOrDefault()`: the show call the current hash selects. */
    method HandleHashOrDefault()
      requires Valid()
      modifies this
      ensures Valid()
      ensures Snapshot() == ShowAfter(old(Snapshot()), HashRoute(old(history).Current().hash), session.currentUser)
    {
      Show(HashRoute(history.Current().hash));
    }

    /** `window.onpopstate` for the entry history has just moved to. */
    method OnPopState()
      requires Valid()
      modifies this
      ensures Valid()
      ensures var cur := old(history).Current();
        Snapshot() == ShowAfter(old(Snapshot()), NavRoute(cur.state, cur.hash), session.currentUser)
    {
      var cur := history.Current();
      Show(NavRoute(cur.state, cur.hash));
    }

    /**
     * The browser's back button: history moves one entry back, then the pop
     * handler runs. At the first entry the button does nothing and no
     * `popstate` event fires.
     */
    method GoBack()
      requires Valid()
      modifies this
      ensures Valid()
      ensures old(history).pos == 0 ==> Snapshot() == old(Snapshot())
      ensures var moved := old(history).Back();
        old(history).pos > 0 ==>
        Snapshot() == ShowAfter(old(Snapshot()).(history := moved), NavRoute(moved.Current().state, moved.Current().hash), session.currentUser)
    {
      if history.pos > 0 {
        history := history.Back();
        OnPopState();
      }
    }

    /** The browser's forward button; at the last entry it does nothing and no `popstate` event fires. */
    method GoForward()
      requires Valid()
      modifies this
      ensures Valid()
      ensures old(history).pos == |old(history).entries| - 1 ==> Snapshot() == old(Snapshot())
      ensures var moved := old(history).Forward();
        old(history).pos < |old(history).entries| - 1 ==>
        Snapshot() == ShowAfter(old(Snapshot()).(history := moved), NavRoute(moved.Current().state, moved.Current().hash), session.currentUser)
    {
      if history.pos < |history.entries| - 1 {
        history := history.Forward();
        OnPopState();
      }
    }

    /** Page load: the stored user read back, then the hash resolved. */
    method Boot()
      requires Valid()
      modifies this, session
      ensures Valid()
      ensures session.storage == old(session.storage) && session.currentUser == LoadedUser(old(session.storage))
      ensures Snapshot() == ShowAfter(old(Snapshot()), HashRoute(old(history).Current().hash), session.currentUser)
    {
      session.Load();
      HandleHashOrDefault();
    }

    /** `logout()`: nobody signed in and storage cleared, the login screen, then an info alert. */
    method Logout()
      requires Valid()
      modifies this, session
      ensures Valid()
      ensures session.currentUser == None && session.storage == SavedStorage(old(session.storage), None)
      ensures Snapshot() == ShowAfter(old(Snapshot()), Login, None).(alert := Some(Alert("Logged out successfully.", "info")))
    {
      session.Save(None);
      ShowPlain(Login);
      alert := Some(Alert("Logged out successfully.", "info"));
    }

    // -------------------------------------------------------------------------
    // form handlers, up to their request
    // -------------------------------------------------------------------------

    /** What every form handler does with its check's verdict. */
    method Check(form: string, v: Verdict, req: Request)
      modifies this
      ensures Snapshot() == Checked(old(Snapshot()), form, v, req)
    {
      match v
      case MarkInvalid => validated := validated + {form};
      case Warn(m) => alert := Some(Alert(m, "danger"));
      case Pass => sent := sent + [req];
    }

    /** `login()`. */
    method SendLogin()
      modifies this
      ensures var email, password := old(Input("loginEmail")), old(Input("loginPassword"));
        Snapshot() == Checked(old(Snapshot()), "loginForm", LoginVerdict(email, password),
          Post("/login", map["email" := email, "password" := password]))
    {
      var email, password := Input("loginEmail"), Input("loginPassword");
      Check("loginForm", LoginVerdict(email, password), Post("/login", map["email" := email, "password" := password]));
    }

    /** `register()`; the two check boxes are read from the checked set. */
    method SendRegistration()
      modifies this
      ensures var email, password, confirm := old(Input("email")), old(Input("password")), old(Input("confirmPassword"));
        Snapshot() == Checked(old(Snapshot()), "registerForm", RegisterVerdict(email, password, confirm, "termsCheck" in old(checked)),
          Post("/register", map["email" := email, "password" := password]))
    {
      var email, password, confirm := Input("email"), Input("password"), Input("confirmPassword");
      var terms := "termsCheck" in checked;
      Check("registerForm", RegisterVerdict(email, password, confirm, terms), Post("/register", map["email" := email, "password" := password]));
    }

    /** `handleConfirmEmail()`: the code is sent lower-cased. */
    method SendConfirmation()
      modifies this
      ensures var email, code := old(Input("confirmEmailInput")), old(Input("confirmationCode"));
        Snapshot() == Checked(old(Snapshot()), "confirmEmailForm", ConfirmVerdict(email, code),
          Post("/confirm-email", map["email" := email, "confirmationCode" := Lower(code)]))
    {
      var email, code := Input("confirmEmailInput"), Input("confirmationCode");
      Check("confirmEmailForm", ConfirmVerdict(email, code), Post("/confirm-email", map["email" := email, "confirmationCode" := Lower(code)]));
    }

    /** `sendResetCode()`. */
    method SendResetCode()
      modifies this
      ensures var email := old(Input("forgotEmail"));
        Snapshot() == Checked(old(Snapshot()), "forgotPasswordForm", ResetCodeVerdict(email), Post("/forgot-password", map["email" := email]))
    {
      var email := Input("forgotEmail");
      Check("forgotPasswordForm", ResetCodeVerdict(email), Post("/forgot-password", map["email" := email]));
    }

    /** `resetPassword()`. */
    method SendNewPassword()
      modifies this
      ensures var email, code, password, confirm := old(Input("resetEmail")), old(Input("resetCode")), old(Input("newPassword")), old(Input("confirmNewPassword"));
        Snapshot() == Checked(old(Snapshot()), "resetPasswordForm", ResetPasswordVerdict(email, code, password, confirm),
          Post("/reset-password", map["email" := email, "resetCode" := code, "newPassword" := password]))
    {
      var email, code, password, confirm := Input("resetEmail"), Input("resetCode"), Input("newPassword"), Input("confirmNewPassword");
      Check("resetPasswordForm", ResetPasswordVerdict(email, code, password, confirm),
        Post("/reset-password", map["email" := email, "resetCode" := code, "newPassword" := password]));
    }

    /** The property form's fields. */
    function Draft(): PropertyDraft
      reads this
    {
      PropertyDraft(Input("property_id"), Input("property_address"), Input("property_description"), Input("property_link"),
        Input("property_availability"), Input("property_rent"), Input("property_bedrooms"), Input("property_parking"))
    }

    /**
     * `saveProperty()`: `today` is the current date as `YYYY-MM-DD` and
     * `linkParses` whether the URL parser accepts the link field.
     */
    method SaveProperty(today: string, linkParses: bool)
      modifies this
      ensures var d := old(Draft());
        Snapshot() == Checked(old(Snapshot()), "addPropertyForm", PropertyVerdict(d, today, linkParses),
          Post(SaveEndpoint(d), PropertyBody(d, UserIdOf(session.currentUser))))
    {
      var d := Draft();
      Check("addPropertyForm", PropertyVerdict(d, today, linkParses), Post(SaveEndpoint(d), PropertyBody(d, UserIdOf(session.currentUser))));
    }

    /** `sendEmailToCandidate()`: its complaints go to the notice box, which is hidden first. */
    method SendEmailToCandidate()
      requires Valid()
      modifies this
      ensures var subject, text := old(Input("emailCandidateSubject")), old(Input("emailCandidateText"));
        var candidateId := GetCandidateId(old(history).Current().hash);
        var v := EmailVerdict(subject, text, candidateId);
        && (v.Warn? ==> Snapshot() == old(Snapshot()).(notice := Some(v.message)))
        && (v.Pass? ==> Snapshot() == old(Snapshot()).(notice := None, sent := old(sent) +
              [Post("/email-candidate", map["candidateId" := candidateId, "subject" := Trim(subject), "message" := Trim(text)])]))
    {
      var subject, text := Input("emailCandidateSubject"), Input("emailCandidateText");
      notice := None;
      var candidateId := GetCandidateId(history.Current().hash);
      var v := EmailVerdict(subject, text, candidateId);
      if v.Warn? {
        notice := Some(v.message);
        return;
      }
      sent := sent + [Post("/email-candidate", map["candidateId" := candidateId, "subject" := Trim(subject), "message" := Trim(text)])];
    }

    /** `sendFeedback()`: both fields checked in one pass, their marks and the form's mark reset first. */
    method SendFeedback()
      modifies this
      ensures var text, email := old(Input("feedback_text")), old(Input("feedback_email"));
        var f := FeedbackCheck(text, email);
        var marks := old(flagged) - {"feedback_text", "feedback_email"} + FeedbackMarks(f);
        && (f.textInvalid || f.emailInvalid ==>
              Snapshot() == old(Snapshot()).(flagged := marks, validated := old(validated) + {"feedbackForm"}))
        && (!f.textInvalid && !f.emailInvalid ==>
              Snapshot() == old(Snapshot()).(flagged := marks, validated := old(validated) - {"feedbackForm"},
                sent := old(sent) + [Post("/save-feedback", map["description" := Trim(text), "email" := Trim(email)])]))
    {
      var text, email := Input("feedback_text"), Input("feedback_email");
      var f := FeedbackCheck(text, email);
      flagged := flagged - {"feedback_text", "feedback_email"} + FeedbackMarks(f);
      if f.textInvalid || f.emailInvalid {
        validated := validated + {"feedbackForm"};
        return;
      }
      validated := validated - {"feedbackForm"};
      sent := sent + [Post("/save-feedback", map["description" := Trim(text), "email" := Trim(email)])];
    }

    /**
     * `submitApplication()`: the error box is emptied and hidden, the failing
     * fields' lines joined into it when there are any, the application posted
     * otherwise. `fields` are the form's required and optional fields outside
     * hidden sections, in document order.
     */
    method SubmitApplication(fields: seq<Field>)
      requires Valid()
      modifies this
      ensures var lines := ErrorLines(fields);
        && (lines != [] ==> Snapshot() == old(Snapshot()).(errors := Some(JoinLines(lines))))
        && (lines == [] ==> Snapshot() == old(Snapshot()).(errors := None, sent := old(sent) +
              [Post("/apply", ApplicationBody(old(inputs), GetPropertyId(old(history).Current().hash)))]))
    {
      errors := None;
      var isValid, messages := CollectErrors(fields);
      if !isValid {
        errors := Some(JoinLines(messages));
        return;
      }
      sent := sent + [Post("/apply", ApplicationBody(inputs, GetPropertyId(history.Current().hash)))];
    }

    // -------------------------------------------------------------------------
    // reply handlers
    // -------------------------------------------------------------------------

    /** The alert for a refused or failed request. */
    method Fail(reply: Reply, fallback: string)
      requires !reply.Accepted?
      modifies this`alert
      ensures Snapshot() == old(Snapshot()).(alert := Some(FailureAlert(reply, fallback)))
    {
      match reply
      case Refused(m) => alert := Some(Alert(if m != "" then m else fallback, "danger"));
      case Failed(e) => alert := Some(Alert("An error occurred: " + e, "danger"));
    }

    /** The reply to registration, confirmation, a reset-code request or a password reset. */
    method FinishAccountStep(step: AccountStep, reply: Reply)
      requires Valid()
      modifies this
      ensures Valid()
      ensures reply.Accepted? ==>
        Snapshot() == ShowAfter(old(Snapshot()).(alert := Some(Alert(StepSuccess(step), "success"))), StepNext(step), session.currentUser)
      ensures !reply.Accepted? ==> Snapshot() == old(Snapshot()).(alert := Some(FailureAlert(reply, StepFailure(step))))
    {
      if reply.Accepted? {
        alert := Some(Alert(StepSuccess(step), "success"));
        ShowPlain(StepNext(step));
      } else {
        Fail(reply, StepFailure(step));
      }
    }

    /** The reply to `login()`: the user saved from the reply's `userId` and `token`, an alert, then the dashboard. */
    method FinishLogin(email: string, reply: Reply)
      requires Valid()
      modifies this, session
      ensures Valid()
      ensures reply.Accepted? ==>
        var user := User(email, FieldOf(reply.fields, "userId"), FieldOf(reply.fields, "token"));
        && session.currentUser == Some(user)
        && session.storage == SavedStorage(old(session.storage), Some(user))
        && Snapshot() == ShowAfter(old(Snapshot()).(alert := Some(Alert("Login successful!", "success"))), Dashboard, Some(user))
      ensures !reply.Accepted? ==>
        && session.currentUser == old(session.currentUser) && session.storage == old(session.storage)
        && Snapshot() == old(Snapshot()).(alert := Some(FailureAlert(reply, "Login failed.")))
    {
      if reply.Accepted? {
        session.Save(Some(User(email, FieldOf(reply.fields, "userId"), FieldOf(reply.fields, "token"))));
        alert := Some(Alert("Login successful!", "success"));
        ShowDashboard();
      } else {
        Fail(reply, "Login failed.");
      }
    }

    /** The reply to `saveProperty()`: the server's prompt as a warning, or the handler's own message; then the dashboard. */
    method FinishSaveProperty(id: string, reply: Reply)
      requires Valid()
      modifies this
      ensures Valid()
      ensures reply.Accepted? ==>
        var prompt := FieldOf(reply.fields, "prompt");
        var a := if prompt != "" then Alert(prompt, "warning")
                 else Alert(if id != "" then "Property updated!" else "Property added!", "success");
        Snapshot() == ShowAfter(old(Snapshot()).(alert := Some(a)), Dashboard, session.currentUser)
      ensures !reply.Accepted? ==> Snapshot() == old(Snapshot()).(alert := Some(FailureAlert(reply, "Failed to save property.")))
    {
      if reply.Accepted? {
        var prompt := FieldOf(reply.fields, "prompt");
        if prompt != "" {
          alert := Some(Alert(prompt, "warning"));
        } else {
          alert := Some(Alert(if id != "" then "Property updated!" else "Property added!", "success"));
        }
        ShowDashboard();
      } else {
        Fail(reply, "Failed to save property.");
      }
    }

    /** The reply to `sendEmailToCandidate()`: the candidate's details on success, the notice box otherwise. */
    method FinishEmail(candidateId: string, reply: Reply)
      requires Valid()
      modifies this
      ensures Valid()
      ensures reply.Accepted? ==>
        Snapshot() == ShowAfter(old(Snapshot()).(alert := Some(Alert("Email sent to candidate!", "success"))), CandidateDetails(candidateId), session.currentUser)
      ensures reply.Refused? ==> Snapshot() == old(Snapshot()).(notice := Some(OrElse(reply.message, "Failed to send email.")))
      ensures reply.Failed? ==> Snapshot() == old(Snapshot()).(notice := Some("Failed to send email."))
    {
      match reply
      case Accepted(_) =>
        alert := Some(Alert("Email sent to candidate!", "success"));
        ShowCandidateDetails(candidateId);
      case Refused(m) => notice := Some(if m != "" then m else "Failed to send email.");
      case Failed(_) => notice := Some("Failed to send email.");
    }

    /** The reply to `sendFeedback()`: thanks, the dashboard, and both fields emptied afterwards. */
    method FinishFeedback(reply: Reply)
      requires Valid()
      modifies this
      ensures Valid()
      ensures reply.Accepted? ==>
        var shown := ShowAfter(old(Snapshot()).(alert := Some(Alert("Thank you for feedback!", "success"))), Dashboard, session.currentUser);
        Snapshot() == shown.(inputs := shown.inputs["feedback_text" := ""]["feedback_email" := ""])
      ensures reply.Refused? ==> Snapshot() == old(Snapshot()).(alert := Some(Alert(OrElse(reply.message, "Failed to save feedback."), "danger")))
      ensures reply.Failed? ==> Snapshot() == old(Snapshot()).(alert := Some(Alert("Failed to save feedback.", "danger")))
    {
      match reply
      case Accepted(_) =>
        alert := Some(Alert("Thank you for feedback!", "success"));
        ShowDashboard();
        inputs := inputs["feedback_text" := ""]["feedback_email" := ""];
      case Refused(m) => alert := Some(Alert(if m != "" then m else "Failed to save feedback.", "danger"));
      case Failed(_) => alert := Some(Alert("Failed to save feedback.", "danger"));
    }

    /** The reply to `submitApplication()`: the thank-you screen with the server's message, or an alert. */
    method FinishApplication(reply: Reply)
      modifies this
      ensures reply.Accepted? ==>
        Snapshot() == old(Snapshot()).(hidden := AllScreens - {ThankYouScreen}, thankYou := FieldOf(reply.fields, "message"))
      ensures !reply.Accepted? ==> Snapshot() == old(Snapshot()).(alert := Some(FailureAlert(reply, "Failed to submit application.")))
    {
      if reply.Accepted? {
        ShowThankYou(FieldOf(reply.fields, "message"));
      } else {
        Fail(reply, "Failed to submit application.");
      }
    }
  }
}
