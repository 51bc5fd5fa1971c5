/**
 * The router's decisions, free of the page: which screen containers exist,
 * what a history-state record holds, which show call a URL hash or a popped
 * history state leads to, and which entry each show call pushes.
 */
module Routes {
  import opened Base
  import opened Text

  /** The screen containers `hideAllScreens` hides (code.js lines 817-823). */
  datatype ScreenId =
    | LandingScreen | LoginScreen | RegisterScreen | ForgotPasswordScreen
    | ConfirmEmailScreen | ResetPasswordScreen | DashboardScreen
    | AddPropertyScreen | PublicPropertyScreen | TenantCandidatesScreen
    | ConfirmationScreen | ThankYouScreen | TenantDetailsScreen | CandidateDetailsScreen
    | EmailCandidateScreen | FeedbackScreen

  /** The list `hideAllScreens` walks, in its order. */
  const ScreenList: seq<ScreenId> := [
    LandingScreen, LoginScreen, RegisterScreen, ForgotPasswordScreen,
    ConfirmEmailScreen, ResetPasswordScreen, DashboardScreen,
    AddPropertyScreen, PublicPropertyScreen, TenantCandidatesScreen,
    ConfirmationScreen, ThankYouScreen, TenantDetailsScreen, CandidateDetailsScreen,
    EmailCandidateScreen, FeedbackScreen
  ]

  const AllScreens: set<ScreenId> := set s | s in ScreenList

  /** The list names every screen container, each once. */
  lemma ScreenListComplete(s: ScreenId)
    ensures s in ScreenList && s in AllScreens
    ensures |ScreenList| == 16
    ensures forall i, j :: 0 <= i < j < |ScreenList| ==> ScreenList[i] != ScreenList[j]
  {
  }

  /** A history-state record `{screen, propertyId?, candidateId?}`; `None` is an absent key. */
  datatype HistState = HistState(screen: string, propertyId: Option<string>, candidateId: Option<string>)

  /** A record with a screen name and no id. */
  function Plain(screen: string): HistState
  {
    HistState(screen, None, None)
  }

  /** The show call a navigation ends in, with the arguments the router passes to it. */
  datatype Route =
    | Landing
    | Login
    | Register
    | ForgotPassword
    | Feedback
    | Dashboard
    | ConfirmEmail(prefill: Option<(string, string)>)
    | ResetPassword(prefill: Option<(string, string)>)
    | PublicProperty(propertyId: string)
    | TenantCandidates(propertyId: string)
    | CandidateDetails(candidateId: string)
    | PropertyForm(editId: string)
    | EmailCandidate

  // ---------------------------------------------------------------------------
  // ids in the hash
  // ---------------------------------------------------------------------------

  /** `hash.split('/')[1]`, with `undefined` read as the empty (falsy) id. */
  function IdSegment(hash: string): (id: string)
    ensures '/' !in id
  {
    Piece(hash, '/', 1).GetOr("")
  }

  /** After a prefix whose only `/` is its last character, the id is the text up to the next `/`. */
  lemma IdAfterPrefix(prefix: string, rest: string)
    requires |prefix| >= 1 && prefix[|prefix| - 1] == '/' && '/' !in prefix[..|prefix| - 1]
    ensures IdSegment(prefix + rest) == UpTo(rest, '/')
  {
    var q := prefix[..|prefix| - 1];
    assert prefix == q + ['/'];
    SecondPiece(q, '/', rest);
  }

  /** `getPropertyId()` (code.js lines 755-764): the REST-style segment, else the legacy `?id=` query value; "" for null. */
  function GetPropertyId(hash: string): (id: string)
    ensures StartsWith(hash, "#publicProperty/") ==> '/' !in id
    ensures !StartsWith(hash, "#publicProperty/") && '?' !in hash ==> id == ""
  {
    if StartsWith(hash, "#publicProperty/") then IdSegment(hash)
    else QueryTruthy(Piece(hash, '?', 1), "id")
  }

  /** `getCandidateId()` (code.js lines 1215-1224): the segment after `#emailCandidate/` or `#candidateDetails/`; "" for null. */
  function GetCandidateId(hash: string): (id: string)
    ensures '/' !in id
    ensures id != "" ==> StartsWith(hash, "#emailCandidate/") || StartsWith(hash, "#candidateDetails/")
  {
    if StartsWith(hash, "#emailCandidate/") then IdSegment(hash)
    else if StartsWith(hash, "#candidateDetails/") then IdSegment(hash)
    else ""
  }

  /** The `email` and `code` of a legacy `#x?email=..&code=..` link, when both are non-empty. */
  function LegacyParams(hash: string): Option<(string, string)>
  {
    var query := Piece(hash, '?', 1);
    var email := QueryTruthy(query, "email");
    var code := QueryTruthy(query, "code");
    if email != "" && code != "" then Some((email, code)) else None
  }

  // ---------------------------------------------------------------------------
  // handleHashOrDefault
  // ---------------------------------------------------------------------------

  /** `handleHashOrDefault()` (code.js lines 924-996): the branch of the first matching prefix; landing when no branch returns. */
  function HashRoute(hash: string): (r: Route)
    ensures HasIds(r)
    ensures (r.ConfirmEmail? || r.ResetPassword?) ==> r.prefill.Some?
  {
    if StartsWith(hash, "#resetPassword") then
      match LegacyParams(hash)
      case Some(p) => ResetPassword(Some(p))
      case None => Landing
    else if StartsWith(hash, "#confirmEmail") then
      match LegacyParams(hash)
      case Some(p) => ConfirmEmail(Some(p))
      case None => Landing
    else if StartsWith(hash, "#login") then Login
    else if StartsWith(hash, "#register") then Register
    else if StartsWith(hash, "#forgotPassword") then ForgotPassword
    else if StartsWith(hash, "#publicProperty") then
      if GetPropertyId(hash) != "" then PublicProperty(GetPropertyId(hash)) else Landing
    else if StartsWith(hash, "#feedback") then Feedback
    else if StartsWith(hash, "#tenantCandidates/") then
      if IdSegment(hash) != "" then TenantCandidates(IdSegment(hash)) else Landing
    else if StartsWith(hash, "#candidateDetails/") then
      if IdSegment(hash) != "" then CandidateDetails(IdSegment(hash)) else Landing
    else if StartsWith(hash, "#dashboard") then Dashboard
    else if StartsWith(hash, "#addProperty") then PropertyForm("")
    else if StartsWith(hash, "#editProperty/") then PropertyForm(IdSegment(hash))
    else if StartsWith(hash, "#emailCandidate/") then
      if IdSegment(hash) != "" then EmailCandidate else Landing
    else Landing
  }

  /** The prefixes `handleHashOrDefault` tries, in its order. */
  const Prefixes: seq<string> := [
    "#resetPassword", "#confirmEmail", "#login", "#register", "#forgotPassword",
    "#publicProperty", "#feedback", "#tenantCandidates/", "#candidateDetails/",
    "#dashboard", "#addProperty", "#editProperty/", "#emailCandidate/"
  ]

  /** What the branch for prefix number `k` does with `hash`, on its own. */
  function Branch(k: nat, hash: string): Route
    requires k < |Prefixes|
  {
    if k == 0 then (if LegacyParams(hash).Some? then ResetPassword(LegacyParams(hash)) else Landing)
    else if k == 1 then (if LegacyParams(hash).Some? then ConfirmEmail(LegacyParams(hash)) else Landing)
    else if k == 2 then Login
    else if k == 3 then Register
    else if k == 4 then ForgotPassword
    else if k == 5 then (if GetPropertyId(hash) != "" then PublicProperty(GetPropertyId(hash)) else Landing)
    else if k == 6 then Feedback
    else if k == 7 then (if IdSegment(hash) != "" then TenantCandidates(IdSegment(hash)) else Landing)
    else if k == 8 then (if IdSegment(hash) != "" then CandidateDetails(IdSegment(hash)) else Landing)
    else if k == 9 then Dashboard
    else if k == 10 then PropertyForm("")
    else if k == 11 then PropertyForm(IdSegment(hash))
    else (if IdSegment(hash) != "" then EmailCandidate else Landing)
  }

  /** The index of the first prefix at or after `from` that `hash` starts with. */
  function FirstMatch(hash: string, from: nat): (k: Option<nat>)
    requires from <= |Prefixes|
    ensures k.Some? ==> from <= k.value < |Prefixes| && StartsWith(hash, Prefixes[k.value])
    ensures k.Some? ==> forall i :: from <= i < k.value ==> !StartsWith(hash, Prefixes[i])
    ensures k.None? ==> forall i :: from <= i < |Prefixes| ==> !StartsWith(hash, Prefixes[i])
    decreases |Prefixes| - from
  {
    if from == |Prefixes| then None
    else if StartsWith(hash, Prefixes[from]) then Some(from)
    else FirstMatch(hash, from + 1)
  }

  /**
   * The table reading of the router: the branch of the first prefix that
   * matches decides, and a hash no prefix matches shows the landing screen.
   */
  function TableRoute(hash: string): Route
  {
    match FirstMatch(hash, 0)
    case None => Landing
    case Some(k) => Branch(k, hash)
  }

  /** The if-chain and the table agree on every hash: first match wins, no later prefix is tried, and landing is the fallback. */
  lemma HashRouteIsFirstMatch(hash: string)
    ensures HashRoute(hash) == TableRoute(hash)
  {
    var m := FirstMatch(hash, 0);
    if m.Some? {
      var k := m.value;
      assert forall i :: 0 <= i < k ==> !StartsWith(hash, Prefixes[i]);
    }
  }

  /** Every prefix begins with `#`, so an empty hash or one without a leading `#` shows the landing screen. */
  lemma NoHashLanding(hash: string)
    requires hash == [] || hash[0] != '#'
    ensures HashRoute(hash) == Landing
  {
    forall k | 0 <= k < |Prefixes|
      ensures !StartsWith(hash, Prefixes[k])
    {
      assert Prefixes[k][0] == '#';
    }
    HashRouteIsFirstMatch(hash);
  }

  /** Two texts that one hash both starts with are prefixes of one another. */
  lemma CommonPrefix(hash: string, a: string, b: string)
    requires StartsWith(hash, a) && StartsWith(hash, b) && |a| <= |b|
    ensures StartsWith(b, a)
  {
    assert b[..|a|] == hash[..|b|][..|a|] == hash[..|a|];
  }

  /** No prefix of the list starts another, so at most one of them matches any hash: the order of the tests cannot change the result. */
  lemma PrefixesExclusive(hash: string, i: nat, j: nat)
    requires i < j < |Prefixes|
    ensures !(StartsWith(hash, Prefixes[i]) && StartsWith(hash, Prefixes[j]))
  {
    if StartsWith(hash, Prefixes[i]) && StartsWith(hash, Prefixes[j]) {
      if |Prefixes[i]| <= |Prefixes[j]| {
        CommonPrefix(hash, Prefixes[i], Prefixes[j]);
      } else {
        CommonPrefix(hash, Prefixes[j], Prefixes[i]);
      }
      PrefixFree(i, j);
      assert false;
    }
  }

  /** Neither of two distinct prefixes starts the other: their first four characters already differ. */
  lemma PrefixFree(i: nat, j: nat)
    requires i < j < |Prefixes|
    ensures !StartsWith(Prefixes[i], Prefixes[j]) && !StartsWith(Prefixes[j], Prefixes[i])
  {
    var a, b := Prefixes[i], Prefixes[j];
    assert |a| >= 4 && |b| >= 4 && (a[1] != b[1] || a[2] != b[2] || a[3] != b[3]) by {
      if i == 0 {} else if i == 1 {} else if i == 2 {} else if i == 3 {} else if i == 4 {}
      else if i == 5 {} else if i == 6 {} else if i == 7 {} else if i == 8 {} else if i == 9 {}
      else if i == 10 {} else {}
    }
  }

  /** A hash that starts with prefix number `k` goes to that prefix's branch. */
  lemma RouteOfPrefix(hash: string, k: nat)
    requires k < |Prefixes| && StartsWith(hash, Prefixes[k])
    ensures FirstMatch(hash, 0) == Some(k)
    ensures TableRoute(hash) == Branch(k, hash)
  {
    var m := FirstMatch(hash, 0);
    if m.value < k {
      PrefixesExclusive(hash, m.value, k);
    }
  }

  // ---------------------------------------------------------------------------
  // onpopstate / handleScreen
  // ---------------------------------------------------------------------------

  /** An id from the history state, else from the hash when it has the given REST prefix; "" when neither gives one. */
  function StateOrHashId(fromState: Option<string>, hash: string, prefix: string): string
  {
    if fromState.GetOr("") != "" then fromState.value
    else if StartsWith(hash, prefix) then IdSegment(hash)
    else ""
  }

  /** `handleScreen(state.screen)` (code.js lines 841-922): the show call for a non-null popped history state. */
  function PopRoute(st: HistState, hash: string): (r: Route)
    ensures HasIds(r)
    ensures !r.Landing? && !r.PublicProperty?
    ensures (r.ConfirmEmail? || r.ResetPassword?) ==> r.prefill.None?
  {
    var s := st.screen;
    if s == "login" then Login
    else if s == "register" then Register
    else if s == "forgotPassword" then ForgotPassword
    else if s == "confirmEmail" then ConfirmEmail(None)
    else if s == "resetPassword" then ResetPassword(None)
    else if s == "dashboard" then Dashboard
    else if s == "addProperty" then PropertyForm("")
    else if s == "feedback" then Feedback
    else if s == "editProperty" then PropertyForm(StateOrHashId(st.propertyId, hash, "#editProperty/"))
    else if s == "candidateDetails" then
      var id := StateOrHashId(st.candidateId, hash, "#candidateDetails/");
      if id != "" then CandidateDetails(id) else Dashboard
    else if s == "tenantCandidates" then
      var id := StateOrHashId(st.propertyId, hash, "#tenantCandidates/");
      if id != "" then TenantCandidates(id) else Dashboard
    else if s == "emailCandidate" then
      var id := StateOrHashId(st.candidateId, hash, "#emailCandidate/");
      if id != "" then EmailCandidate else Dashboard
    else Login
  }

  /** `window.onpopstate`: a non-null state dispatches on its screen, a null one re-runs hash resolution. */
  function NavRoute(state: Option<HistState>, hash: string): (r: Route)
    ensures HasIds(r)
    ensures state.Some? ==> !r.Landing? && !r.PublicProperty?
  {
    match state
    case Some(st) => PopRoute(st, hash)
    case None => HashRoute(hash)
  }

  // ---------------------------------------------------------------------------
  // what the show calls push
  // ---------------------------------------------------------------------------

  /** A session-history entry: the state record (`null` for the entry the page was loaded into) and the URL hash. */
  datatype Entry = Entry(state: Option<HistState>, hash: string)

  /**
   * The entry the show call for `r` pushes when it pushes at all, given the
   * hash it runs under: the public property screen never pushes, and the
   * email screen pushes only when it finds a candidate id in the hash. The
   * landing screen pushes the site root, whose hash is empty.
   */
  function PushFor(r: Route, hash: string): (e: Option<Entry>)
    ensures e.Some? ==> e.value.state.Some?
  {
    match r
    case Landing => Some(Entry(Some(Plain("landing")), ""))
    case Login => Some(Entry(Some(Plain("login")), "#login"))
    case Register => Some(Entry(Some(Plain("register")), "#register"))
    case ForgotPassword => Some(Entry(Some(Plain("forgotPassword")), "#forgotPassword"))
    case Feedback => Some(Entry(Some(Plain("feedback")), "#feedback"))
    case Dashboard => Some(Entry(Some(Plain("dashboard")), "#dashboard"))
    case ConfirmEmail(_) => Some(Entry(Some(Plain("confirmEmail")), "#confirmEmail"))
    case ResetPassword(_) => Some(Entry(Some(Plain("resetPassword")), "#resetPassword"))
    case PublicProperty(_) => None
    case TenantCandidates(id) =>
      Some(Entry(Some(HistState("tenantCandidates", Some(id), None)), "#tenantCandidates/" + EncodeComponent(id)))
    case CandidateDetails(id) =>
      Some(Entry(Some(HistState("candidateDetails", None, Some(id))), "#candidateDetails/" + EncodeComponent(id)))
    case PropertyForm(id) =>
      if id != "" then Some(Entry(Some(HistState("editProperty", Some(id), None)), "#editProperty/" + EncodeComponent(id)))
      else Some(Entry(Some(Plain("addProperty")), "#addProperty"))
    case EmailCandidate =>
      var c := GetCandidateId(hash);
      if c != "" then Some(Entry(Some(HistState("emailCandidate", None, Some(c))), "#emailCandidate/" + EncodeComponent(c)))
      else None
  }

  /**
   * The guard that keeps a show call from pushing a duplicate entry: the
   * current record already names the screen (and the id, for screens that
   * carry one). The landing screen compares against the empty screen name,
   * which no record holds, so it pushes every time.
   */
  predicate SkipsPush(r: Route, cur: Option<HistState>, pushed: HistState)
  {
    if r.Landing? then cur.Some? && cur.value.screen == ""
    else
      && cur.Some? && cur.value.screen == pushed.screen
      && (pushed.propertyId.Some? ==> cur.value.propertyId == pushed.propertyId)
      && (pushed.candidateId.Some? ==> cur.value.candidateId == pushed.candidateId)
  }

  /** The ids a route carries are present: the router never shows an id screen without one. */
  predicate HasIds(r: Route)
  {
    && (r.PublicProperty? ==> r.propertyId != "")
    && (r.TenantCandidates? ==> r.propertyId != "")
    && (r.CandidateDetails? ==> r.candidateId != "")
  }

  /** Showing a screen whose own record is current pushes nothing, except for the landing screen, which always pushes. */
  lemma NoDuplicatePush(r: Route, hash: string)
    requires PushFor(r, hash).Some?
    ensures var st := PushFor(r, hash).value.state.value;
      SkipsPush(r, Some(st), st) <==> !r.Landing?
  {
  }

  /** The show call `handleScreen` makes for the record a show call for `r` pushed. */
  function Restored(r: Route): Route
  {
    match r
    case Landing => Login
    case ConfirmEmail(_) => ConfirmEmail(None)
    case ResetPassword(_) => ResetPassword(None)
    case _ => r
  }

  /**
   * Going back or forward to an entry a show call pushed dispatches to the
   * same show call, whatever the hash: every parameterised screen gets its
   * id back from the record. The exceptions are the prefilled confirm-email
   * and reset-password screens, which come back empty, and the landing
   * record, whose screen name `handleScreen` does not know, so it shows the
   * login screen.
   */
  lemma PopRestoresRoute(r: Route, hash: string, later: string)
    requires PushFor(r, hash).Some? && HasIds(r)
    ensures PopRoute(PushFor(r, hash).value.state.value, later) == Restored(r)
  {
    if r.TenantCandidates? || r.PropertyForm? {
      PopRestoresProperty(r, hash, later);
    } else if r.CandidateDetails? || r.EmailCandidate? {
      PopRestoresCandidate(r, hash, later);
    } else {
      PopRestoresNamed(r, hash, later);
    }
  }

  lemma PopRestoresNamed(r: Route, hash: string, later: string)
    requires !(r.TenantCandidates? || r.CandidateDetails? || r.PropertyForm? || r.EmailCandidate? || r.PublicProperty?)
    ensures PopRoute(PushFor(r, hash).value.state.value, later) == Restored(r)
  {
  }

  lemma PopRestoresProperty(r: Route, hash: string, later: string)
    requires r.TenantCandidates? || r.PropertyForm?
    requires HasIds(r)
    ensures PopRoute(PushFor(r, hash).value.state.value, later) == r
  {
    var st := PushFor(r, hash).value.state.value;
    if r.TenantCandidates? {
      assert st.screen == "tenantCandidates" && st.propertyId == Some(r.propertyId);
    } else if r.editId != "" {
      assert st.screen == "editProperty" && st.propertyId == Some(r.editId);
    } else {
      assert st.screen == "addProperty";
    }
  }

  lemma PopRestoresCandidate(r: Route, hash: string, later: string)
    requires r.CandidateDetails? || r.EmailCandidate?
    requires PushFor(r, hash).Some? && HasIds(r)
    ensures PopRoute(PushFor(r, hash).value.state.value, later) == r
  {
    var st := PushFor(r, hash).value.state.value;
    if r.CandidateDetails? {
      assert st.screen == "candidateDetails" && st.candidateId == Some(r.candidateId);
    } else {
      assert st.screen == "emailCandidate" && st.candidateId.Some? && st.candidateId.value != "";
    }
  }

  /**
   * Reloading the URL a show call for a screen without an id pushed reaches
   * the same screen. The bare confirm-email and reset-password hashes carry no
   * parameters, so a reload of either shows the landing screen.
   */
  lemma ReloadNamed(r: Route, hash: string)
    requires r.Login? || r.Register? || r.ForgotPassword? || r.Feedback?
    ensures TableRoute(PushFor(r, hash).value.hash) == r
  {
    match r
    case Login => RouteOfPrefix("#login", 2);
    case Register => RouteOfPrefix("#register", 3);
    case ForgotPassword => RouteOfPrefix("#forgotPassword", 4);
    case Feedback => RouteOfPrefix("#feedback", 6);
  }

  lemma ReloadSignedInNamed(r: Route, hash: string)
    requires r.Landing? || r.Dashboard? || r == PropertyForm("")
    ensures TableRoute(PushFor(r, hash).value.hash) == r
  {
    match r
    case Landing =>
    case Dashboard =>
      assert PushFor(r, hash).value.hash == "#dashboard" == Prefixes[9];
      RouteOfPrefix("#dashboard", 9);
    case PropertyForm(_) =>
      assert PushFor(r, hash).value.hash == "#addProperty" == Prefixes[10];
      RouteOfPrefix("#addProperty", 10);
  }

  lemma ReloadLegacy(r: Route, hash: string)
    requires r.ConfirmEmail? || r.ResetPassword?
    ensures TableRoute(PushFor(r, hash).value.hash) == Landing
  {
    var h := PushFor(r, hash).value.hash;
    if r.ConfirmEmail? {
      assert h == "#confirmEmail";
      BareLegacyHash(h, 1);
    } else {
      assert h == "#resetPassword";
      BareLegacyHash(h, 0);
    }
  }

  /**
   * Reloading the URL a show call for an id screen pushed reaches the same
   * screen, with the id as `encodeURIComponent` wrote it (so unchanged when
   * it has no reserved characters).
   */
  lemma ReloadTenantCandidates(id: string, hash: string)
    requires id != ""
    ensures TableRoute(PushFor(TenantCandidates(id), hash).value.hash) == TenantCandidates(EncodeComponent(id))
  {
    assert Prefixes[7] == "#tenantCandidates/";
    assert PushFor(TenantCandidates(id), hash).value.hash == Prefixes[7] + EncodeComponent(id);
    ReloadWithId(7, id);
    IdBranches(Prefixes[7] + EncodeComponent(id));
  }

  lemma ReloadCandidateDetails(id: string, hash: string)
    requires id != ""
    ensures TableRoute(PushFor(CandidateDetails(id), hash).value.hash) == CandidateDetails(EncodeComponent(id))
  {
    assert Prefixes[8] == "#candidateDetails/";
    assert PushFor(CandidateDetails(id), hash).value.hash == Prefixes[8] + EncodeComponent(id);
    ReloadWithId(8, id);
    IdBranches(Prefixes[8] + EncodeComponent(id));
  }

  lemma ReloadEditProperty(id: string, hash: string)
    requires id != ""
    ensures TableRoute(PushFor(PropertyForm(id), hash).value.hash) == PropertyForm(EncodeComponent(id))
  {
    assert Prefixes[11] == "#editProperty/";
    assert PushFor(PropertyForm(id), hash).value.hash == Prefixes[11] + EncodeComponent(id);
    ReloadWithId(11, id);
    IdBranches(Prefixes[11] + EncodeComponent(id));
  }

  /** The email screen's URL reloads to the email screen, whose own id lookup then finds the encoded candidate id. */
  lemma ReloadEmailCandidate(hash: string)
    requires PushFor(EmailCandidate, hash).Some?
    ensures var h := PushFor(EmailCandidate, hash).value.hash;
      TableRoute(h) == EmailCandidate && GetCandidateId(h) == EncodeComponent(GetCandidateId(hash))
  {
    assert Prefixes[12] == "#emailCandidate/";
    ReloadWithId(12, GetCandidateId(hash));
    IdBranches(Prefixes[12] + EncodeComponent(GetCandidateId(hash)));
  }

  /** A REST-style hash built from prefix number `k` and an encoded non-empty id goes to that prefix's branch with the encoded id. */
  lemma ReloadWithId(k: nat, id: string)
    requires k == 7 || k == 8 || k == 11 || k == 12
    requires id != ""
    ensures TableRoute(Prefixes[k] + EncodeComponent(id)) == Branch(k, Prefixes[k] + EncodeComponent(id))
    ensures IdSegment(Prefixes[k] + EncodeComponent(id)) == EncodeComponent(id) != ""
  {
    var prefix, e := Prefixes[k], EncodeComponent(id);
    SlashPrefix(k);
    EncodeNonEmpty(id);
    EncodeHasNoSlash(id);
    SegmentAfterPrefix(prefix, e);
    RouteOfPrefix(prefix + e, k);
  }

  /** The branches of the REST-style prefixes, for a hash with a non-empty id segment. */
  lemma IdBranches(h: string)
    requires IdSegment(h) != ""
    ensures Branch(7, h) == TenantCandidates(IdSegment(h))
    ensures Branch(8, h) == CandidateDetails(IdSegment(h))
    ensures Branch(11, h) == PropertyForm(IdSegment(h))
    ensures Branch(12, h) == EmailCandidate
  {
  }

  /** The four REST-style prefixes end in their only `/`. */
  lemma SlashPrefix(k: nat)
    requires k == 7 || k == 8 || k == 11 || k == 12
    ensures var prefix := Prefixes[k]; |prefix| >= 1 && prefix[|prefix| - 1] == '/' && '/' !in prefix[..|prefix| - 1]
  {
  }

  /** The hash built from a prefix ending in its only `/` and a segment without `/` starts with the prefix and has that segment as its id. */
  lemma SegmentAfterPrefix(prefix: string, e: string)
    requires |prefix| >= 1 && prefix[|prefix| - 1] == '/' && '/' !in prefix[..|prefix| - 1]
    requires '/' !in e
    ensures StartsWith(prefix + e, prefix)
    ensures IdSegment(prefix + e) == e
  {
    assert (prefix + e)[..|prefix|] == prefix;
    IdAfterPrefix(prefix, e);
    UpToAbsent(e, '/');
  }

  lemma EncodeHasNoSlash(s: string)
    ensures '/' !in EncodeComponent(s)
  {
  }

  /** The candidate details hash yields its id segment as the candidate id. */
  lemma CandidateIdOfDetails(e: string)
    requires '/' !in e
    ensures GetCandidateId("#candidateDetails/" + e) == e
  {
    SegmentAfterPrefix("#candidateDetails/", e);
    assert ("#candidateDetails/" + e)[1] == 'c';
  }

  /** A confirm-email or reset-password hash without a query goes to landing. */
  lemma BareLegacyHash(hash: string, k: nat)
    requires k < 2 && StartsWith(hash, Prefixes[k]) && '?' !in hash
    ensures TableRoute(hash) == Landing
  {
    LegacyNeedsQuery(hash);
    RouteOfPrefix(hash, k);
  }

  lemma EncodeNonEmpty(s: string)
    requires s != []
    ensures EncodeComponent(s) != []
  {
  }

  /** Text without the separator is its own first piece. */
  lemma {:induction false} UpToAbsent(s: string, sep: char)
    requires sep !in s
    ensures UpTo(s, sep) == s
    decreases |s|
  {
    if s != [] {
      UpToAbsent(s[1..], sep);
    }
  }

  /** A hash without `?` has no legacy parameters. */
  lemma LegacyNeedsQuery(hash: string)
    requires '?' !in hash
    ensures LegacyParams(hash).None?
  {
    SplitNoSep(hash, '?');
  }
}
