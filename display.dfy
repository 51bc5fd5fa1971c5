/**
 * What the page shows for values it reads back: the colour of a candidate's
 * score badge, the Yes/No rendering of answers on the details card, the
 * dashboard's usage meter, and which detail sections of the application form
 * are open for the answers given so far.
 */
module Display {
  import opened Base
  import opened Text
  import opened Forms

  // ---------------------------------------------------------------------------
  // getScoreBadgeClass
  // ---------------------------------------------------------------------------

  /**
   * `getScoreBadgeClass(score)` (code.js lines 747-753): a missing or zero
   * score is grey; otherwise the bands 90, 70 and 50 choose green, blue and
   * yellow, and anything lower is red.
   */
  function BadgeClass(score: Option<real>): (c: string)
    ensures c == "bg-secondary" <==> score.None? || score.value == 0.0
    ensures c == "bg-success" <==> score.Some? && score.value >= 90.0
    ensures c == "bg-info" <==> score.Some? && 70.0 <= score.value < 90.0
    ensures c == "bg-warning" <==> score.Some? && 50.0 <= score.value < 70.0
    ensures c == "bg-danger" <==> score.Some? && score.value != 0.0 && score.value < 50.0
  {
    if score.None? || score.value == 0.0 then "bg-secondary"
    else if score.value >= 90.0 then "bg-success"
    else if score.value >= 70.0 then "bg-info"
    else if score.value >= 50.0 then "bg-warning"
    else "bg-danger"
  }

  /** The badge colours from worst to best; grey has no rank. */
  function Rank(c: string): int
  {
    if c == "bg-danger" then 0
    else if c == "bg-warning" then 1
    else if c == "bg-info" then 2
    else if c == "bg-success" then 3
    else -1
  }

  /** A higher non-zero score never gets a worse badge than a lower one. */
  lemma BadgeMonotone(x: real, y: real)
    requires x != 0.0 && y != 0.0 && x <= y
    ensures 0 <= Rank(BadgeClass(Some(x))) <= Rank(BadgeClass(Some(y)))
  {
    var cx, cy := BadgeClass(Some(x)), BadgeClass(Some(y));
    assert cx == "bg-danger" || cx == "bg-warning" || cx == "bg-info" || cx == "bg-success";
    assert cy == "bg-danger" || cy == "bg-warning" || cy == "bg-info" || cy == "bg-success";
  }

  // ---------------------------------------------------------------------------
  // decimal text of a count
  // ---------------------------------------------------------------------------

  /** The digit for a value below ten. */
  function DigitChar(d: nat): (c: char)
    requires d < 10
    ensures IsDigit(c) && DigitValue(c) == d
  {
    ('0' as int + d) as char
  }

  /** How a template literal writes a non-negative integer: decimal digits without leading zeros. */
  function NatText(n: nat): (s: string)
    ensures s != [] && forall i :: 0 <= i < |s| ==> IsDigit(s[i])
    decreases n
  {
    if n < 10 then [DigitChar(n)] else NatText(n / 10) + [DigitChar(n % 10)]
  }

  /** Appending a digit to a run of digits multiplies its value by ten and adds the digit. */
  lemma {:induction false} DecimalAppend(s: string, c: char)
    requires forall i :: 0 <= i < |s| ==> IsDigit(s[i])
    requires IsDigit(c)
    ensures DecimalValue(s + [c]) == 10 * DecimalValue(s) + DigitValue(c)
    decreases |s|
  {
    var t := s + [c];
    if s == [] {
      assert t[1..] == [];
    } else {
      assert t[1..] == s[1..] + [c];
      DecimalAppend(s[1..], c);
      var d, p, rest := DigitValue(s[0]), Pow10(|s| - 1), DecimalValue(s[1..]);
      assert DecimalValue(t) == d * (10 * p) + (10 * rest + DigitValue(c));
      assert DecimalValue(s) == d * p + rest;
      ShiftDigits(d, p, rest, DigitValue(c));
    }
  }

  /** The arithmetic step of `DecimalAppend`: shifting a number left by one place. */
  lemma ShiftDigits(d: nat, p: nat, rest: nat, e: nat)
    ensures d * (10 * p) + (10 * rest + e) == 10 * (d * p + rest) + e
  {
    assert d * (10 * p) == 10 * (d * p);
  }

  /** `parseInt` reads back the number the template wrote. */
  lemma {:induction false} NatTextValue(n: nat)
    ensures DecimalValue(NatText(n)) == n
    decreases n
  {
    if n < 10 {
      assert DecimalValue(NatText(n)) == DigitValue(DigitChar(n)) * Pow10(0) + DecimalValue([]);
    } else {
      NatTextValue(n / 10);
      DecimalAppend(NatText(n / 10), DigitChar(n % 10));
    }
  }

  /** The text of a number written with a minus sign when negative. */
  function IntText(n: int): (s: string)
    ensures s != [] && (IsDigit(s[0]) || s[0] == '-')
  {
    if n < 0 then "-" + NatText(-n) else NatText(n)
  }

  // ---------------------------------------------------------------------------
  // updateUsageMeter
  // ---------------------------------------------------------------------------

  /** The layout classes the meter always carries after its colour. */
  const MeterTail := " text-dark align-self-start align-self-sm-center mt-2 mt-sm-0"

  /** The meter's class once the limit is reached. */
  const FullClass := "badge bg-danger" + MeterTail

  /** The meter's class while the owner may still add properties. */
  const RoomClass := "badge bg-info" + MeterTail

  /** A full meter and one with room left are told apart by their class. */
  lemma MeterClassesDiffer()
    ensures FullClass != RoomClass
  {
    assert FullClass[9] == 'd';
    assert RoomClass[9] == 'i';
  }

  /** What the meter shows: its text and its class. */
  datatype Meter = Meter(text: string, className: string)

  /**
   * `updateUsageMeter(count, data.maxProperties || 1)` (code.js lines 483 and
   * 489-495): the count out of the limit, where a missing or zero limit counts
   * as one, in red from the limit on and in blue below it.
   */
  function UsageMeter(count: nat, maxProperties: Option<int>): (m: Meter)
    ensures m.text == IntText(count) + " of " + IntText(Limit(maxProperties)) + " properties used"
    ensures m.className == FullClass <==> count >= Limit(maxProperties)
    ensures m.className == RoomClass <==> count < Limit(maxProperties)
  {
    MeterClassesDiffer();
    Meter(IntText(count) + " of " + IntText(Limit(maxProperties)) + " properties used",
          if count >= Limit(maxProperties) then FullClass else RoomClass)
  }

  /** The meter element after the update: a page without one is left as it is. */
  function UpdateUsageMeter(element: Option<Meter>, count: nat, maxProperties: Option<int>): (after: Option<Meter>)
    ensures after.None? <==> element.None?
    ensures after.Some? ==> after.value == UsageMeter(count, maxProperties)
  {
    if element.None? then None else Some(UsageMeter(count, maxProperties))
  }

  /** `data.maxProperties || 1`: a missing or zero limit counts as one. */
  function Limit(maxProperties: Option<int>): (n: int)
    ensures n != 0
    ensures maxProperties.None? || maxProperties.value == 0 ==> n == 1
    ensures maxProperties.Some? && maxProperties.value != 0 ==> n == maxProperties.value
  {
    if maxProperties.None? || maxProperties.value == 0 then 1 else maxProperties.value
  }

  /** The meter's text starts with the count, which `parseInt` reads back. */
  lemma MeterCount(count: nat, maxProperties: Option<int>)
    ensures var t := UsageMeter(count, maxProperties).text; var k := |NatText(count)|;
      && k < |t| && t[..k] == NatText(count) && t[k] == ' '
      && DecimalValue(t[..k]) == count
  {
    var t := UsageMeter(count, maxProperties).text;
    var k := |NatText(count)|;
    assert t[..k] == NatText(count);
    NatTextValue(count);
  }

  /** Without a limit from the server, one property already fills the meter. */
  lemma DefaultLimit(count: nat)
    ensures UsageMeter(count, None).className == FullClass <==> count >= 1
  {
  }

  // ---------------------------------------------------------------------------
  // boolDisplay
  // ---------------------------------------------------------------------------

  /** A field of the candidate record as JSON delivers it (numbers are integers here). */
  datatype JsValue = JsBool(b: bool) | JsNumber(n: int) | JsString(s: string) | JsNull | JsUndefined

  /** Whether JavaScript treats the value as false in a condition. */
  predicate Falsy(v: JsValue)
  {
    v == JsBool(false) || v == JsNumber(0) || v == JsString("") || v.JsNull? || v.JsUndefined?
  }

  /** The text `textContent` shows for a value. */
  function Shown(v: JsValue): string
  {
    match v
    case JsBool(b) => if b then "true" else "false"
    case JsNumber(n) => IntText(n)
    case JsString(s) => s
    case JsNull => "null"
    case JsUndefined => "undefined"
  }

  /**
   * `boolDisplay(val)` (code.js lines 654-659): booleans and their usual
   * spellings become "Yes" or "No"; any other value is shown as it is, and a
   * falsy one as "N/A".
   */
  function BoolDisplay(v: JsValue): (r: string)
    ensures r != ""
    ensures v.JsBool? ==> r == (if v.b then "Yes" else "No")
    ensures v in {JsString("true"), JsString("Yes"), JsNumber(1)} ==> r == "Yes"
    ensures v in {JsString("false"), JsString("No"), JsNumber(0)} ==> r == "No"
  {
    match v
    case JsBool(b) => if b then "Yes" else "No"
    case _ =>
      if v == JsString("true") || v == JsString("Yes") || v == JsNumber(1) then "Yes"
      else if v == JsString("false") || v == JsString("No") || v == JsNumber(0) then "No"
      else if Falsy(v) then "N/A"
      else Shown(v)
  }

  /** Values that are not booleans or their spellings pass through unchanged, except falsy ones. */
  lemma BoolDisplayOthers(v: JsValue)
    requires !v.JsBool? && v !in {JsString("true"), JsString("Yes"), JsNumber(1), JsString("false"), JsString("No"), JsNumber(0)}
    ensures BoolDisplay(v) == if Falsy(v) then "N/A" else Shown(v)
  {
  }

  /** Shown text fed back into `boolDisplay` comes out the same: the rendering is idempotent. */
  lemma BoolDisplayIdempotent(v: JsValue)
    ensures BoolDisplay(JsString(BoolDisplay(v))) == BoolDisplay(v)
  {
    var r := BoolDisplay(v);
    if v.JsNumber? && v.n != 0 && v.n != 1 {
      var t := IntText(v.n);
      assert r == t;
      assert t[0] != 't' && t[0] != 'f' && t[0] != 'Y' && t[0] != 'N';
      assert t != "true" && t != "Yes" && t != "false" && t != "No" by {
        assert "true"[0] == 't' && "Yes"[0] == 'Y' && "false"[0] == 'f' && "No"[0] == 'N';
      }
    }
  }

  // ---------------------------------------------------------------------------
  // updateVisibility
  // ---------------------------------------------------------------------------

  /** The detail sections of the application form that open on an answer. */
  datatype Section =
    | PetDetails | RentalHistory | RentDifficultyDetails | TenancyNoticeDetails | RentalDisputeDetails
    | EmploymentDetails | BusinessActivityDetails | SpecialVehiclesDetails | HousingSituationDetails

  /** The id of the question whose answer opens the section. */
  function Question(s: Section): string
  {
    match s
    case PetDetails => "pets"
    case RentalHistory => "privateLandlord"
    case RentDifficultyDetails => "rentDifficulty"
    case TenancyNoticeDetails => "tenancyNotice"
    case RentalDisputeDetails => "rentalDispute"
    case EmploymentDetails => "employmentStatus"
    case BusinessActivityDetails => "businessActivity"
    case SpecialVehiclesDetails => "specialVehicles"
    case HousingSituationDetails => "housingSituation"
  }

  /**
   * The option value the special-vehicles test compares with: "Yes", a space,
   * the three characters an em dash's UTF-8 bytes become when read as
   * Windows-1252, a space and "Other".
   */
  const SpecialVehiclesOther := "Yes â€” Other"

  /** Whether the answer opens the section. */
  predicate Opens(s: Section, answer: string)
  {
    match s
    case PetDetails => answer != "" && answer != "No"
    case EmploymentDetails => answer != "" && answer != "Unemployed" && answer != "Retired"
    case SpecialVehiclesDetails => answer == SpecialVehiclesOther
    case HousingSituationDetails => answer == "Other"
    case _ => answer == "Yes"
  }

  /** The section's `style.display` for the answer; the housing section shows with the empty value, the others with "block". */
  function DisplayFor(s: Section, answer: string): (d: string)
    ensures d != "none" <==> Opens(s, answer)
  {
    if !Opens(s, answer) then "none" else if s == HousingSituationDetails then "" else "block"
  }

  /** The answer the page holds for the section's question; "" when unanswered. */
  function Answer(answers: map<string, string>, s: Section): string
  {
    if Question(s) in answers then answers[Question(s)] else ""
  }

  /**
   * `updateVisibility()` (code.js lines 1047-1090): every section's display
   * from its own question's answer; the housing section only when its
   * question and container are on the page (`housingPresent`), otherwise its
   * display stays as it was.
   */
  function UpdateVisibility(answers: map<string, string>, display: map<Section, string>, housingPresent: bool): (after: map<Section, string>)
    ensures after.Keys == display.Keys + AllSections(housingPresent)
    ensures forall s :: s in display && s !in AllSections(housingPresent) ==> after[s] == display[s]
  {
    map s | s in display.Keys + AllSections(housingPresent) ::
      if s in AllSections(housingPresent) then DisplayFor(s, Answer(answers, s)) else display[s]
  }

  /** The sections `updateVisibility` sets. */
  function AllSections(housingPresent: bool): set<Section>
  {
    var eight := {PetDetails, RentalHistory, RentDifficultyDetails, TenancyNoticeDetails, RentalDisputeDetails,
                  EmploymentDetails, BusinessActivityDetails, SpecialVehiclesDetails};
    if housingPresent then eight + {HousingSituationDetails} else eight
  }

  /** Every section but the housing one is always set; the housing one when it is on the page. */
  lemma InAllSections(housingPresent: bool, s: Section)
    ensures s in AllSections(housingPresent) <==> s != HousingSituationDetails || housingPresent
  {
    match s
    case PetDetails => case RentalHistory => case RentDifficultyDetails => case TenancyNoticeDetails =>
    case RentalDisputeDetails => case EmploymentDetails => case BusinessActivityDetails =>
    case SpecialVehiclesDetails => case HousingSituationDetails =>
  }

  /** Every section gets the display its own answer calls for; the housing section is left alone when it is missing. */
  lemma VisibilityMeaning(answers: map<string, string>, display: map<Section, string>, housingPresent: bool, s: Section)
    ensures var after := UpdateVisibility(answers, display, housingPresent);
      && (s != HousingSituationDetails || housingPresent ==> s in after && after[s] == DisplayFor(s, Answer(answers, s)))
      && (s == HousingSituationDetails && !housingPresent ==>
            (s in after <==> s in display) && (s in display ==> after[s] == display[s]))
  {
    InAllSections(housingPresent, s);
  }

  /** On an empty form every section is closed. */
  lemma EmptyFormClosesAll(display: map<Section, string>, housingPresent: bool, s: Section)
    requires s != HousingSituationDetails || housingPresent
    ensures UpdateVisibility(map[], display, housingPresent)[s] == "none"
  {
    VisibilityMeaning(map[], display, housingPresent, s);
  }

  /** The section a question opens, read back from its id. */
  function SectionOf(question: string): Option<Section>
  {
    if question == "pets" then Some(PetDetails)
    else if question == "privateLandlord" then Some(RentalHistory)
    else if question == "rentDifficulty" then Some(RentDifficultyDetails)
    else if question == "tenancyNotice" then Some(TenancyNoticeDetails)
    else if question == "rentalDispute" then Some(RentalDisputeDetails)
    else if question == "employmentStatus" then Some(EmploymentDetails)
    else if question == "businessActivity" then Some(BusinessActivityDetails)
    else if question == "specialVehicles" then Some(SpecialVehiclesDetails)
    else if question == "housingSituation" then Some(HousingSituationDetails)
    else None
  }

  /** Each question names its own section. */
  lemma SectionOfQuestion(s: Section)
    ensures SectionOf(Question(s)) == Some(s)
  {
    match s
    case PetDetails =>
    case RentalHistory => assert "privateLandlord"[1] != "pets"[1];
    case RentDifficultyDetails =>
      assert "rentDifficulty"[0] != "pets"[0] && "rentDifficulty"[0] != "privateLandlord"[0];
    case TenancyNoticeDetails =>
      assert "tenancyNotice"[0] != "pets"[0] && "tenancyNotice"[0] != "privateLandlord"[0] && "tenancyNotice"[0] != "rentDifficulty"[0];
    case RentalDisputeDetails =>
      assert "rentalDispute"[0] != "pets"[0] && "rentalDispute"[0] != "privateLandlord"[0];
      assert "rentalDispute"[4] != "rentDifficulty"[4] && "rentalDispute"[0] != "tenancyNotice"[0];
    case EmploymentDetails =>
    case BusinessActivityDetails =>
    case SpecialVehiclesDetails =>
    case HousingSituationDetails =>
  }

  /** Different sections are opened by different questions. */
  lemma QuestionsDistinct(s: Section, t: Section)
    requires s != t
    ensures Question(s) != Question(t)
  {
    SectionOfQuestion(s);
    SectionOfQuestion(t);
  }

  /** Changing the answer to one question changes the display of its own section only. */
  lemma OneAnswerOneSection(answers: map<string, string>, s: Section, value: string,
                            display: map<Section, string>, housingPresent: bool, t: Section)
    requires t != s
    ensures var before, after := UpdateVisibility(answers, display, housingPresent),
      UpdateVisibility(answers[Question(s) := value], display, housingPresent);
      (t in before <==> t in after) && (t in before ==> before[t] == after[t])
  {
    QuestionsDistinct(s, t);
    assert Answer(answers[Question(s) := value], t) == Answer(answers, t);
    VisibilityMeaning(answers, display, housingPresent, t);
    VisibilityMeaning(answers[Question(s) := value], display, housingPresent, t);
  }

  /** Running the update twice on the same answers changes nothing more. */
  lemma VisibilityIdempotent(answers: map<string, string>, display: map<Section, string>, housingPresent: bool)
    ensures var once := UpdateVisibility(answers, display, housingPresent);
      UpdateVisibility(answers, once, housingPresent) == once
  {
  }
}
