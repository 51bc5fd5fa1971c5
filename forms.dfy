/**
 * The checks the page makes before it sends anything: the required-field
 * tests of the account forms, the property form's field rules, the email and
 * feedback checks, the minimum length of required text areas and the loop
 * that collects the application form's error messages.
 */
module Forms {
  import opened Base
  import opened Text

  /** What a form check decides: send, mark the form `was-validated`, or raise an alert with a message. */
  datatype Verdict = Pass | MarkInvalid | Warn(message: string)

  // ---------------------------------------------------------------------------
  // account forms
  // ---------------------------------------------------------------------------

  /** `login()`: both fields must be non-empty. */
  function LoginVerdict(email: string, password: string): (v: Verdict)
    ensures v.Pass? <==> email != "" && password != ""
    ensures !v.Warn?
  {
    if email == "" || password == "" then MarkInvalid else Pass
  }

  /** `register()`: every field filled, the terms accepted and the two passwords equal. */
  function RegisterVerdict(email: string, password: string, confirm: string, terms: bool): (v: Verdict)
    ensures v.Pass? <==> email != "" && password != "" && confirm != "" && terms && password == confirm
    ensures !v.Warn?
  {
    if email == "" || password == "" || confirm == "" || !terms || password != confirm then MarkInvalid else Pass
  }

  /** `handleConfirmEmail()`: address and code must be non-empty. */
  function ConfirmVerdict(email: string, code: string): (v: Verdict)
    ensures v.Pass? <==> email != "" && code != ""
    ensures !v.Warn?
  {
    if email == "" || code == "" then MarkInvalid else Pass
  }

  /** `sendResetCode()`: the address must be non-empty. */
  function ResetCodeVerdict(email: string): (v: Verdict)
    ensures v.Pass? <==> email != ""
    ensures !v.Warn?
  {
    if email == "" then MarkInvalid else Pass
  }

  /**
   * `resetPassword()`: every field filled, then the two new passwords equal;
   * a mismatch is reported in an alert rather than by marking the form.
   */
  function ResetPasswordVerdict(email: string, code: string, password: string, confirm: string): (v: Verdict)
    ensures v == MarkInvalid <==> email == "" || code == "" || password == "" || confirm == ""
    ensures v.Warn? <==> email != "" && code != "" && password != "" && confirm != "" && password != confirm
    ensures v.Warn? ==> v.message == "Passwords do not match. Please try again."
  {
    if email == "" || code == "" || password == "" || confirm == "" then MarkInvalid
    else if password != confirm then Warn("Passwords do not match. Please try again.")
    else Pass
  }

  // ---------------------------------------------------------------------------
  // property form
  // ---------------------------------------------------------------------------

  /** The property form's fields as the page reads them. */
  datatype PropertyDraft = PropertyDraft(
    id: string, address: string, description: string, link: string,
    availability: string, rent: string, bedrooms: string, parking: string)

  /** The six fields `saveProperty()` requires before any other check. */
  predicate RequiredFilled(d: PropertyDraft)
  {
    d.address != "" && d.description != "" && d.availability != "" && d.rent != "" && d.bedrooms != "" && d.parking != ""
  }

  /**
   * `saveProperty()`'s checks in their order: the six required fields, the
   * digits-only bedroom and parking counts (after trimming), the availability
   * date not before `today` (both `YYYY-MM-DD` texts compared as strings), and
   * a link the URL parser accepts when one is given (`linkParses`). Each
   * failed check has its own outcome, reached exactly when every earlier
   * check passes.
   */
  function PropertyVerdict(d: PropertyDraft, today: string, linkParses: bool): (v: Verdict)
    ensures v.Pass? <==>
      && RequiredFilled(d)
      && AllDigits(Trim(d.bedrooms)) && AllDigits(Trim(d.parking))
      && !LexLess(d.availability, today)
      && (d.link != "" ==> linkParses)
    ensures v == MarkInvalid <==> !RequiredFilled(d)
    ensures v == Warn("Please provide number of bedrooms.") <==> RequiredFilled(d) && !AllDigits(Trim(d.bedrooms))
    ensures v == Warn("Please provide number of parking spaces.") <==>
      RequiredFilled(d) && AllDigits(Trim(d.bedrooms)) && !AllDigits(Trim(d.parking))
    ensures v == Warn("Availability date cannot be in the past.") <==>
      RequiredFilled(d) && AllDigits(Trim(d.bedrooms)) && AllDigits(Trim(d.parking)) && LexLess(d.availability, today)
    ensures v == Warn("Please provide a valid URL for the link.") <==>
      && RequiredFilled(d) && AllDigits(Trim(d.bedrooms)) && AllDigits(Trim(d.parking)) && !LexLess(d.availability, today)
      && d.link != "" && !linkParses
  {
    if !RequiredFilled(d) then MarkInvalid
    else if !AllDigits(Trim(d.bedrooms)) then Warn("Please provide number of bedrooms.")
    else if !AllDigits(Trim(d.parking)) then Warn("Please provide number of parking spaces.")
    else if LexLess(d.availability, today) then Warn("Availability date cannot be in the past.")
    else if d.link != "" && !linkParses then Warn("Please provide a valid URL for the link.")
    else Pass
  }

  /** The endpoint a property is saved to: editing when the hidden id field is filled, adding otherwise. */
  function SaveEndpoint(d: PropertyDraft): (endpoint: string)
    ensures endpoint == "/edit-property" <==> d.id != ""
    ensures endpoint == "/add-property" <==> d.id == ""
  {
    if d.id != "" then "/edit-property" else "/add-property"
  }

  /** A decimal digit's value. */
  function DigitValue(c: char): nat
    requires IsDigit(c)
  {
    c as nat - '0' as nat
  }

  function Pow10(n: nat): (p: nat)
    ensures p >= 1
  {
    if n == 0 then 1 else 10 * Pow10(n - 1)
  }

  /** The value of a run of decimal digits, as `parseInt(s, 10)` reads it. */
  function DecimalValue(s: string): (v: nat)
    requires forall i :: 0 <= i < |s| ==> IsDigit(s[i])
    ensures v < Pow10(|s|)
    decreases |s|
  {
    if s == [] then 0
    else
      var p := Pow10(|s| - 1);
      var rest := DecimalValue(s[1..]);
      ScaledLess(DigitValue(s[0]), 10, p, rest, 0);
      DigitValue(s[0]) * p + rest
  }

  /** A smaller leading digit makes a smaller number, whatever follows it. */
  lemma ScaledLess(dx: nat, dy: nat, p: nat, vx: nat, vy: nat)
    requires dx < dy && vx < p
    ensures dx * p + vx < dy * p + vy
  {
    assert (dy - dx - 1) * p >= 0;
    assert dy * p == dx * p + p + (dy - dx - 1) * p;
  }

  // ---------------------------------------------------------------------------
  // dates as text
  // ---------------------------------------------------------------------------

  /** A `YYYY-MM-DD` date as the date input and `toISOString().split('T')[0]` write it. */
  predicate IsIsoDate(s: string)
  {
    |s| == 10 && s[4] == '-' && s[7] == '-'
    && IsDigit(s[0]) && IsDigit(s[1]) && IsDigit(s[2]) && IsDigit(s[3])
    && IsDigit(s[5]) && IsDigit(s[6]) && IsDigit(s[8]) && IsDigit(s[9])
  }

  /** The year, month and day fields of a `YYYY-MM-DD` text. */
  function Year(s: string): (y: nat)
    requires IsIsoDate(s)
    ensures y < 10000
  {
    DecimalValue(s[..4])
  }

  function Month(s: string): (m: nat)
    requires IsIsoDate(s)
    ensures m < 100
  {
    DecimalValue(s[5..7])
  }

  function Day(s: string): (d: nat)
    requires IsIsoDate(s)
    ensures d < 100
  {
    DecimalValue(s[8..10])
  }

  /** The day a `YYYY-MM-DD` text stands for, as a number ordered like the calendar. */
  function DayKey(s: string): nat
    requires IsIsoDate(s)
  {
    Year(s) * 10000 + Month(s) * 100 + Day(s)
  }

  /**
   * For two `YYYY-MM-DD` texts, the string comparison the property form uses
   * agrees with calendar order, so "not before today" means what it says.
   */
  lemma IsoDateOrder(a: string, b: string)
    requires IsIsoDate(a) && IsIsoDate(b)
    ensures LexLess(a, b) <==> DayKey(a) < DayKey(b)
  {
    DateLexFields(a, b);
    DigitsLex(a[..4], b[..4]);
    DigitsLex(a[5..7], b[5..7]);
    DigitsLex(a[8..10], b[8..10]);
    KeyOrder(Year(a), Month(a), Day(a), Year(b), Month(b), Day(b));
  }

  /** Two `YYYY-MM-DD` texts compare year field first, then month, then day. */
  lemma DateLexFields(a: string, b: string)
    requires IsIsoDate(a) && IsIsoDate(b)
    ensures LexLess(a, b) <==>
      LexLessUnits(Codes(a[..4]), Codes(b[..4])) || (a[..4] == b[..4] &&
        (LexLessUnits(Codes(a[5..7]), Codes(b[5..7])) || (a[5..7] == b[5..7] &&
          LexLessUnits(Codes(a[8..10]), Codes(b[8..10])))))
  {
    DateUnits(a);
    DateUnits(b);
    LexFields(Codes(a[..4]), Codes(a[5..7]), Codes(a[8..10]), Codes(b[..4]), Codes(b[5..7]), Codes(b[8..10]), Codes("-"));
    CodesInjective(a[..4], b[..4]);
    CodesInjective(a[5..7], b[5..7]);
  }

  /** The code units of a `YYYY-MM-DD` text, field by field. */
  lemma DateUnits(a: string)
    requires IsIsoDate(a)
    ensures Utf16(a) == Codes(a[..4]) + Codes("-") + Codes(a[5..7]) + Codes("-") + Codes(a[8..10])
  {
    AsciiUnits(a);
    assert a == a[..4] + "-" + a[5..7] + "-" + a[8..10];
    CodesAppend5(a[..4], "-", a[5..7], "-", a[8..10]);
  }

  /** Three fields of fixed widths with a common separator compare field by field. */
  lemma LexFields(ya: seq<int>, ma: seq<int>, da: seq<int>, yb: seq<int>, mb: seq<int>, db: seq<int>, dash: seq<int>)
    requires |ya| == |yb| && |ma| == |mb|
    ensures LexLessUnits(ya + dash + ma + dash + da, yb + dash + mb + dash + db) <==>
      LexLessUnits(ya, yb) || (ya == yb && (LexLessUnits(ma, mb) || (ma == mb && LexLessUnits(da, db))))
  {
    assert ya + dash + ma + dash + da == ya + (dash + (ma + (dash + da)));
    assert yb + dash + mb + dash + db == yb + (dash + (mb + (dash + db)));
    LexAppend(ya, dash + (ma + (dash + da)), yb, dash + (mb + (dash + db)));
    LexAppend(dash, ma + (dash + da), dash, mb + (dash + db));
    LexAppend(ma, dash + da, mb, dash + db);
    LexAppend(dash, da, dash, db);
    NotLexLessSelf(dash);
  }

  /** Year, month and day below their field widths combine into a key ordered field by field. */
  lemma KeyOrder(y1: nat, m1: nat, d1: nat, y2: nat, m2: nat, d2: nat)
    requires m1 < 100 && d1 < 100 && m2 < 100 && d2 < 100
    ensures y1 * 10000 + m1 * 100 + d1 < y2 * 10000 + m2 * 100 + d2 <==>
      y1 < y2 || (y1 == y2 && (m1 < m2 || (m1 == m2 && d1 < d2)))
  {
    if y1 < y2 {
      ScaledLess(y1, y2, 10000, m1 * 100 + d1, m2 * 100 + d2);
    } else if y2 < y1 {
      ScaledLess(y2, y1, 10000, m2 * 100 + d2, m1 * 100 + d1);
    } else if m1 < m2 {
      ScaledLess(m1, m2, 100, d1, d2);
    } else if m2 < m1 {
      ScaledLess(m2, m1, 100, d2, d1);
    }
  }

  /** The character codes of a text. */
  function Codes(s: string): (u: seq<int>)
    ensures |u| == |s|
    decreases |s|
  {
    if s == [] then [] else [s[0] as int] + Codes(s[1..])
  }

  lemma {:induction false} CodesAppend(x: string, y: string)
    ensures Codes(x + y) == Codes(x) + Codes(y)
    decreases |x|
  {
    if x != [] {
      assert (x + y)[0] == x[0];
      assert (x + y)[1..] == x[1..] + y;
      CodesAppend(x[1..], y);
      calc {
        Codes(x + y);
        [x[0] as int] + Codes(x[1..] + y);
        [x[0] as int] + (Codes(x[1..]) + Codes(y));
        ([x[0] as int] + Codes(x[1..])) + Codes(y);
      }
    } else {
      assert x + y == y;
    }
  }

  lemma CodesAppend5(p: string, q: string, r: string, s: string, t: string)
    ensures Codes(p + q + r + s + t) == Codes(p) + Codes(q) + Codes(r) + Codes(s) + Codes(t)
  {
    CodesAppend(p + q + r + s, t);
    CodesAppend(p + q + r, s);
    CodesAppend(p + q, r);
    CodesAppend(p, q);
  }

  lemma {:induction false} CodesInjective(x: string, y: string)
    ensures Codes(x) == Codes(y) ==> x == y
    decreases |x|
  {
    if x != [] && Codes(x) == Codes(y) {
      assert Codes(x)[0] == x[0] as int && Codes(y)[0] == y[0] as int;
      assert Codes(x)[1..] == Codes(x[1..]) && Codes(y)[1..] == Codes(y[1..]);
      CodesInjective(x[1..], y[1..]);
      assert x == [x[0]] + x[1..] && y == [y[0]] + y[1..];
    }
  }

  /** Each character below U+10000 is one UTF-16 code unit equal to its code point. */
  lemma {:induction false} AsciiUnits(s: string)
    requires forall i :: 0 <= i < |s| ==> (s[i] as int) < 0x10000
    ensures Utf16(s) == Codes(s)
    decreases |s|
  {
    if s != [] {
      AsciiUnits(s[1..]);
    }
  }

  lemma {:induction false} NotLexLessSelf(x: seq<int>)
    ensures !LexLessUnits(x, x)
    decreases |x|
  {
    if x != [] {
      NotLexLessSelf(x[1..]);
    }
  }

  /** Comparing two texts whose first parts have the same length: the first parts decide unless they are equal. */
  lemma {:induction false} LexAppend(x: seq<int>, y: seq<int>, x2: seq<int>, y2: seq<int>)
    requires |x| == |x2|
    ensures LexLessUnits(x + y, x2 + y2) <==> LexLessUnits(x, x2) || (x == x2 && LexLessUnits(y, y2))
    decreases |x|
  {
    if x != [] {
      assert (x + y)[0] == x[0] && (x2 + y2)[0] == x2[0];
      assert (x + y)[1..] == x[1..] + y && (x2 + y2)[1..] == x2[1..] + y2;
      LexAppend(x[1..], y, x2[1..], y2);
      if x[0] == x2[0] {
        assert x == x2 <==> x[1..] == x2[1..] by {
          assert x == [x[0]] + x[1..] && x2 == [x2[0]] + x2[1..];
        }
      }
    } else {
      assert x + y == y && x2 + y2 == y2;
    }
  }

  /** For two digit runs of the same length, the string order is the order of their values. */
  lemma {:induction false} DigitsLex(x: string, y: string)
    requires |x| == |y|
    requires forall i :: 0 <= i < |x| ==> IsDigit(x[i])
    requires forall i :: 0 <= i < |y| ==> IsDigit(y[i])
    ensures LexLessUnits(Codes(x), Codes(y)) <==> DecimalValue(x) < DecimalValue(y)
    ensures x == y <==> DecimalValue(x) == DecimalValue(y)
    decreases |x|
  {
    if x != [] {
      assert Codes(x)[0] == x[0] as int && Codes(y)[0] == y[0] as int;
      assert Codes(x)[1..] == Codes(x[1..]) && Codes(y)[1..] == Codes(y[1..]);
      DigitsLex(x[1..], y[1..]);
      LeadingDigit(x, y);
      if x[0] == y[0] {
        assert x == y <==> x[1..] == y[1..] by {
          assert x == [x[0]] + x[1..] && y == [y[0]] + y[1..];
        }
      }
    }
  }

  /** Between two digit runs of the same length, the leading digits decide unless they are equal. */
  lemma LeadingDigit(x: string, y: string)
    requires |x| == |y| > 0
    requires forall i :: 0 <= i < |x| ==> IsDigit(x[i])
    requires forall i :: 0 <= i < |y| ==> IsDigit(y[i])
    ensures DecimalValue(x) < DecimalValue(y) <==>
      x[0] < y[0] || (x[0] == y[0] && DecimalValue(x[1..]) < DecimalValue(y[1..]))
    ensures DecimalValue(x) == DecimalValue(y) <==> x[0] == y[0] && DecimalValue(x[1..]) == DecimalValue(y[1..])
  {
    PlaceOrder(DigitValue(x[0]), DigitValue(y[0]), Pow10(|x| - 1), DecimalValue(x[1..]), DecimalValue(y[1..]));
  }

  /** Two numbers written as a leading place value plus a smaller rest compare by the leading value first. */
  lemma PlaceOrder(dx: nat, dy: nat, p: nat, vx: nat, vy: nat)
    requires vx < p && vy < p
    ensures dx * p + vx < dy * p + vy <==> dx < dy || (dx == dy && vx < vy)
    ensures dx * p + vx == dy * p + vy <==> dx == dy && vx == vy
  {
    if dx < dy {
      ScaledLess(dx, dy, p, vx, vy);
    } else if dy < dx {
      ScaledLess(dy, dx, p, vy, vx);
    }
  }

  // ---------------------------------------------------------------------------
  // email to a candidate
  // ---------------------------------------------------------------------------

  /**
   * `sendEmailToCandidate()`'s checks in their order: a trimmed subject of at
   * least three UTF-16 units, a trimmed message of at least five, and a
   * candidate id in the hash. Its messages go to the screen's notice box.
   */
  function EmailVerdict(subject: string, text: string, candidateId: string): (v: Verdict)
    ensures v.Pass? <==> Utf16Length(Trim(subject)) >= 3 && Utf16Length(Trim(text)) >= 5 && candidateId != ""
    ensures !v.MarkInvalid?
    ensures v == Warn("Please enter a subject (at least 3 characters).") <==> Utf16Length(Trim(subject)) < 3
    ensures v == Warn("Please enter a message (at least 5 characters).") <==>
      Utf16Length(Trim(subject)) >= 3 && Utf16Length(Trim(text)) < 5
    ensures v == Warn("Candidate not found.") <==>
      Utf16Length(Trim(subject)) >= 3 && Utf16Length(Trim(text)) >= 5 && candidateId == ""
  {
    var s, t := Trim(subject), Trim(text);
    if s == "" || Utf16Length(s) < 3 then Warn("Please enter a subject (at least 3 characters).")
    else if t == "" || Utf16Length(t) < 5 then Warn("Please enter a message (at least 5 characters).")
    else if candidateId == "" then Warn("Candidate not found.")
    else Pass
  }

  // ---------------------------------------------------------------------------
  // feedback
  // ---------------------------------------------------------------------------

  /** Neither white space nor `@`: the class `[^\s@]`. */
  predicate PlainChar(c: char)
  {
    !IsSpace(c) && c != '@'
  }

  /**
   * `/^[^\s@]+@[^\s@]+\.[^\s@]+$/.test(s)`: some `@` and some later `.` split
   * the text into three non-empty runs of characters that are neither white
   * space nor `@`.
   */
  predicate EmailPattern(s: string)
  {
    exists i, j :: 0 < i && i + 1 < j && j + 1 < |s| && s[i] == '@' && s[j] == '.'
      && (forall k :: 0 <= k < |s| && k != i ==> PlainChar(s[k]))
  }

  /** The index of the first character of `s` at or after `from` that is not `Plain`, or `|s|`. */
  function FirstNonPlain(s: string, from: nat): (k: nat)
    requires from <= |s|
    ensures from <= k <= |s|
    ensures forall m :: from <= m < k ==> PlainChar(s[m])
    ensures k < |s| ==> !PlainChar(s[k])
    decreases |s| - from
  {
    if from == |s| || !PlainChar(s[from]) then from else FirstNonPlain(s, from + 1)
  }

  /** Whether `s` holds a `.` strictly between positions `lo` and `hi`. */
  function DotBetween(s: string, lo: nat, hi: nat): (found: bool)
    requires lo <= hi <= |s|
    ensures found <==> exists j :: lo < j < hi && s[j] == '.'
    decreases hi - lo
  {
    if hi <= lo + 1 then false
    else if s[hi - 1] == '.' then true
    else DotBetween(s, lo, hi - 1)
  }

  /**
   * A direct reading of the pattern: a non-empty plain run, an `@`, then a
   * plain run to the end that has a `.` neither at its start nor at its end.
   */
  function MatchesEmail(s: string): bool
  {
    var i := FirstNonPlain(s, 0);
    0 < i && i + 2 <= |s| && s[i] == '@' && FirstNonPlain(s, i + 1) == |s| && DotBetween(s, i + 1, |s| - 1)
  }

  /** The direct reading agrees with the pattern on every text. */
  lemma MatchesEmailPattern(s: string)
    ensures MatchesEmail(s) <==> EmailPattern(s)
  {
    var i := FirstNonPlain(s, 0);
    if EmailPattern(s) {
      var a, j :| 0 < a && a + 1 < j && j + 1 < |s| && s[a] == '@' && s[j] == '.'
        && (forall k :: 0 <= k < |s| && k != a ==> PlainChar(s[k]));
      assert i == a by {
        assert !PlainChar(s[a]);
      }
      assert i + 1 < j < |s| - 1;
    }
    if MatchesEmail(s) {
      var j :| i + 1 < j < |s| - 1 && s[j] == '.';
      assert forall k :: 0 <= k < |s| && k != i ==> PlainChar(s[k]) by {
        forall k | 0 <= k < |s| && k != i
          ensures PlainChar(s[k])
        {
          if k > i {
            assert i + 1 <= k < FirstNonPlain(s, i + 1);
          }
        }
      }
    }
  }

  /** What `sendFeedback()` flags, both in the same pass: a short text, and a filled-in email that does not match. */
  datatype FeedbackFlags = FeedbackFlags(textInvalid: bool, emailInvalid: bool)

  /**
   * `sendFeedback()`: the trimmed text needs at least five UTF-16 units; the
   * email is optional, but once its trimmed value is non-empty it must match
   * the pattern. The feedback is sent only when neither is flagged.
   */
  function FeedbackCheck(text: string, email: string): (flags: FeedbackFlags)
    ensures flags.textInvalid <==> Utf16Length(Trim(text)) < 5
    ensures flags.emailInvalid <==> Trim(email) != "" && !EmailPattern(Trim(email))
  {
    var t, e := Trim(text), Trim(email);
    MatchesEmailPattern(e);
    FeedbackFlags(t == "" || Utf16Length(t) < 5, e != "" && !MatchesEmail(e))
  }

  /** The custom validity message the listener on required text areas sets. */
  function TextareaMessage(value: string): (m: string)
    ensures m == "" <==> Utf16Length(Trim(value)) >= 5
    ensures m != "" ==> m == "Please provide at least 5 characters."
  {
    if Utf16Length(Trim(value)) < 5 then "Please provide at least 5 characters." else ""
  }

  // ---------------------------------------------------------------------------
  // application form errors
  // ---------------------------------------------------------------------------

  /**
   * A required or optional field of the application form that is not under a
   * hidden section: whether it is rendered (`offsetParent`), whether it passes
   * `checkValidity()`, its `validationMessage` and the text of its label.
   */
  datatype Field = Field(rendered: bool, valid: bool, message: string, fieldLabel: Option<string>)

  predicate Failing(f: Field)
  {
    f.rendered && !f.valid
  }

  /** The line reported for a failing field: `<label>: <message>` when it has a label, its message alone otherwise. */
  function ErrorLine(f: Field): string
  {
    match f.fieldLabel
    case Some(l) => Trim(l) + ": " + f.message
    case None => f.message
  }

  /** The lines of the failing fields, in form order. */
  function ErrorLines(fields: seq<Field>): (lines: seq<string>)
    ensures |lines| <= |fields|
    ensures lines == [] <==> forall k :: 0 <= k < |fields| ==> !Failing(fields[k])
    decreases |fields|
  {
    if fields == [] then []
    else
      var rest := ErrorLines(fields[1..]);
      assert forall k :: 1 <= k < |fields| ==> fields[k] == fields[1..][k - 1];
      (if Failing(fields[0]) then [ErrorLine(fields[0])] else []) + rest
  }

  lemma {:induction false} ErrorLinesAppend(fields: seq<Field>, f: Field)
    ensures ErrorLines(fields + [f]) == ErrorLines(fields) + (if Failing(f) then [ErrorLine(f)] else [])
    decreases |fields|
  {
    if fields != [] {
      assert (fields + [f])[1..] == fields[1..] + [f];
      ErrorLinesAppend(fields[1..], f);
    } else {
      assert [f][1..] == [];
    }
  }

  /**
   * The loop of `submitApplication()`: every rendered field that fails its
   * check clears the valid flag and adds its line, in form order.
   */
  method CollectErrors(fields: seq<Field>) returns (isValid: bool, messages: seq<string>)
    ensures messages == ErrorLines(fields)
    ensures isValid <==> forall k :: 0 <= k < |fields| ==> !Failing(fields[k])
    ensures isValid <==> messages == []
  {
    isValid := true;
    messages := [];
    for i := 0 to |fields|
      invariant messages == ErrorLines(fields[..i])
      invariant isValid <==> forall k :: 0 <= k < i ==> !Failing(fields[k])
    {
      ErrorLinesAppend(fields[..i], fields[i]);
      assert fields[..i + 1] == fields[..i] + [fields[i]];
      if Failing(fields[i]) {
        isValid := false;
        messages := messages + [ErrorLine(fields[i])];
      }
    }
    assert fields[..|fields|] == fields;
  }

  /** `errorMessages.join('<br>')`. */
  function JoinLines(lines: seq<string>): string
    decreases |lines|
  {
    if lines == [] then ""
    else if |lines| == 1 then lines[0]
    else lines[0] + "<br>" + JoinLines(lines[1..])
  }
}
