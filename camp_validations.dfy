/**
 * The Camp Essence schema of lib/camp-validations.ts and its US/Canada
 * phone-number check. Issues follow the same rules as the summit schema
 * (Validations): enum, type and whole-number failures abort, the others
 * let parsing continue, and the object-level refinement runs only when
 * nothing aborted.
 */
module CampValidations {
  import opened Wrappers
  import opened Text
  import opened Validations
  import CampEssence

  /** The characters of `/^[+()\-\s.\d]+$/`: `\d` is an ASCII digit and `\s` JavaScript white space. */
  predicate IsPhoneChar(c: char) {
    c == '+' || c == '(' || c == ')' || c == '-' || c == '.' || IsDigit(c) || IsJsWhitespace(c)
  }

  predicate AllPhoneChars(s: string) {
    forall c :: c in s ==> IsPhoneChar(c)
  }

  /** `s.replace(/\D/g, '')`: the ASCII digits of s, in order. */
  function DigitsOf(s: string): (r: string)
    ensures AllDigits(r) && |r| <= |s|
  {
    if s == [] then []
    else (if IsDigit(s[0]) then [s[0]] else []) + DigitsOf(s[1..])
  }

  /** `isValidUsCaPhone`. */
  predicate IsValidUsCaPhone(value: string) {
    var trimmed := Trim(value);
    if trimmed == [] then false
    else if !AllPhoneChars(trimmed) then false
    else
      var digits := DigitsOf(trimmed);
      |digits| == 10 || (|digits| == 11 && StartsWith(digits, "1"))
  }

  /** An empty or all-white-space phone number is rejected. */
  lemma BlankPhoneRejected(value: string)
    requires AllWhitespace(value)
    ensures !IsValidUsCaPhone(value)
  {
    TrimEmpty(value);
  }

  /** A phone number with any character outside digits, `+ ( ) - .` and white space is rejected. */
  lemma ForeignCharRejected(value: string, k: nat)
    requires k < |value| && !IsPhoneChar(value[k])
    ensures !IsValidUsCaPhone(value)
  {
    TrimKeeps(value, k);
  }

  lemma {:induction false} DigitsOfAppend(a: string, b: string)
    ensures DigitsOf(a + b) == DigitsOf(a) + DigitsOf(b)
    decreases |a|
  {
    if a == [] {
      assert a + b == b;
    } else {
      var head := if IsDigit(a[0]) then [a[0]] else [];
      assert (a + b)[0] == a[0];
      assert (a + b)[1..] == a[1..] + b;
      assert DigitsOf(a + b) == head + DigitsOf(a[1..] + b);
      DigitsOfAppend(a[1..], b);
      assert DigitsOf(a) == head + DigitsOf(a[1..]);
      assert head + (DigitsOf(a[1..]) + DigitsOf(b)) == (head + DigitsOf(a[1..])) + DigitsOf(b);
    }
  }

  lemma WhitespaceIsNotDigit(c: char)
    requires IsJsWhitespace(c)
    ensures !IsDigit(c)
  {
  }

  lemma {:induction false} DigitsOfSpace(a: string)
    requires AllWhitespace(a)
    ensures DigitsOf(a) == []
    decreases |a|
  {
    if a != [] {
      WhitespaceIsNotDigit(a[0]);
      DigitsOfSpace(a[1..]);
    }
  }

  lemma LeadingPartIsSpace(s: string)
    ensures AllWhitespace(s[..LeadingSpace(s)])
  {
    forall k | 0 <= k < LeadingSpace(s) ensures IsJsWhitespace(s[..LeadingSpace(s)][k]) {
      LeadingSpaceIsSpace(s, k);
    }
  }

  lemma TrailingPartIsSpace(t: string)
    ensures AllWhitespace(t[TrailingStart(t)..])
  {
    var j := TrailingStart(t);
    forall k | 0 <= k < |t| - j ensures IsJsWhitespace(t[j..][k]) {
      TrailingSpaceIsSpace(t, j + k);
    }
  }

  lemma DigitsOfFramed(a: string, b: string, c: string)
    requires AllWhitespace(a) && AllWhitespace(c)
    ensures DigitsOf(a + b + c) == DigitsOf(b)
  {
    DigitsOfSpace(a);
    DigitsOfSpace(c);
    DigitsOfAppend(a + b, c);
    DigitsOfAppend(a, b);
  }

  /** Trimming never removes a digit. */
  lemma DigitsOfTrim(s: string)
    ensures DigitsOf(Trim(s)) == DigitsOf(s)
  {
    var i := LeadingSpace(s);
    var t := s[i..];
    var j := TrailingStart(t);
    LeadingPartIsSpace(s);
    TrailingPartIsSpace(t);
    assert s == s[..i] + t[..j] + t[j..];
    DigitsOfFramed(s[..i], t[..j], t[j..]);
  }

  /**
   * For a number made only of allowed characters and not blank, validity
   * is the digit count: ten digits, or eleven starting with 1.
   */
  lemma PhoneDigitRule(value: string)
    requires Trim(value) != [] && AllPhoneChars(Trim(value))
    ensures IsValidUsCaPhone(value) <==>
              |DigitsOf(value)| == 10 || (|DigitsOf(value)| == 11 && DigitsOf(value)[0] == '1')
  {
    DigitsOfTrim(value);
    var d := DigitsOf(Trim(value));
    assert StartsWith(d, "1") <==> |d| >= 1 && d[0] == '1' by {
      if |d| >= 1 {
        assert d[..1] == [d[0]];
      }
    }
  }

  /** Two such numbers with the same digits are both valid or both invalid, however they are punctuated. */
  lemma PhoneDependsOnlyOnDigits(v: string, w: string)
    requires Trim(v) != [] && AllPhoneChars(Trim(v))
    requires Trim(w) != [] && AllPhoneChars(Trim(w))
    requires DigitsOf(v) == DigitsOf(w)
    ensures IsValidUsCaPhone(v) <==> IsValidUsCaPhone(w)
  {
    PhoneDigitRule(v);
    PhoneDigitRule(w);
  }

  datatype CampAttendee = CampAttendee(fullName: string, email: string, phone: string)

  /** The primary attendee; the form leaves `phone` undefined until it is typed. */
  datatype CampPrimaryAttendee = CampPrimaryAttendee(firstName: string, lastName: string, email: string,
                                                     phone: Option<string>)

  /** The object the camp schema parses; `totalAttendees` is a JSON number. */
  datatype CampInput = CampInput(
    salonName: string,
    city: string,
    state: string,
    primaryAttendee: CampPrimaryAttendee,
    totalAttendees: real,
    additionalAttendees: seq<CampAttendee>,
    paymentMethod: Option<string>,
    cancellationPolicyAccepted: bool)

  /** The e-mail checks, the same in both attendee schemas. */
  function EmailChecks(env: SchemaEnv, path: string, email: string): seq<Check> {
    [ Rule(|email| >= 1, path, EmailRequired),
      Rule(env.isEmail(email), path, InvalidEmail),
      Rule(|email| <= 254, path, EmailTooLong)]
  }

  /** The path prefix of the attendee at `index` of `additionalAttendees`. */
  function AttendeePrefix(index: nat): string {
    "additionalAttendees." + NatToString(index) + "."
  }

  /** `additionalAttendeeSchema`, for the attendee whose paths start with `prefix`. */
  function CampAttendeeChecks(env: SchemaEnv, prefix: string, a: CampAttendee): seq<Check> {
    [ Rule(|a.fullName| >= 2, prefix + "fullName", NameTooShort),
      Rule(|a.fullName| <= 100, prefix + "fullName", NameTooLong)]
    + EmailChecks(env, prefix + "email", a.email)
    + [ Rule(|a.phone| >= 1, prefix + "phone", PhoneRequired),
        Rule(IsValidUsCaPhone(a.phone), prefix + "phone", InvalidPhone)]
  }

  /** The item checks of `additionalAttendees`, from position `from` on. */
  function CampAttendeeListChecks(env: SchemaEnv, attendees: seq<CampAttendee>, from: nat): (r: seq<Check>)
    requires from <= |attendees|
    ensures NoneAborts(r)
    decreases |attendees| - from
  {
    if from == |attendees| then []
    else
      var head := CampAttendeeChecks(env, AttendeePrefix(from), attendees[from]);
      var rest := CampAttendeeListChecks(env, attendees, from + 1);
      NoneAbortsAppend(head, rest);
      head + rest
  }

  /** The primary phone: a missing value fails the string type and aborts. */
  function PrimaryPhoneChecks(phone: Option<string>): seq<Check> {
    match phone
    case None => [AbortingRule(false, "primaryAttendee.phone", ExpectedString)]
    case Some(p) =>
      [ Rule(|p| >= 1, "primaryAttendee.phone", MobileRequired),
        Rule(IsValidUsCaPhone(p), "primaryAttendee.phone", InvalidMobile)]
  }

  /** The camp `primaryAttendeeSchema`. */
  function CampPrimaryChecks(env: SchemaEnv, p: CampPrimaryAttendee): seq<Check> {
    [ Rule(|p.firstName| >= 1, "primaryAttendee.firstName", FirstNameRequired),
      Rule(|p.firstName| <= 50, "primaryAttendee.firstName", FirstNameTooLong),
      Rule(|p.lastName| >= 1, "primaryAttendee.lastName", LastNameRequired),
      Rule(|p.lastName| <= 50, "primaryAttendee.lastName", LastNameTooLong)]
    + EmailChecks(env, "primaryAttendee.email", p.email)
    + PrimaryPhoneChecks(p.phone)
  }

  predicate IsWhole(n: real) {
    n.Floor as real == n
  }

  const MaxSafeInteger: int := 9007199254740991

  /**
   * `z.number().int(..).min(1, ..).max(6, ..)`: a fraction aborts the
   * field's remaining checks; a whole number outside the safe-integer
   * range is reported and the bounds are still checked.
   */
  function TotalAttendeesChecks(n: real): seq<Check> {
    if !IsWhole(n) then [AbortingRule(false, "totalAttendees", NotWhole)]
    else
      [ Rule(-MaxSafeInteger <= n.Floor <= MaxSafeInteger, "totalAttendees", NotWhole),
        Rule(n >= 1.0, "totalAttendees", TooFewAttendees),
        Rule(n <= CampEssence.MaxAttendees as real, "totalAttendees", TooManyAttendees(CampEssence.MaxAttendees))]
  }

  /** The checks of `salonName`, `city` and `state`. */
  function CampLocationChecks(env: SchemaEnv, x: CampInput): seq<Check> {
    [ Rule(|x.salonName| >= 2, "salonName", SalonNameTooShort),
      Rule(|x.salonName| <= 100, "salonName", SalonNameTooLong),
      Rule(|x.city| >= 2, "city", CityTooShort),
      Rule(|x.city| <= 50, "city", CityTooLong),
      AbortingRule(x.state in env.stateValues, "state", InvalidStateOrProvince)]
  }

  predicate IsCampPaymentMethod(s: Option<string>) {
    s.Some? && s.value in CampEssence.PaymentMethods
  }

  /** The length check of `additionalAttendees`, then `paymentMethod` and `cancellationPolicyAccepted`. */
  function CampClosingChecks(x: CampInput): seq<Check> {
    [ Rule(|x.additionalAttendees| <= CampEssence.MaxAttendees - 1, "additionalAttendees", TooManyAdditional(CampEssence.MaxAttendees - 1)),
      AbortingRule(IsCampPaymentMethod(x.paymentMethod), "paymentMethod", NoPaymentMethod),
      Rule(x.cancellationPolicyAccepted, "cancellationPolicyAccepted", PolicyNotAcknowledged)]
  }

  /** The checks of the object's own fields, in the order of its keys. */
  function CampFieldChecks(env: SchemaEnv, x: CampInput): seq<Check> {
    CampLocationChecks(env, x) + CampPrimaryChecks(env, x.primaryAttendee) + TotalAttendeesChecks(x.totalAttendees)
    + CampAttendeeListChecks(env, x.additionalAttendees, 0) + CampClosingChecks(x)
  }

  function CampFieldIssues(env: SchemaEnv, x: CampInput): seq<Issue> {
    Failures(CampFieldChecks(env, x))
  }

  /** `Math.max(0, totalAttendees - 1)`. */
  function AdditionalNeeded(total: real): real {
    if total - 1.0 > 0.0 then total - 1.0 else 0.0
  }

  /** The refinement: one set of details per attendee besides the registrant. */
  predicate CampRefineHolds(x: CampInput) {
    |x.additionalAttendees| as real == AdditionalNeeded(x.totalAttendees)
  }

  const CampRefineIssue := Issue("additionalAttendees", DetailsMissing, true)

  /**
   * Whether a rule that aborts fails: the state enum, the primary phone's
   * string type, the whole-number check or the payment enum.
   */
  predicate CampAborted(env: SchemaEnv, x: CampInput) {
    || x.state !in env.stateValues
    || x.primaryAttendee.phone.None?
    || !IsWhole(x.totalAttendees)
    || !IsCampPaymentMethod(x.paymentMethod)
  }

  lemma CampLocationChecksHold(env: SchemaEnv, x: CampInput)
    ensures AllHold(CampLocationChecks(env, x)) <==>
              2 <= |x.salonName| <= 100 && 2 <= |x.city| <= 50 && x.state in env.stateValues
    ensures NoneAborts(CampLocationChecks(env, x)) <==> x.state in env.stateValues
  {
    var a := CampLocationChecks(env, x);
    assert a[0].holds && a[1].holds && a[2].holds && a[3].holds && a[4].holds ==> AllHold(a);
    assert !a[4].holds ==> !a[4].issue.continuable;
  }

  lemma EmailChecksHold(env: SchemaEnv, path: string, email: string)
    ensures AllHold(EmailChecks(env, path, email)) <==> 1 <= |email| <= 254 && env.isEmail(email)
    ensures NoneAborts(EmailChecks(env, path, email))
  {
    var e := EmailChecks(env, path, email);
    assert e[0].holds && e[1].holds && e[2].holds ==> AllHold(e);
  }

  /** The primary attendee's checks hold, or abort, field by field. */
  lemma CampPrimaryChecksHold(env: SchemaEnv, p: CampPrimaryAttendee)
    ensures AllHold(CampPrimaryChecks(env, p)) <==>
              && 1 <= |p.firstName| <= 50 && 1 <= |p.lastName| <= 50
              && 1 <= |p.email| <= 254 && env.isEmail(p.email)
              && p.phone.Some? && |p.phone.value| >= 1 && IsValidUsCaPhone(p.phone.value)
    ensures NoneAborts(CampPrimaryChecks(env, p)) <==> p.phone.Some?
  {
    var names := [ Rule(|p.firstName| >= 1, "primaryAttendee.firstName", FirstNameRequired),
      Rule(|p.firstName| <= 50, "primaryAttendee.firstName", FirstNameTooLong),
      Rule(|p.lastName| >= 1, "primaryAttendee.lastName", LastNameRequired),
      Rule(|p.lastName| <= 50, "primaryAttendee.lastName", LastNameTooLong)];
    var email, phone := EmailChecks(env, "primaryAttendee.email", p.email), PrimaryPhoneChecks(p.phone);
    assert names[0].holds && names[1].holds && names[2].holds && names[3].holds ==> AllHold(names);
    EmailChecksHold(env, "primaryAttendee.email", p.email);
    AllHoldAppend(names + email, phone);
    AllHoldAppend(names, email);
    NoneAbortsAppend(names + email, phone);
    NoneAbortsAppend(names, email);
    if p.phone.Some? {
      assert phone[0].holds && phone[1].holds ==> AllHold(phone);
    } else {
      assert !phone[0].holds && !phone[0].issue.continuable;
    }
  }

  lemma TotalAttendeesChecksHold(n: real)
    ensures AllHold(TotalAttendeesChecks(n)) <==> IsWhole(n) && 1.0 <= n <= 6.0
    ensures NoneAborts(TotalAttendeesChecks(n)) <==> IsWhole(n)
  {
    var t := TotalAttendeesChecks(n);
    if IsWhole(n) {
      assert t[0].holds && t[1].holds && t[2].holds ==> AllHold(t);
      assert 1.0 <= n <= 6.0 ==> t[0].holds;
    } else {
      assert !t[0].holds && !t[0].issue.continuable;
    }
  }

  lemma CampClosingChecksHold(x: CampInput)
    ensures AllHold(CampClosingChecks(x)) <==>
              |x.additionalAttendees| <= 5 && IsCampPaymentMethod(x.paymentMethod) && x.cancellationPolicyAccepted
    ensures NoneAborts(CampClosingChecks(x)) <==> IsCampPaymentMethod(x.paymentMethod)
  {
    var e := CampClosingChecks(x);
    assert e[0].holds && e[1].holds && e[2].holds ==> AllHold(e);
    assert !e[1].holds ==> !e[1].issue.continuable;
  }

  /** CampFieldChecks split into its parts. */
  lemma CampFieldChecksParts(env: SchemaEnv, x: CampInput)
    ensures AllHold(CampFieldChecks(env, x)) <==>
              AllHold(CampLocationChecks(env, x)) && AllHold(CampPrimaryChecks(env, x.primaryAttendee))
              && AllHold(TotalAttendeesChecks(x.totalAttendees))
              && AllHold(CampAttendeeListChecks(env, x.additionalAttendees, 0)) && AllHold(CampClosingChecks(x))
    ensures NoneAborts(CampFieldChecks(env, x)) <==>
              NoneAborts(CampLocationChecks(env, x)) && NoneAborts(CampPrimaryChecks(env, x.primaryAttendee))
              && NoneAborts(TotalAttendeesChecks(x.totalAttendees)) && NoneAborts(CampClosingChecks(x))
  {
    ChecksInRow(CampLocationChecks(env, x), CampPrimaryChecks(env, x.primaryAttendee),
                TotalAttendeesChecks(x.totalAttendees), CampAttendeeListChecks(env, x.additionalAttendees, 0),
                CampClosingChecks(x));
  }

  /** The parse is aborted exactly when some field issue does not let it continue. */
  lemma CampAbortedIff(env: SchemaEnv, x: CampInput)
    ensures CampAborted(env, x) <==> !AllContinuable(CampFieldIssues(env, x))
  {
    FailuresContinuable(CampFieldChecks(env, x));
    CampFieldChecksParts(env, x);
    CampLocationChecksHold(env, x);
    CampPrimaryChecksHold(env, x.primaryAttendee);
    TotalAttendeesChecksHold(x.totalAttendees);
    CampClosingChecksHold(x);
  }

  /** The issues of `campRegistrationSchema.safeParse(x)`: the refinement runs only when nothing aborted. */
  function CampIssues(env: SchemaEnv, x: CampInput): seq<Issue> {
    var fields := CampFieldIssues(env, x);
    if !CampAborted(env, x) && !CampRefineHolds(x) then fields + [CampRefineIssue] else fields
  }

  /**
   * The camp schema accepts x: every field rule and the refinement hold.
   * CampValidIff proves this is exactly when `safeParse` reports no issue.
   */
  predicate CampValid(env: SchemaEnv, x: CampInput) {
    CampFieldsHold(env, x) && CampRefineHolds(x)
  }

  /** An additional attendee with a name of 2 to 100 characters, a good e-mail and a good phone. */
  predicate CampAttendeeOk(env: SchemaEnv, a: CampAttendee) {
    && 2 <= |a.fullName| <= 100
    && 1 <= |a.email| <= 254 && env.isEmail(a.email)
    && |a.phone| >= 1 && IsValidUsCaPhone(a.phone)
  }

  /** Every additional attendee from position `from` on is acceptable. */
  predicate AttendeesOkFrom(env: SchemaEnv, attendees: seq<CampAttendee>, from: nat) {
    forall k :: from <= k < |attendees| ==> CampAttendeeOk(env, attendees[k])
  }

  /** Every field rule of the camp schema, stated field by field. */
  predicate CampFieldsHold(env: SchemaEnv, x: CampInput) {
    && 2 <= |x.salonName| <= 100
    && 2 <= |x.city| <= 50
    && x.state in env.stateValues
    && 1 <= |x.primaryAttendee.firstName| <= 50
    && 1 <= |x.primaryAttendee.lastName| <= 50
    && 1 <= |x.primaryAttendee.email| <= 254 && env.isEmail(x.primaryAttendee.email)
    && x.primaryAttendee.phone.Some? && |x.primaryAttendee.phone.value| >= 1
    && IsValidUsCaPhone(x.primaryAttendee.phone.value)
    && IsWhole(x.totalAttendees) && 1.0 <= x.totalAttendees <= 6.0
    && AttendeesOkFrom(env, x.additionalAttendees, 0)
    && |x.additionalAttendees| <= 5
    && IsCampPaymentMethod(x.paymentMethod)
    && x.cancellationPolicyAccepted
  }

  lemma CampAttendeeChecksHold(env: SchemaEnv, prefix: string, a: CampAttendee)
    ensures AllHold(CampAttendeeChecks(env, prefix, a)) <==> CampAttendeeOk(env, a)
  {
    var name := [ Rule(|a.fullName| >= 2, prefix + "fullName", NameTooShort),
      Rule(|a.fullName| <= 100, prefix + "fullName", NameTooLong)];
    var email := EmailChecks(env, prefix + "email", a.email);
    var phone := [ Rule(|a.phone| >= 1, prefix + "phone", PhoneRequired),
        Rule(IsValidUsCaPhone(a.phone), prefix + "phone", InvalidPhone)];
    assert name[0].holds && name[1].holds ==> AllHold(name);
    assert phone[0].holds && phone[1].holds ==> AllHold(phone);
    EmailChecksHold(env, prefix + "email", a.email);
    AllHoldAppend(name + email, phone);
    AllHoldAppend(name, email);
  }

  lemma AttendeesOkFromStep(env: SchemaEnv, attendees: seq<CampAttendee>, from: nat)
    requires from < |attendees|
    ensures AttendeesOkFrom(env, attendees, from) <==>
              CampAttendeeOk(env, attendees[from]) && AttendeesOkFrom(env, attendees, from + 1)
  {
  }

  lemma {:induction false} CampAttendeeListChecksHold(env: SchemaEnv, attendees: seq<CampAttendee>, from: nat)
    requires from <= |attendees|
    ensures AllHold(CampAttendeeListChecks(env, attendees, from)) <==> AttendeesOkFrom(env, attendees, from)
    decreases |attendees| - from
  {
    if from < |attendees| {
      CampAttendeeChecksHold(env, AttendeePrefix(from), attendees[from]);
      CampAttendeeListChecksHold(env, attendees, from + 1);
      AttendeesOkFromStep(env, attendees, from);
      AllHoldAppend(CampAttendeeChecks(env, AttendeePrefix(from), attendees[from]),
                    CampAttendeeListChecks(env, attendees, from + 1));
    }
  }

  /** The field issues are empty exactly when every field rule holds. */
  lemma CampFieldIssuesEmpty(env: SchemaEnv, x: CampInput)
    ensures CampFieldIssues(env, x) == [] <==> CampFieldsHold(env, x)
  {
    FailuresEmpty(CampFieldChecks(env, x));
    CampFieldChecksParts(env, x);
    CampAttendeeListChecksHold(env, x.additionalAttendees, 0);
    CampLocationChecksHold(env, x);
    CampPrimaryChecksHold(env, x.primaryAttendee);
    TotalAttendeesChecksHold(x.totalAttendees);
    CampClosingChecksHold(x);
  }

  /** `safeParse` reports no issue exactly when every field rule and the refinement hold. */
  lemma CampValidIff(env: SchemaEnv, x: CampInput)
    ensures CampIssues(env, x) == [] <==> CampValid(env, x)
  {
    CampFieldIssuesEmpty(env, x);
  }

  /**
   * An accepted input has a whole number of attendees from 1 to 6 and
   * details for exactly one fewer.
   */
  lemma CampValidCount(env: SchemaEnv, x: CampInput)
    requires CampIssues(env, x) == []
    ensures x.totalAttendees == x.totalAttendees.Floor as real && 1 <= x.totalAttendees.Floor <= 6
    ensures |x.additionalAttendees| == x.totalAttendees.Floor - 1
  {
    CampValidIff(env, x);
  }

  /** A fraction of an attendee is reported at `totalAttendees` and the refinement is skipped. */
  lemma FractionalTotalAborts(env: SchemaEnv, x: CampInput)
    requires !IsWhole(x.totalAttendees)
    ensures Issue("totalAttendees", NotWhole, false) in CampIssues(env, x)
    ensures CampIssues(env, x) == CampFieldIssues(env, x)
    ensures !CampValid(env, x)
  {
    var a, b, t := CampLocationChecks(env, x), CampPrimaryChecks(env, x.primaryAttendee), TotalAttendeesChecks(x.totalAttendees);
    var d, e := CampAttendeeListChecks(env, x.additionalAttendees, 0), CampClosingChecks(x);
    FailuresAppend(a + b + t + d, e);
    FailuresAppend(a + b + t, d);
    FailuresAppend(a + b, t);
    FailureReported(t, 0);
  }

  /** Without the policy acknowledged the input is rejected at `cancellationPolicyAccepted`. */
  lemma CancellationRequired(env: SchemaEnv, x: CampInput)
    requires !x.cancellationPolicyAccepted
    ensures Issue("cancellationPolicyAccepted", PolicyNotAcknowledged, true) in CampIssues(env, x)
    ensures !CampValid(env, x)
  {
    var checks := CampFieldChecks(env, x);
    FailureReported(checks, |checks| - 1);
  }

  /** A payment method outside the three camp methods is rejected and the refinement is skipped. */
  lemma UnknownCampPaymentRejected(env: SchemaEnv, x: CampInput)
    requires !IsCampPaymentMethod(x.paymentMethod)
    ensures Issue("paymentMethod", NoPaymentMethod, false) in CampIssues(env, x)
    ensures CampIssues(env, x) == CampFieldIssues(env, x)
  {
    var checks := CampFieldChecks(env, x);
    FailureReported(checks, |checks| - 2);
  }
}
