/**
 * The summit registration schema of lib/validations.ts, as the list of
 * issues zod reports for an input. Length, range and format rules let
 * parsing go on after they fail; an enum rule that fails marks the
 * result aborted, and the object-level `.refine` then does not run.
 */
module Validations {
  import opened Wrappers
  import opened Text
  import opened Types

  /**
   * The messages the two registration schemas report, one constructor per
   * text (a limit the text quotes is a parameter); Text gives the text itself.
   */
  datatype Message =
    | SummitRequired | SalonNameTooShort | SalonNameTooLong | CityTooShort | CityTooLong
    | InvalidState | FirstNameRequired | FirstNameTooLong | LastNameRequired | LastNameTooLong
    | EmailRequired | InvalidEmail | EmailTooLong | NoRegistrationType | NegativeCount | CountTooBig
    | NameTooShort | NameTooLong | TooManyItems(limit: nat) | NoPaymentMethod | NamesMissing
    | InvalidStateOrProvince | PhoneRequired | InvalidPhone | MobileRequired | InvalidMobile
    | ExpectedString | NotWhole | TooFewAttendees | TooManyAttendees(limit: nat) | TooManyAdditional(limit: nat)
    | PolicyNotAcknowledged | DetailsMissing
  {
    function Text(): string {
      match this
      case SummitRequired => "Please select a summit"
      case SalonNameTooShort => "Salon name must be at least 2 characters"
      case SalonNameTooLong => "Salon name must be less than 100 characters"
      case CityTooShort => "City must be at least 2 characters"
      case CityTooLong => "City must be less than 50 characters"
      case InvalidState => "Please select a valid state"
      case FirstNameRequired => "First name is required"
      case FirstNameTooLong => "First name must be less than 50 characters"
      case LastNameRequired => "Last name is required"
      case LastNameTooLong => "Last name must be less than 50 characters"
      case EmailRequired => "Email is required"
      case InvalidEmail => "Please enter a valid email address"
      case EmailTooLong => "Email is too long"
      case NoRegistrationType => "Please select a registration type"
      case NegativeCount => "Cannot be negative"
      case CountTooBig => "Maximum 10 additional attendees"
      case NameTooShort => "Name must be at least 2 characters"
      case NameTooLong => "Name must be less than 100 characters"
      case TooManyItems(limit) => "Too big: expected array to have <=" + NatToString(limit) + " items"
      case NoPaymentMethod => "Please select a payment method"
      case NamesMissing => "Please provide names for all additional attendees"
      case InvalidStateOrProvince => "Please select a state/province"
      case PhoneRequired => "Phone number is required"
      case InvalidPhone => "Please enter a valid US/CA phone number"
      case MobileRequired => "Mobile phone is required"
      case InvalidMobile => "Please enter a valid US/CA mobile phone number"
      case ExpectedString => "Invalid input: expected string, received undefined"
      case NotWhole => "Please select a whole number"
      case TooFewAttendees => "At least 1 attendee is required"
      case TooManyAttendees(limit) => "Maximum " + NatToString(limit) + " attendees"
      case TooManyAdditional(limit) => "Maximum " + NatToString(limit) + " additional attendees"
      case PolicyNotAcknowledged => "You must acknowledge the cancellation and refund policy to continue"
      case DetailsMissing => "Please provide details for all additional attendees"
    }
  }

  /** One reported problem: the field path (dotted), its message, and whether zod may keep checking. */
  datatype Issue = Issue(path: string, message: Message, continuable: bool)

  /**
   * What the schema takes from outside this model: the `US_STATES` values
   * and zod's e-mail pattern.
   */
  datatype SchemaEnv = SchemaEnv(stateValues: set<string>, isEmail: string -> bool)

  /**
   * The object the schema parses. Enum fields are strings that may be
   * missing (`undefined`); the attendee count is a JSON number.
   */
  datatype RegistrationInput = RegistrationInput(
    summitId: string,
    salonName: string,
    city: string,
    state: string,
    primaryAttendee: PrimaryAttendee,
    registrationType: Option<string>,
    additionalAttendeeCount: real,
    additionalAttendees: seq<Attendee>,
    paymentMethod: Option<string>)

  /**
   * One check of a schema, in the order zod runs them: whether it holds,
   * and the issue it reports when it does not.
   */
  datatype Check = Check(holds: bool, issue: Issue)

  /** A length, range, format or refinement check: parsing goes on after it fails. */
  function Rule(ok: bool, path: string, message: Message): Check {
    Check(ok, Issue(path, message, true))
  }

  /** An enum or type check: a failure aborts the rest of the object's checks. */
  function AbortingRule(ok: bool, path: string, message: Message): Check {
    Check(ok, Issue(path, message, false))
  }

  /** The issues of the failing checks, in order. */
  function Failures(checks: seq<Check>): (r: seq<Issue>)
    ensures |r| <= |checks|
  {
    if checks == [] then []
    else (if checks[0].holds then [] else [checks[0].issue]) + Failures(checks[1..])
  }

  predicate AllHold(checks: seq<Check>) {
    forall k :: 0 <= k < |checks| ==> checks[k].holds
  }

  /** No check that fails is one that aborts. */
  predicate NoneAborts(checks: seq<Check>) {
    forall k :: 0 <= k < |checks| ==> checks[k].holds || checks[k].issue.continuable
  }

  /** Whether every issue lets parsing continue. */
  predicate AllContinuable(issues: seq<Issue>) {
    forall i :: i in issues ==> i.continuable
  }

  lemma {:induction false} FailuresAppend(a: seq<Check>, b: seq<Check>)
    ensures Failures(a + b) == Failures(a) + Failures(b)
    decreases |a|
  {
    if a == [] {
      assert a + b == b;
    } else {
      assert (a + b)[1..] == a[1..] + b;
      FailuresAppend(a[1..], b);
    }
  }

  /** Nothing is reported exactly when every check holds. */
  lemma {:induction false} FailuresEmpty(checks: seq<Check>)
    ensures Failures(checks) == [] <==> AllHold(checks)
    decreases |checks|
  {
    if checks != [] {
      FailuresEmpty(checks[1..]);
      assert forall k :: 1 <= k < |checks| ==> checks[k] == checks[1..][k - 1];
    }
  }

  /** A failing check's issue is reported. */
  lemma {:induction false} FailureReported(checks: seq<Check>, k: nat)
    requires k < |checks| && !checks[k].holds
    ensures checks[k].issue in Failures(checks)
    decreases k
  {
    if k > 0 {
      FailureReported(checks[1..], k - 1);
    }
  }

  /** Every reported issue is continuable exactly when no failing check aborts. */
  lemma {:induction false} FailuresContinuable(checks: seq<Check>)
    ensures AllContinuable(Failures(checks)) <==> NoneAborts(checks)
    decreases |checks|
  {
    if checks != [] {
      FailuresContinuable(checks[1..]);
      assert forall k :: 1 <= k < |checks| ==> checks[k] == checks[1..][k - 1];
      var head := if checks[0].holds then [] else [checks[0].issue];
      assert Failures(checks) == head + Failures(checks[1..]);
      assert forall i :: i in Failures(checks) <==> i in head || i in Failures(checks[1..]);
    }
  }

  lemma AllHoldAppend(a: seq<Check>, b: seq<Check>)
    ensures AllHold(a + b) <==> AllHold(a) && AllHold(b)
  {
    if AllHold(a + b) {
      assert forall k :: 0 <= k < |a| ==> a[k] == (a + b)[k];
      assert forall k :: 0 <= k < |b| ==> b[k] == (a + b)[|a| + k];
    }
  }

  lemma NoneAbortsAppend(a: seq<Check>, b: seq<Check>)
    ensures NoneAborts(a + b) <==> NoneAborts(a) && NoneAborts(b)
  {
    if NoneAborts(a + b) {
      assert forall k :: 0 <= k < |a| ==> a[k] == (a + b)[k];
      assert forall k :: 0 <= k < |b| ==> b[k] == (a + b)[|a| + k];
    }
  }

  /** `attendeeSchema` for the attendee at `index` of `additionalAttendees`. */
  function AttendeeChecks(index: nat, a: Attendee): seq<Check> {
    var path := "additionalAttendees." + NatToString(index) + ".fullName";
    [ Rule(|a.fullName| >= 2, path, NameTooShort),
      Rule(|a.fullName| <= 100, path, NameTooLong)]
  }

  /** The item checks of `additionalAttendees`, from position `from` on. */
  function AttendeeListChecks(attendees: seq<Attendee>, from: nat): (r: seq<Check>)
    requires from <= |attendees|
    ensures NoneAborts(r)
    decreases |attendees| - from
  {
    if from == |attendees| then []
    else AttendeeChecks(from, attendees[from]) + AttendeeListChecks(attendees, from + 1)
  }

  /** `primaryAttendeeSchema`. */
  function PrimaryChecks(env: SchemaEnv, p: PrimaryAttendee): seq<Check> {
    [ Rule(|p.firstName| >= 1, "primaryAttendee.firstName", FirstNameRequired),
      Rule(|p.firstName| <= 50, "primaryAttendee.firstName", FirstNameTooLong),
      Rule(|p.lastName| >= 1, "primaryAttendee.lastName", LastNameRequired),
      Rule(|p.lastName| <= 50, "primaryAttendee.lastName", LastNameTooLong),
      Rule(|p.email| >= 1, "primaryAttendee.email", EmailRequired),
      Rule(env.isEmail(p.email), "primaryAttendee.email", InvalidEmail),
      Rule(|p.email| <= 254, "primaryAttendee.email", EmailTooLong)]
  }

  /** The two values `paymentMethod` may take. */
  predicate IsPaymentMethodToken(s: Option<string>) {
    s == Some("credit") || s == Some("loyalty")
  }

  /** Whether `registrationType` names one of the four types. */
  predicate IsRegistrationTypeId(s: Option<string>) {
    s.Some? && RegistrationTypeById(s.value).Some?
  }

  /** The checks of `summitId`, `salonName`, `city` and `state`. */
  function LocationChecks(env: SchemaEnv, x: RegistrationInput): seq<Check> {
    [ Rule(|x.summitId| >= 1, "summitId", SummitRequired),
      Rule(|x.salonName| >= 2, "salonName", SalonNameTooShort),
      Rule(|x.salonName| <= 100, "salonName", SalonNameTooLong),
      Rule(|x.city| >= 2, "city", CityTooShort),
      Rule(|x.city| <= 50, "city", CityTooLong),
      AbortingRule(x.state in env.stateValues, "state", InvalidState)]
  }

  /** The checks of `registrationType` and `additionalAttendeeCount`. */
  function CountChecks(x: RegistrationInput): seq<Check> {
    [ AbortingRule(IsRegistrationTypeId(x.registrationType), "registrationType", NoRegistrationType),
      Rule(x.additionalAttendeeCount >= 0.0, "additionalAttendeeCount", NegativeCount),
      Rule(x.additionalAttendeeCount <= 10.0, "additionalAttendeeCount", CountTooBig)]
  }

  /** The length check of `additionalAttendees` and the check of `paymentMethod`. */
  function ClosingChecks(x: RegistrationInput): seq<Check> {
    [ Rule(|x.additionalAttendees| <= 10, "additionalAttendees", TooManyItems(10)),
      AbortingRule(IsPaymentMethodToken(x.paymentMethod), "paymentMethod", NoPaymentMethod)]
  }

  /** The checks of the object's own fields, in the order of its keys. */
  function FieldChecks(env: SchemaEnv, x: RegistrationInput): seq<Check> {
    LocationChecks(env, x) + PrimaryChecks(env, x.primaryAttendee) + CountChecks(x)
    + AttendeeListChecks(x.additionalAttendees, 0) + ClosingChecks(x)
  }

  lemma LocationChecksHold(env: SchemaEnv, x: RegistrationInput)
    ensures AllHold(LocationChecks(env, x)) <==>
              |x.summitId| >= 1 && 2 <= |x.salonName| <= 100 && 2 <= |x.city| <= 50 && x.state in env.stateValues
    ensures NoneAborts(LocationChecks(env, x)) <==> x.state in env.stateValues
  {
    var a := LocationChecks(env, x);
    assert a[0].holds && a[1].holds && a[2].holds && a[3].holds && a[4].holds && a[5].holds ==> AllHold(a);
    assert !a[5].holds ==> !a[5].issue.continuable;
  }

  lemma PrimaryChecksHold(env: SchemaEnv, p: PrimaryAttendee)
    ensures AllHold(PrimaryChecks(env, p)) <==>
              1 <= |p.firstName| <= 50 && 1 <= |p.lastName| <= 50 && 1 <= |p.email| <= 254 && env.isEmail(p.email)
    ensures NoneAborts(PrimaryChecks(env, p))
  {
    var b := PrimaryChecks(env, p);
    assert b[0].holds && b[1].holds && b[2].holds && b[3].holds && b[4].holds && b[5].holds && b[6].holds ==> AllHold(b);
  }

  lemma CountChecksHold(x: RegistrationInput)
    ensures AllHold(CountChecks(x)) <==>
              IsRegistrationTypeId(x.registrationType) && 0.0 <= x.additionalAttendeeCount <= 10.0
    ensures NoneAborts(CountChecks(x)) <==> IsRegistrationTypeId(x.registrationType)
  {
    var c := CountChecks(x);
    assert c[0].holds && c[1].holds && c[2].holds ==> AllHold(c);
    assert !c[0].holds ==> !c[0].issue.continuable;
  }

  lemma ClosingChecksHold(x: RegistrationInput)
    ensures AllHold(ClosingChecks(x)) <==> |x.additionalAttendees| <= 10 && IsPaymentMethodToken(x.paymentMethod)
    ensures NoneAborts(ClosingChecks(x)) <==> IsPaymentMethodToken(x.paymentMethod)
  {
    var e := ClosingChecks(x);
    assert e[0].holds && e[1].holds ==> AllHold(e);
    assert !e[1].holds ==> !e[1].issue.continuable;
  }

  /** Five lists of checks in a row hold, or abort, exactly when each list does. */
  lemma ChecksInRow(a: seq<Check>, b: seq<Check>, c: seq<Check>, d: seq<Check>, e: seq<Check>)
    ensures AllHold(a + b + c + d + e) <==> AllHold(a) && AllHold(b) && AllHold(c) && AllHold(d) && AllHold(e)
    ensures NoneAborts(a + b + c + d + e) <==>
              NoneAborts(a) && NoneAborts(b) && NoneAborts(c) && NoneAborts(d) && NoneAborts(e)
  {
    AllHoldAppend(a + b + c + d, e);
    AllHoldAppend(a + b + c, d);
    AllHoldAppend(a + b, c);
    AllHoldAppend(a, b);
    NoneAbortsAppend(a + b + c + d, e);
    NoneAbortsAppend(a + b + c, d);
    NoneAbortsAppend(a + b, c);
    NoneAbortsAppend(a, b);
  }

  /** FieldChecks split into its parts. */
  lemma FieldChecksParts(env: SchemaEnv, x: RegistrationInput)
    ensures AllHold(FieldChecks(env, x)) <==>
              AllHold(LocationChecks(env, x)) && AllHold(PrimaryChecks(env, x.primaryAttendee)) && AllHold(CountChecks(x))
              && AllHold(AttendeeListChecks(x.additionalAttendees, 0)) && AllHold(ClosingChecks(x))
    ensures NoneAborts(FieldChecks(env, x)) <==>
              NoneAborts(LocationChecks(env, x)) && NoneAborts(PrimaryChecks(env, x.primaryAttendee))
              && NoneAborts(CountChecks(x)) && NoneAborts(ClosingChecks(x))
  {
    ChecksInRow(LocationChecks(env, x), PrimaryChecks(env, x.primaryAttendee), CountChecks(x),
                AttendeeListChecks(x.additionalAttendees, 0), ClosingChecks(x));
  }

  /** The issues of the object's own fields. */
  function FieldIssues(env: SchemaEnv, x: RegistrationInput): seq<Issue> {
    Failures(FieldChecks(env, x))
  }

  /** The refinement: one name per additional attendee. */
  predicate RefineHolds(x: RegistrationInput) {
    |x.additionalAttendees| as real == x.additionalAttendeeCount
  }

  const RefineIssue := Issue("additionalAttendees", NamesMissing, true)

  /** Whether one of the enum rules, the only aborting ones, fails. */
  predicate Aborted(env: SchemaEnv, x: RegistrationInput) {
    x.state !in env.stateValues || !IsRegistrationTypeId(x.registrationType) || !IsPaymentMethodToken(x.paymentMethod)
  }

  /** The parse is aborted exactly when some field issue does not let it continue. */
  lemma AbortedIff(env: SchemaEnv, x: RegistrationInput)
    ensures Aborted(env, x) <==> !AllContinuable(FieldIssues(env, x))
  {
    FailuresContinuable(FieldChecks(env, x));
    FieldChecksParts(env, x);
    LocationChecksHold(env, x);
    PrimaryChecksHold(env, x.primaryAttendee);
    CountChecksHold(x);
    ClosingChecksHold(x);
  }

  /**
   * `registrationSchema.safeParse(x)`'s issues: the refinement runs only
   * when no field rule aborted (see AbortedIff).
   */
  function Issues(env: SchemaEnv, x: RegistrationInput): seq<Issue> {
    var fields := FieldIssues(env, x);
    if !Aborted(env, x) && !RefineHolds(x) then fields + [RefineIssue] else fields
  }

  /**
   * The schema accepts x: every field rule and the refinement hold.
   * ValidIff proves this is exactly when `safeParse` reports no issue.
   */
  predicate Valid(env: SchemaEnv, x: RegistrationInput) {
    FieldsHold(env, x) && RefineHolds(x)
  }

  /** Every attendee name has 2 to 100 characters. */
  predicate NamesInBounds(attendees: seq<Attendee>) {
    forall k :: 0 <= k < |attendees| ==> 2 <= |attendees[k].fullName| <= 100
  }

  /** Every field rule of the schema holds, stated field by field. */
  predicate FieldsHold(env: SchemaEnv, x: RegistrationInput) {
    && |x.summitId| >= 1
    && 2 <= |x.salonName| <= 100
    && 2 <= |x.city| <= 50
    && x.state in env.stateValues
    && 1 <= |x.primaryAttendee.firstName| <= 50
    && 1 <= |x.primaryAttendee.lastName| <= 50
    && 1 <= |x.primaryAttendee.email| <= 254
    && env.isEmail(x.primaryAttendee.email)
    && IsRegistrationTypeId(x.registrationType)
    && 0.0 <= x.additionalAttendeeCount <= 10.0
    && NamesInBounds(x.additionalAttendees)
    && |x.additionalAttendees| <= 10
    && IsPaymentMethodToken(x.paymentMethod)
  }

  lemma {:induction false} AttendeeListChecksHold(attendees: seq<Attendee>, from: nat)
    requires from <= |attendees|
    ensures AllHold(AttendeeListChecks(attendees, from)) <==>
              forall k :: from <= k < |attendees| ==> 2 <= |attendees[k].fullName| <= 100
    decreases |attendees| - from
  {
    if from < |attendees| {
      var head := AttendeeChecks(from, attendees[from]);
      AttendeeListChecksHold(attendees, from + 1);
      AllHoldAppend(head, AttendeeListChecks(attendees, from + 1));
      assert AllHold(head) <==> 2 <= |attendees[from].fullName| <= 100 by {
        assert head[0].holds && head[1].holds ==> AllHold(head);
      }
    }
  }

  /** The field issues are empty exactly when every field rule holds. */
  lemma FieldIssuesEmpty(env: SchemaEnv, x: RegistrationInput)
    ensures FieldIssues(env, x) == [] <==> FieldsHold(env, x)
  {
    FailuresEmpty(FieldChecks(env, x));
    FieldChecksParts(env, x);
    AttendeeListChecksHold(x.additionalAttendees, 0);
    LocationChecksHold(env, x);
    PrimaryChecksHold(env, x.primaryAttendee);
    CountChecksHold(x);
    ClosingChecksHold(x);
  }

  /** `safeParse` reports no issue exactly when every field rule and the refinement hold. */
  lemma ValidIff(env: SchemaEnv, x: RegistrationInput)
    ensures Issues(env, x) == [] <==> Valid(env, x)
  {
    FieldIssuesEmpty(env, x);
  }

  /** An input with no issue has a whole number of additional attendees, 0 to 10, each one named. */
  lemma ValidCountIsWhole(env: SchemaEnv, x: RegistrationInput)
    requires Issues(env, x) == []
    ensures x.additionalAttendeeCount == (|x.additionalAttendees|) as real
    ensures |x.additionalAttendees| <= 10
    ensures NamesInBounds(x.additionalAttendees)
  {
    ValidIff(env, x);
  }

  /** 'combo' is not a payment method: it is rejected at `paymentMethod`, and the refinement is skipped. */
  lemma ComboRejected(env: SchemaEnv, x: RegistrationInput)
    requires x.paymentMethod == Some("combo")
    ensures Issue("paymentMethod", NoPaymentMethod, false) in Issues(env, x)
    ensures Issues(env, x) == FieldIssues(env, x)
    ensures !Valid(env, x)
  {
    var checks := FieldChecks(env, x);
    FailureReported(checks, |checks| - 1);
  }

  /**
   * When the field rules pass but the count and the list disagree, the only
   * issue is the refinement's, at `additionalAttendees`.
   */
  lemma CountMismatchReported(env: SchemaEnv, x: RegistrationInput)
    requires FieldsHold(env, x) && !RefineHolds(x)
    ensures Issues(env, x) == [RefineIssue]
  {
    FieldIssuesEmpty(env, x);
  }

  /** An aborted parse never reports the refinement, whatever the count. */
  lemma AbortHidesRefine(env: SchemaEnv, x: RegistrationInput)
    requires !AllContinuable(FieldIssues(env, x))
    ensures Issues(env, x) == FieldIssues(env, x)
    ensures !Valid(env, x)
  {
    AbortedIff(env, x);
  }
}
