/**
 * The Camp Essence registration form
 * (components/camp-registration/camp-registration-form.tsx): its default
 * values, the event's date-range text, the displayed total, the
 * attendee-count menu, and the submit handler's state changes.
 */
module CampRegistrationForm {
  import opened Wrappers
  import opened Text
  import opened Dates
  import opened FieldArrays
  import opened Validations
  import opened CampEssence
  import opened CampValidations
  import opened RegisterRoute
  import RegistrationForm

  /** `toLocaleDateString('en-US', { month: 'long', day: 'numeric', year: 'numeric' })`. */
  function LongDate(d: CalendarDate): string
    requires IsCalendarDate(d)
  {
    MonthName(d.month) + " " + NatToString(d.day) + ", " + IntToString(d.year)
  }

  /** `new Date(y, m - 1, d)` from the three numbers of a "yyyy-mm-dd" string; None for an Invalid Date. */
  function LocalDateOf(s: string): (r: Option<CalendarDate>)
    ensures r.Some? ==> IsCalendarDate(r.value)
  {
    match ParseDateParts(s)
    case None => None
    case Some((y, m, d)) => Some(MakeDate(y, m - 1, d))
  }

  /**
   * `formatDateRange(startDate, endDate)`: "July 23-26, 2026" when both
   * dates fall in the same month of the same year, otherwise both dates
   * written out and joined by " - ". None stands for the text of an
   * Invalid Date.
   */
  function FormatDateRange(startDate: string, endDate: string): Option<string> {
    match (LocalDateOf(startDate), LocalDateOf(endDate))
    case (Some(start), Some(end)) =>
      if start.year == end.year && start.month == end.month then
        Some(MonthName(start.month) + " " + NatToString(start.day) + "-" + NatToString(end.day)
             + ", " + IntToString(start.year))
      else
        Some(LongDate(start) + " - " + LongDate(end))
    case _ => None
  }

  /** Two existing dates in one month: "<Month> d1-d2, yyyy". */
  lemma FormatDateRangeSameMonth(s: string, e: string, year: nat, month: nat, d1: nat, d2: nat)
    requires ParseDateParts(s) == Some((year, month, d1)) && ParseDateParts(e) == Some((year, month, d2))
    requires 1 <= month <= 12
    requires 1 <= d1 <= DaysInMonth(FullYear(year), month - 1)
    requires 1 <= d2 <= DaysInMonth(FullYear(year), month - 1)
    ensures FormatDateRange(s, e) ==
              Some(MonthName(month - 1) + " " + NatToString(d1) + "-" + NatToString(d2)
                   + ", " + IntToString(FullYear(year)))
  {
    MakeDateExisting(year, month - 1, d1);
    MakeDateExisting(year, month - 1, d2);
  }

  /** Two existing dates in different months or years: each written out in full. */
  lemma FormatDateRangeAcrossMonths(s: string, e: string, y1: nat, m1: nat, d1: nat, y2: nat, m2: nat, d2: nat)
    requires ParseDateParts(s) == Some((y1, m1, d1)) && ParseDateParts(e) == Some((y2, m2, d2))
    requires 1 <= m1 <= 12 && 1 <= d1 <= DaysInMonth(FullYear(y1), m1 - 1)
    requires 1 <= m2 <= 12 && 1 <= d2 <= DaysInMonth(FullYear(y2), m2 - 1)
    requires FullYear(y1) != FullYear(y2) || m1 != m2
    ensures FormatDateRange(s, e) ==
              Some(LongDate(CalendarDate(FullYear(y1), m1 - 1, d1)) + " - "
                   + LongDate(CalendarDate(FullYear(y2), m2 - 1, d2)))
  {
    MakeDateExisting(y1, m1 - 1, d1);
    MakeDateExisting(y2, m2 - 1, d2);
  }

  /** Any two strings that read as July 23 and July 26 of 2026 give "July 23-26, 2026". */
  lemma CampDateRangeOf(s: string, e: string)
    requires ParseDateParts(s) == Some((2026, 7, 23)) && ParseDateParts(e) == Some((2026, 7, 26))
    ensures FormatDateRange(s, e) == Some("July 23-26, 2026")
  {
    assert FullYear(2026) == 2026;
    assert DaysInMonth(2026, 6) == 31;
    FormatDateRangeSameMonth(s, e, 2026, 7, 23, 26);
    assert FormatDateRange(s, e) ==
             Some(MonthName(6) + " " + NatToString(23) + "-" + NatToString(26) + ", " + IntToString(2026));
    assert NatToString(23) == "23" && NatToString(26) == "26" && IntToString(2026) == "2026";
    assert MonthName(6) == "July";
    assert "July" + " " + "23" + "-" + "26" + ", " + "2026" == "July 23-26, 2026";
  }

  /** The camp's own dates read "July 23-26, 2026". */
  lemma CampDateRange()
    ensures FormatDateRange(StartDate, EndDate) == Some("July 23-26, 2026")
  {
    StartDateParts();
    EndDateParts();
    CampDateRangeOf(StartDate, EndDate);
  }

  /** `(totalAttendees || 1) * CAMP_ESSENCE_PRICE_PER_ATTENDEE`: the total shown under the menu. */
  function DisplayedTotal(totalAttendees: int): int {
    (if totalAttendees == 0 then 1 else totalAttendees) * PricePerAttendee
  }

  /** Every menu count shows its own multiple of the price; an unset count shows the price of one. */
  lemma DisplayedTotalCases(totalAttendees: int)
    ensures totalAttendees == 0 ==> DisplayedTotal(totalAttendees) == 1950
    ensures 1 <= totalAttendees <= MaxAttendees ==>
              DisplayedTotal(totalAttendees) == 1950 * totalAttendees
              && 1950 <= DisplayedTotal(totalAttendees) <= 11700
  {
  }

  /** One entry of the attendee-count menu. */
  datatype AttendeeChoice = AttendeeChoice(count: nat, text: string)

  function ChoiceText(count: nat): string {
    NatToString(count) + (if count == 1 then " person" else " people")
  }

  /** `attendeeOptions`: the counts 1 to CAMP_ESSENCE_MAX_ATTENDEES, in ascending order. */
  function CampAttendeeOptions(): (r: seq<AttendeeChoice>)
    ensures |r| == MaxAttendees
    ensures forall k :: 0 <= k < |r| ==> r[k] == AttendeeChoice(k + 1, ChoiceText(k + 1))
  {
    seq(MaxAttendees, k requires 0 <= k < MaxAttendees => AttendeeChoice(k + 1, ChoiceText(k + 1)))
  }

  /** The menu's counts strictly ascend, so no count is offered twice. */
  lemma AttendeeOptionsAscend()
    ensures var r := CampAttendeeOptions();
      forall i, j :: 0 <= i < j < |r| ==> r[i].count < r[j].count
  {
  }

  /**
   * The menu offers exactly the counts the schema accepts for
   * `totalAttendees`: picking any entry never produces a count error,
   * and every accepted count can be picked.
   */
  lemma AttendeeOptionsMatchSchema(n: int)
    ensures (exists k :: 0 <= k < |CampAttendeeOptions()| && CampAttendeeOptions()[k].count == n)
            <==> Failures(TotalAttendeesChecks(n as real)) == []
  {
    var r := CampAttendeeOptions();
    FailuresEmpty(TotalAttendeesChecks(n as real));
    TotalAttendeesChecksHold(n as real);
    assert (n as real).Floor == n;
    if 1 <= n <= MaxAttendees {
      assert r[n - 1].count == n;
    }
  }

  /** The label reads the count followed by "person" for one and "people" otherwise. */
  lemma ChoiceTextWords(count: nat)
    ensures DigitsValue(ChoiceText(count)[..|NatToString(count)|]) == count
    ensures count == 1 <==> ChoiceText(count)[|NatToString(count)|..] == " person"
    ensures count != 1 <==> ChoiceText(count)[|NatToString(count)|..] == " people"
  {
    assert ChoiceText(count)[..|NatToString(count)|] == NatToString(count);
    NatToStringRoundTrip(count);
  }

  /** The values the form starts from (`defaultValues`). */
  const DefaultInput := CampInput("", "", "", CampPrimaryAttendee("", "", "", None), 1.0, [], None, false)

  /** The defaults already satisfy the attendee refinement, but not the schema: nothing is filled in. */
  lemma DefaultInputState(env: SchemaEnv)
    ensures CampRefineHolds(DefaultInput)
    ensures Issue("salonName", SalonNameTooShort, true) in CampIssues(env, DefaultInput)
    ensures Issue("cancellationPolicyAccepted", PolicyNotAcknowledged, true) in CampIssues(env, DefaultInput)
    ensures !CampValid(env, DefaultInput)
  {
    FailureReported(CampFieldChecks(env, DefaultInput), 0);
    CancellationRequired(env, DefaultInput);
  }

  /** The form's values and the state its submit handler keeps. */
  class CampForm {
    var salonName: string
    var city: string
    var state: string
    var primaryAttendee: CampPrimaryAttendee
    /** The `<select>` value read with `valueAsNumber`; 0 stands for an unset value. */
    var totalAttendees: int
    const additionalAttendees: FieldArray<CampAttendee>
    var paymentMethod: Option<string>
    var cancellationPolicyAccepted: bool
    var errors: map<string, Message>
    var isSubmitting: bool
    var submitError: Option<string>
    var submitSuccess: bool

    /** The values the schema sees. */
    function Input(): CampInput
      reads this`salonName, this`city, this`state, this`primaryAttendee, this`totalAttendees,
            this`paymentMethod, this`cancellationPolicyAccepted, additionalAttendees
    {
      CampInput(salonName, city, state, primaryAttendee, totalAttendees as real, additionalAttendees.fields,
                paymentMethod, cancellationPolicyAccepted)
    }

    /** `useForm({ defaultValues })` with nothing submitted yet. */
    constructor()
      ensures Input() == DefaultInput
      ensures fresh(additionalAttendees)
      ensures errors == map[] && !isSubmitting && submitError.None? && !submitSuccess
    {
      salonName, city, state := "", "", "";
      primaryAttendee := CampPrimaryAttendee("", "", "", None);
      totalAttendees := 1;
      additionalAttendees := new FieldArray([]);
      paymentMethod := None;
      cancellationPolicyAccepted := false;
      errors := map[];
      isSubmitting, submitError, submitSuccess := false, None, false;
    }

    /**
     * `form.handleSubmit(onSubmit)` up to the request: a rejected input
     * records the first error of each path and posts nothing; an accepted
     * one clears the errors, starts submitting and is the body to post.
     */
    method Submit(env: SchemaEnv) returns (body: Option<CampInput>)
      modifies this`errors, this`isSubmitting, this`submitError
      ensures !CampValid(env, old(Input())) ==>
                body.None? && errors == RegistrationForm.FirstErrors(CampIssues(env, old(Input())))
                && isSubmitting == old(isSubmitting) && submitError == old(submitError)
      ensures CampValid(env, old(Input())) ==>
                body == Some(old(Input())) && errors == map[] && isSubmitting && submitError.None?
    {
      var input := Input();
      CampValidIff(env, input);
      if !CampValid(env, input) {
        errors := RegistrationForm.FirstErrors(CampIssues(env, input));
        body := None;
      } else {
        errors := map[];
        isSubmitting := true;
        submitError := None;
        body := Some(input);
      }
    }

    /**
     * The end of `onSubmit`: a 2xx response shows the confirmation card;
     * any other shows the response's `error`, or a fallback message.
     */
    method FinishSubmit(response: Response)
      modifies this`isSubmitting, this`submitError, this`submitSuccess
      ensures !isSubmitting
      ensures 200 <= response.status <= 299 ==> submitSuccess && submitError == old(submitError)
      ensures !(200 <= response.status <= 299) ==>
                submitSuccess == old(submitSuccess)
                && submitError == Some(if response.body.Failure? && response.body.error != "" then response.body.error
                                       else "Failed to submit registration")
    {
      if 200 <= response.status <= 299 {
        submitSuccess := true;
      } else {
        submitError := Some(if response.body.Failure? && response.body.error != "" then response.body.error
                            else "Failed to submit registration");
      }
      isSubmitting := false;
    }
  }
}
