/** The Camp Essence event constants (lib/camp-essence.ts). */
module CampEssence {
  import opened Wrappers
  import opened Text
  import opened Dates

  const FormGuid := "d994766d-5dce-4837-a6d3-4cd464a75b79"
  const EventName := "Camp Essence"
  const Location := "Colorado"
  const StartDate := "2026-07-23"
  const EndDate := "2026-07-26"

  /** The arguments of `Date.UTC(2026, 6, 23)`, the event timestamp: year, zero-based month and day. */
  datatype UtcArguments = UtcArguments(year: nat, monthIndex: nat, day: nat)

  const EventDateUtcArguments := UtcArguments(2026, 6, 23)

  /** `CAMP_ESSENCE_EVENT_DATE_TIMESTAMP_MS`. */
  const EventDateTimestampMs := UtcMillis(EventDateUtcArguments.year, EventDateUtcArguments.monthIndex,
                                          EventDateUtcArguments.day)

  const PricePerAttendee := 1950
  const MaxAttendees := 6

  /** `CAMP_ESSENCE_PAYMENT_METHODS`, in order. */
  const PaymentMethods: seq<string> := ["credit_card", "loyalty_points", "credit_card_payment_plan"]

  datatype CampPaymentOption = CampPaymentOption(id: string, text: string, description: string)

  /** `CAMP_ESSENCE_PAYMENT_OPTIONS`: one described option per method. */
  const PaymentOptions: seq<CampPaymentOption> := [
    CampPaymentOption("credit_card", "Credit Card", "We'll send you a secure payment link."),
    CampPaymentOption("loyalty_points", "Loyalty Points", "Apply eligible loyalty points toward your registration."),
    CampPaymentOption("credit_card_payment_plan", "Credit Card Payment Plan",
                      "Split payment across installments on a credit card.")]

  /** Three distinct methods, and the options list exactly those ids in the same order. */
  lemma PaymentOptionsMatchMethods()
    ensures |PaymentMethods| == 3 && |PaymentOptions| == |PaymentMethods|
    ensures forall k :: 0 <= k < |PaymentOptions| ==> PaymentOptions[k].id == PaymentMethods[k]
    ensures forall j, k :: 0 <= j < k < |PaymentMethods| ==> PaymentMethods[j] != PaymentMethods[k]
  {
  }

  lemma StartDateGroups()
    ensures ParseDateParts("2026" + "-" + "07" + "-" + "23") == Some((2026, 7, 23))
  {
    FourDigitsValue("2026");
    TwoDigitsValue("07");
    TwoDigitsValue("23");
    ParseDigitGroups("2026", "07", "23");
  }

  lemma StartDateParts()
    ensures ParseDateParts(StartDate) == Some((2026, 7, 23))
  {
    StartDateGroups();
    assert StartDate == "2026" + "-" + "07" + "-" + "23";
  }

  lemma EndDateGroups()
    ensures ParseDateParts("2026" + "-" + "07" + "-" + "26") == Some((2026, 7, 26))
  {
    FourDigitsValue("2026");
    TwoDigitsValue("07");
    TwoDigitsValue("26");
    ParseDigitGroups("2026", "07", "26");
  }

  lemma EndDateParts()
    ensures ParseDateParts(EndDate) == Some((2026, 7, 26))
  {
    EndDateGroups();
    assert EndDate == "2026" + "-" + "07" + "-" + "26";
  }

  /** The timestamp's zero-based month 6 and day 23 are July 23 of the start date's year. */
  lemma EventTimestampMatchesStartDate()
    ensures var t := EventDateUtcArguments; ParseDateParts(StartDate) == Some((t.year, t.monthIndex + 1, t.day))
  {
    StartDateParts();
  }

  /** Zero-based month 6 is July. */
  lemma EventMonthIsJuly()
    ensures MonthName(EventDateUtcArguments.monthIndex) == "July"
  {
  }

  /** Start and end fall in the same month of the same year, the start first. */
  lemma StartAndEndShareMonth()
    ensures ParseDateParts(StartDate).Some? && ParseDateParts(EndDate).Some?
    ensures ParseDateParts(StartDate).value.0 == ParseDateParts(EndDate).value.0
    ensures ParseDateParts(StartDate).value.1 == ParseDateParts(EndDate).value.1
    ensures ParseDateParts(StartDate).value.2 < ParseDateParts(EndDate).value.2
  {
    StartDateParts();
    EndDateParts();
  }

  /** The timestamp and the start date name the same calendar day. */
  lemma EventTimestampIsStartDay()
    ensures var r := MakeDate(2026, 6, 23); r == CalendarDate(2026, 6, 23)
    ensures EventDateTimestampMs == DayNumber(2026, 6, 23) * MsPerDay
  {
    MakeDateExisting(2026, 6, 23);
    UtcDayIsMakeDate(2026, 6, 23);
  }
}
