/**
 * The summit registration form (components/registration/registration-form.tsx):
 * the values the form library holds, the component's own state, and what
 * the page derives from them — the price, the summit, which sections show,
 * whether the submit button is live, and the JSON body it posts.
 */
module RegistrationForm {
  import opened Wrappers
  import opened Text
  import opened Types
  import opened FieldArrays
  import opened Validations
  import opened Prices = PriceCalculation
  import opened Dates
  import opened Utils
  import opened RegisterRoute

  /** The index of the first summit with that id, or |summits| when there is none. */
  function SummitIndex(summits: seq<Summit>, id: string): (k: nat)
    ensures k <= |summits|
    ensures k < |summits| ==> summits[k].id == id
    ensures forall j :: 0 <= j < k ==> summits[j].id != id
  {
    if summits == [] then 0
    else if summits[0].id == id then 0
    else 1 + SummitIndex(summits[1..], id)
  }

  /** `summits.find((s) => s.id === id)`. */
  function FindSummit(summits: seq<Summit>, id: string): (r: Option<Summit>)
    ensures r.None? <==> forall k :: 0 <= k < |summits| ==> summits[k].id != id
    ensures r.Some? ==> r.value.id == id && r.value in summits
  {
    var k := SummitIndex(summits, id);
    if k < |summits| then Some(summits[k]) else None
  }

  /**
   * The form library's error map after a validation: each path with an
   * issue, holding the message of the first issue at that path.
   */
  function FirstErrors(issues: seq<Issue>): (errors: map<string, Message>)
    ensures forall path :: path in errors <==> exists i :: i in issues && i.path == path
  {
    if issues == [] then map[]
    else FirstErrors(issues[1..])[issues[0].path := issues[0].message]
  }

  /**
   * `trigger(path)`: the error at one path is replaced by what a fresh
   * validation reports there, or removed when it reports nothing; the
   * other paths keep their errors.
   */
  function Revalidated(errors: map<string, Message>, reported: map<string, Message>, path: string): (r: map<string, Message>)
    ensures path in reported ==> path in r && r[path] == reported[path]
    ensures path !in reported ==> path !in r
    ensures forall p :: p != path ==> (p in r <==> p in errors) && (p in r ==> r[p] == errors[p])
  {
    if path in reported then errors[path := reported[path]] else errors - {path}
  }

  /** The message kept for a path is that of the first issue at that path. */
  lemma {:induction false} FirstErrorsKeepFirst(issues: seq<Issue>, k: nat)
    requires k < |issues|
    requires forall j :: 0 <= j < k ==> issues[j].path != issues[k].path
    ensures FirstErrors(issues)[issues[k].path] == issues[k].message
  {
    if k > 0 {
      FirstErrorsKeepFirst(issues[1..], k - 1);
    }
  }

  /**
   * The summit name sent with a registration: `Summit - location - range`
   * for the selected summit, empty without one. None when the summit's
   * start date is outside the date syntax this model reads.
   */
  function SummitName(summits: seq<Summit>, selectedId: string): (r: Option<string>)
    ensures FindSummit(summits, selectedId).None? ==> r == Some("")
    ensures FindSummit(summits, selectedId).Some? ==>
      var s := FindSummit(summits, selectedId).value;
      (r.Some? <==> FormatDateRange(s.startDate).Some?)
      && (r.Some? ==> r.value == "Summit - " + s.location + " - " + FormatDateRange(s.startDate).value)
  {
    match FindSummit(summits, selectedId)
    case None => Some("")
    case Some(s) =>
      match FormatDateRange(s.startDate)
      case None => None
      case Some(range) => Some("Summit - " + s.location + " - " + range)
  }

  /**
   * For a selected summit starting on a real calendar date the name sent
   * reads "Summit - <location> - <Month> <day>-<next day>, <year>".
   */
  lemma SummitNameOfDate(summits: seq<Summit>, selectedId: string, year: nat, month: nat, day: nat)
    requires FindSummit(summits, selectedId).Some?
    requires ParseDateParts(FindSummit(summits, selectedId).value.startDate) == Some((year, month, day))
    requires 1 <= month <= 12 && 1 <= day <= DaysInMonth(FullYear(year), month - 1)
    ensures SummitName(summits, selectedId) ==
              Some("Summit - " + FindSummit(summits, selectedId).value.location + " - "
                   + (MonthName(month - 1) + " " + NatToString(day) + "-"
                      + NatToString(if day < DaysInMonth(FullYear(year), month - 1) then day + 1 else 1)
                      + ", " + NatToString(year)))
  {
    FormatDateRangeOfDate(FindSummit(summits, selectedId).value.startDate, year, month, day);
  }

  class SummitForm {
    var summitId: string
    var salonName: string
    var city: string
    var state: string
    var primaryAttendee: PrimaryAttendee
    var registrationType: Option<RegistrationType>
    var additionalAttendeeCount: nat
    const additionalAttendees: FieldArray<Attendee>
    var paymentMethod: Option<PaymentValue>
    var isAlumni: Option<bool>
    var isLevelMember: Option<bool>
    var totalAttendees: Option<int>
    /** The form library's field errors: path to message. */
    var errors: map<string, Message>
    var showSummitSelector: bool
    var isSubmitting: bool
    var submitError: Option<string>
    var submitSuccess: bool
    /** `REGISTRATION_TYPES` and `ADDITIONAL_ATTENDEE_PRICE`. */
    const registrationTypes: seq<RegistrationTypeOption>
    const additionalAttendeePrice: int

    /** The form's default values; the summit selector starts open unless a `summit` query parameter is given. */
    constructor (summitParam: Option<string>, registrationTypes: seq<RegistrationTypeOption>, additionalAttendeePrice: int)
      ensures summitId == "" && salonName == "" && city == "" && state == ""
      ensures primaryAttendee == PrimaryAttendee("", "", "")
      ensures registrationType.None? && additionalAttendeeCount == 0
      ensures fresh(additionalAttendees) && additionalAttendees.fields == []
      ensures paymentMethod.None? && isAlumni.None? && isLevelMember.None? && totalAttendees.None?
      ensures errors == map[]
      ensures showSummitSelector == !Present(summitParam)
      ensures !isSubmitting && submitError.None? && !submitSuccess
      ensures this.registrationTypes == registrationTypes && this.additionalAttendeePrice == additionalAttendeePrice
    {
      summitId := "";
      salonName := "";
      city := "";
      state := "";
      primaryAttendee := PrimaryAttendee("", "", "");
      registrationType := None;
      additionalAttendeeCount := 0;
      additionalAttendees := new FieldArray([]);
      paymentMethod := None;
      isAlumni := None;
      isLevelMember := None;
      totalAttendees := None;
      errors := map[];
      showSummitSelector := !Present(summitParam);
      isSubmitting := false;
      submitError := None;
      submitSuccess := false;
      this.registrationTypes := registrationTypes;
      this.additionalAttendeePrice := additionalAttendeePrice;
    }

    /** `usePriceCalculation(registrationType, additionalAttendeeCount)` on the current values. */
    function Pricing(): Option<PriceCalculation>
      reads this
    {
      UsePriceCalculation(registrationTypes, additionalAttendeePrice, registrationType, additionalAttendeeCount)
    }

    /** The values the schema resolver validates. */
    function Input(): RegistrationInput
      reads this`summitId, this`salonName, this`city, this`state, this`primaryAttendee,
            this`registrationType, this`additionalAttendeeCount, this`paymentMethod, additionalAttendees
    {
      RegistrationInput(
        summitId, salonName, city, state, primaryAttendee,
        if registrationType.Some? then Some(registrationType.value.Id()) else None,
        additionalAttendeeCount as real,
        additionalAttendees.fields,
        if paymentMethod.Some? then Some(paymentMethod.value.Token()) else None)
    }

    /** `disabled={!selectedSummitId || !pricing}`. */
    predicate SubmitDisabled()
      reads this
    {
      summitId == "" || Pricing().None?
    }

    /** `additionalCount > 0 && <AdditionalAttendeesSection />`. */
    predicate ShowsAdditionalAttendees()
      reads this
    {
      additionalAttendeeCount > 0
    }

    /** `totalAttendees && <PaymentMethodSection />`: a count that is set and not zero. */
    predicate ShowsPaymentMethod()
      reads this
    {
      totalAttendees.Some? && totalAttendees.value != 0
    }

    /** The summit card shows in place of the selector when a summit is selected and the selector is closed. */
    predicate ShowsSummitCard(summits: seq<Summit>)
      reads this
    {
      FindSummit(summits, summitId).Some? && !showSummitSelector
    }

    /** The JSON body `onSubmit` posts: the validated values and the extras. */
    function SubmissionBody(summits: seq<Summit>): (b: RegisterBody)
      reads this, additionalAttendees
      ensures b.data == Input()
      ensures b.summitName == SummitName(summits, summitId) && b.summitDate.None?
      ensures b.isAlumni == isAlumni && b.isLevelMember == isLevelMember && b.totalAttendees == totalAttendees
      ensures b.totalPrice.Some? <==> Pricing().Some?
      ensures b.totalPrice.Some? ==> b.totalPrice.value == Pricing().value.total
    {
      RegisterBody(Input(), SummitName(summits, summitId), None, isAlumni, isLevelMember, totalAttendees,
                   if Pricing().Some? then Some(Pricing().value.total) else None)
    }

    /**
     * The preselection effect: with a `summit` parameter, a loaded list and
     * no summit chosen yet, select the summit with that id, if any, and
     * close the selector.
     */
    method PreselectSummit(summitParam: Option<string>, summits: seq<Summit>)
      modifies this`summitId, this`showSummitSelector
      ensures Present(summitParam) && |summits| > 0 && old(summitId) == ""
                && FindSummit(summits, summitParam.value).Some? ==>
                summitId == summitParam.value && !showSummitSelector
      ensures !(Present(summitParam) && |summits| > 0 && old(summitId) == ""
                && FindSummit(summits, summitParam.value).Some?) ==>
                summitId == old(summitId) && showSummitSelector == old(showSummitSelector)
    {
      if Present(summitParam) && |summits| > 0 && summitId == "" {
        var matching := FindSummit(summits, summitParam.value);
        if matching.Some? {
          summitId := matching.value.id;
          showSummitSelector := false;
        }
      }
    }

    /** `handleSummitSelect`: set the summit, validate that field, close the selector. */
    method SelectSummit(env: SchemaEnv, id: string)
      modifies this`summitId, this`errors, this`showSummitSelector
      ensures summitId == id && !showSummitSelector
      ensures errors == Revalidated(old(errors), FirstErrors(Issues(env, old(Input()).(summitId := id))), "summitId")
    {
      var input := Input().(summitId := id);
      errors := Revalidated(errors, FirstErrors(Issues(env, input)), "summitId");
      summitId := id;
      showSummitSelector := false;
    }

    /**
     * `form.handleSubmit(onSubmit)` up to the request: when the schema
     * rejects the values, record the first error of each path and post
     * nothing; otherwise clear the errors, start submitting and return
     * the body to post.
     */
    method Submit(env: SchemaEnv, summits: seq<Summit>) returns (body: Option<RegisterBody>)
      modifies this`errors, this`isSubmitting, this`submitError
      ensures !Valid(env, old(Input())) ==>
                body.None? && errors == FirstErrors(Issues(env, old(Input())))
                && isSubmitting == old(isSubmitting) && submitError == old(submitError)
      ensures Valid(env, old(Input())) ==>
                body == Some(old(SubmissionBody(summits))) && errors == map[] && isSubmitting && submitError.None?
    {
      var input, posted := Input(), SubmissionBody(summits);
      ValidIff(env, input);
      if !Valid(env, input) {
        errors := FirstErrors(Issues(env, input));
        body := None;
      } else {
        errors := map[];
        isSubmitting := true;
        submitError := None;
        body := Some(posted);
      }
    }

    /**
     * The end of `onSubmit`: a 2xx response shows the success card; any
     * other shows the response's `error`, or a fallback message.
     */
    method FinishSubmit(response: Response)
      modifies this`isSubmitting, this`submitError, this`submitSuccess
      ensures !isSubmitting
      ensures 200 <= response.status <= 299 ==> submitSuccess && submitError == old(submitError)
      ensures !(200 <= response.status <= 299) ==>
                submitSuccess == old(submitSuccess)
                && submitError == Some(if response.body.Failure? && response.body.error != "" then response.body.error
                                       else "Failed to submit registration")
    {
      if 200 <= response.status <= 299 {
        submitSuccess := true;
      } else {
        submitError := Some(if response.body.Failure? && response.body.error != "" then response.body.error
                            else "Failed to submit registration");
      }
      isSubmitting := false;
    }
  }

  /** A live submit button means the summary shows a price and a summit is chosen. */
  lemma SubmitEnabledHasPrice(f: SummitForm)
    requires !f.SubmitDisabled()
    ensures f.summitId != ""
    ensures f.Pricing().Some? && f.registrationType.Some?
    ensures f.SubmissionBody([]).totalPrice.Some?
  {
  }

  /**
   * The price depends only on the chosen type and the attendee count:
   * two forms over the same table that agree on those show the same price.
   */
  lemma PricingDependsOnTypeAndCount(f: SummitForm, g: SummitForm)
    requires f.registrationTypes == g.registrationTypes && f.additionalAttendeePrice == g.additionalAttendeePrice
    requires f.registrationType == g.registrationType && f.additionalAttendeeCount == g.additionalAttendeeCount
    ensures f.Pricing() == g.Pricing()
  {
  }

  /**
   * What the form posts after a client-side validation passes is accepted
   * by the endpoint's own copy of the schema: the endpoint answers 200 when
   * HubSpot accepts it and 500 otherwise, never 400.
   */
  lemma ValidFormPassesServer(f: SummitForm, env: SchemaEnv, summits: seq<Summit>, config: Config,
                              hubspotutk: Option<string>, referer: Option<string>, hubspotOk: bool)
    requires Valid(env, f.Input())
    requires Present(config.portalId) && Present(config.formGuid)
    ensures Post(config, env, Request(Some(f.SubmissionBody(summits)), hubspotutk, referer), hubspotOk).response.status
              == if hubspotOk then 200 else 500
  {
  }

  /** A validated form posts a whole attendee count that matches its list of names. */
  lemma ValidFormCount(f: SummitForm, env: SchemaEnv)
    requires Valid(env, f.Input())
    ensures 0 <= f.additionalAttendeeCount == |f.additionalAttendees.fields| <= 10
  {
    ValidIff(env, f.Input());
    ValidCountIsWhole(env, f.Input());
  }
}
