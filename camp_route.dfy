/**
 * The Camp Essence registration endpoint, `POST` in
 * app/api/register/camp-essence/route.ts: validate the body, turn it into
 * a HubSpot Forms submission, and map the outcome to an HTTP response,
 * telling a missing HubSpot form apart from other HubSpot failures. The
 * HubSpot call itself is a parameter: what it answered.
 */
module CampRoute {
  import opened Wrappers
  import opened Text
  import opened Dates
  import opened Validations
  import opened CampEssence
  import opened CampValidations
  import opened RegisterRoute
  import CampRegistrationForm

  /** The request as the handler sees it: the body (None when it is not JSON), the `hubspotutk` cookie and the `referer` header. */
  datatype CampRequest = CampRequest(body: Option<CampInput>, hubspotutk: Option<string>, referer: Option<string>)

  /** `HUBSPOT_PORTAL_ID` and `HUBSPOT_CAMP_ESSENCE_FORM_GUID` as the environment gives them. */
  datatype CampConfig = CampConfig(portalId: Option<string>, formGuid: Option<string>)

  /** `process.env.HUBSPOT_CAMP_ESSENCE_FORM_GUID || CAMP_ESSENCE_FORM_GUID`. */
  function FormGuidOf(config: CampConfig): (g: string)
    ensures g != ""
    ensures Present(config.formGuid) ==> g == config.formGuid.value
    ensures !Present(config.formGuid) ==> g == FormGuid
  {
    if Present(config.formGuid) then config.formGuid.value else FormGuid
  }

  /** One attendee's block: "Attendee k:", then the name, e-mail and phone lines; k starts at 2. */
  function AttendeeBlock(index: nat, a: CampAttendee): string {
    "Attendee " + NatToString(index + 2) + ":\nName: " + a.fullName + "\nEmail: " + a.email + "\nPhone: " + a.phone
  }

  function AttendeeBlocks(attendees: seq<CampAttendee>): (r: seq<string>)
    ensures |r| == |attendees|
    ensures forall i :: 0 <= i < |r| ==> r[i] == AttendeeBlock(i, attendees[i])
  {
    seq(|attendees|, i requires 0 <= i < |attendees| => AttendeeBlock(i, attendees[i]))
  }

  /** `formatAdditionalAttendees`: the blocks separated by blank lines. */
  function FormatAdditionalAttendees(attendees: seq<CampAttendee>): string {
    Join(AttendeeBlocks(attendees), "\n\n")
  }

  /** The text is empty exactly when there are no additional attendees. */
  lemma FormatAdditionalAttendeesEmpty(attendees: seq<CampAttendee>)
    ensures FormatAdditionalAttendees(attendees) == "" <==> attendees == []
  {
    var blocks := AttendeeBlocks(attendees);
    forall k | 0 <= k < |blocks| ensures blocks[k] != "" {
      assert |blocks[k]| >= |"Attendee "|;
    }
    JoinOfNonEmpty(blocks, "\n\n");
  }

  /** Another attendee adds one block, numbered after the others and set off by a blank line. */
  lemma FormatAdditionalAttendeesAppend(attendees: seq<CampAttendee>, a: CampAttendee)
    ensures FormatAdditionalAttendees(attendees + [a]) ==
              if attendees == [] then AttendeeBlock(0, a)
              else FormatAdditionalAttendees(attendees) + "\n\n" + AttendeeBlock(|attendees|, a)
  {
    var blocks := AttendeeBlocks(attendees);
    assert AttendeeBlocks(attendees + [a]) == blocks + [AttendeeBlock(|attendees|, a)];
    JoinAppend(blocks, [AttendeeBlock(|attendees|, a)], "\n\n");
  }

  /** The names of the submitted fields, in order. */
  const CampFieldNames: seq<string> := [
    "camp_essence_registration_location",
    "camp_essence_registration_event_date",
    "camp_essence_registration_salon_name",
    "camp_essence_registration_salon_city",
    "camp_essence_registration_salon_state",
    "camp_essence_registration_number_of_attendees",
    "camp_essence_registration_additional_attendees",
    "camp_essence_registration_payment_method",
    "camp_essence_registration_total_amount",
    "camp_essence_cancellation_policy",
    "firstname",
    "lastname",
    "email"]

  /**
   * The validated data as HubSpot fields. It is only built from data the
   * schema accepted, whose `totalAttendees` is a whole number.
   */
  function CampFields(x: CampInput): seq<Field>
    requires IsWhole(x.totalAttendees)
  {
    var n := x.totalAttendees.Floor;
    [ Field(CampFieldNames[0], Some(Location)),
      Field(CampFieldNames[1], Some(IntToString(EventDateTimestampMs))),
      Field(CampFieldNames[2], Some(x.salonName)),
      Field(CampFieldNames[3], Some(x.city)),
      Field(CampFieldNames[4], Some(x.state)),
      Field(CampFieldNames[5], Some(IntToString(n))),
      Field(CampFieldNames[6], Some(FormatAdditionalAttendees(x.additionalAttendees))),
      Field(CampFieldNames[7], x.paymentMethod),
      Field(CampFieldNames[8], Some(IntToString(n * PricePerAttendee))),
      Field(CampFieldNames[9], Some(BoolToString(x.cancellationPolicyAccepted))),
      Field(CampFieldNames[10], Some(x.primaryAttendee.firstName)),
      Field(CampFieldNames[11], Some(x.primaryAttendee.lastName)),
      Field(CampFieldNames[12], Some(x.primaryAttendee.email))]
  }

  /** The submission: the fields, and a context with the tracking cookie only when it is set. */
  function BuildCampSubmission(x: CampInput, hubspotutk: Option<string>, referer: Option<string>): Submission
    requires IsWhole(x.totalAttendees)
  {
    Submission(CampFields(x),
               Context(if Present(hubspotutk) then hubspotutk else None, OrEmpty(referer), "Camp Essence Registration"))
  }

  /** The fields are the thirteen HubSpot names in order, starting with the constant location and the start day's UTC midnight in milliseconds. */
  lemma CampFieldsShape(x: CampInput)
    requires IsWhole(x.totalAttendees)
    ensures |CampFields(x)| == |CampFieldNames| == 13
    ensures forall k :: 0 <= k < 13 ==> CampFields(x)[k].name == CampFieldNames[k]
    ensures CampFields(x)[0].value == Some("Colorado")
    ensures CampFields(x)[1].value == Some(IntToString(DayNumber(2026, 6, 23) * MsPerDay))
    ensures CampFields(x)[7].value == x.paymentMethod
  {
    EventTimestampIsStartDay();
  }

  /** The tracking cookie goes into the context only when it is set and not empty. */
  lemma CampContextHutk(x: CampInput, hubspotutk: Option<string>, referer: Option<string>)
    requires IsWhole(x.totalAttendees)
    ensures var c := BuildCampSubmission(x, hubspotutk, referer).context;
      && (c.hutk.Some? <==> Present(hubspotutk))
      && (c.hutk.Some? ==> c.hutk == hubspotutk)
      && c.pageUri == OrEmpty(referer)
      && c.pageName == "Camp Essence Registration"
  {
  }

  /** A whole, positive attendee count and its total read back as numbers. */
  lemma AmountFieldsReadBack(x: CampInput)
    requires IsWhole(x.totalAttendees) && x.totalAttendees >= 1.0
    ensures var n := x.totalAttendees.Floor;
      && DigitsValue(CampFields(x)[5].value.value) == n
      && DigitsValue(CampFields(x)[8].value.value) == n * 1950
  {
    var n := x.totalAttendees.Floor;
    var f := CampFields(x);
    assert f[5].value.value == NatToString(n);
    assert f[8].value.value == NatToString(n * 1950);
    NatToStringRoundTrip(n);
    NatToStringRoundTrip(n * 1950);
  }

  /**
   * For accepted data the attendee count and the total read back as
   * numbers: the count from 1 to 6, and the total that count times 1950,
   * which is the total the form displays.
   */
  lemma ValidCampAmounts(env: SchemaEnv, x: CampInput)
    requires CampValid(env, x)
    ensures var n := x.totalAttendees.Floor;
      && 1 <= n <= 6
      && DigitsValue(CampFields(x)[5].value.value) == n
      && DigitsValue(CampFields(x)[8].value.value) == n * 1950
      && n * 1950 == CampRegistrationForm.DisplayedTotal(n)
    ensures CampFields(x)[7].value.Some? && CampFields(x)[7].value.value in PaymentMethods
    ensures CampFields(x)[9].value == Some("true")
  {
    CampValidIff(env, x);
    AmountFieldsReadBack(x);
  }

  /** HubSpot's error reply: its body text, and the `message` of that body when it parses as JSON and has one. */
  datatype ErrorReply = ErrorReply(bodyText: string, parsedMessage: Option<string>)

  /** What HubSpot answered: an ok status, or an error reply. */
  datatype HubSpotReply = Accepted | Rejected(reply: ErrorReply)

  /** `errorMessage`: a non-empty parsed `message`, else the raw body text. */
  function ErrorMessage(e: ErrorReply): (m: string)
    ensures Present(e.parsedMessage) ==> m == e.parsedMessage.value
    ensures !Present(e.parsedMessage) ==> m == e.bodyText
  {
    if Present(e.parsedMessage) then e.parsedMessage.value else e.bodyText
  }

  /** `isFormNotFound`, on the lower-cased message. */
  predicate IsFormNotFound(message: string) {
    var normalized := ToLower(message);
    Contains(normalized, "can't be found") || Contains(normalized, "cannot be found")
    || Contains(normalized, "form with guid")
  }

  /** The classification reads the message as written in any mix of letter case. */
  lemma IsFormNotFoundIgnoresCase(message: string)
    ensures IsFormNotFound(ToLower(message)) <==> IsFormNotFound(message)
  {
    assert ToLower(ToLower(message)) == ToLower(message);
  }

  /** A message with one of the three phrases at any position, in lower case, is a missing form. */
  lemma PhraseAnywhereIsFormNotFound(message: string, phrase: string, i: nat)
    requires phrase == "can't be found" || phrase == "cannot be found" || phrase == "form with guid"
    requires OccursAt(ToLower(message), phrase, i)
    ensures IsFormNotFound(message)
  {
    ContainsOccurrence(ToLower(message), phrase);
  }

  /** A message with none of the phrases, in any case, is not a missing form. */
  lemma NoPhraseIsOtherFailure(message: string)
    requires forall i: nat :: !OccursAt(ToLower(message), "can't be found", i)
    requires forall i: nat :: !OccursAt(ToLower(message), "cannot be found", i)
    requires forall i: nat :: !OccursAt(ToLower(message), "form with guid", i)
    ensures !IsFormNotFound(message)
  {
    ContainsOccurrence(ToLower(message), "can't be found");
    ContainsOccurrence(ToLower(message), "cannot be found");
    ContainsOccurrence(ToLower(message), "form with guid");
  }

  const FormNotFoundError :=
    "Camp Essence form configuration error: HubSpot form was not found. Please verify HUBSPOT_CAMP_ESSENCE_FORM_GUID."

  /** `POST`: the responses of app/api/register/camp-essence/route.ts, with HubSpot's answer as a parameter. */
  function CampPost(config: CampConfig, env: SchemaEnv, request: CampRequest, hubspot: HubSpotReply): Outcome {
    if !Present(config.portalId) || FormGuidOf(config) == "" then
      Outcome(Response(500, Failure("Server configuration error", [])), None)
    else if request.body.None? then
      Outcome(Response(500, Failure("Failed to process registration", [])), None)
    else if !CampValid(env, request.body.value) then
      Outcome(Response(400, Failure("Validation failed", CampIssues(env, request.body.value))), None)
    else
      var x := request.body.value;
      var submission := BuildCampSubmission(x, request.hubspotutk, request.referer);
      match hubspot
      case Accepted =>
        Outcome(Response(200, Success("Camp Essence registration submitted successfully")), Some(submission))
      case Rejected(e) =>
        var error := if IsFormNotFound(ErrorMessage(e)) then FormNotFoundError else "Failed to submit registration";
        Outcome(Response(500, Failure(error, [])), Some(submission))
  }

  /**
   * The endpoint is misconfigured only without a portal id: the form GUID
   * falls back to the constant.
   */
  lemma ConfigErrorOnlyWithoutPortal(config: CampConfig, env: SchemaEnv, request: CampRequest, hubspot: HubSpotReply)
    ensures var o := CampPost(config, env, request, hubspot);
      (o.response.body == Failure("Server configuration error", []) <==> !Present(config.portalId))
  {
  }

  /**
   * The endpoint answers 200 exactly when it has a portal id, the body is
   * JSON, the schema accepts it and HubSpot accepts the submission; it
   * answers 400 exactly when the schema rejects the body, and lists the
   * schema's issues; every other case is a 500.
   */
  lemma CampPostStatus(config: CampConfig, env: SchemaEnv, request: CampRequest, hubspot: HubSpotReply)
    ensures var o := CampPost(config, env, request, hubspot);
      (o.response.status == 200 <==>
         Present(config.portalId) && request.body.Some? && CampValid(env, request.body.value) && hubspot.Accepted?)
      && (o.response.status == 400 <==>
            Present(config.portalId) && request.body.Some? && !CampValid(env, request.body.value))
      && (o.response.status == 400 ==> o.response.body.details == CampIssues(env, request.body.value))
      && (o.response.status == 200 || o.response.status == 400 || o.response.status == 500)
  {
  }

  /** Nothing reaches HubSpot unless the schema accepted the body, and then it is the built submission. */
  lemma CampPostSendsOnlyValid(config: CampConfig, env: SchemaEnv, request: CampRequest, hubspot: HubSpotReply)
    ensures var o := CampPost(config, env, request, hubspot);
      o.sent.Some? <==> Present(config.portalId) && request.body.Some? && CampValid(env, request.body.value)
    ensures var o := CampPost(config, env, request, hubspot);
      o.sent.Some? ==> (IsWhole(request.body.value.totalAttendees)
                        && o.sent.value == BuildCampSubmission(request.body.value, request.hubspotutk, request.referer))
  {
    var o := CampPost(config, env, request, hubspot);
    if o.sent.Some? {
      CampValidIff(env, request.body.value);
    }
  }

  /**
   * A HubSpot rejection is a 500 whose error names the missing form
   * exactly when the reply's message mentions it, and the generic
   * message otherwise.
   */
  lemma RejectionMessages(config: CampConfig, env: SchemaEnv, request: CampRequest, e: ErrorReply)
    requires Present(config.portalId) && request.body.Some? && CampValid(env, request.body.value)
    ensures var o := CampPost(config, env, request, Rejected(e));
      && o.response.status == 500
      && (o.response.body.error == FormNotFoundError <==> IsFormNotFound(ErrorMessage(e)))
      && (o.response.body.error == "Failed to submit registration" <==> !IsFormNotFound(ErrorMessage(e)))
  {
  }
}
