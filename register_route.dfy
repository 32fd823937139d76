/**
 * The summit registration endpoint, `POST` in app/api/register/route.ts:
 * validate the body, turn it into a HubSpot Forms submission, and map the
 * outcome to an HTTP response. The HubSpot call itself is a parameter:
 * whether it answered with an ok status.
 */
module RegisterRoute {
  import opened Wrappers
  import opened Text
  import opened Types
  import opened Validations

  /** The JSON body the form posts: the schema's fields and the extras it sends beside them. */
  datatype RegisterBody = RegisterBody(
    data: RegistrationInput,
    summitName: Option<string>,
    summitDate: Option<string>,
    isAlumni: Option<bool>,
    isLevelMember: Option<bool>,
    totalAttendees: Option<int>,
    totalPrice: Option<int>)

  /**
   * The request as the handler sees it: the body (None when it is not
   * JSON), the `hubspotutk` cookie and the `referer` header.
   */
  datatype Request = Request(body: Option<RegisterBody>, hubspotutk: Option<string>, referer: Option<string>)

  /** `HUBSPOT_PORTAL_ID` and `HUBSPOT_REGISTRATION_FORM_GUID`. */
  datatype Config = Config(portalId: Option<string>, formGuid: Option<string>)

  /** A HubSpot field; an `undefined` value is left out of the JSON, shown as None. */
  datatype Field = Field(name: string, value: Option<string>)

  datatype Context = Context(hutk: Option<string>, pageUri: string, pageName: string)

  datatype Submission = Submission(fields: seq<Field>, context: Context)

  datatype ResponseBody =
    | Success(message: string)
    | Failure(error: string, details: seq<Issue>)

  datatype Response = Response(status: int, body: ResponseBody)

  /** The response, and the submission sent to HubSpot if one was sent. */
  datatype Outcome = Outcome(response: Response, sent: Option<Submission>)

  /** A JavaScript string is truthy when it is not empty. */
  predicate Present(s: Option<string>) {
    s.Some? && s.value != ""
  }

  /** `s || ''`. */
  function OrEmpty(s: Option<string>): (r: string)
    ensures Present(s) ==> r == s.value
    ensures !Present(s) ==> r == ""
  {
    if Present(s) then s.value else ""
  }

  /** The lines of the attendee list: "1. name", "2. name", and so on. */
  function AttendeeLines(attendees: seq<Attendee>): (r: seq<string>)
    ensures |r| == |attendees|
    ensures forall i :: 0 <= i < |r| ==> r[i] == NatToString(i + 1) + ". " + attendees[i].fullName
  {
    seq(|attendees|, i requires 0 <= i < |attendees| => NatToString(i + 1) + ". " + attendees[i].fullName)
  }

  /** `additionalAttendeesStr`: the numbered lines joined by newlines. */
  function AttendeesText(attendees: seq<Attendee>): string {
    Join(AttendeeLines(attendees), "\n")
  }

  /**
   * When no name holds a newline, splitting the text on newlines gives back
   * one numbered line per attendee, in order.
   */
  lemma AttendeesTextLines(attendees: seq<Attendee>)
    requires |attendees| >= 1
    requires forall i :: 0 <= i < |attendees| ==> '\n' !in attendees[i].fullName
    ensures Split(AttendeesText(attendees), '\n') == AttendeeLines(attendees)
  {
    var lines := AttendeeLines(attendees);
    forall k | 0 <= k < |lines|
      ensures '\n' !in lines[k]
    {
      var number := NatToString(k + 1);
      assert forall j :: 0 <= j < |number| ==> number[j] != '\n';
      assert lines[k] == number + ". " + attendees[k].fullName;
    }
    SplitJoin(lines, '\n');
  }

  /** `paymentMethodMap[m] || m`. */
  function HubSpotPaymentValue(m: string): (r: string)
    ensures m == "credit" ==> r == "credit_card"
    ensures m == "loyalty" ==> r == "level"
    ensures m == "combo" ==> r == "combo"
    ensures m !in {"credit", "loyalty", "combo"} ==> r == m
  {
    if m == "credit" then "credit_card"
    else if m == "loyalty" then "level"
    else if m == "combo" then "combo"
    else m
  }

  /** The names of the submitted fields, in order. */
  const FieldNames: seq<string> := [
    "summit_registration_summit_name",
    "summit_registration_summit_date",
    "summit_registration_salon_name",
    "summit_registration_salon_city",
    "summit_registration_salon_state",
    "summit_registration_alumni",
    "summit_registration_level_member",
    "summit_registration_number_of_attendees",
    "firstname",
    "lastname",
    "email",
    "mobilephone",
    "summit_registration_additional_attendees",
    "summit_registration_payment_method",
    "summit_registration_total_amount"]

  /**
   * The validated data and the extras as HubSpot fields. The schema has no
   * `phone` key and zod drops unknown keys, so `mobilephone` never has a value.
   */
  function FormFields(b: RegisterBody): seq<Field> {
    var d := b.data;
    [ Field(FieldNames[0], Some(OrEmpty(b.summitName))),
      Field(FieldNames[1], Some(OrEmpty(b.summitDate))),
      Field(FieldNames[2], Some(d.salonName)),
      Field(FieldNames[3], Some(d.city)),
      Field(FieldNames[4], Some(d.state)),
      Field(FieldNames[5], Some(BoolToString(b.isAlumni.GetOr(false)))),
      Field(FieldNames[6], Some(BoolToString(b.isLevelMember.GetOr(false)))),
      Field(FieldNames[7], Some(IntToString(if b.totalAttendees.Some? && b.totalAttendees.value != 0
                                           then b.totalAttendees.value else 1))),
      Field(FieldNames[8], Some(d.primaryAttendee.firstName)),
      Field(FieldNames[9], Some(d.primaryAttendee.lastName)),
      Field(FieldNames[10], Some(d.primaryAttendee.email)),
      Field(FieldNames[11], None),
      Field(FieldNames[12], Some(AttendeesText(d.additionalAttendees))),
      Field(FieldNames[13], Some(if Present(d.paymentMethod) then HubSpotPaymentValue(d.paymentMethod.value) else "")),
      Field(FieldNames[14], Some(IntToString(if b.totalPrice.Some? && b.totalPrice.value != 0
                                            then b.totalPrice.value else 0)))]
  }

  /** The submission: the fields, and a context with the tracking cookie only when it is set. */
  function BuildSubmission(b: RegisterBody, hubspotutk: Option<string>, referer: Option<string>): Submission {
    Submission(FormFields(b),
               Context(if Present(hubspotutk) then hubspotutk else None, OrEmpty(referer), "Summit Registration"))
  }

  /** The fields are the fifteen HubSpot names, in order, and only `mobilephone` is left without a value. */
  lemma FormFieldsShape(b: RegisterBody)
    ensures |FormFields(b)| == |FieldNames|
    ensures forall k :: 0 <= k < |FieldNames| ==> FormFields(b)[k].name == FieldNames[k]
    ensures forall k :: 0 <= k < |FieldNames| ==> (FormFields(b)[k].value.None? <==> FieldNames[k] == "mobilephone")
  {
  }

  /** A body the schema accepts always sends one of HubSpot's two payment values, 'credit_card' or 'level'. */
  lemma ValidPaymentField(env: SchemaEnv, b: RegisterBody)
    requires Valid(env, b.data)
    ensures FormFields(b)[13].value == Some(if b.data.paymentMethod == Some("credit") then "credit_card" else "level")
  {
    ValidIff(env, b.data);
  }

  /** A missing or zero attendee total is sent as "1"; the extras are not validated. */
  lemma AttendeeTotalDefault(b: RegisterBody)
    requires b.totalAttendees.None? || b.totalAttendees == Some(0)
    ensures FormFields(b)[7].value == Some("1")
  {
  }

  /**
   * The extras the schema does not check: the summit name and date default
   * to '', the two answers to "false", the price to "0".
   */
  lemma ExtrasDefaults(b: RegisterBody)
    ensures !Present(b.summitName) ==> FormFields(b)[0].value == Some("")
    ensures !Present(b.summitDate) ==> FormFields(b)[1].value == Some("")
    ensures FormFields(b)[5].value == Some(if b.isAlumni == Some(true) then "true" else "false")
    ensures FormFields(b)[6].value == Some(if b.isLevelMember == Some(true) then "true" else "false")
    ensures b.totalPrice.None? || b.totalPrice == Some(0) ==> FormFields(b)[14].value == Some("0")
  {
  }

  /** The tracking cookie goes into the context only when it is set and not empty. */
  lemma ContextHutk(b: RegisterBody, hubspotutk: Option<string>, referer: Option<string>)
    ensures var c := BuildSubmission(b, hubspotutk, referer).context;
      && (c.hutk.Some? <==> Present(hubspotutk))
      && (c.hutk.Some? ==> c.hutk == hubspotutk)
      && c.pageUri == OrEmpty(referer)
      && c.pageName == "Summit Registration"
  {
  }

  /** `POST`: the responses of app/api/register/route.ts, with the HubSpot call's success as a parameter. */
  function Post(config: Config, env: SchemaEnv, request: Request, hubspotOk: bool): Outcome {
    if !Present(config.portalId) || !Present(config.formGuid) then
      Outcome(Response(500, Failure("Server configuration error", [])), None)
    else if request.body.None? then
      Outcome(Response(500, Failure("Failed to process registration", [])), None)
    else if !Valid(env, request.body.value.data) then
      Outcome(Response(400, Failure("Validation failed", Issues(env, request.body.value.data))), None)
    else
      var submission := BuildSubmission(request.body.value, request.hubspotutk, request.referer);
      if hubspotOk then Outcome(Response(200, Success("Registration submitted successfully")), Some(submission))
      else Outcome(Response(500, Failure("Failed to process registration", [])), Some(submission))
  }

  /**
   * The endpoint answers 200 exactly when it is configured, the body is
   * JSON, the schema accepts it and HubSpot accepts the submission; it
   * answers 400 exactly when a configured endpoint gets a body the
   * schema rejects, and then lists the schema's issues.
   */
  lemma PostStatus(config: Config, env: SchemaEnv, request: Request, hubspotOk: bool)
    ensures var o := Post(config, env, request, hubspotOk);
      (o.response.status == 200 <==>
         Present(config.portalId) && Present(config.formGuid) && request.body.Some?
         && Valid(env, request.body.value.data) && hubspotOk)
      && (o.response.status == 400 <==>
            Present(config.portalId) && Present(config.formGuid) && request.body.Some?
            && !Valid(env, request.body.value.data))
      && (o.response.status == 400 ==> o.response.body.details == Issues(env, request.body.value.data))
      && (o.response.status == 200 || o.response.status == 400 || o.response.status == 500)
  {
  }

  /** Nothing reaches HubSpot unless the schema accepted the body, and then it is the built submission. */
  lemma PostSendsOnlyValid(config: Config, env: SchemaEnv, request: Request, hubspotOk: bool)
    ensures var o := Post(config, env, request, hubspotOk);
      o.sent.Some? <==> Present(config.portalId) && Present(config.formGuid) && request.body.Some?
                        && Valid(env, request.body.value.data)
    ensures var o := Post(config, env, request, hubspotOk);
      o.sent.Some? ==> o.sent.value == BuildSubmission(request.body.value, request.hubspotutk, request.referer)
  {
  }
}
