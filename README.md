# Summit and Camp Essence registration — a Dafny model

This project models the registration rules behind the two sign-up forms of
the summitregistration web application: the Summit form and the Camp
Essence form. For each form it models five parts:

- the form's state and what the page derives from it;
- the sections that keep answers, counts and name lists in step;
- the zod schema that accepts or rejects the values (zod is a TypeScript
  validation library);
- the API route that re-checks the values and turns them into a HubSpot Forms
  submission;
- the string and date helpers these parts share.

One Dafny module stands for each source file:

| module | source file |
|---|---|
| `RegistrationTypeSection` | components/registration/registration-type-section.tsx |
| `PriceCalculation` | hooks/use-price-calculation.ts |
| `PaymentMethodSection` | components/registration/payment-method-section.tsx |
| `Validations` | lib/validations.ts |
| `AdditionalAttendeesSection` | components/registration/additional-attendees-section.tsx |
| `RegistrationForm` | components/registration/registration-form.tsx |
| `RegisterRoute` | app/api/register/route.ts |
| `CampValidations` | lib/camp-validations.ts |
| `CampEssence` | lib/camp-essence.ts |
| `CampAdditionalAttendeesSection` | components/camp-registration/camp-additional-attendees-section.tsx |
| `CampRegistrationForm` | components/camp-registration/camp-registration-form.tsx |
| `CampRoute` | app/api/register/camp-essence/route.ts |
| `Utils` | lib/utils.ts |
| `Types` | lib/types.ts |

Four modules are shared helpers:

- `Wrappers`: `Option`.
- `Text`: JavaScript `String(n)`, `split`, `join`, `trim`, `toLowerCase` and
  `includes`.
- `Dates`: the local-date arithmetic of `new Date(y, m, d)` and the day count
  of `Date.UTC`.
- `FieldArrays`: the form library's `useFieldArray`, a class with `append` and
  `remove(i)`.

Where the source mutates, the model does too:

- **Summit form (`RegistrationForm.SummitForm`):** a class whose fields the
  handlers and effects update.
- **Camp form (`CampRegistrationForm.CampForm`):** a class in the same way.
- **Field arrays:** objects that the sync effects grow and shrink with the
  source's own loops.
- **Summit attendee menu:** built by the source's `for` loops.

A zod parse is modelled as an ordered list of checks. Each check records
whether it holds and the issue it would report. `Failures` keeps the issues
of the checks that fail.

- **Checks that let parsing continue:** length, range, format and refinement
  checks.
- **Checks that abort:** an enum, type or whole-number check that fails.
  After one of these, the object-level `.refine` does not run.

`Valid` and `CampValid` state field by field what the schemas accept.
`ValidIff` and `CampValidIff` prove that this holds exactly when the parse
reports no issue.

Issue messages are values of the `Message` datatype. `Message.Text()` gives
the exact text each one stands for. Where a message quotes a limit, as in
`Maximum ${CAMP_ESSENCE_MAX_ATTENDEES} attendees`, the limit is a parameter
of the constructor.

Some behaviours are kept exactly as the code has them:

- **The "combo" payment value.** The summit payment section produces the
  value `'combo'` when both boxes are ticked. But `PaymentMethod` and the
  schema accept only `'credit'` and `'loyalty'`. So a combined payment never
  passes validation: see `PaymentMethodSection.ComboFromBothOptions` and
  `Validations.ComboRejected`.
- **The phone in the summit submission.** The summit route reads
  `primaryAttendee.phone`. The schema has no phone key, so validation removes
  it, and `mobilephone` is always sent without a value.
- **The payment method survives an alumni answer change.** The alumni click
  handlers (components/registration/registration-type-section.tsx:95-98 and
  113-115) write the alumni answer and clear the LEVEL answer or the count,
  and leave `paymentMethod` as it was.

## Model

| member | source | states |
|---|---|---|
| RegistrationTypeSection.PushLadder | components/registration/registration-type-section.tsx:32-36 | one `for (i = 2..10)` loop appends nine entries after those already there, entry k counting k+2 people at base + k·fee |
| RegistrationTypeSection.AttendeeOptions | components/registration/registration-type-section.tsx:27-55 | alumni menu is 2..10 from 1250; otherwise a LEVEL member gets "Just me" at 1450 then 2..10 from 1950; two noes give 2..10 from 2750; any other answers give no entries; every menu's counts strictly ascend within 1..10 |
| RegistrationTypeSection.LadderCounts | components/registration/registration-type-section.tsx:32-36 | the nine ladder entries count 2 to 10 in strictly ascending order |
| RegistrationTypeSection.ResolveTypeCases | components/registration/registration-type-section.tsx:65-75 | each type comes from exactly one kind of answer: a yes on alumni wins, then LEVEL gives solo iff the total is 1, two noes give non-member, anything else gives no type |
| RegistrationTypeSection.MenuIffResolved | components/registration/registration-type-section.tsx:27-75 | the menu is non-empty exactly when the answers resolve to a type |
| RegistrationTypeSection.SyncRegistrationType | components/registration/registration-type-section.tsx:58-81 | with a count chosen and a type resolved, writes the type and max(0, total−1); otherwise writes nothing, so earlier values persist |
| RegistrationTypeSection.SyncRegistrationTypeClearing | components/registration/registration-type-section.tsx:58-81 | corrected effect: an unset count clears the type, so a price shows only while a count is chosen |
| RegistrationTypeSection.StaleTypeScenario | components/registration/registration-type-section.tsx:59 | as written: after "Yes", 3 people, then "No", the count is unset but the alumni type and price stay and submit is enabled |
| RegistrationTypeSection.ClearedTypeScenario | components/registration/registration-type-section.tsx:59 | the same steps with the corrected effect leave no price and a disabled submit button |
| RegistrationTypeSection.QuestionShownOnlyWhenResolvable | components/registration/registration-type-section.tsx:83 | whenever the count question shows, the answers resolve to a type |
| RegistrationTypeSection.AnswerAlumniYes | components/registration/registration-type-section.tsx:95-98 | "Yes" sets alumni and clears the LEVEL answer and the count; the payment method is not touched |
| RegistrationTypeSection.AnswerAlumniNo | components/registration/registration-type-section.tsx:113-115 | "No" sets alumni false and clears only the count |
| RegistrationTypeSection.AnswerLevelMember | components/registration/registration-type-section.tsx:143-145 | either LEVEL answer records it and clears the count |
| RegistrationTypeSection.ChooseTotalAttendees | components/registration/registration-type-section.tsx:190 | picking a menu entry sets the count |
| RegistrationTypeSection.AlumniMenuPricesAgree | components/registration/registration-type-section.tsx:30-36 | with an alumni table entry of 1250 for two, every alumni menu price equals the price hook's total for that count |
| RegistrationTypeSection.NonMemberMenuPricesAgree | components/registration/registration-type-section.tsx:45-54 | with a non-member entry of 2750 for two, every menu price equals the hook's total |
| RegistrationTypeSection.LevelMenuPricesAgree | components/registration/registration-type-section.tsx:37-44 | with solo 1450 for one and LEVEL 1950 for two, every LEVEL menu price, "Just me" included, equals the hook's total |
| RegistrationTypeSection.LevelMenuDivergesUnderFlatTable | components/registration/registration-type-section.tsx:40-44 | with a LEVEL entry of 1450 for one, a 2..10 entry's price agrees with the hook exactly when the fee is 500 |
| PriceCalculation.FindType | hooks/use-price-calculation.ts:12-13 | finds the first entry with the id, or none when no entry has it |
| PriceCalculation.TotalAtLeastBase | hooks/use-price-calculation.ts:18-26 | with a fee ≥ 0 the total is never below the base |
| PriceCalculation.TotalMonotone | hooks/use-price-calculation.ts:18-26 | with a fee ≥ 0 more attendees never cost less |
| PaymentMethodSection.ValueRoundTrip | components/registration/payment-method-section.tsx:10-23 | reading a value back from its ticked options gives the value |
| PaymentMethodSection.SelectionRoundTrip | components/registration/payment-method-section.tsx:10-23 | turning any set of options into a value and back gives the same set |
| PaymentMethodSection.SelectionCases | components/registration/payment-method-section.tsx:18-23 | every set of options is one of the four subsets of {credit, loyalty} |
| PaymentMethodSection.ToggleFlipsOne | components/registration/payment-method-section.tsx:68-72 | a toggle flips the clicked option and no other |
| PaymentMethodSection.ToggleTwiceRestores | components/registration/payment-method-section.tsx:64-76 | clicking the same option twice restores the value |
| PaymentMethodSection.ComboFromBothOptions | components/registration/payment-method-section.tsx:64-76 | ticking loyalty beside credit gives 'combo', which is no `PaymentMethod` and which the schema rejects |
| PaymentMethodSection.HandleToggle | components/registration/payment-method-section.tsx:64-82 | writes the toggled value; clears the field's error only when a value results |
| PaymentMethodSection.PaymentOptions | components/registration/payment-method-section.tsx:33-55 | credit card always, first; loyalty second exactly when alumni or LEVEL is a yes, worded for Canadian salons or others |
| PaymentMethodSection.ClearHiddenLoyalty | components/registration/payment-method-section.tsx:58-62 | when loyalty is hidden a loyalty or combo value becomes unset, credit and unset stay; afterwards no hidden option is ticked |
| Validations.LocationChecksHold | lib/validations.ts:31-41 | summit id non-empty, salon 2..100, city 2..50 characters and a known state; only the state enum aborts |
| Validations.PrimaryChecksHold | lib/validations.ts:13-27 | first and last name 1..50, e-mail 1..254 and well-formed; none aborts |
| Validations.CountChecksHold | lib/validations.ts:45-53 | the type is one of the four ids (an aborting enum) and the count lies in [0, 10] with no integer check |
| Validations.AttendeeListChecksHold | lib/validations.ts:6-11 | the list's item checks hold exactly when every name has 2..100 characters |
| Validations.AttendeeListChecks | lib/validations.ts:55 | no check of an attendee name aborts the parse |
| Validations.ClosingChecksHold | lib/validations.ts:55-57 | at most 10 names, and a payment method of 'credit' or 'loyalty' (an aborting enum) |
| Validations.FieldIssuesEmpty | lib/validations.ts:29-58 | the field rules report nothing exactly when every field rule holds |
| Validations.AbortedIff | lib/validations.ts:41-57 | a parse is aborted exactly when some reported issue is one that stops parsing |
| Validations.ValidIff | lib/validations.ts:29-65 | `safeParse` reports no issue exactly when every field rule and the refinement hold |
| Validations.ValidCountIsWhole | lib/validations.ts:50-65 | an accepted input has a whole count 0..10 equal to the number of names, each of 2..100 characters |
| Validations.ComboRejected | lib/validations.ts:57 | 'combo' is reported at `paymentMethod`, the refinement is skipped, the input is rejected |
| Validations.CountMismatchReported | lib/validations.ts:59-65 | when only the count and the list disagree, the one issue is the refinement's, at `additionalAttendees` |
| Validations.AbortHidesRefine | lib/validations.ts:59-65 | an aborted parse never reports the refinement |
| AdditionalAttendeesSection.SyncAttendees | components/registration/additional-attendees-section.tsx:25-36 | while the section is mounted (count > 0) the list becomes exactly `additionalCount` long, keeping its prefix and padding with blank names, and the schema's count refinement holds; at count 0 the section is unmounted and the list is kept unchanged |
| AdditionalAttendeesSection.SyncAttendeesAtEveryCount | components/registration/additional-attendees-section.tsx:25-36 | corrected sync that runs at every count: the list is resized to the count, and the refinement holds whatever the count |
| AdditionalAttendeesSection.StaleAttendeesScenario | components/registration/registration-form.tsx:177 | as written: LEVEL "Yes", "3 people", then "Just me" leaves two hidden blank names at count 0, so the refinement fails and no input is accepted while the button is live |
| AdditionalAttendeesSection.ClearedAttendeesScenario | components/registration/registration-form.tsx:177 | the same steps with the corrected sync leave an empty list that the refinement accepts |
| FieldArrays.SyncToCount | components/registration/additional-attendees-section.tsx:26-35 | the append loop and the remove-from-the-end loop leave the list resized to the count |
| FieldArrays.Resized | components/registration/additional-attendees-section.tsx:27-35 | the resized list has the target length, the old entries below it, blanks after them |
| FieldArrays.ResizedSameLength | components/registration/additional-attendees-section.tsx:26-35 | a list already of the target length is unchanged |
| FieldArrays.ResizedIdempotent | components/registration/additional-attendees-section.tsx:25-36 | syncing twice to the same count is syncing once |
| FieldArrays.FieldArray.Append | components/registration/additional-attendees-section.tsx:29 | `append` adds one entry at the end |
| FieldArrays.FieldArray.Remove | components/registration/additional-attendees-section.tsx:33 | `remove(i)` drops exactly the entry at i |
| AdditionalAttendeesSection.AttendeeLabelsDistinct | components/registration/additional-attendees-section.tsx:58 | different fields get different "Attendee n" labels |
| AdditionalAttendeesSection.AttendeeLabelNumber | components/registration/additional-attendees-section.tsx:58 | the label of field i reads "Attendee " then the number i+2 |
| RegistrationForm.SummitForm.constructor | components/registration/registration-form.tsx:39-54 | the default values: empty strings, no answers, count 0, no names, no errors; the selector is open unless a summit parameter is given |
| RegistrationForm.FindSummit | components/registration/registration-form.tsx:64 | finds the summit with the id, or none when no loaded summit has it |
| RegistrationForm.SummitName | components/registration/registration-form.tsx:89-91 | '' when no summit has the selected id |
| RegistrationForm.SummitNameOfDate | components/registration/registration-form.tsx:89-91 | for a selected summit starting on a real calendar date the name reads "Summit - location - Month day-nextday, year" |
| RegistrationForm.SummitForm.PreselectSummit | components/registration/registration-form.tsx:66-74 | selects the parameter's summit and closes the selector exactly when the parameter is set, summits are loaded, none is selected and one matches; otherwise changes nothing |
| RegistrationForm.SummitForm.SelectSummit | components/registration/registration-form.tsx:76-79 | sets the summit, closes the selector and replaces only the `summitId` error with what a fresh validation reports there |
| RegistrationForm.Revalidated | components/registration/registration-form.tsx:77 | re-validating one path changes that path's error only |
| RegistrationForm.FirstErrors | components/registration/registration-form.tsx:40 | the form records an error for exactly the paths that have an issue |
| RegistrationForm.FirstErrorsKeepFirst | components/registration/registration-form.tsx:40 | the message kept at a path is that of its first issue |
| RegistrationForm.SummitForm.SubmissionBody | components/registration/registration-form.tsx:89-104 | the posted body carries the values the schema validates, the summit name, the alumni and LEVEL answers and the total count as the form holds them, and a price exactly when the pricing has one, equal to its total |
| RegistrationForm.SummitForm.Submit | components/registration/registration-form.tsx:81-104 | a rejected input records the first error per path and posts nothing; an accepted one clears errors, starts submitting and posts the body |
| RegistrationForm.SummitForm.FinishSubmit | components/registration/registration-form.tsx:106-119 | a 2xx shows success; otherwise the response's error, or "Failed to submit registration"; submitting ends either way |
| RegistrationForm.SubmitEnabledHasPrice | components/registration/registration-form.tsx:192 | a live submit button implies a chosen summit, a type and a price in the body |
| RegistrationForm.PricingDependsOnTypeAndCount | components/registration/registration-form.tsx:63 | two forms that agree on the type and the count show the same price |
| RegistrationForm.ValidFormPassesServer | components/registration/registration-form.tsx:81-104 | a body that passed the form's validation is never answered 400 by a configured route |
| RegistrationForm.ValidFormCount | components/registration/registration-form.tsx:81-104 | a validated form posts a whole count 0..10 equal to its number of names |
| RegisterRoute.AttendeesTextLines | app/api/register/route.ts:27-29 | splitting the attendee text on newlines gives back the numbered lines, when no name holds a newline |
| RegisterRoute.FormFieldsShape | app/api/register/route.ts:41-57 | fifteen fields with the HubSpot names in order; only `mobilephone` has no value |
| RegisterRoute.ExtrasDefaults | app/api/register/route.ts:42-56 | missing summit name and date give '', the answers default to "false", a missing or zero price gives "0" |
| RegisterRoute.AttendeeTotalDefault | app/api/register/route.ts:49 | a missing or zero total is sent as "1" |
| RegisterRoute.ValidPaymentField | app/api/register/route.ts:55 | an accepted body always sends 'credit_card' or 'level' |
| RegisterRoute.ContextHutk | app/api/register/route.ts:58-62 | `hutk` present exactly when the cookie is set and non-empty; page URI is the referer or ''; fixed page name |
| RegisterRoute.PostStatus | app/api/register/route.ts:8-102 | 200 exactly when configured, parsed, valid and HubSpot accepts; 400 exactly for a configured route and an invalid body, with the schema's issues; else 500 |
| RegisterRoute.PostSendsOnlyValid | app/api/register/route.ts:17-75 | a submission reaches HubSpot exactly when the body is accepted, and it is the built one |
| CampValidations.BlankPhoneRejected | lib/camp-validations.ts:11-12 | an empty or white-space-only phone is invalid |
| CampValidations.ForeignCharRejected | lib/camp-validations.ts:13 | any character outside digits, `+ ( ) - .` and white space makes the phone invalid |
| CampValidations.DigitsOf | lib/camp-validations.ts:15 | removing non-digits leaves only digits, never more characters |
| CampValidations.DigitsOfTrim | lib/camp-validations.ts:11-15 | trimming never removes a digit |
| CampValidations.PhoneDigitRule | lib/camp-validations.ts:15-16 | for a non-blank number of allowed characters, valid iff it has 10 digits, or 11 starting with 1 |
| CampValidations.PhoneDependsOnlyOnDigits | lib/camp-validations.ts:13-16 | two such numbers with the same digits are both valid or both invalid |
| CampValidations.CampAttendeeChecksHold | lib/camp-validations.ts:19-33 | an attendee's checks hold iff the name has 2..100 characters, the e-mail 1..254 and is well-formed, and the phone is present and valid |
| CampValidations.CampAttendeeListChecks | lib/camp-validations.ts:74-75 | no check of an attendee's details aborts |
| CampValidations.CampAttendeeListChecksHold | lib/camp-validations.ts:74-75 | the list's checks hold exactly when every attendee is acceptable |
| CampValidations.EmailChecksHold | lib/camp-validations.ts:44-48 | the e-mail checks hold iff 1..254 characters and well-formed; none aborts |
| CampValidations.CampPrimaryChecksHold | lib/camp-validations.ts:35-53 | names 1..50, a good e-mail and a present, valid mobile; only a missing phone aborts |
| CampValidations.CampLocationChecksHold | lib/camp-validations.ts:57-67 | salon 2..100, city 2..50, a known state; only the state enum aborts |
| CampValidations.TotalAttendeesChecksHold | lib/camp-validations.ts:69-73 | the count's checks hold iff it is whole and in [1, 6]; only a fraction aborts |
| CampValidations.CampClosingChecksHold | lib/camp-validations.ts:74-85 | at most 5 additional attendees, one of the three camp methods, the policy acknowledged; only the method enum aborts |
| CampValidations.CampFieldIssuesEmpty | lib/camp-validations.ts:55-86 | the field rules report nothing exactly when every field rule holds |
| CampValidations.CampAbortedIff | lib/camp-validations.ts:65-79 | a parse is aborted exactly when some reported issue stops parsing |
| CampValidations.CampValidIff | lib/camp-validations.ts:55-93 | `safeParse` reports no issue exactly when every field rule and the refinement hold |
| CampValidations.CampValidCount | lib/camp-validations.ts:69-93 | an accepted input has a whole total 1..6 and exactly total−1 additional attendees |
| CampValidations.FractionalTotalAborts | lib/camp-validations.ts:69-71 | a fractional total is reported at `totalAttendees`, the refinement is skipped, the input is rejected |
| CampValidations.CancellationRequired | lib/camp-validations.ts:80-85 | without the acknowledgment the input is rejected at `cancellationPolicyAccepted` |
| CampValidations.UnknownCampPaymentRejected | lib/camp-validations.ts:77-79 | a method outside the three is reported at `paymentMethod` and the refinement is skipped |
| CampEssence.PaymentOptionsMatchMethods | lib/camp-essence.ts:12-41 | three distinct methods, and the options list exactly those ids in order |
| CampEssence.EventTimestampMatchesStartDate | lib/camp-essence.ts:5-7 | the timestamp's zero-based month 6 and day 23 are July 23 of the start date's year |
| CampEssence.EventMonthIsJuly | lib/camp-essence.ts:7 | zero-based month 6 is July |
| CampEssence.EventTimestampIsStartDay | lib/camp-essence.ts:7 | the timestamp is midnight UTC of the start day, which is an existing date |
| CampEssence.StartAndEndShareMonth | lib/camp-essence.ts:5-6 | start and end share year and month, the start day first |
| CampAdditionalAttendeesSection.AdditionalCountMatchesSchema | components/camp-registration/camp-additional-attendees-section.tsx:17 | the section's count max(0, (total‖0)−1) is the one the schema's refinement asks for |
| CampAdditionalAttendeesSection.SyncCampAttendees | components/camp-registration/camp-additional-attendees-section.tsx:24-39 | the list becomes exactly the target length, keeping its prefix; a count of 0 empties it; the refinement then holds |
| CampAdditionalAttendeesSection.SyncGrowsAtEnd | components/camp-registration/camp-additional-attendees-section.tsx:27-31 | growing keeps every entry and appends blank name, e-mail and phone entries |
| CampAdditionalAttendeesSection.SyncShrinksFromEnd | components/camp-registration/camp-additional-attendees-section.tsx:34-38 | shrinking keeps the first `count` entries |
| CampAdditionalAttendeesSection.RendersNothingIff | components/camp-registration/camp-additional-attendees-section.tsx:41-43 | the section is hidden exactly when the total is at most 1 or unset |
| CampRegistrationForm.FormatDateRangeSameMonth | components/camp-registration/camp-registration-form.tsx:34-39 | two dates in one month read "<Month> d1-d2, yyyy" |
| CampRegistrationForm.FormatDateRangeAcrossMonths | components/camp-registration/camp-registration-form.tsx:41-49 | other dates read "<Month d, yyyy> - <Month d, yyyy>" |
| CampRegistrationForm.CampDateRange | components/camp-registration/camp-registration-form.tsx:116-119 | the camp's dates read "July 23-26, 2026" |
| CampRegistrationForm.DisplayedTotalCases | components/camp-registration/camp-registration-form.tsx:75-77 | an unset count shows 1950; a menu count n shows 1950·n, between 1950 and 11700 |
| CampRegistrationForm.AttendeeOptionsAscend | components/camp-registration/camp-registration-form.tsx:79-88 | the menu's counts strictly ascend |
| CampRegistrationForm.AttendeeOptionsMatchSchema | components/camp-registration/camp-registration-form.tsx:79-88 | a count is on the menu exactly when the schema's count checks accept it |
| CampRegistrationForm.ChoiceTextWords | components/camp-registration/camp-registration-form.tsx:84 | the label reads the count, then "person" for 1 and "people" otherwise |
| CampRegistrationForm.DefaultInputState | components/camp-registration/camp-registration-form.tsx:59-71 | the defaults satisfy the refinement but are rejected, at the salon name and the policy among others |
| CampRegistrationForm.CampForm.constructor | components/camp-registration/camp-registration-form.tsx:53-73 | the form starts from the default values with nothing submitted |
| CampRegistrationForm.CampForm.Submit | components/camp-registration/camp-registration-form.tsx:90-98 | a rejected input records the first error per path and posts nothing; an accepted one starts submitting and is the body |
| CampRegistrationForm.CampForm.FinishSubmit | components/camp-registration/camp-registration-form.tsx:101-113 | a 2xx shows the confirmation; otherwise the response's error or the fallback; submitting ends |
| CampRoute.FormGuidOf | app/api/register/camp-essence/route.ts:12-13 | the form GUID is the variable when set, else the constant, never empty |
| CampRoute.FormatAdditionalAttendeesEmpty | app/api/register/camp-essence/route.ts:15-24 | the attendee text is empty exactly when there are no additional attendees |
| CampRoute.FormatAdditionalAttendeesAppend | app/api/register/camp-essence/route.ts:18-23 | another attendee adds one block numbered after the others, set off by a blank line |
| CampRoute.CampFieldsShape | app/api/register/camp-essence/route.ts:46-82 | thirteen fields with the HubSpot names in order, the constant location and the event's UTC midnight first, the payment method passed through |
| CampRoute.CampContextHutk | app/api/register/camp-essence/route.ts:83-87 | `hutk` present exactly when the cookie is set and non-empty; fixed page name |
| CampRoute.AmountFieldsReadBack | app/api/register/camp-essence/route.ts:40-41 | the count and total fields read back as n and n·1950 |
| CampRoute.ValidCampAmounts | app/api/register/camp-essence/route.ts:40-78 | for accepted data the count is 1..6, the total is n·1950 as displayed, the method is a camp method and the policy field is "true" |
| CampRoute.IsFormNotFoundIgnoresCase | app/api/register/camp-essence/route.ts:116-120 | the classification ignores letter case |
| CampRoute.PhraseAnywhereIsFormNotFound | app/api/register/camp-essence/route.ts:116-120 | one of the three phrases at any position means a missing form |
| CampRoute.NoPhraseIsOtherFailure | app/api/register/camp-essence/route.ts:116-120 | without the phrases the failure is not a missing form |
| CampRoute.ConfigErrorOnlyWithoutPortal | app/api/register/camp-essence/route.ts:27-33 | the configuration error happens exactly when the portal id is missing |
| CampRoute.CampPostStatus | app/api/register/camp-essence/route.ts:26-168 | 200 exactly when configured, parsed, valid and accepted; 400 exactly for an invalid body, with its issues; else 500 |
| CampRoute.CampPostSendsOnlyValid | app/api/register/camp-essence/route.ts:35-99 | a submission reaches HubSpot exactly when the body is accepted, and it is the built one |
| CampRoute.RejectionMessages | app/api/register/camp-essence/route.ts:129-142 | a HubSpot rejection is a 500 naming the missing form exactly when the message mentions it, the generic error otherwise |
| Utils.KeptClasses | lib/utils.ts:4 | `filter(Boolean)` keeps no empty class and keeps none exactly when no input is truthy |
| Utils.CnEmpty | lib/utils.ts:3-5 | `cn` gives '' exactly when no input is truthy |
| Utils.CnSingle | lib/utils.ts:3-5 | a single truthy input is printed on its own |
| Utils.CnAppend | lib/utils.ts:3-5 | two input lists give their classes in order, one space between |
| Utils.CnDropsFalsy | lib/utils.ts:3-5 | a falsy input anywhere changes nothing |
| Utils.FormatDateRangeOfDate | lib/utils.ts:16-27 | a real date gives its month name and day, then the next day or 1 at month end, then the year from the string |
| Utils.FormatSummitDisplayOfDate | lib/utils.ts:29-31 | for a summit starting on a real calendar date the line reads "Month day-nextday, year \| location", the next day being 1 on a month's last day |
| Dates.MakeDateExisting | lib/utils.ts:19 | `new Date(y, m, d)` of an existing date is that date |
| Dates.MakeDateNextDay | lib/utils.ts:20 | the day after an existing date is the next day of the month, the 1st of the next month or 1 January |
| Dates.RollDaysDayNumber | lib/utils.ts:20 | rolling a day through the months keeps the day it denotes |
| Dates.UtcDayIsMakeDate | lib/camp-essence.ts:7 | `Date.UTC` counts the same day that `new Date` builds |
| Dates.ParseDigitGroups | lib/utils.ts:18 | three digit groups joined by '-' split and read as their three numbers |
| Types.RegistrationTypeIdRoundTrip | lib/types.ts:26-30 | looking a registration type up by its id finds it again |
| Text.NatToStringRoundTrip | app/api/register/camp-essence/route.ts:61 | `String(n)` read back as digits gives n |
| Text.SplitJoin | app/api/register/route.ts:27-29 | splitting a join on the separator recovers the parts when no part holds it |
| Text.TrimEmpty | lib/camp-validations.ts:11-12 | the trimmed string is empty exactly when the string is all white space |
| Text.ContainsOccurrence | app/api/register/camp-essence/route.ts:117-120 | `includes` finds t exactly when t occurs at some index |

## Left out

- HTTP and I/O are not modelled: `fetch` to HubSpot, `NextResponse`, cookies and headers, `console` logging, and `JSON.parse`. Instead, the request body, the cookie, the referer and HubSpot's answer are parameters of `RegisterRoute.Post` and `CampRoute.CampPost`. A body that is not JSON is `None`.
- RegisterRoute.PostStatus and CampRoute.CampPostStatus: proved only for bodies whose fields have the schema's types. The body is a typed record (`RegisterBody`, `CampInput`), so a JSON body with a missing or wrongly typed field cannot be expressed. The routes answer such a body 400 "Validation failed" with `invalid_type` issues (app/api/register/route.ts:18-21, 87-95).
- `formatCurrency` (`Intl.NumberFormat`) is a parameter. The menu labels are built from it.
- `toLocaleDateString` is modelled only as the English long month names.
- `Date.UTC` is a day count times milliseconds per day (`Dates.UtcMillis`). Its numeric value is not computed.
- Date strings: only parts made of decimal digits are read, and an empty part reads as 0. Other strings give `None`, where the source would produce NaN or an Invalid Date.
- The constants file is not part of this model. So `REGISTRATION_TYPES`, `ADDITIONAL_ATTENDEE_PRICE`, `US_STATES` and `isCanadianProvince` are parameters.
- Zod's `.email()` format is the parameter `SchemaEnv.isEmail`.
- Issue messages are `Message` values, and `Message.Text` gives their strings. Zod's other issue fields are not modelled: codes, expected types and the limits it records.
- Numbers:
  - `valueAsNumber`'s NaN and `String()` of fractional numbers are not modelled.
  - The camp form's count is an integer, with 0 for an unset value.
  - The schemas read counts as reals, so fractions can be rejected.
- Strings are sequences of UTF-16 code units. `toLowerCase` folds only ASCII letters, and white space is the set of characters JavaScript's `trim` and `\s` recognise.
- React timing is not modelled (`watch`, effect scheduling, re-rendering). Each effect and handler is one method call on the form object.
- The `shouldValidate` re-validation after `setValue` is modelled only for `handleSummitSelect` (`RegistrationForm.SummitForm.SelectSummit`). The other `setValue` calls change the value and not the error map.
- Sections that only render are not modelled: the summit card and selector, the salon, primary-attendee and price-summary sections, the camp price-summary, payment and policy sections, the pages and the UI kit. The expired-summit notice and the summits route and hook (network search and caching) are left out too.
- The camp section's heading "Attendee i+2" (camp-additional-attendees-section.tsx:62) is the same text as `AdditionalAttendeesSection.AttendeeLabel`, and it is not modelled separately.
- RegistrationForm.SummitForm.FinishSubmit and CampRegistrationForm.CampForm.FinishSubmit: each form's `onSubmit` network call is a parameter, the `Response` passed to `FinishSubmit`. A rejected `fetch`, or the error `response.json()` throws on an error reply that is not JSON, is not modelled. Both forms show that error's message (components/registration/registration-form.tsx:106-116, components/camp-registration/camp-registration-form.tsx:101-111), or "Something went wrong" for a thrown value that is not an `Error`.
- The cancellation refund schedule is display text only, so it has no model.

## Findings

| source | as written | input that shows it | evidently intended | confidence | as-written member | corrected member |
|---|---|---|---|---|---|---|
| components/registration/registration-type-section.tsx:59 | the effect returns early when `totalAttendees` is undefined, so a registration type resolved earlier stays in the form after an answer change clears the count | answer alumni "Yes", pick 3 people, then answer "No": the count is unset but the alumni type, its price for 3 and a live submit button remain | clearing the count also clears the type, so no price shows and the form cannot be submitted until a count is chosen again | not executed | RegistrationTypeSection.StaleTypeScenario | RegistrationTypeSection.ClearedTypeScenario |
| components/registration/registration-form.tsx:177 | the additional-attendees section, whose effect keeps the name list in step with the count, is mounted only while `additionalCount > 0`, and the form library keeps the list when it unmounts | a LEVEL member picks "3 people" (two name fields appear), then "Just me": the count becomes 0 but the two blank entries stay, so the count refinement and the name checks reject every submit, with no field on screen to show why | a count of 0 also empties the list, as the camp form's always-mounted section does | not executed | AdditionalAttendeesSection.StaleAttendeesScenario | AdditionalAttendeesSection.ClearedAttendeesScenario |
