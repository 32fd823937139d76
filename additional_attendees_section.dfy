/**
 * The summit's additional-attendees section
 * (components/registration/additional-attendees-section.tsx): one name
 * field per additional attendee, kept in step with the count the
 * registration-type effect writes.
 */
module AdditionalAttendeesSection {
  import opened Wrappers
  import opened Text
  import opened Types
  import opened FieldArrays
  import opened Validations
  import opened Prices = PriceCalculation
  import opened RegistrationForm
  import opened RegistrationTypeSection

  const BlankAttendee := Attendee("")

  /**
   * The sync effect, as the form mounts it: the section, and so its
   * effect, exists only while `additionalCount > 0`. While mounted, grow
   * the name list with blank entries, or shrink it from the end, until it
   * has one entry per additional attendee; entries that stay keep what was
   * typed, and afterwards the schema's count rule holds. At a count of 0
   * the section is unmounted, nothing runs, and the form library keeps the
   * list as it was.
   */
  method SyncAttendees(form: SummitForm)
    modifies form.additionalAttendees
    ensures form.ShowsAdditionalAttendees() ==>
              form.additionalAttendees.fields ==
                Resized(old(form.additionalAttendees.fields), form.additionalAttendeeCount, BlankAttendee)
              && RefineHolds(form.Input())
    ensures !form.ShowsAdditionalAttendees() ==>
              form.additionalAttendees.fields == old(form.additionalAttendees.fields)
  {
    if form.ShowsAdditionalAttendees() {
      SyncToCount(form.additionalAttendees, form.additionalAttendeeCount, BlankAttendee);
    }
  }

  /**
   * The sync with the evident intent restored: the effect runs at every
   * count, as the camp form's always-mounted section does, so a count of 0
   * empties the list and the count rule holds whatever the count.
   */
  method SyncAttendeesAtEveryCount(form: SummitForm)
    modifies form.additionalAttendees
    ensures form.additionalAttendees.fields ==
              Resized(old(form.additionalAttendees.fields), form.additionalAttendeeCount, BlankAttendee)
    ensures RefineHolds(form.Input())
  {
    SyncToCount(form.additionalAttendees, form.additionalAttendeeCount, BlankAttendee);
  }

  /**
   * As written: a LEVEL member picks "3 people" (two blank names appear),
   * then "Just me". The count drops to 0 and the section unmounts, but
   * the two hidden entries stay, so the schema rejects every submit and
   * the fields that would show the errors are gone, while the button is live.
   */
  method StaleAttendeesScenario(table: seq<RegistrationTypeOption>, fee: int) returns (form: SummitForm)
    requires FindType(table, LevelMemberSolo).Some?
    ensures form.registrationType == Some(LevelMemberSolo) && form.additionalAttendeeCount == 0
    ensures form.additionalAttendees.fields == [BlankAttendee, BlankAttendee]
    ensures !form.ShowsAdditionalAttendees() && !form.SubmitDisabled()
    ensures !RefineHolds(form.Input()) && forall env :: !Valid(env, form.Input())
  {
    form := new SummitForm(Some("summit-1"), table, fee);
    form.PreselectSummit(Some("summit-1"), ScenarioSummits);
    AnswerAlumniNo(form);
    AnswerLevelMember(form, true);
    ChooseTotalAttendees(form, 3);
    SyncRegistrationType(form);
    SyncAttendees(form);
    assert form.additionalAttendees.fields == [BlankAttendee, BlankAttendee];
    ChooseTotalAttendees(form, 1);
    SyncRegistrationType(form);
    SyncAttendees(form);
  }

  /** The same steps with the corrected sync leave an empty list that the count rule accepts. */
  method ClearedAttendeesScenario(table: seq<RegistrationTypeOption>, fee: int) returns (form: SummitForm)
    requires FindType(table, LevelMemberSolo).Some?
    ensures form.registrationType == Some(LevelMemberSolo) && form.additionalAttendeeCount == 0
    ensures form.additionalAttendees.fields == []
    ensures !form.SubmitDisabled() && RefineHolds(form.Input())
  {
    form := new SummitForm(Some("summit-1"), table, fee);
    form.PreselectSummit(Some("summit-1"), ScenarioSummits);
    AnswerAlumniNo(form);
    AnswerLevelMember(form, true);
    ChooseTotalAttendees(form, 3);
    SyncRegistrationType(form);
    SyncAttendeesAtEveryCount(form);
    ChooseTotalAttendees(form, 1);
    SyncRegistrationType(form);
    assert form.additionalAttendeeCount == 0;
    SyncAttendeesAtEveryCount(form);
    assert |form.additionalAttendees.fields| == 0;
  }

  /** The label of the name field at `index`: the primary registrant is attendee 1. */
  function AttendeeLabel(index: nat): string {
    "Attendee " + NatToString(index + 2)
  }

  /** Different fields get different labels. */
  lemma AttendeeLabelsDistinct(i: nat, j: nat)
    requires i != j
    ensures AttendeeLabel(i) != AttendeeLabel(j)
  {
    var prefix := "Attendee ";
    if AttendeeLabel(i) == AttendeeLabel(j) {
      assert AttendeeLabel(i)[|prefix|..] == NatToString(i + 2);
      assert AttendeeLabel(j)[|prefix|..] == NatToString(j + 2);
      NatToStringInjective(i + 2, j + 2);
    }
  }

  /** The number in a label reads back as the field's index plus two. */
  lemma AttendeeLabelNumber(index: nat)
    ensures StartsWith(AttendeeLabel(index), "Attendee ")
    ensures DigitsValue(AttendeeLabel(index)[9..]) == index + 2
  {
    assert AttendeeLabel(index)[9..] == NatToString(index + 2);
    NatToStringRoundTrip(index + 2);
  }
}
