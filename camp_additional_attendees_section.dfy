/**
 * The Camp Essence additional-attendees section
 * (components/camp-registration/camp-additional-attendees-section.tsx):
 * name, e-mail and phone fields for every attendee besides the
 * registrant, kept in step with the attendee-count menu.
 */
module CampAdditionalAttendeesSection {
  import opened Text
  import opened FieldArrays
  import opened CampValidations
  import opened CampRegistrationForm

  const BlankCampAttendee := CampAttendee("", "", "")

  /** `Math.max(0, (totalAttendees || 0) - 1)`; 0 stands for an unset count. */
  function AdditionalCount(totalAttendees: int): nat {
    if totalAttendees - 1 > 0 then totalAttendees - 1 else 0
  }

  /** The section's count is the one the schema's refinement asks for. */
  lemma AdditionalCountMatchesSchema(totalAttendees: int)
    ensures AdditionalCount(totalAttendees) as real == AdditionalNeeded(totalAttendees as real)
    ensures totalAttendees >= 1 ==> AdditionalCount(totalAttendees) == totalAttendees - 1
    ensures totalAttendees <= 1 ==> AdditionalCount(totalAttendees) == 0
  {
  }

  /**
   * The sync effect: append blank entries to reach the count, or remove
   * entries from the end. It runs before the section decides to render
   * nothing, so a count of 0 empties the list. Afterwards the schema's
   * refinement holds for the form.
   */
  method SyncCampAttendees(form: CampForm)
    modifies form.additionalAttendees
    ensures form.additionalAttendees.fields ==
              Resized(old(form.additionalAttendees.fields), AdditionalCount(form.totalAttendees), BlankCampAttendee)
    ensures AdditionalCount(form.totalAttendees) == 0 ==> form.additionalAttendees.fields == []
    ensures CampRefineHolds(form.Input())
  {
    SyncToCount(form.additionalAttendees, AdditionalCount(form.totalAttendees), BlankCampAttendee);
    AdditionalCountMatchesSchema(form.totalAttendees);
  }

  /** Growing keeps every entry already there and appends blanks after them. */
  lemma SyncGrowsAtEnd(s: seq<CampAttendee>, count: nat)
    requires |s| <= count
    ensures Resized(s, count, BlankCampAttendee) == s + seq(count - |s|, _ => BlankCampAttendee)
  {
    var r := Resized(s, count, BlankCampAttendee);
    assert forall k :: 0 <= k < count ==> r[k] == (s + seq(count - |s|, _ => BlankCampAttendee))[k];
  }

  /** Shrinking keeps the first `count` entries. */
  lemma SyncShrinksFromEnd(s: seq<CampAttendee>, count: nat)
    requires count <= |s|
    ensures Resized(s, count, BlankCampAttendee) == s[..count]
  {
  }

  /** `additionalAttendeeCount === 0`: the section renders nothing. */
  predicate RendersNothing(totalAttendees: int) {
    AdditionalCount(totalAttendees) == 0
  }

  /** The section is hidden exactly when the registrant comes alone or the count is unset. */
  lemma RendersNothingIff(totalAttendees: int)
    ensures RendersNothing(totalAttendees) <==> totalAttendees <= 1
  {
  }
}
