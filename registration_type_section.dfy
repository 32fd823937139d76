/**
 * The registration-type section (components/registration/registration-type-section.tsx):
 * the two yes/no questions, the attendee-count menu with its prices, and
 * the effect that turns the answers into a registration type and a number
 * of additional attendees. Currency formatting is `Intl.NumberFormat`,
 * which this model takes as a parameter.
 */
module RegistrationTypeSection {
  import opened Wrappers
  import opened Text
  import opened Types
  import opened Prices = PriceCalculation
  import opened RegistrationForm

  datatype AttendeeOption = AttendeeOption(count: int, price: int, text: string)

  /** The label of a menu entry for several people. */
  function PeopleLabel(count: nat, price: int, formatCurrency: int -> string): string {
    NatToString(count) + " people — " + formatCurrency(price)
  }

  /** The menu entry for `count` people, from a base price for two and a fee per further person. */
  function LadderEntry(count: nat, base: int, fee: int, formatCurrency: int -> string): AttendeeOption {
    var price := base + (count - 2) * fee;
    AttendeeOption(count, price, PeopleLabel(count, price, formatCurrency))
  }

  /** The nine entries for 2 to 10 people, in order. */
  predicate IsLadder(options: seq<AttendeeOption>, base: int, fee: int, formatCurrency: int -> string) {
    |options| == 9 && forall k :: 0 <= k < 9 ==> options[k] == LadderEntry(k + 2, base, fee, formatCurrency)
  }

  /** One `for (let i = 2; i <= 10; i++) options.push(...)` loop. */
  method PushLadder(options: seq<AttendeeOption>, base: int, fee: int, formatCurrency: int -> string)
    returns (r: seq<AttendeeOption>)
    ensures |r| == |options| + 9
    ensures r[..|options|] == options
    ensures IsLadder(r[|options|..], base, fee, formatCurrency)
  {
    r := options;
    for i := 2 to 11
      invariant |r| == |options| + i - 2
      invariant r[..|options|] == options
      invariant forall k :: |options| <= k < |r| ==> r[k] == LadderEntry(k - |options| + 2, base, fee, formatCurrency)
    {
      var additionalCount := i - 2;
      var price := base + additionalCount * fee;
      r := r + [AttendeeOption(i, price, PeopleLabel(i, price, formatCurrency))];
    }
  }

  /** The counts of a menu rise strictly and lie between 1 and 10. */
  predicate CountsAscendInRange(options: seq<AttendeeOption>) {
    && (forall k :: 0 <= k < |options| ==> 1 <= options[k].count <= 10)
    && (forall j, k :: 0 <= j < k < |options| ==> options[j].count < options[k].count)
  }

  lemma LadderCounts(options: seq<AttendeeOption>, base: int, fee: int, formatCurrency: int -> string)
    requires IsLadder(options, base, fee, formatCurrency)
    ensures CountsAscendInRange(options)
    ensures forall k :: 0 <= k < |options| ==> options[k].count >= 2
  {
    forall k | 0 <= k < |options|
      ensures options[k].count == k + 2
    {
      assert options[k] == LadderEntry(k + 2, base, fee, formatCurrency);
    }
  }

  /**
   * `attendeeOptions`: for an alumnus, 2 to 10 people from 1250; else for a
   * LEVEL member, "Just me" at 1450 and then 2 to 10 people from 1950; when
   * both answers are no, 2 to 10 people from 2750; otherwise no entries.
   */
  method AttendeeOptions(isAlumni: Option<bool>, isLevelMember: Option<bool>, fee: int,
                         formatCurrency: int -> string)
    returns (options: seq<AttendeeOption>)
    ensures isAlumni == Some(true) ==> IsLadder(options, 1250, fee, formatCurrency)
    ensures isAlumni != Some(true) && isLevelMember == Some(true) ==>
              |options| == 10
              && options[0] == AttendeeOption(1, 1450, "Just me — " + formatCurrency(1450))
              && IsLadder(options[1..], 1950, fee, formatCurrency)
    ensures isAlumni == Some(false) && isLevelMember == Some(false) ==> IsLadder(options, 2750, fee, formatCurrency)
    ensures !(isAlumni == Some(true) || isLevelMember == Some(true) || (isAlumni == Some(false) && isLevelMember == Some(false)))
            ==> options == []
    ensures CountsAscendInRange(options)
  {
    options := [];
    if isAlumni == Some(true) {
      options := PushLadder(options, 1250, fee, formatCurrency);
      LadderCounts(options, 1250, fee, formatCurrency);
    } else if isLevelMember == Some(true) {
      options := options + [AttendeeOption(1, 1450, "Just me — " + formatCurrency(1450))];
      options := PushLadder(options, 1950, fee, formatCurrency);
      LadderCounts(options[1..], 1950, fee, formatCurrency);
      assert forall k :: 1 <= k < |options| ==> options[k] == options[1..][k - 1];
    } else if isAlumni == Some(false) && isLevelMember == Some(false) {
      options := PushLadder(options, 2750, fee, formatCurrency);
      LadderCounts(options, 2750, fee, formatCurrency);
    }
  }

  /**
   * The decision tree of the effect: a yes on alumni wins; else a LEVEL
   * member is solo exactly for one attendee; two noes make a non-member;
   * any other combination of answers resolves to no type.
   */
  function ResolveType(isAlumni: Option<bool>, isLevelMember: Option<bool>, totalAttendees: int): Option<RegistrationType> {
    if isAlumni == Some(true) then Some(Alumni)
    else if isLevelMember == Some(true) then Some(if totalAttendees == 1 then LevelMemberSolo else LevelMember)
    else if isAlumni == Some(false) && isLevelMember == Some(false) then Some(NonLevelMember)
    else None
  }

  /** Each of the four types comes from exactly one kind of answer. */
  lemma ResolveTypeCases(isAlumni: Option<bool>, isLevelMember: Option<bool>, total: int)
    ensures ResolveType(isAlumni, isLevelMember, total) == Some(Alumni) <==> isAlumni == Some(true)
    ensures ResolveType(isAlumni, isLevelMember, total) == Some(LevelMemberSolo) <==>
              isAlumni != Some(true) && isLevelMember == Some(true) && total == 1
    ensures ResolveType(isAlumni, isLevelMember, total) == Some(LevelMember) <==>
              isAlumni != Some(true) && isLevelMember == Some(true) && total != 1
    ensures ResolveType(isAlumni, isLevelMember, total) == Some(NonLevelMember) <==>
              isAlumni == Some(false) && isLevelMember == Some(false)
    ensures ResolveType(isAlumni, isLevelMember, total).None? <==>
              isAlumni != Some(true) && isLevelMember != Some(true) && !(isAlumni == Some(false) && isLevelMember == Some(false))
  {
  }

  /** A menu is offered exactly when the answers resolve to a type, whatever the count. */
  lemma MenuIffResolved(isAlumni: Option<bool>, isLevelMember: Option<bool>, total: int)
    ensures ResolveType(isAlumni, isLevelMember, total).Some? <==>
              (isAlumni == Some(true) || isLevelMember == Some(true) || (isAlumni == Some(false) && isLevelMember == Some(false)))
  {
  }

  /**
   * The registration-type effect: with a count chosen and a type resolved,
   * write the type and one fewer additional attendees than the count (never
   * below 0); in every other case write nothing.
   */
  method SyncRegistrationType(form: SummitForm)
    modifies form`registrationType, form`additionalAttendeeCount
    ensures old(form.totalAttendees).Some? &&
              ResolveType(form.isAlumni, form.isLevelMember, form.totalAttendees.value).Some? ==>
              form.registrationType == ResolveType(form.isAlumni, form.isLevelMember, form.totalAttendees.value)
              && form.additionalAttendeeCount == Max0(form.totalAttendees.value - 1)
    ensures !(old(form.totalAttendees).Some? &&
              ResolveType(form.isAlumni, form.isLevelMember, form.totalAttendees.value).Some?) ==>
              form.registrationType == old(form.registrationType)
              && form.additionalAttendeeCount == old(form.additionalAttendeeCount)
  {
    if form.totalAttendees.None? {
      return;
    }
    var total := form.totalAttendees.value;
    var additionalNamesNeeded := Max0(total - 1);
    var regType := ResolveType(form.isAlumni, form.isLevelMember, total);
    if regType.Some? {
      form.registrationType := regType;
      form.additionalAttendeeCount := additionalNamesNeeded;
    }
  }

  /**
   * The effect with the evident intent restored: a count that is not
   * chosen also clears the registration type, so a price (and a live
   * submit button) shows only while a count is chosen.
   */
  method SyncRegistrationTypeClearing(form: SummitForm)
    modifies form`registrationType, form`additionalAttendeeCount
    ensures var resolved := if form.totalAttendees.Some?
                            then ResolveType(form.isAlumni, form.isLevelMember, form.totalAttendees.value) else None;
      && form.registrationType == resolved
      && form.additionalAttendeeCount == if resolved.Some? then Max0(form.totalAttendees.value - 1)
                                        else old(form.additionalAttendeeCount)
    ensures form.Pricing().Some? ==> form.totalAttendees.Some?
  {
    if form.totalAttendees.None? {
      form.registrationType := None;
      return;
    }
    var total := form.totalAttendees.value;
    var regType := ResolveType(form.isAlumni, form.isLevelMember, total);
    form.registrationType := regType;
    if regType.Some? {
      form.additionalAttendeeCount := Max0(total - 1);
    }
  }

  /** One summit, for the scenarios below. */
  const ScenarioSummits: seq<Summit> := [Summit("summit-1", "2026-03-02", "Dallas")]

  /**
   * As written: an alumnus picks 3 people, then changes the answer to "No".
   * The count is cleared but the alumni type stays, so the alumni price
   * for 3 stays on screen and the form can be submitted with no count.
   */
  method StaleTypeScenario(table: seq<RegistrationTypeOption>, fee: int) returns (form: SummitForm)
    requires HasEntry(table, Alumni, 1250, 2)
    ensures form.isAlumni == Some(false) && form.totalAttendees.None?
    ensures form.registrationType == Some(Alumni) && form.additionalAttendeeCount == 2
    ensures form.Pricing().Some? && form.Pricing().value.total == 1250 + fee
    ensures !form.SubmitDisabled()
  {
    form := new SummitForm(Some("summit-1"), table, fee);
    form.PreselectSummit(Some("summit-1"), ScenarioSummits);
    AnswerAlumniYes(form);
    ChooseTotalAttendees(form, 3);
    SyncRegistrationType(form);
    AnswerAlumniNo(form);
    SyncRegistrationType(form);
  }

  /** The same steps with the corrected effect leave the submit button disabled. */
  method ClearedTypeScenario(table: seq<RegistrationTypeOption>, fee: int) returns (form: SummitForm)
    requires HasEntry(table, Alumni, 1250, 2)
    ensures form.isAlumni == Some(false) && form.totalAttendees.None?
    ensures form.registrationType.None? && form.Pricing().None?
    ensures form.SubmitDisabled()
  {
    form := new SummitForm(Some("summit-1"), table, fee);
    form.PreselectSummit(Some("summit-1"), ScenarioSummits);
    AnswerAlumniYes(form);
    ChooseTotalAttendees(form, 3);
    SyncRegistrationTypeClearing(form);
    AnswerAlumniNo(form);
    SyncRegistrationTypeClearing(form);
  }

  /** `showAttendeesQuestion`. */
  predicate ShowAttendeesQuestion(isAlumni: Option<bool>, isLevelMember: Option<bool>) {
    isAlumni.Some? && (isAlumni.value || isLevelMember.Some?)
  }

  /** The count question shows only once the answers resolve to a type, so that a chosen count prices. */
  lemma QuestionShownOnlyWhenResolvable(isAlumni: Option<bool>, isLevelMember: Option<bool>, total: int)
    requires ShowAttendeesQuestion(isAlumni, isLevelMember)
    ensures ResolveType(isAlumni, isLevelMember, total).Some?
  {
    if isAlumni.value {
      assert isAlumni == Some(true);
    } else {
      assert isAlumni == Some(false);
      if isLevelMember.value {
        assert isLevelMember == Some(true);
      } else {
        assert isLevelMember == Some(false);
      }
    }
  }

  /** "Yes" to having attended before: clears the LEVEL answer and the count. */
  method AnswerAlumniYes(form: SummitForm)
    modifies form`isAlumni, form`isLevelMember, form`totalAttendees
    ensures form.isAlumni == Some(true) && form.isLevelMember.None? && form.totalAttendees.None?
  {
    form.isAlumni := Some(true);
    form.isLevelMember := None;
    form.totalAttendees := None;
  }

  /** "No" to having attended before: keeps the LEVEL answer, clears the count. */
  method AnswerAlumniNo(form: SummitForm)
    modifies form`isAlumni, form`totalAttendees
    ensures form.isAlumni == Some(false) && form.totalAttendees.None?
  {
    form.isAlumni := Some(false);
    form.totalAttendees := None;
  }

  /** Either answer to the LEVEL question: records it and clears the count. */
  method AnswerLevelMember(form: SummitForm, yes: bool)
    modifies form`isLevelMember, form`totalAttendees
    ensures form.isLevelMember == Some(yes) && form.totalAttendees.None?
  {
    form.isLevelMember := Some(yes);
    form.totalAttendees := None;
  }

  /** Choosing an entry of the count menu. */
  method ChooseTotalAttendees(form: SummitForm, count: int)
    modifies form`totalAttendees
    ensures form.totalAttendees == Some(count)
  {
    form.totalAttendees := Some(count);
  }

  /** A price-table entry with the given base price and included attendees, found by its id. */
  predicate HasEntry(table: seq<RegistrationTypeOption>, t: RegistrationType, price: int, attendees: int) {
    FindType(table, t).Some? && FindType(table, t).value.price == price && FindType(table, t).value.attendees == attendees
  }

  /** The total the price hook computes for a count chosen from the menu. */
  function PriceForCount(table: seq<RegistrationTypeOption>, fee: int,
                         isAlumni: Option<bool>, isLevelMember: Option<bool>, count: int): Option<int> {
    var p := UsePriceCalculation(table, fee, ResolveType(isAlumni, isLevelMember, count), Max0(count - 1));
    if p.Some? then Some(p.value.total) else None
  }

  /**
   * With an alumni entry of 1250 for two, every alumni menu entry shows
   * the price the hook then computes for it.
   */
  lemma AlumniMenuPricesAgree(table: seq<RegistrationTypeOption>, fee: int, isLevelMember: Option<bool>,
                              options: seq<AttendeeOption>, formatCurrency: int -> string)
    requires HasEntry(table, Alumni, 1250, 2)
    requires IsLadder(options, 1250, fee, formatCurrency)
    ensures forall k :: 0 <= k < |options| ==>
              PriceForCount(table, fee, Some(true), isLevelMember, options[k].count) == Some(options[k].price)
  {
    forall k | 0 <= k < |options|
      ensures PriceForCount(table, fee, Some(true), isLevelMember, options[k].count) == Some(options[k].price)
    {
      assert options[k] == LadderEntry(k + 2, 1250, fee, formatCurrency);
    }
  }

  /** The same for the menu of two noes and a non-member entry of 2750 for two. */
  lemma NonMemberMenuPricesAgree(table: seq<RegistrationTypeOption>, fee: int,
                                 options: seq<AttendeeOption>, formatCurrency: int -> string)
    requires HasEntry(table, NonLevelMember, 2750, 2)
    requires IsLadder(options, 2750, fee, formatCurrency)
    ensures forall k :: 0 <= k < |options| ==>
              PriceForCount(table, fee, Some(false), Some(false), options[k].count) == Some(options[k].price)
  {
    forall k | 0 <= k < |options|
      ensures PriceForCount(table, fee, Some(false), Some(false), options[k].count) == Some(options[k].price)
    {
      assert options[k] == LadderEntry(k + 2, 2750, fee, formatCurrency);
    }
  }

  /**
   * With a solo entry of 1450 for one and a LEVEL entry of 1950 for two,
   * every LEVEL menu entry, "Just me" included, shows the computed price.
   */
  lemma LevelMenuPricesAgree(table: seq<RegistrationTypeOption>, fee: int, isAlumni: Option<bool>,
                             options: seq<AttendeeOption>, formatCurrency: int -> string)
    requires isAlumni != Some(true)
    requires HasEntry(table, LevelMemberSolo, 1450, 1) && HasEntry(table, LevelMember, 1950, 2)
    requires |options| == 10 && options[0] == AttendeeOption(1, 1450, "Just me — " + formatCurrency(1450))
    requires IsLadder(options[1..], 1950, fee, formatCurrency)
    ensures forall k :: 0 <= k < |options| ==>
              PriceForCount(table, fee, isAlumni, Some(true), options[k].count) == Some(options[k].price)
  {
    forall k | 0 <= k < |options|
      ensures PriceForCount(table, fee, isAlumni, Some(true), options[k].count) == Some(options[k].price)
    {
      if k > 0 {
        assert options[k] == options[1..][k - 1] == LadderEntry(k + 1, 1950, fee, formatCurrency);
      }
    }
  }

  /**
   * Under the other price table, where the LEVEL entry is 1450 for one
   * attendee, a menu entry for 2 to 10 people shows the computed price
   * exactly when the fee is 500.
   */
  lemma LevelMenuDivergesUnderFlatTable(table: seq<RegistrationTypeOption>, fee: int, isAlumni: Option<bool>,
                                        count: int, formatCurrency: int -> string)
    requires isAlumni != Some(true)
    requires HasEntry(table, LevelMember, 1450, 1)
    requires 2 <= count <= 10
    ensures (PriceForCount(table, fee, isAlumni, Some(true), count) == Some(LadderEntry(count, 1950, fee, formatCurrency).price))
            <==> fee == 500
  {
    var c := count - 2;
    assert PriceForCount(table, fee, isAlumni, Some(true), count) == Some(1450 + (c + 1) * fee);
    assert LadderEntry(count, 1950, fee, formatCurrency).price == 1950 + c * fee;
    assert (c + 1) * fee == c * fee + fee;
  }
}
