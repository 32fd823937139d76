/**
 * The summit price: the base price of the chosen registration type, plus
 * a fixed fee for every attendee beyond those the base price includes
 * (hooks/use-price-calculation.ts). The price table and the fee live in a
 * constants file that is not part of this model, so both are parameters.
 */
module PriceCalculation {
  import opened Wrappers
  import opened Types

  /** The index of the first entry with that id, or |table| when there is none. */
  function FindIndex(table: seq<RegistrationTypeOption>, id: RegistrationType): (k: nat)
    ensures k <= |table|
    ensures k < |table| ==> table[k].id == id
    ensures forall j :: 0 <= j < k ==> table[j].id != id
  {
    if table == [] then 0
    else if table[0].id == id then 0
    else 1 + FindIndex(table[1..], id)
  }

  /** `table.find((t) => t.id === id)`: the first entry with that id. */
  function FindType(table: seq<RegistrationTypeOption>, id: RegistrationType): (r: Option<RegistrationTypeOption>)
    ensures r.None? <==> forall k :: 0 <= k < |table| ==> table[k].id != id
    ensures r.Some? ==> exists k :: 0 <= k < |table| && table[k] == r.value
                                    && forall j :: 0 <= j < k ==> table[j].id != id
    ensures r.Some? ==> r.value.id == id
  {
    var k := FindIndex(table, id);
    if k < |table| then Some(table[k]) else None
  }

  function Max0(n: int): nat {
    if n > 0 then n else 0
  }

  /**
   * `usePriceCalculation(registrationType, additionalAttendeeCount)`:
   * null without a type or without a table entry for it; otherwise the
   * entry's price plus `fee` for each attendee beyond the entry's
   * included attendees, where the attendees are the additional ones plus
   * the primary registrant.
   */
  function UsePriceCalculation(table: seq<RegistrationTypeOption>, fee: int,
                               registrationType: Option<RegistrationType>,
                               additionalAttendeeCount: int): (r: Option<PriceCalculation>)
    ensures r.Some? <==> registrationType.Some? && FindType(table, registrationType.value).Some?
    ensures r.Some? ==>
      var entry := FindType(table, registrationType.value).value;
      && r.value.base == entry.price
      && r.value.baseAttendees == entry.attendees
      && r.value.registrationTypeName == entry.name
      && r.value.additionalAttendees == Max0(additionalAttendeeCount + 1 - entry.attendees)
      && r.value.additional == r.value.additionalAttendees * fee
      && r.value.total == r.value.base + r.value.additional
  {
    if registrationType.None? then None
    else
      match FindType(table, registrationType.value)
      case None => None
      case Some(entry) =>
        var totalAttendees := additionalAttendeeCount + 1;
        var pricingAdditionalCount := Max0(totalAttendees - entry.attendees);
        var base := entry.price;
        var additional := pricingAdditionalCount * fee;
        Some(PriceCalculation(base, additional, base + additional, entry.attendees,
                              pricingAdditionalCount, entry.name))
  }

  /** The total is the entry's price plus the fee times the attendees it does not include. */
  lemma TotalFormula(table: seq<RegistrationTypeOption>, fee: int, t: RegistrationType, count: int)
    requires FindType(table, t).Some?
    ensures var entry := FindType(table, t).value;
            UsePriceCalculation(table, fee, Some(t), count).value.total
              == entry.price + (if count + 1 > entry.attendees then count + 1 - entry.attendees else 0) * fee
  {
  }

  /** With a fee that is not negative, the total never falls below the base price. */
  lemma TotalAtLeastBase(table: seq<RegistrationTypeOption>, fee: int, t: Option<RegistrationType>, count: int)
    requires fee >= 0
    requires UsePriceCalculation(table, fee, t, count).Some?
    ensures UsePriceCalculation(table, fee, t, count).value.total >= UsePriceCalculation(table, fee, t, count).value.base
  {
  }

  /** With a fee that is not negative, more attendees never cost less. */
  lemma TotalMonotone(table: seq<RegistrationTypeOption>, fee: int, t: Option<RegistrationType>, c1: int, c2: int)
    requires fee >= 0 && c1 <= c2
    requires UsePriceCalculation(table, fee, t, c1).Some?
    ensures UsePriceCalculation(table, fee, t, c2).Some?
    ensures UsePriceCalculation(table, fee, t, c1).value.total <= UsePriceCalculation(table, fee, t, c2).value.total
  {
    var entry := FindType(table, t.value).value;
    assert Max0(c1 + 1 - entry.attendees) <= Max0(c2 + 1 - entry.attendees);
    MulMonotone(Max0(c1 + 1 - entry.attendees), Max0(c2 + 1 - entry.attendees), fee);
  }

  lemma MulMonotone(a: nat, b: nat, fee: int)
    requires a <= b && fee >= 0
    ensures a * fee <= b * fee
  {
  }
}
