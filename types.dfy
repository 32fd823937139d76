/** The records and enumerations the summit registration shares between its parts (lib/types.ts). */
module Types {
  import opened Wrappers

  /** The four registration types, named in the form and the schema by their ids. */
  datatype RegistrationType = NonLevelMember | LevelMember | LevelMemberSolo | Alumni {
    function Id(): string {
      match this
      case NonLevelMember => "non-level-member"
      case LevelMember => "level-member"
      case LevelMemberSolo => "level-member-solo"
      case Alumni => "alumni"
    }
  }

  /** The registration type with a given id, if there is one. */
  function RegistrationTypeById(id: string): (r: Option<RegistrationType>)
    ensures r.Some? ==> r.value.Id() == id
    ensures r.None? ==> forall t: RegistrationType :: t.Id() != id
  {
    if id == "non-level-member" then Some(NonLevelMember)
    else if id == "level-member" then Some(LevelMember)
    else if id == "level-member-solo" then Some(LevelMemberSolo)
    else if id == "alumni" then Some(Alumni)
    else None
  }

  /** Looking a type up by its own id finds it again. */
  lemma RegistrationTypeIdRoundTrip(t: RegistrationType)
    ensures RegistrationTypeById(t.Id()) == Some(t)
  {
  }

  /**
   * A payment-method value the summit form can hold. `PaymentMethod` in
   * lib/types.ts lists only 'credit' and 'loyalty'; the payment section
   * also writes 'combo' when both options are selected.
   */
  datatype PaymentValue = Credit | Loyalty | Combo {
    function Token(): string {
      match this
      case Credit => "credit"
      case Loyalty => "loyalty"
      case Combo => "combo"
    }

    /** Whether the value is one of the two `PaymentMethod` members. */
    predicate IsPaymentMethod() {
      this == Credit || this == Loyalty
    }
  }

  datatype Summit = Summit(id: string, startDate: string, location: string)

  datatype Attendee = Attendee(fullName: string)

  datatype PrimaryAttendee = PrimaryAttendee(firstName: string, lastName: string, email: string)

  datatype PriceCalculation = PriceCalculation(
    base: int,
    additional: int,
    total: int,
    baseAttendees: int,
    additionalAttendees: int,
    registrationTypeName: string)

  /** One entry of the registration-type price table. */
  datatype RegistrationTypeOption = RegistrationTypeOption(
    id: RegistrationType,
    name: string,
    price: int,
    attendees: int,
    description: string)
}
