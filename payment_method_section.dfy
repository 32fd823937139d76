/**
 * The summit payment-method section (components/registration/payment-method-section.tsx):
 * two check-box options, credit card and loyalty points, kept in the form
 * as one value — 'credit', 'loyalty', 'combo' for both, or nothing.
 */
module PaymentMethodSection {
  import opened Wrappers
  import opened Types
  import opened Validations
  import opened RegistrationForm

  datatype PaymentOption = CreditOption | LoyaltyOption

  /** `getSelectedFromValue`: the ticked options a form value stands for. */
  function SelectedFromValue(v: Option<PaymentValue>): set<PaymentOption> {
    match v
    case Some(Combo) => {CreditOption, LoyaltyOption}
    case Some(Credit) => {CreditOption}
    case Some(Loyalty) => {LoyaltyOption}
    case None => {}
  }

  /** `getValueFromSelected`: the form value for a set of ticked options. */
  function ValueFromSelected(selected: set<PaymentOption>): Option<PaymentValue> {
    if CreditOption in selected && LoyaltyOption in selected then Some(Combo)
    else if CreditOption in selected then Some(Credit)
    else if LoyaltyOption in selected then Some(Loyalty)
    else None
  }

  /** Every set of options is one of the four the value can stand for. */
  lemma SelectionCases(s: set<PaymentOption>)
    ensures s == {} || s == {CreditOption} || s == {LoyaltyOption} || s == {CreditOption, LoyaltyOption}
  {
    var both := {CreditOption, LoyaltyOption};
    forall o | o in s ensures o in both {
      if o.CreditOption? { } else { }
    }
    if CreditOption in s && LoyaltyOption in s {
      assert s == both;
    } else if CreditOption in s {
      assert s == {CreditOption};
    } else if LoyaltyOption in s {
      assert s == {LoyaltyOption};
    } else {
      assert s == {};
    }
  }

  /** Reading a value back from its options gives the value again. */
  lemma ValueRoundTrip(v: Option<PaymentValue>)
    ensures ValueFromSelected(SelectedFromValue(v)) == v
  {
  }

  /** Turning options into a value and back gives the same options: the two maps are inverse. */
  lemma SelectionRoundTrip(s: set<PaymentOption>)
    ensures SelectedFromValue(ValueFromSelected(s)) == s
  {
    SelectionCases(s);
  }

  /** Ticking or unticking one option. */
  function Toggled(s: set<PaymentOption>, o: PaymentOption): (r: set<PaymentOption>) {
    if o in s then s - {o} else s + {o}
  }

  /** A toggle changes whether that one option is ticked and nothing else. */
  lemma ToggleFlipsOne(s: set<PaymentOption>, o: PaymentOption, p: PaymentOption)
    ensures o in Toggled(s, o) <==> o !in s
    ensures p != o ==> (p in Toggled(s, o) <==> p in s)
  {
  }

  /** The form value after clicking option `o`. */
  function ValueAfterToggle(v: Option<PaymentValue>, o: PaymentOption): Option<PaymentValue> {
    ValueFromSelected(Toggled(SelectedFromValue(v), o))
  }

  /** Clicking the same option twice restores the value. */
  lemma ToggleTwiceRestores(v: Option<PaymentValue>, o: PaymentOption)
    ensures ValueAfterToggle(ValueAfterToggle(v, o), o) == v
  {
    var s := SelectedFromValue(v);
    SelectionRoundTrip(Toggled(s, o));
    assert Toggled(Toggled(s, o), o) == s;
    ValueRoundTrip(v);
  }

  /**
   * Ticking loyalty beside credit yields 'combo', a value that is not a
   * `PaymentMethod` and that the schema rejects at `paymentMethod`.
   */
  lemma ComboFromBothOptions(env: SchemaEnv, x: RegistrationInput)
    requires x.paymentMethod == Some(ValueAfterToggle(Some(Credit), LoyaltyOption).value.Token())
    ensures ValueAfterToggle(Some(Credit), LoyaltyOption) == Some(Combo)
    ensures !Combo.IsPaymentMethod()
    ensures !Valid(env, x)
  {
    assert Toggled({CreditOption}, LoyaltyOption) == {CreditOption, LoyaltyOption};
    ComboRejected(env, x);
  }

  /**
   * `handleToggle`: compute the ticked options from the value, flip the
   * clicked one, write the resulting value, and clear the field's error
   * when some value results.
   */
  method HandleToggle(form: SummitForm, optionId: PaymentOption)
    modifies form`paymentMethod, form`errors
    ensures form.paymentMethod == ValueAfterToggle(old(form.paymentMethod), optionId)
    ensures form.paymentMethod.Some? ==> form.errors == old(form.errors) - {"paymentMethod"}
    ensures form.paymentMethod.None? ==> form.errors == old(form.errors)
  {
    var currentSelected := SelectedFromValue(form.paymentMethod);
    var next := currentSelected;
    if optionId in next {
      next := next - {optionId};
    } else {
      next := next + {optionId};
    }
    var newValue := ValueFromSelected(next);
    form.paymentMethod := newValue;
    if newValue.Some? {
      form.errors := form.errors - {"paymentMethod"};
    }
  }

  /** `showLoyalty`: loyalty points are offered to alumni and LEVEL members. */
  predicate ShowLoyalty(isAlumni: Option<bool>, isLevelMember: Option<bool>) {
    isAlumni == Some(true) || isLevelMember == Some(true)
  }

  datatype PaymentChoice = PaymentChoice(id: PaymentOption, name: string, description: string)

  const CreditChoice := PaymentChoice(CreditOption, "Credit Card", "We'll send you a secure payment link")

  /** The loyalty option, worded for Canadian or other salons. */
  function LoyaltyChoice(isCanadian: bool): PaymentChoice {
    if isCanadian then
      PaymentChoice(LoyaltyOption, "L'Oréal Loyalty Points",
                    "Use your accumulated L'Oréal loyalty points (Redken C5A, L'Oréal Excellence, Club Matrix)")
    else PaymentChoice(LoyaltyOption, "Level Loyalty Points", "Use your accumulated Level points")
  }

  /**
   * `paymentOptions`: credit card always, first; loyalty points after it
   * only when shown. `isCanadianProvince` belongs to a constants file that
   * is not part of this model and is a parameter.
   */
  method PaymentOptions(state: string, isAlumni: Option<bool>, isLevelMember: Option<bool>,
                        isCanadianProvince: string -> bool)
    returns (options: seq<PaymentChoice>)
    ensures |options| >= 1 && options[0] == CreditChoice
    ensures |options| == if ShowLoyalty(isAlumni, isLevelMember) then 2 else 1
    ensures ShowLoyalty(isAlumni, isLevelMember) ==> options[1] == LoyaltyChoice(isCanadianProvince(state))
    ensures (exists k :: 0 <= k < |options| && options[k].id == LoyaltyOption) <==> ShowLoyalty(isAlumni, isLevelMember)
  {
    var isCanadian := isCanadianProvince(state);
    options := [CreditChoice];
    if ShowLoyalty(isAlumni, isLevelMember) {
      options := options + [LoyaltyChoice(isCanadian)];
      assert options[1].id == LoyaltyOption;
    }
  }

  /**
   * The clearing effect: when loyalty is hidden, a value that includes
   * loyalty ('loyalty' or 'combo') is dropped; 'credit' and no value stay.
   */
  method ClearHiddenLoyalty(form: SummitForm)
    modifies form`paymentMethod
    ensures var drop := !ShowLoyalty(form.isAlumni, form.isLevelMember)
                        && LoyaltyOption in SelectedFromValue(old(form.paymentMethod));
      form.paymentMethod == if drop then None else old(form.paymentMethod)
    ensures !ShowLoyalty(form.isAlumni, form.isLevelMember) ==> LoyaltyOption !in SelectedFromValue(form.paymentMethod)
  {
    var currentValue := form.paymentMethod;
    if !ShowLoyalty(form.isAlumni, form.isLevelMember) && (currentValue == Some(Loyalty) || currentValue == Some(Combo)) {
      form.paymentMethod := None;
    }
  }
}
