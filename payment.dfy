/**
 * Duration and price (src/screens/PaymentScreen.js): a preset catalogue or a
 * custom hour count, the total at the hourly rate, and the ordered checks
 * before the PIN step. Money is in cents, so the rate of 2.5 is 250.
 */
module PaymentScreen {
  import opened Wrappers
  import opened JsStrings
  import opened Routes

  const HourlyRateCents: int := 250
  const CustomId: string := "custom"

  const DurationMessage: string := "Please select a duration"
  const HoursMessage: string := "Please enter valid hours"
  const MethodMessage: string := "Please select a payment method"

  datatype DurationOption = DurationOption(id: string, hours: nat, title: string)

  const Durations: seq<DurationOption> := [
    DurationOption("1", 1, "1 Hour"),
    DurationOption("2", 2, "2 Hours"),
    DurationOption("4", 4, "4 Hours"),
    DurationOption("8", 8, "8 Hours"),
    DurationOption("24", 24, "24 Hours"),
    DurationOption("custom", 0, "Custom")
  ]

  datatype PaymentMethodOption = PaymentMethodOption(id: string, title: string, icon: string)

  const PaymentMethods: seq<PaymentMethodOption> := [
    PaymentMethodOption("card", "Credit/Debit Card", "card-outline"),
    PaymentMethodOption("upi", "UPI", "phone-portrait-outline"),
    PaymentMethodOption("wallet", "Wallet", "wallet-outline")
  ]

  /** The method table's ids are "card", "upi" and "wallet", in that order. */
  lemma PaymentMethodIds()
    ensures forall m :: m in PaymentMethods ==> m.id in {"card", "upi", "wallet"}
    ensures forall id :: IsMethodId(id) <==> id in {"card", "upi", "wallet"}
  {
    forall id | id in {"card", "upi", "wallet"} ensures IsMethodId(id) {
      if id == "card" { assert PaymentMethods[0].id == id; }
      else if id == "upi" { assert PaymentMethods[1].id == id; }
      else { assert PaymentMethods[2].id == id; }
    }
  }

  predicate IsDurationId(id: string) { FindDuration(id).Some? }

  predicate IsMethodId(id: string) { exists i :: 0 <= i < |PaymentMethods| && PaymentMethods[i].id == id }

  /** JavaScript truthiness of a possibly-null string field. */
  predicate Truthy(s: Option<string>) { s.Some? && s.value != "" }

  /** `durations.find(d => d.id === id)`, searched from position `from`. */
  function FindDurationFrom(id: string, from: nat): (r: Option<DurationOption>)
    requires from <= |Durations|
    ensures r.Some? ==> r.value.id == id && r.value in Durations[from..]
    ensures r.None? ==> forall i :: from <= i < |Durations| ==> Durations[i].id != id
    decreases |Durations| - from
  {
    if from == |Durations| then None
    else if Durations[from].id == id then Some(Durations[from])
    else FindDurationFrom(id, from + 1)
  }

  function FindDuration(id: string): Option<DurationOption>
  {
    FindDurationFrom(id, 0)
  }

  /** The preset hours are exactly 1, 2, 4, 8 and 24, and only "custom" has none of its own. */
  lemma PresetHours()
    ensures forall d :: d in Durations && d.id != CustomId ==> d.hours in {1, 2, 4, 8, 24}
    ensures forall d :: d in Durations && d.id == CustomId ==> d.hours == 0
    ensures forall i, j :: 0 <= i < j < |Durations| ==> Durations[i].id != Durations[j].id
  {
  }

  /** `parseInt(customHours) || 0`: an unparsable count is taken as 0 hours. */
  function HoursOrZero(customHours: string): (h: int)
    ensures ParseInt(customHours).Some? ==> h == ParseInt(customHours).value
    ensures ParseInt(customHours).None? ==> h == 0
  {
    match ParseInt(customHours)
    case Some(v) => v
    case None => 0
  }

  /** The hours `calculateTotal` charges for: the preset's, or the parsed custom count. */
  function BilledHours(selected: Option<string>, customHours: string): int
  {
    if !Truthy(selected) then 0
    else if selected.value == CustomId then HoursOrZero(customHours)
    else match FindDuration(selected.value)
      case Some(d) => d.hours
      case None => 0
  }

  /** `calculateTotal`, in cents. */
  function CalculateTotal(selected: Option<string>, customHours: string): (total: int)
    ensures !Truthy(selected) ==> total == 0
    ensures total % HourlyRateCents == 0
  {
    var h := BilledHours(selected, customHours);
    WholeHours(h);
    h * HourlyRateCents
  }

  /** Any whole number of hours costs a multiple of the hourly rate. */
  lemma WholeHours(h: int)
    ensures (h * HourlyRateCents) % HourlyRateCents == 0
  {
    var t := h * HourlyRateCents;
    var q := t / HourlyRateCents;
    assert t == HourlyRateCents * q + t % HourlyRateCents;
    assert HourlyRateCents * (h - q) == t % HourlyRateCents;
  }

  /** Looking up an entry's id finds that entry. */
  lemma FindCatalogueEntry(d: DurationOption)
    requires d in Durations
    ensures FindDuration(d.id) == Some(d)
  {
    PresetHours();
    var i :| 0 <= i < |Durations| && Durations[i] == d;
    assert Durations[i].id == d.id;
    var found := FindDuration(d.id);
    var j :| 0 <= j < |Durations| && Durations[j] == found.value;
    assert i == j;
  }

  /** A preset costs its hours at the hourly rate, whatever the custom field holds. */
  lemma PresetTotal(d: DurationOption, customHours: string)
    requires d in Durations && d.id != CustomId
    ensures CalculateTotal(Some(d.id), customHours) == d.hours * HourlyRateCents
    ensures d.hours in {1, 2, 4, 8, 24}
  {
    PresetHours();
    FindCatalogueEntry(d);
  }

  /** The custom choice costs its parsed hours at the rate, and 0 when unparsable. */
  lemma CustomTotal(customHours: string)
    ensures CalculateTotal(Some(CustomId), customHours) == HoursOrZero(customHours) * HourlyRateCents
    ensures ParseInt(customHours).None? ==> CalculateTotal(Some(CustomId), customHours) == 0
  {
  }

  /** `null` for a preset not in the catalogue or an unparsable custom count (where JavaScript has `undefined` or `NaN`). */
  datatype PaymentOutcome = Refused(message: string) | Proceed(hours: Option<int>, amount: int)

  /** The custom-hours check as written: `!customHours || parseInt(customHours) <= 0`; `NaN <= 0` is false. */
  predicate CustomHoursRefusedAsWritten(customHours: string)
  {
    customHours == "" || (ParseInt(customHours).Some? && ParseInt(customHours).value <= 0)
  }

  /** The custom-hours check as intended: refuse whatever does not parse to at least one hour. */
  predicate CustomHoursRefused(customHours: string)
  {
    customHours == "" || ParseInt(customHours).None? || ParseInt(customHours).value <= 0
  }

  /**
   * `handlePayment` as written: three ordered checks, then the hours and the
   * total. An unparsable custom count passes the second check and goes on
   * with no hours (`NaN`) and a total of 0.
   */
  function CheckPaymentAsWritten(selected: Option<string>, customHours: string, payMethod: Option<string>): (r: PaymentOutcome)
    ensures !Truthy(selected) ==> r == Refused(DurationMessage)
    ensures (Truthy(selected) && selected.value == CustomId && CustomHoursRefusedAsWritten(customHours))
              ==> r == Refused(HoursMessage)
    ensures r == Refused(MethodMessage) <==>
              Truthy(selected) && !(selected.value == CustomId && CustomHoursRefusedAsWritten(customHours))
              && !Truthy(payMethod)
    ensures r.Proceed? <==>
              Truthy(selected) && !(selected.value == CustomId && CustomHoursRefusedAsWritten(customHours))
              && Truthy(payMethod)
    ensures r.Proceed? ==> r.amount == CalculateTotal(selected, customHours)
    ensures r.Proceed? && selected.value == CustomId ==> r.hours == ParseInt(customHours)
    ensures r.Proceed? && selected.value != CustomId ==>
              r.hours == if FindDuration(selected.value).Some? then Some(FindDuration(selected.value).value.hours as int) else None
  {
    if !Truthy(selected) then Refused(DurationMessage)
    else if selected.value == CustomId && CustomHoursRefusedAsWritten(customHours) then Refused(HoursMessage)
    else if !Truthy(payMethod) then Refused(MethodMessage)
    else
      var hours := if selected.value == CustomId then ParseInt(customHours)
                   else match FindDuration(selected.value)
                     case Some(d) => Some(d.hours as int)
                     case None => None;
      Proceed(hours, CalculateTotal(selected, customHours))
  }

  /** Every non-empty custom count that does not parse gets through with no hours and a zero amount. */
  lemma UnparsableHoursGetThrough(customHours: string, payMethod: Option<string>)
    requires customHours != "" && ParseInt(customHours).None? && Truthy(payMethod)
    ensures CheckPaymentAsWritten(Some(CustomId), customHours, payMethod) == Proceed(None, 0)
  {
  }

  /** A custom count of "-" is such a count. */
  lemma NaNHoursGetThrough()
    ensures CheckPaymentAsWritten(Some(CustomId), "-", Some("card")) == Proceed(None, 0)
  {
    assert TrimStart("-") == "-" by { assert !IsJsWhitespace('-'); }
    assert LeadingDigits("") == "";
    assert ParseInt("-") == None;
    UnparsableHoursGetThrough("-", Some("card"));
  }

  /** The selection is nothing or a catalogue id, as the duration grid guarantees. */
  predicate ValidSelection(selected: Option<string>) { selected.None? || IsDurationId(selected.value) }

  /**
   * `handlePayment` with the custom-hours check as intended: the same three
   * ordered checks, except that an unparsable count is refused too. What goes
   * on always has at least one hour and costs exactly those hours at the rate.
   */
  function CheckPayment(selected: Option<string>, customHours: string, payMethod: Option<string>): (r: PaymentOutcome)
    requires ValidSelection(selected)
    ensures selected.None? ==> r == Refused(DurationMessage)
    ensures selected == Some(CustomId) && CustomHoursRefused(customHours) ==> r == Refused(HoursMessage)
    ensures r == Refused(MethodMessage) <==>
              selected.Some? && !(selected.value == CustomId && CustomHoursRefused(customHours)) && !Truthy(payMethod)
    ensures r.Proceed? <==> selected.Some? && !(selected.value == CustomId && CustomHoursRefused(customHours)) && Truthy(payMethod)
    ensures r.Proceed? ==> r.hours.Some? && r.hours.value >= 1 && r.amount == r.hours.value * HourlyRateCents
    ensures r.Proceed? && selected.value == CustomId ==> r.hours == ParseInt(customHours)
    ensures r.Proceed? && selected.value != CustomId ==> r.hours == Some(FindDuration(selected.value).value.hours as int)
  {
    if !Truthy(selected) then Refused(DurationMessage)
    else if selected.value == CustomId && CustomHoursRefused(customHours) then Refused(HoursMessage)
    else if !Truthy(payMethod) then Refused(MethodMessage)
    else if selected.value == CustomId then
      var h := ParseInt(customHours).value;
      Proceed(Some(h), h * HourlyRateCents)
    else
      var d := FindDuration(selected.value).value;
      PresetTotal(d, customHours);
      Proceed(Some(d.hours), CalculateTotal(selected, customHours))
  }

  /** The intended checks refuse the count the written ones let through. */
  lemma NaNHoursRefused()
    ensures CheckPayment(Some(CustomId), "-", Some("card")) == Refused(HoursMessage)
  {
    assert Durations[5].id == CustomId;
    NaNHoursGetThrough();
  }

  /** The two versions agree everywhere except on an unparsable custom count. */
  lemma PaymentVersionsAgree(selected: Option<string>, customHours: string, payMethod: Option<string>)
    requires ValidSelection(selected)
    requires selected == Some(CustomId) ==> ParseInt(customHours).Some?
    ensures CheckPayment(selected, customHours, payMethod) == CheckPaymentAsWritten(selected, customHours, payMethod)
  {
    if selected.Some? && selected.value != CustomId && Truthy(payMethod) {
      PresetTotal(FindDuration(selected.value).value, customHours);
    }
  }

  /** The screen's fields. `isExtending` arrives with the route but the screen never reads it. */
  class PaymentForm {
    const lockerId: string
    const isExtending: bool
    var selectedDuration: Option<string>
    var customHours: string
    var paymentMethod: Option<string>

    ghost predicate Valid()
      reads this
    {
      ValidSelection(selectedDuration) && (paymentMethod.None? || IsMethodId(paymentMethod.value))
    }

    constructor (lockerId: string, isExtending: bool)
      ensures Valid()
      ensures this.lockerId == lockerId && this.isExtending == isExtending
      ensures selectedDuration == None && customHours == "" && paymentMethod == None
    {
      this.lockerId := lockerId;
      this.isExtending := isExtending;
      selectedDuration := None;
      customHours := "";
      paymentMethod := None;
    }

    /** A duration card: select it, and clear the custom count unless it is the custom card. */
    method SelectDuration(d: DurationOption)
      requires Valid() && d in Durations
      modifies this`selectedDuration, this`customHours
      ensures Valid()
      ensures selectedDuration == Some(d.id)
      ensures customHours == if d.id == CustomId then old(customHours) else ""
    {
      FindCatalogueEntry(d);
      selectedDuration := Some(d.id);
      if d.id != CustomId {
        customHours := "";
      }
    }

    /** The custom-hours text field, which is shown only while the custom card is selected. */
    method SetCustomHours(text: string)
      requires Valid() && selectedDuration == Some(CustomId)
      modifies this`customHours
      ensures Valid() && customHours == text
    {
      customHours := text;
    }

    /** A payment-method card. */
    method SelectPaymentMethod(m: PaymentMethodOption)
      requires Valid() && m in PaymentMethods
      modifies this`paymentMethod
      ensures Valid() && paymentMethod == Some(m.id)
    {
      var i :| 0 <= i < |PaymentMethods| && PaymentMethods[i] == m;
      paymentMethod := Some(m.id);
    }

    /** `calculateTotal` on the current fields. */
    function Total(): (total: int)
      reads this
      ensures selectedDuration.None? ==> total == 0
    {
      CalculateTotal(selectedDuration, customHours)
    }

    /**
     * The "Pay" button: an error message, or the PIN step with what was paid
     * for. It uses the corrected custom-hours check: where the code as written
     * goes on with no hours and a zero amount for an unparsable count
     * (`UnparsableHoursGetThrough`), this refuses it.
     */
    method HandlePayment() returns (next: Result)
      requires Valid()
      ensures next.Error? <==> CheckPayment(selectedDuration, customHours, paymentMethod).Refused?
      ensures next.Error? ==> next.message == CheckPayment(selectedDuration, customHours, paymentMethod).message
      ensures next.Navigate? ==> next.route.PINSetup? && next.route.lockerId == lockerId
                                  && next.route.duration >= 1
                                  && next.route.amount == next.route.duration * HourlyRateCents
                                  && IsMethodId(next.route.paymentMethod)
                                  && Some(next.route.paymentMethod) == paymentMethod
      ensures next.Navigate? ==> CheckPayment(selectedDuration, customHours, paymentMethod)
                                  == Proceed(Some(next.route.duration), next.route.amount)
    {
      match CheckPayment(selectedDuration, customHours, paymentMethod)
      case Refused(message) =>
        next := Error(message);
      case Proceed(hours, amount) =>
        next := Navigate(PINSetup(lockerId, hours.value, amount, paymentMethod.value));
    }
  }

  datatype Result = Error(message: string) | Navigate(route: Route)
}
