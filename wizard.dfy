/**
 * The wizard that the `navigation.navigate` calls link together:
 * Home → MobileVerification → OTPVerification → ChooseLocker → Payment →
 * PINSetup → Success, with Success leading back to Payment (extend) or Home
 * (end). `Admissible` says what every route's parameters satisfy when the
 * route is reached through the screens and payment uses the corrected
 * custom-hours check (`PaymentScreen.CheckPayment`); with the check as written
 * an unparsable count reaches PINSetup with no hours. Each lemma below shows
 * that one edge keeps it.
 */
module Wizard {
  import opened Wrappers
  import opened JsStrings
  import opened Routes
  import MobileVerificationScreen
  import OtpVerificationScreen
  import ChooseLockerScreen
  import PaymentScreen
  import PinSetupScreen
  import SuccessScreen

  predicate Admissible(r: Route)
  {
    match r
    case Home => true
    case MobileVerification => true
    case OTPVerification(phoneNumber) =>
      |phoneNumber| == 12 && phoneNumber[..2] == MobileVerificationScreen.CountryCode && AllDigits(phoneNumber[2..])
    case ChooseLocker => true
    case Payment(lockerId, _) => ChooseLockerScreen.IsAvailableId(lockerId)
    case PINSetup(lockerId, duration, amount, paymentMethod) =>
      && ChooseLockerScreen.IsAvailableId(lockerId)
      && duration >= 1 && amount == duration * PaymentScreen.HourlyRateCents
      && PaymentScreen.IsMethodId(paymentMethod)
    case Success(lockerId, duration, amount, pin, _) =>
      && ChooseLockerScreen.IsAvailableId(lockerId)
      && duration >= 1 && amount == duration * PaymentScreen.HourlyRateCents
      && |pin| == 4 && AllDigits(pin)
  }

  lemma InitialAdmissible()
    ensures Admissible(InitialRoute) && Admissible(HomeStart())
  {
  }

  /** Phone entry sends on "+1" followed by exactly ten digits. */
  lemma PhoneEdge(phoneNumber: string)
    requires MobileVerificationScreen.FormatPhoneNumber(phoneNumber) == phoneNumber
    requires MobileVerificationScreen.SendVerification(phoneNumber, MobileVerificationScreen.CountryCode).Navigate?
    ensures Admissible(MobileVerificationScreen.SendVerification(phoneNumber, MobileVerificationScreen.CountryCode).route)
  {
    MobileVerificationScreen.SendNeedsTenDigits(phoneNumber, MobileVerificationScreen.CountryCode);
    var p := MobileVerificationScreen.CountryCode + Digits(phoneNumber);
    assert p[..2] == MobileVerificationScreen.CountryCode && p[2..] == Digits(phoneNumber);
  }

  /** Locker choice sends on an available locker. */
  lemma LockerEdge(selected: Option<string>)
    requires selected.None? || ChooseLockerScreen.IsAvailableId(selected.value)
    requires ChooseLockerScreen.ContinueTarget(selected).Some?
    ensures Admissible(ChooseLockerScreen.ContinueTarget(selected).value)
  {
  }

  /** Payment keeps the locker and sends on a positive duration with its price and a catalogue method. */
  lemma PaymentEdge(lockerId: string, isExtending: bool, selected: Option<string>, customHours: string,
                    paymentMethod: Option<string>)
    requires Admissible(Payment(lockerId, isExtending))
    requires PaymentScreen.ValidSelection(selected)
    requires paymentMethod.None? || PaymentScreen.IsMethodId(paymentMethod.value)
    requires PaymentScreen.CheckPayment(selected, customHours, paymentMethod).Proceed?
    ensures var p := PaymentScreen.CheckPayment(selected, customHours, paymentMethod);
      Admissible(PINSetup(lockerId, p.hours.value, p.amount, paymentMethod.value))
  {
  }

  /** PIN setup passes locker, duration and amount through and adds a four-digit PIN. */
  lemma PinEdge(lockerId: string, duration: int, amount: int, paymentMethod: string,
                pin: seq<string>, now: int)
    requires Admissible(PINSetup(lockerId, duration, amount, paymentMethod))
    requires PinSetupScreen.WellFormedBuffer(pin) && |Join(pin)| == 4
    ensures Admissible(Success(lockerId, duration, amount, Join(pin), now))
  {
    PinSetupScreen.FullBuffer(pin);
  }

  /** The active rental leads back to payment for the same locker, or home. */
  lemma RentalEdges(lockerId: string, duration: int, amount: int, pin: string, start: int, confirmed: bool)
    requires Admissible(Success(lockerId, duration, amount, pin, start))
    ensures SuccessScreen.ExtendTarget(lockerId, confirmed).Some? ==>
              Admissible(SuccessScreen.ExtendTarget(lockerId, confirmed).value)
    ensures SuccessScreen.EndTarget(confirmed).Some? ==> Admissible(SuccessScreen.EndTarget(confirmed).value)
  {
  }

  /**
   * On an admissible active rental, the countdown starts positive, the window
   * is as long as the countdown, and the amount is the hours at the rate.
   */
  lemma RentalWindow(lockerId: string, duration: int, amount: int, pin: string, start: int)
    requires Admissible(Success(lockerId, duration, amount, pin, start))
    ensures duration * SuccessScreen.SecondsPerHour >= 3600
    ensures SuccessScreen.EndTimeMillis(start, duration) - start == duration * SuccessScreen.SecondsPerHour * 1000
    ensures amount == duration * 250
  {
  }

  /*
   * A complete rental, screen by screen: ten digits typed into the phone
   * field, the code "123456", locker A1, four hours paid by card, the PIN
   * "1234" created and confirmed; the rental is then active for four hours and
   * cost 1000 cents.
   */
  method PhoneScenario(typed: string)
    requires AllDigits(typed) && |typed| == 10
  {
    var phone := new MobileVerificationScreen.PhoneForm();
    phone.HandlePhoneChange(typed);
    DigitsOfDigits(typed);
    MobileVerificationScreen.TypedTenDigitsSend(typed, phone.countryCode);
    var sent := phone.HandleSendVerification();
    assert sent == MobileVerificationScreen.Navigate(OTPVerification(MobileVerificationScreen.CountryCode + typed));
  }

  /** The six one-digit cells typed in the OTP scenario join to the code. */
  lemma JoinSixCells(typed: seq<string>)
    requires typed == ["1", "2", "3", "4", "5", "6"]
    ensures Join(typed) == "123456"
  {
    assert Join(typed[5..]) == "6" by { assert typed[5..][1..] == []; }
    assert Join(typed[4..]) == "56" by { assert typed[4..][1..] == typed[5..]; }
    assert Join(typed[3..]) == "456" by { assert typed[3..][1..] == typed[4..]; }
    assert Join(typed[2..]) == "3456" by { assert typed[2..][1..] == typed[3..]; }
    assert Join(typed[1..]) == "23456" by { assert typed[1..][1..] == typed[2..]; }
  }

  method OtpScenario(typed: seq<string>)
    requires typed == ["1", "2", "3", "4", "5", "6"]
  {
    var otp := new OtpVerificationScreen.OtpScreen("+15551234567");
    var auto := false;
    for k := 0 to 5
      invariant otp.Valid() && !otp.isVerifying && otp.pendingCode == None
      invariant forall i :: 0 <= i < 6 ==> otp.otp[i] == (if i < k then typed[i] else "")
    {
      assert AllDigits(typed[k]);
      auto := otp.HandleOtpChange(typed[k], k);
      assert otp.otp[5] == "";
    }
    assert AllDigits(typed[5]);
    auto := otp.HandleOtpChange(typed[5], 5);
    assert otp.otp == typed;
    JoinSixCells(typed);
    var verified := otp.FinishVerification();
    assert verified == Some(ChooseLocker);
  }

  method LockerScenario()
  {
    var picker := new ChooseLockerScreen.LockerPicker();
    var accepted := picker.HandleSelect(ChooseLockerScreen.Lockers[0]);
    var toPayment := picker.Continue();
    assert toPayment == Some(Payment("A1", false));
  }

  method PaymentScenario()
  {
    var form := new PaymentScreen.PaymentForm("A1", false);
    form.SelectDuration(PaymentScreen.Durations[2]);
    form.SelectPaymentMethod(PaymentScreen.PaymentMethods[0]);
    var paid := form.HandlePayment();
    assert paid.Navigate?;
    assert paid.route == PINSetup("A1", 4, 1000, "card");
  }

  /** Types one digit per cell into the buffer `isPinConfirm` selects, left to right. */
  method TypePin(pins: PinSetupScreen.PinScreen, typed: seq<string>, isPinConfirm: bool)
    requires pins.Valid() && |typed| == 4
    requires forall i :: 0 <= i < 4 ==> |typed[i]| == 1 && AllDigits(typed[i])
    modifies pins`pin, pins`confirmPin
    ensures pins.Valid() && pins.Buffer(isPinConfirm) == typed
    ensures pins.Buffer(!isPinConfirm) == old(pins.Buffer(!isPinConfirm))
  {
    for k := 0 to 4
      invariant pins.Valid() && |pins.Buffer(isPinConfirm)| == 4
      invariant forall i :: 0 <= i < k ==> pins.Buffer(isPinConfirm)[i] == typed[i]
      invariant pins.Buffer(!isPinConfirm) == old(pins.Buffer(!isPinConfirm))
    {
      pins.HandlePinChange(typed[k], k, isPinConfirm);
    }
  }

  /** The four one-digit cells typed in the PIN scenario join to the PIN. */
  lemma JoinFourCells(typed: seq<string>)
    requires typed == ["1", "2", "3", "4"]
    ensures Join(typed) == "1234"
  {
    assert Join(typed[3..]) == "4" by { assert typed[3..][1..] == []; }
    assert Join(typed[2..]) == "34" by { assert typed[2..][1..] == typed[3..]; }
    assert Join(typed[1..]) == "234" by { assert typed[1..][1..] == typed[2..]; }
  }

  method PinScenario(now: int, typed: seq<string>)
    requires typed == ["1", "2", "3", "4"]
  {
    var pins := new PinSetupScreen.PinScreen("A1", 4, 1000, "card");
    TypePin(pins, typed, false);
    JoinFourCells(typed);
    var created := pins.HandleContinue(now);
    assert created == PinSetupScreen.PinCreated;
    TypePin(pins, typed, true);
    var activated := pins.HandleContinue(now);
    assert activated == PinSetupScreen.Activated(Success("A1", 4, 1000, "1234", now));
  }

  method RentalScenario(now: int)
  {
    var rental := new SuccessScreen.RentalScreen("A1", 4, 1000, "1234", now);
    assert rental.timeRemaining == 4 * 3600;
    assert rental.EndTime() == now + 4 * 3600000;
  }

  /** Selecting the occupied locker A2 keeps the selection empty, so Continue stays disabled. */
  method OccupiedLockerScenario()
  {
    var picker := new ChooseLockerScreen.LockerPicker();
    var accepted := picker.HandleSelect(ChooseLockerScreen.Lockers[1]);
    assert !accepted && picker.selectedLocker == None;
    var next := picker.Continue();
    assert next == None;
  }
}
