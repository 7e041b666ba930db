/**
 * OTP entry (src/screens/OTPVerificationScreen.js): a six-cell digit buffer,
 * the simulated check in which "555555" is refused, the 60-second resend
 * countdown, and the pure display helpers `formatTime` and `maskedPhone`.
 * Each `setInterval` firing is a call of `Tick`; the `setTimeout` callback of
 * `handleVerifyOtp` (with the animation callback nested in it) is
 * `FinishVerification`.
 */
module OtpVerificationScreen {
  import opened Wrappers
  import opened JsStrings
  import opened Routes

  const ResendSeconds: int := 60
  const RejectedCode: string := "555555"
  const EmptyCells: seq<string> := ["", "", "", "", "", ""]

  /** The resend countdown: seconds left, and whether "Resend Code" is enabled. */
  datatype Countdown = Countdown(timer: int, canResend: bool)

  const FreshCountdown: Countdown := Countdown(ResendSeconds, false)

  /** One firing of the countdown interval. */
  function TickCountdown(c: Countdown): (r: Countdown)
    ensures c.timer >= 0 ==> 0 <= r.timer <= c.timer
    ensures r.canResend <==> c.canResend || c.timer <= 1
  {
    if c.timer <= 1 then Countdown(0, true) else Countdown(c.timer - 1, c.canResend)
  }

  /** The countdown after `k` firings. */
  function TicksFrom(c: Countdown, k: nat): Countdown
  {
    if k == 0 then c else TickCountdown(TicksFrom(c, k - 1))
  }

  /**
   * From a fresh start, the first 59 firings count down one second each with
   * resending disabled; the sixtieth reaches 0 and enables resending, which
   * then stays so.
   */
  lemma {:induction false} CountdownFrom60(k: nat)
    ensures k < 60 ==> TicksFrom(FreshCountdown, k) == Countdown(60 - k, false)
    ensures k >= 60 ==> TicksFrom(FreshCountdown, k) == Countdown(0, true)
  {
    if k > 0 {
      CountdownFrom60(k - 1);
    }
  }

  /** `formatTime`: whole minutes, a colon, then the seconds zero-padded to two digits. */
  function FormatTime(seconds: nat): (r: string)
    ensures |r| >= 4 && r[|r| - 3] == ':' && AllDigits(r[|r| - 2..])
    ensures seconds < 600 ==> |r| == 4
  {
    var secs := seconds % 60;
    NatToString(seconds / 60) + ":" + (if secs < 10 then "0" else "") + NatToString(secs)
  }

  /** Reading the display back gives minutes and seconds that add up to the input. */
  lemma FormatTimeReadsBack(seconds: nat)
    ensures var f := Split(FormatTime(seconds), ':');
      && |f| == 2 && AllDigits(f[0]) && AllDigits(f[1]) && |f[0]| >= 1 && |f[1]| == 2
      && DecimalValue(f[1]) < 60
      && DecimalValue(f[0]) * 60 + DecimalValue(f[1]) == seconds
  {
    var secs := seconds % 60;
    var m := NatToString(seconds / 60);
    var ss := (if secs < 10 then "0" else "") + NatToString(secs);
    assert FormatTime(seconds) == m + [':'] + ss;
    assert ':' !in m && ':' !in ss by {
      assert AllDigits(m);
      if secs < 10 {
        LeadingZeroValue(NatToString(secs));
      }
      assert AllDigits(ss);
    }
    SplitAt(m, ':', ss);
    SplitWithout(ss, ':');
    NatToStringValue(seconds / 60);
    NatToStringValue(secs);
    if secs < 10 {
      LeadingZeroValue(NatToString(secs));
    }
  }

  /** `replace(/\d/g, '*')`. */
  function MaskDigits(s: string): (r: string)
    ensures |r| == |s|
    ensures forall i :: 0 <= i < |s| ==> r[i] == if IsDigit(s[i]) then '*' else s[i]
  {
    if s == [] then [] else [if IsDigit(s[0]) then '*' else s[0]] + MaskDigits(s[1..])
  }

  /**
   * `maskedPhone`: every digit before the last four characters becomes '*';
   * other characters (such as '+') and the last four stay. JavaScript's
   * `slice(0, -4)` is empty and `slice(-4)` the whole string when the input is
   * shorter than four characters.
   */
  function MaskedPhone(phone: string): (r: string)
    ensures |r| == |phone|
    ensures |phone| <= 4 ==> r == phone
    ensures |phone| > 4 ==> r[|phone| - 4..] == phone[|phone| - 4..]
    ensures forall i :: 0 <= i < |phone| - 4 ==> r[i] == if IsDigit(phone[i]) then '*' else phone[i]
  {
    if phone == "" then ""
    else
      var cut := if |phone| >= 4 then |phone| - 4 else 0;
      MaskDigits(phone[..cut]) + phone[cut..]
  }

  predicate AllFilled(cells: seq<string>) { forall i :: 0 <= i < |cells| ==> cells[i] != "" }

  /** The screen's state. `pendingCode` is the code the scheduled check will look at. */
  class OtpScreen {
    const phoneNumber: string
    var otp: seq<string>
    var timer: int
    var canResend: bool
    var isVerifying: bool
    var pendingCode: Option<string>

    ghost predicate Valid()
      reads this
    {
      && |otp| == 6
      && 0 <= timer <= ResendSeconds
      && (canResend <==> timer == 0)
      && (isVerifying <==> pendingCode.Some?)
    }

    constructor (phoneNumber: string)
      ensures Valid()
      ensures this.phoneNumber == phoneNumber && otp == EmptyCells
      ensures Countdown(timer, canResend) == FreshCountdown
      ensures !isVerifying && pendingCode == None
    {
      this.phoneNumber := phoneNumber;
      otp := EmptyCells;
      timer, canResend := ResendSeconds, false;
      isVerifying, pendingCode := false, None;
    }

    /** One firing of the countdown interval. */
    method Tick()
      requires Valid()
      modifies this`timer, this`canResend
      ensures Valid()
      ensures Countdown(timer, canResend) == TickCountdown(old(Countdown(timer, canResend)))
    {
      if timer <= 1 {
        canResend := true;
        timer := 0;
      } else {
        timer := timer - 1;
      }
    }

    /** `handleVerifyOtp`'s synchronous part: mark verifying and schedule the check. */
    method HandleVerifyOtp(code: string)
      requires Valid() && !isVerifying
      modifies this`isVerifying, this`pendingCode
      ensures Valid()
      ensures isVerifying && pendingCode == Some(code)
    {
      isVerifying := true;
      pendingCode := Some(code);
    }

    /**
     * `handleOtpChange`: a value holding a non-digit is ignored; otherwise it
     * is written at `index`, and once all six cells are filled (and no check is
     * under way) the joined cells are submitted.
     */
    method HandleOtpChange(value: string, index: nat) returns (autoVerify: bool)
      requires Valid() && index < 6
      modifies this`otp, this`isVerifying, this`pendingCode
      ensures Valid()
      ensures !AllDigits(value) ==> otp == old(otp) && !autoVerify
      ensures AllDigits(value) ==> otp == old(otp)[index := value]
      ensures autoVerify <==> AllDigits(value) && AllFilled(otp) && !old(isVerifying)
      ensures autoVerify ==> isVerifying && pendingCode == Some(Join(otp))
      ensures !autoVerify ==> isVerifying == old(isVerifying) && pendingCode == old(pendingCode)
    {
      autoVerify := false;
      if value != "" && !AllDigits(value) {
        return;
      }
      var newOtp := otp[index := value];
      otp := newOtp;
      if AllFilled(newOtp) && !isVerifying {
        autoVerify := true;
        HandleVerifyOtp(Join(newOtp));
      }
    }

    /** `handleKeyPress`: Backspace on an empty cell moves focus back; nothing else changes. */
    method HandleKeyPress(key: string, index: nat) returns (focus: Option<nat>)
      requires Valid() && index < 6
      ensures focus.Some? <==> key == "Backspace" && otp[index] == "" && index > 0
      ensures focus.Some? ==> focus.value == index - 1
    {
      focus := None;
      if key == "Backspace" && otp[index] == "" && index > 0 {
        focus := Some(index - 1);
      }
    }

    /** The "Verify OTP" button: disabled while verifying or while a cell is empty. */
    method VerifyPressed() returns (started: bool)
      requires Valid()
      modifies this`isVerifying, this`pendingCode
      ensures Valid()
      ensures started <==> !old(isVerifying) && AllFilled(otp)
      ensures started ==> pendingCode == Some(Join(otp))
      ensures !started ==> isVerifying == old(isVerifying) && pendingCode == old(pendingCode)
    {
      started := !isVerifying && AllFilled(otp);
      if started {
        HandleVerifyOtp(Join(otp));
      }
    }

    /**
     * The scheduled check: "555555" is refused and the cells cleared; any
     * other six-character code leads to locker choice; a code of another
     * length clears the cells. Every outcome ends the verification.
     */
    method FinishVerification() returns (next: Option<Route>)
      requires Valid()
      modifies this`otp, this`isVerifying, this`pendingCode
      ensures Valid()
      ensures old(pendingCode).None? ==> next == None && otp == old(otp) && pendingCode == None
      ensures old(pendingCode).Some? ==> !isVerifying && pendingCode == None
      ensures next.Some? <==> old(pendingCode).Some? && old(pendingCode).value != RejectedCode
                                && |old(pendingCode).value| == 6
      ensures next.Some? ==> next.value == ChooseLocker && otp == old(otp)
      ensures old(pendingCode).Some? && next.None? ==> otp == EmptyCells
    {
      next := None;
      match pendingCode
      case None =>
      case Some(code) =>
        if code == RejectedCode {
          otp := EmptyCells;
        } else if |code| == 6 {
          next := Some(ChooseLocker);
        } else {
          otp := EmptyCells;
        }
        isVerifying, pendingCode := false, None;
    }

    /** `handleResendOtp`: ignored until the countdown has run out; then restart it and clear the cells. */
    method HandleResendOtp()
      requires Valid()
      modifies this`timer, this`canResend, this`otp
      ensures Valid()
      ensures !old(canResend) ==> otp == old(otp) && timer == old(timer) && canResend == old(canResend)
      ensures old(canResend) ==> Countdown(timer, canResend) == FreshCountdown && otp == EmptyCells
    {
      if !canResend {
        return;
      }
      timer := ResendSeconds;
      canResend := false;
      otp := EmptyCells;
    }
  }

  /** Cells that each hold one digit join into a code the check accepts, unless it is "555555". */
  lemma SingleDigitCellsPass(cells: seq<string>)
    requires |cells| == 6
    requires forall i :: 0 <= i < 6 ==> |cells[i]| == 1
    ensures |Join(cells)| == 6
  {
    JoinOfCells(cells);
  }
}
