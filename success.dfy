/**
 * Active rental (src/screens/SuccessScreen.js): the remaining-time countdown
 * that floors at zero, its "HH:MM:SS" display, the end time, and the extend
 * and end actions. Each firing of the one-second interval is a call of `Tick`;
 * the confirmation dialogs become a `confirmed` flag.
 */
module SuccessScreen {
  import opened Wrappers
  import opened JsStrings
  import opened Routes

  const SecondsPerHour: int := 3600
  const MillisPerHour: int := 3600000

  /** One firing of the countdown interval. */
  function NextRemaining(prev: int): (r: int)
    ensures r >= 0
    ensures r <= prev || prev < 0
  {
    if prev <= 0 then 0 else prev - 1
  }

  /** The remaining time after `k` firings. */
  function RemainingAfter(start: int, k: nat): int
  {
    if k == 0 then start else NextRemaining(RemainingAfter(start, k - 1))
  }

  function Max(a: int, b: int): int { if a >= b then a else b }

  /** After `k` firings from a non-negative start, max(0, start - k) seconds are left. */
  lemma {:induction false} RemainingCountsDown(start: int, k: nat)
    requires start >= 0
    ensures RemainingAfter(start, k) == Max(0, start - k)
  {
    if k > 0 {
      RemainingCountsDown(start, k - 1);
    }
  }

  /** The countdown never increases and, after the first firing, is never negative. */
  lemma {:induction false} RemainingMonotone(start: int, j: nat, k: nat)
    requires j <= k
    ensures RemainingAfter(start, k) <= RemainingAfter(start, j) || (j == 0 && start < 0)
    ensures k >= 1 ==> RemainingAfter(start, k) >= 0
  {
    if j < k {
      RemainingMonotone(start, j, k - 1);
    }
  }

  /** `formatTime`: hours, minutes and seconds, each padded to at least two digits, joined by colons. */
  function FormatTime(seconds: nat): (r: string)
    ensures |r| >= 8 && r[|r| - 6] == ':' && r[|r| - 3] == ':'
    ensures seconds < 360000 ==> |r| == 8
  {
    var hours := seconds / 3600;
    var minutes := (seconds % 3600) / 60;
    var secs := seconds % 60;
    PadStart2(NatToString(hours)) + ":" + PadStart2(NatToString(minutes)) + ":" + PadStart2(NatToString(secs))
  }

  /** A padded number: digits, at least two of them, with the number's value. */
  lemma PaddedNumber(n: nat)
    ensures AllDigits(PadStart2(NatToString(n)))
    ensures DecimalValue(PadStart2(NatToString(n))) == n
    ensures |PadStart2(NatToString(n))| >= 2
    ensures n < 100 ==> |PadStart2(NatToString(n))| == 2
  {
    PadStart2Value(NatToString(n));
    NatToStringValue(n);
  }

  /** Hours, minutes and seconds as `formatTime` computes them add back up to the input. */
  lemma ClockArithmetic(seconds: nat)
    ensures (seconds % 3600) / 60 < 60 && seconds % 60 < 60
    ensures (seconds / 3600) * 3600 + ((seconds % 3600) / 60) * 60 + seconds % 60 == seconds
    ensures seconds < 360000 ==> seconds / 3600 < 100
  {
    var r := seconds % 3600;
    assert seconds == (seconds / 3600) * 3600 + r;
    assert r == (r / 60) * 60 + r % 60;
    assert r % 60 == seconds % 60;
  }

  /** Three colon-free fields joined by colons split back into those fields. */
  lemma SplitThree(a: string, b: string, c: string)
    requires ':' !in a && ':' !in b && ':' !in c
    ensures Split(a + ":" + b + ":" + c, ':') == [a, b, c]
  {
    assert a + ":" + b + ":" + c == a + [':'] + (b + [':'] + c);
    SplitAt(a, ':', b + [':'] + c);
    SplitAt(b, ':', c);
    SplitWithout(c, ':');
  }

  /**
   * Reading the display back: three fields of at least two digits, minutes and
   * seconds below 60, adding up to the input; below 100 hours it is the
   * eight-character "HH:MM:SS".
   */
  lemma FormatTimeReadsBack(seconds: nat)
    ensures var f := Split(FormatTime(seconds), ':');
      && |f| == 3 && AllDigits(f[0]) && AllDigits(f[1]) && AllDigits(f[2])
      && |f[0]| >= 2 && |f[1]| == 2 && |f[2]| == 2
      && DecimalValue(f[1]) < 60 && DecimalValue(f[2]) < 60
      && DecimalValue(f[0]) * 3600 + DecimalValue(f[1]) * 60 + DecimalValue(f[2]) == seconds
    ensures seconds < 360000 ==> |FormatTime(seconds)| == 8
  {
    var hours := seconds / 3600;
    var minutes := (seconds % 3600) / 60;
    var secs := seconds % 60;
    var h := PadStart2(NatToString(hours));
    var m := PadStart2(NatToString(minutes));
    var s := PadStart2(NatToString(secs));
    ClockArithmetic(seconds);
    PaddedNumber(hours);
    PaddedNumber(minutes);
    PaddedNumber(secs);
    assert ':' !in h && ':' !in m && ':' !in s by {
      assert !IsDigit(':');
    }
    assert FormatTime(seconds) == h + ":" + m + ":" + s;
    SplitThree(h, m, s);
  }

  /** `getEndTime` before formatting: the end, in milliseconds, is `duration` hours after the start. */
  function EndTimeMillis(rentalStartTime: int, duration: int): (end: int)
    ensures end - rentalStartTime == duration * MillisPerHour
  {
    rentalStartTime + duration * 60 * 60 * 1000
  }

  /** The rental window in milliseconds is the initial countdown in seconds, times 1000. */
  lemma WindowMatchesCountdown(rentalStartTime: int, duration: int)
    ensures EndTimeMillis(rentalStartTime, duration) - rentalStartTime == duration * SecondsPerHour * 1000
  {
  }

  /** "Extend": after confirmation, back to payment for the same locker, marked as an extension. */
  function ExtendTarget(lockerId: string, confirmed: bool): (r: Option<Route>)
    ensures r.Some? <==> confirmed
    ensures r.Some? ==> r.value == Payment(lockerId, true)
  {
    if confirmed then Some(Payment(lockerId, true)) else None
  }

  /** "End Rental": after confirmation and the thank-you dialog, back to the home screen. */
  function EndTarget(confirmed: bool): (r: Option<Route>)
    ensures r.Some? <==> confirmed
    ensures r.Some? ==> r.value == Home
  {
    if confirmed then Some(Home) else None
  }

  class RentalScreen {
    const lockerId: string
    const duration: int
    const amount: int
    const pin: string
    const rentalStartTime: int
    var timeRemaining: int

    constructor (lockerId: string, duration: int, amount: int, pin: string, rentalStartTime: int)
      ensures this.lockerId == lockerId && this.duration == duration && this.amount == amount
      ensures this.pin == pin && this.rentalStartTime == rentalStartTime
      ensures timeRemaining == duration * SecondsPerHour
    {
      this.lockerId := lockerId;
      this.duration := duration;
      this.amount := amount;
      this.pin := pin;
      this.rentalStartTime := rentalStartTime;
      timeRemaining := duration * 3600;
    }

    /** One firing of the countdown interval. */
    method Tick()
      modifies this`timeRemaining
      ensures timeRemaining == NextRemaining(old(timeRemaining))
      ensures 0 <= timeRemaining
      ensures old(timeRemaining) >= 0 ==> timeRemaining <= old(timeRemaining)
    {
      if timeRemaining <= 0 {
        timeRemaining := 0;
      } else {
        timeRemaining := timeRemaining - 1;
      }
    }

    function EndTime(): (end: int)
      reads this
      ensures end == rentalStartTime + duration * MillisPerHour
    {
      EndTimeMillis(rentalStartTime, duration)
    }

    method HandleExtendRental(confirmed: bool) returns (next: Option<Route>)
      ensures next == ExtendTarget(lockerId, confirmed)
    {
      next := ExtendTarget(lockerId, confirmed);
    }

    method HandleEndRental(confirmed: bool) returns (next: Option<Route>)
      ensures next == EndTarget(confirmed)
    {
      next := EndTarget(confirmed);
    }
  }
}
