/**
 * Phone entry (src/screens/MobileVerificationScreen.js): the digit-count
 * validator, the incremental "(ddd) ddd-dddd" formatter, and the form that
 * stores formatter output and sends the user on to OTP entry.
 */
module MobileVerificationScreen {
  import opened JsStrings
  import opened Routes

  const RequiredMessage: string := "Phone number is required"
  const InvalidMessage: string := "Please enter a valid phone number"

  /** The `countryCode` state's initial value; nothing ever calls its setter. */
  const CountryCode: string := "+1"

  /** `/^[0-9]{10,15}$/.test(s)`. */
  predicate MatchesPhonePattern(s: string)
  {
    10 <= |s| <= 15 && AllDigits(s)
  }

  /** `validatePhoneNumber`: a length check on the digits, then the pattern. */
  function ValidatePhoneNumber(number: string): (r: bool)
    ensures r <==> 10 <= |Digits(number)| <= 15
  {
    var cleaned := Digits(number);
    if |cleaned| < 10 || |cleaned| > 15 then false
    else MatchesPhonePattern(cleaned)
  }

  /** `formatPhoneNumber`: JavaScript's `slice` clamps, so `cleaned.slice(6, 10)` keeps at most four digits. */
  function FormatPhoneNumber(text: string): (r: string)
    ensures |r| <= 14
  {
    Layout(Digits(text))
  }

  /**
   * The formatter's three branches, on the already stripped digits: bare up to
   * three digits, three characters of punctuation added up to six, and four
   * added (with at most ten digits kept) beyond that.
   */
  function Layout(cleaned: string): (r: string)
    ensures |r| == if |cleaned| <= 3 then |cleaned|
                   else if |cleaned| <= 6 then |cleaned| + 3
                   else Min(10, |cleaned|) + 4
  {
    if |cleaned| <= 3 then cleaned
    else if |cleaned| <= 6 then "(" + cleaned[..3] + ") " + cleaned[3..]
    else "(" + cleaned[..3] + ") " + cleaned[3..6] + "-" + cleaned[6..Min(10, |cleaned|)]
  }

  function Min(a: int, b: int): int { if a <= b then a else b }

  /** Positions of the punctuation the formatter inserts. */
  predicate PunctuatedAt(r: string, i: nat)
    requires i < |r|
  {
    if i == 0 then r[i] == '(' else if i == 4 then r[i] == ')' else if i == 5 then r[i] == ' '
    else if i == 9 then r[i] == '-' else IsDigit(r[i])
  }

  /**
   * The three output shapes, by the number n of digits in the input: up to
   * three digits come back bare; four to six give "(ddd) d…"; seven or more
   * give "(ddd) ddd-d…" with at most four digits after the dash.
   */
  lemma FormatShape(text: string)
    ensures var n := |Digits(text)|; var r := FormatPhoneNumber(text);
      && (n <= 3 ==> r == Digits(text))
      && (4 <= n <= 6 ==> |r| == n + 3 && forall i :: 0 <= i < |r| ==> PunctuatedAt(r, i))
      && (7 <= n ==> |r| == Min(10, n) + 4 && forall i :: 0 <= i < |r| ==> PunctuatedAt(r, i))
  {
    var c := Digits(text);
    var r := FormatPhoneNumber(text);
    if 4 <= |c| <= 6 {
      assert r == "(" + c[..3] + ") " + c[3..];
      forall i | 0 <= i < |r| ensures PunctuatedAt(r, i) {
        if 1 <= i < 4 { assert r[i] == c[i - 1]; }
        else if 6 <= i { assert r[i] == c[i - 3]; }
      }
    } else if 7 <= |c| {
      var e := Min(10, |c|);
      assert r == "(" + c[..3] + ") " + c[3..6] + "-" + c[6..e];
      forall i | 0 <= i < |r| ensures PunctuatedAt(r, i) {
        if 1 <= i < 4 { assert r[i] == c[i - 1]; }
        else if 6 <= i < 9 { assert r[i] == c[i - 3]; }
        else if 10 <= i { assert r[i] == c[i - 4]; }
      }
    }
  }

  /** Stripping a punctuation-only prefix followed by digits leaves those digits. */
  lemma DigitsAfterPunctuation(p: string, d: string, rest: string)
    requires forall i :: 0 <= i < |p| ==> !IsDigit(p[i])
    requires AllDigits(d)
    ensures Digits(p + d + rest) == d + Digits(rest)
  {
    DigitsAppend(p + d, rest);
    DigitsAppend(p, d);
    DigitsOfNonDigits(p);
    DigitsOfDigits(d);
    assert Digits(p + d) == d;
  }

  lemma LayoutDigitsMid(c: string)
    requires AllDigits(c) && 4 <= |c| <= 6
    ensures Digits(Layout(c)) == c
  {
    var tail := ") " + c[3..];
    assert Layout(c) == "(" + c[..3] + tail;
    DigitsAfterPunctuation("(", c[..3], tail);
    DigitsAfterPunctuation(") ", c[3..], "");
    assert ") " + c[3..] + "" == tail;
    assert Digits("") == [];
    assert c[..3] + c[3..] == c;
  }

  lemma LayoutDigitsLong(c: string)
    requires AllDigits(c) && 7 <= |c|
    ensures Digits(Layout(c)) == c[..Min(10, |c|)]
  {
    var e := Min(10, |c|);
    var tail2 := "-" + c[6..e];
    var tail1 := ") " + c[3..6] + tail2;
    assert Layout(c) == "(" + c[..3] + tail1;
    DigitsAfterPunctuation("(", c[..3], tail1);
    DigitsAfterPunctuation(") ", c[3..6], tail2);
    DigitsAfterPunctuation("-", c[6..e], "");
    assert "-" + c[6..e] + "" == tail2;
    assert Digits("") == [];
    assert c[..3] + (c[3..6] + (c[6..e] + [])) == c[..e];
  }

  /** The formatted value carries exactly the first ten digits (fewer if there are fewer). */
  lemma FormatDigits(text: string)
    ensures Digits(FormatPhoneNumber(text)) == Digits(text)[..Min(10, |Digits(text)|)]
  {
    var c := Digits(text);
    if |c| <= 3 {
      DigitsOfDigits(c);
      assert c[..Min(10, |c|)] == c;
    } else if |c| <= 6 {
      LayoutDigitsMid(c);
      assert c[..Min(10, |c|)] == c;
    } else {
      LayoutDigitsLong(c);
    }
  }

  /** Reformatting formatter output changes nothing. */
  lemma FormatIdempotent(text: string)
    ensures FormatPhoneNumber(FormatPhoneNumber(text)) == FormatPhoneNumber(text)
  {
    var c := Digits(text);
    FormatDigits(text);
    var c' := c[..Min(10, |c|)];
    assert Layout(c') == Layout(c) by {
      if |c| > 10 {
        assert c'[..3] == c[..3] && c'[3..6] == c[3..6] && c'[6..10] == c[6..10];
      } else {
        assert c' == c;
      }
    }
  }

  /** Formatter output never holds more than ten digits. */
  lemma FormattedAtMostTen(phone: string)
    requires FormatPhoneNumber(phone) == phone
    ensures |Digits(phone)| <= 10
  {
    FormatDigits(phone);
  }

  datatype SendOutcome = Rejected(message: string) | Navigate(route: Route)

  /**
   * `handleSendVerification`'s decision: a blank number is refused first,
   * then one the validator rejects; otherwise navigation to OTP entry with the
   * country code followed by the digits.
   */
  function SendVerification(phoneNumber: string, countryCode: string): (r: SendOutcome)
    ensures r.Navigate? <==> 10 <= |Digits(phoneNumber)| <= 15
    ensures r.Navigate? ==> r.route == OTPVerification(countryCode + Digits(phoneNumber))
    ensures IsBlank(phoneNumber) ==> r == Rejected(RequiredMessage)
    ensures r.Rejected? && !IsBlank(phoneNumber) ==> r == Rejected(InvalidMessage)
  {
    var cleaned := Digits(phoneNumber);
    if IsBlank(phoneNumber) then
      BlankHasNoDigits(phoneNumber);
      Rejected(RequiredMessage)
    else if !ValidatePhoneNumber(cleaned) then
      DigitsOfDigits(cleaned);
      Rejected(InvalidMessage)
    else
      DigitsOfDigits(cleaned);
      Navigate(OTPVerification(countryCode + cleaned))
  }

  /** Since the stored number is formatter output, only exactly ten digits get through. */
  lemma SendNeedsTenDigits(phoneNumber: string, countryCode: string)
    requires FormatPhoneNumber(phoneNumber) == phoneNumber
    ensures SendVerification(phoneNumber, countryCode).Navigate? <==> |Digits(phoneNumber)| == 10
  {
    FormattedAtMostTen(phoneNumber);
  }

  /**
   * Whatever is typed, once at least ten digits have been entered the formatted
   * field is accepted, and the route carries the first ten of them.
   */
  lemma TypedTenDigitsSend(text: string, countryCode: string)
    requires |Digits(text)| >= 10
    ensures SendVerification(FormatPhoneNumber(text), countryCode)
            == Navigate(OTPVerification(countryCode + Digits(text)[..10]))
  {
    FormatDigits(text);
  }

  /** The screen's state: the formatted number and the phone error ("" when none is shown). */
  class PhoneForm {
    const countryCode: string
    var phoneNumber: string
    var phoneError: string

    /** The stored number is always a fixed point of the formatter. */
    ghost predicate Valid()
      reads this
    {
      FormatPhoneNumber(phoneNumber) == phoneNumber
    }

    constructor ()
      ensures Valid()
      ensures countryCode == CountryCode && phoneNumber == "" && phoneError == ""
    {
      countryCode := CountryCode;
      phoneNumber := "";
      phoneError := "";
    }

    /** `handlePhoneChange`: store the formatted text and clear a shown phone error. */
    method HandlePhoneChange(text: string)
      requires Valid()
      modifies this
      ensures Valid()
      ensures phoneNumber == FormatPhoneNumber(text)
      ensures phoneError == ""
    {
      phoneNumber := FormatPhoneNumber(text);
      FormatIdempotent(text);
      if phoneError != "" {
        phoneError := "";
      }
    }

    /** `handleSendVerification`: set or clear the error, and say where to navigate on success. */
    method HandleSendVerification() returns (r: SendOutcome)
      requires Valid()
      modifies this
      ensures Valid() && phoneNumber == old(phoneNumber)
      ensures r == SendVerification(phoneNumber, countryCode)
      ensures r.Navigate? ==> |Digits(phoneNumber)| == 10 && phoneError == ""
      ensures r.Rejected? ==> phoneError == r.message
    {
      SendNeedsTenDigits(phoneNumber, countryCode);
      r := SendVerification(phoneNumber, countryCode);
      match r
      case Rejected(message) => phoneError := message;
      case Navigate(_) => phoneError := "";
    }
  }
}
