# Locker rental wizard — a Dafny model

This project models the self-service locker rental flow of a React Native app. The user goes through these screens:

- enters a phone number;
- confirms a six-digit one-time code;
- picks an available locker;
- chooses a duration and a payment method;
- creates and confirms a four-digit PIN;
- lands on the active-rental screen. That screen counts the time down and offers to extend the rental (back to payment) or to end it (back home).

The model has one module per screen:

- `MobileVerificationScreen`;
- `OtpVerificationScreen`;
- `ChooseLockerScreen`;
- `PaymentScreen`;
- `PinSetupScreen`;
- `SuccessScreen`.

Three more modules support them:

- `Routes` holds the navigator's screens and the parameters each `navigation.navigate` call passes.
- `JsStrings` models the JavaScript string built-ins the screens use:
  - `replace(/\D/g, '')`;
  - `trim`;
  - integer `toString`;
  - `padStart`;
  - `join`;
  - `parseInt`.
- `Wizard` links the screens.

How the source is mapped:

- **Classes.** Each screen's `useState` fields become the fields of a class. Each handler becomes a method that updates them.
- **Pure functions.** The pure helpers become functions:
  - the phone formatter;
  - the price calculation;
  - the timer displays;
  - the phone mask.
- **Buffers.** The OTP and PIN buffers are `seq<string>` fields. The handlers copy the array and store the copy, so replacing the sequence whole matches the source.
- **Money** is integer cents, so the hourly rate of 2.5 is 250.
- **Timers.** Each firing of a `setInterval` is one `Tick` call. The callbacks that `setTimeout` schedules run as part of the step that schedules them, or as a separate step (`FinishVerification`).
- **Dialogs.** A dialog's choice is a `confirmed` parameter, and the current time is a `now` parameter.

`Wizard.Admissible` states what each route's parameters satisfy when payment uses the corrected custom-hours check (see "## Findings"):

- the phone number is "+1" followed by ten digits;
- the locker is an available one;
- the duration is at least one hour;
- the amount is the duration times the rate;
- the PIN has four digits.

One lemma per navigation edge shows that the edge keeps this property. With the check as written, an unparsable custom count reaches PIN setup with no hours (`NaN`) and an amount of 0. That route is not admissible.

## Model

| member | source | states |
|---|---|---|
| JsStrings.Digits | src/screens/MobileVerificationScreen.js:29 | stripping non-digits leaves only digits and never lengthens the text |
| JsStrings.DigitsOfDigits | src/screens/MobileVerificationScreen.js:43 | stripping a digit string changes nothing, so re-stripping the formatter's digits is harmless |
| JsStrings.BlankHasNoDigits | src/screens/MobileVerificationScreen.js:67-72 | a number that trims to nothing holds no digits |
| JsStrings.NatToString | src/screens/SuccessScreen.js:43 | `toString` gives at least one digit, no leading zero, one digit below 10 and two below 100 |
| JsStrings.NatToStringValue | src/screens/SuccessScreen.js:43 | the decimal text `toString` writes reads back as the number |
| JsStrings.PadStart2 | src/screens/SuccessScreen.js:43 | `padStart(2, '0')` gives at least two characters, keeps the text at the right end, and fills only with zeros |
| JsStrings.PadStart2Value | src/screens/SuccessScreen.js:43 | padding a digit string keeps its decimal value |
| JsStrings.JoinOfCells | src/screens/PINSetupScreen.js:71-73 | joining one-character cells gives as many characters as cells exactly when no cell is empty |
| JsStrings.JoinDigits | src/screens/OTPVerificationScreen.js:68 | joining digit cells gives a digit string |
| JsStrings.Join | src/screens/OTPVerificationScreen.js:68 | `join('')` gives the empty text exactly when every cell is empty |
| JsStrings.TrimStart | src/screens/PaymentScreen.js:47 | `parseInt`'s leading-whitespace skip returns a suffix of the input that does not start with whitespace |
| JsStrings.TrimStartDropsWhitespace | src/screens/PaymentScreen.js:47 | everything skipped is whitespace, and the text is blank exactly when nothing is left |
| JsStrings.ParseInt | src/screens/PaymentScreen.js:47 | `parseInt` yields a number only when the text contains a digit; otherwise the result stands for `NaN` |
| JsStrings.ParseIntOfDigits | src/screens/PaymentScreen.js:60 | a non-empty run of decimal digits parses to its decimal value |
| JsStrings.ParseIntOfNat | src/screens/PaymentScreen.js:71 | `parseInt` reads back any count written in decimal |
| Routes.HomeStart | src/screens/HomeScreen.js:87 | pressing the home screen's "Available Lockers" card opens phone entry |
| MobileVerificationScreen.ValidatePhoneNumber | src/screens/MobileVerificationScreen.js:27-39 | a number is valid exactly when it has 10 to 15 digits, whatever else it contains |
| MobileVerificationScreen.Layout | src/screens/MobileVerificationScreen.js:44-52 | the three branches add no punctuation up to 3 digits, three characters up to 6, and four beyond, keeping at most ten digits |
| MobileVerificationScreen.FormatPhoneNumber | src/screens/MobileVerificationScreen.js:41-53 | formatted text is at most 14 characters long, the field's `maxLength` |
| MobileVerificationScreen.FormatShape | src/screens/MobileVerificationScreen.js:41-53 | up to 3 digits come back bare; 4 to 6 become "(ddd) d…" with the parenthesis, space and digits in place |
| MobileVerificationScreen.FormatDigits | src/screens/MobileVerificationScreen.js:41-53 | the formatted text holds exactly the first ten digits of the input, in order |
| MobileVerificationScreen.FormatIdempotent | src/screens/MobileVerificationScreen.js:41-53 | formatting formatted text changes nothing |
| MobileVerificationScreen.FormattedAtMostTen | src/screens/MobileVerificationScreen.js:41-53 | formatter output never holds more than ten digits |
| MobileVerificationScreen.SendVerification | src/screens/MobileVerificationScreen.js:65-86 | navigation happens exactly when the number has 10 to 15 digits; the route carries the country code followed by the digits; a blank number is refused as required, and any other refusal says the number is invalid |
| MobileVerificationScreen.SendNeedsTenDigits | src/screens/MobileVerificationScreen.js:65-77 | since the field holds formatter output, exactly ten digits are needed to get through |
| MobileVerificationScreen.TypedTenDigitsSend | src/screens/MobileVerificationScreen.js:55-86 | whatever is typed, once it contains ten digits the stored field is accepted and the route carries the first ten |
| MobileVerificationScreen.PhoneForm.constructor | src/screens/MobileVerificationScreen.js:23-25 | the field starts empty with no error and the country code "+1" |
| MobileVerificationScreen.PhoneForm.HandlePhoneChange | src/screens/MobileVerificationScreen.js:55-63 | the field becomes the formatted text, the error is cleared, and the field stays a fixed point of the formatter |
| MobileVerificationScreen.PhoneForm.HandleSendVerification | src/screens/MobileVerificationScreen.js:65-86 | the field is unchanged; the error becomes the refusal message, or is cleared on navigation, which needs exactly ten digits |
| OtpVerificationScreen.TickCountdown | src/screens/OTPVerificationScreen.js:37-46 | a firing never raises the timer or takes it below 0, and resending is enabled once it was or the timer was at most 1 |
| OtpVerificationScreen.CountdownFrom60 | src/screens/OTPVerificationScreen.js:27-46 | from 60, the first 59 firings count down one second each with resending disabled; from the 60th on the timer is 0 and resending is enabled |
| OtpVerificationScreen.FormatTime | src/screens/OTPVerificationScreen.js:142-146 | the display ends in a colon and two digits, and is "m:ss", four characters, below ten minutes |
| OtpVerificationScreen.FormatTimeReadsBack | src/screens/OTPVerificationScreen.js:142-146 | the "m:ss" display splits into minutes and two-digit seconds below 60 that add back up to the input |
| OtpVerificationScreen.MaskDigits | src/screens/OTPVerificationScreen.js:149 | every digit becomes '*' and every other character stays |
| OtpVerificationScreen.MaskedPhone | src/screens/OTPVerificationScreen.js:148-150 | the length is kept, the last four characters show, and before them every digit is masked and every other character kept |
| OtpVerificationScreen.OtpScreen.constructor | src/screens/OTPVerificationScreen.js:26-29 | six empty cells, a 60-second countdown with resending disabled, no check under way |
| OtpVerificationScreen.OtpScreen.Tick | src/screens/OTPVerificationScreen.js:37-46 | the countdown takes exactly one firing step |
| OtpVerificationScreen.OtpScreen.HandleVerifyOtp | src/screens/OTPVerificationScreen.js:78-82 | a check of the given code is now under way |
| OtpVerificationScreen.OtpScreen.HandleOtpChange | src/screens/OTPVerificationScreen.js:51-70 | a non-digit value changes nothing; otherwise the cell takes the value, and the check starts on the joined cells exactly when all six are filled and none is under way |
| OtpVerificationScreen.OtpScreen.HandleKeyPress | src/screens/OTPVerificationScreen.js:72-76 | Backspace on an empty cell after the first moves focus one cell back; nothing else moves it |
| OtpVerificationScreen.OtpScreen.VerifyPressed | src/screens/OTPVerificationScreen.js:260-263 | the button starts a check of the joined cells exactly when all cells are filled and no check is under way |
| OtpVerificationScreen.OtpScreen.FinishVerification | src/screens/OTPVerificationScreen.js:82-114 | the check ends; it leads to locker choice exactly when the code is six characters long and not "555555"; otherwise the cells are cleared |
| OtpVerificationScreen.OtpScreen.HandleResendOtp | src/screens/OTPVerificationScreen.js:117-125 | ignored until the countdown has run out; then the countdown restarts at 60 and the cells are cleared |
| OtpVerificationScreen.SingleDigitCellsPass | src/screens/OTPVerificationScreen.js:97-98 | six one-character cells always join to a six-character code, so the length check never fails from the screen |
| ChooseLockerScreen.LockerIdsUnique | src/screens/ChooseLockerScreen.js:24-37 | no two lockers of the twelve-entry `lockers` table share an id |
| ChooseLockerScreen.OccupiedLockers | src/screens/ChooseLockerScreen.js:24-37 | exactly A2, A6, B3 and B5 are occupied, and the available ids are exactly the other eight |
| ChooseLockerScreen.ContinueTarget | src/screens/ChooseLockerScreen.js:125-128 | Continue leads nowhere without a selection, and otherwise to payment for the selected locker |
| ChooseLockerScreen.LockerPicker.constructor | src/screens/ChooseLockerScreen.js:21 | nothing is selected at first |
| ChooseLockerScreen.LockerPicker.HandleSelect | src/screens/ChooseLockerScreen.js:39-45 | an occupied locker is refused and the selection kept; an available one becomes the selection, so the selection is always an available locker |
| ChooseLockerScreen.LockerPicker.Continue | src/screens/ChooseLockerScreen.js:125-128 | where Continue leads; a locker it sends on is available |
| PaymentScreen.FindDurationFrom | src/screens/PaymentScreen.js:50 | `find` returns a catalogue entry with the id, or nothing when no entry has it |
| PaymentScreen.PresetHours | src/screens/PaymentScreen.js:29-36 | in the `durations` table the presets are 1, 2, 4, 8 and 24 hours, the custom entry has none of its own, and ids are unique |
| PaymentScreen.PaymentMethodIds | src/screens/PaymentScreen.js:38-42 | the payment-method table offers exactly the ids "card", "upi" and "wallet" |
| PaymentScreen.FindCatalogueEntry | src/screens/PaymentScreen.js:50 | looking up an entry's id finds that entry |
| PaymentScreen.HoursOrZero | src/screens/PaymentScreen.js:47 | `parseInt(customHours) \|\| 0` is the parsed count, and 0 for `NaN` |
| PaymentScreen.CalculateTotal | src/screens/PaymentScreen.js:44-52 | the total is 0 without a selection and is always a whole number of hours at the rate |
| PaymentScreen.PresetTotal | src/screens/PaymentScreen.js:50-51 | a preset costs its hours at 250 cents each, whatever the custom field holds |
| PaymentScreen.CustomTotal | src/screens/PaymentScreen.js:46-48 | the custom choice costs its parsed hours at the rate, and 0 when the count does not parse |
| PaymentScreen.CheckPaymentAsWritten | src/screens/PaymentScreen.js:54-81 | the checks as the code makes them: no duration first, then a custom count that is empty or parses to at most 0, then a missing payment method, each refusal exactly when its condition holds; otherwise it goes on with the parsed custom count or the preset's hours, charged `calculateTotal` |
| PaymentScreen.UnparsableHoursGetThrough | src/screens/PaymentScreen.js:60-80 | every non-empty custom count that does not parse passes the written check, with a payment method, and goes on with no hours and an amount of 0 |
| PaymentScreen.NaNHoursGetThrough | src/screens/PaymentScreen.js:60 | the custom count "-" passes the written check and goes on with no hours and an amount of 0 |
| PaymentScreen.CheckPayment | src/screens/PaymentScreen.js:54-81 | the same ordered checks with an unparsable count refused; each refusal happens exactly when its condition holds; what goes on carries the parsed custom count or the preset's hours, at least one, and costs those hours at the rate |
| PaymentScreen.NaNHoursRefused | src/screens/PaymentScreen.js:60 | the corrected check refuses "-" with "Please enter valid hours" |
| PaymentScreen.PaymentVersionsAgree | src/screens/PaymentScreen.js:54-81 | the two versions agree on every input whose custom count parses |
| PaymentScreen.PaymentForm.constructor | src/screens/PaymentScreen.js:18-25 | no duration, an empty custom count and no payment method |
| PaymentScreen.PaymentForm.SelectDuration | src/screens/PaymentScreen.js:137-142 | the card is selected, and the custom count is cleared unless it is the custom card |
| PaymentScreen.PaymentForm.SetCustomHours | src/screens/PaymentScreen.js:165-175 | the custom field, shown only for the custom card, holds the typed text |
| PaymentScreen.PaymentForm.SelectPaymentMethod | src/screens/PaymentScreen.js:192 | the method card's id is selected |
| PaymentScreen.PaymentForm.Total | src/screens/PaymentScreen.js:44-45 | the shown total is 0 while no duration is selected |
| PaymentScreen.PaymentForm.HandlePayment | src/screens/PaymentScreen.js:54-81 | an error exactly when the check refuses, with its message; otherwise PIN setup for this locker with at least one hour, the amount for those hours, and the chosen catalogue method |
| PinSetupScreen.FullBuffer | src/screens/PINSetupScreen.js:71-73 | a buffer of empty or one-digit cells joins to digits, and to four of them exactly when no cell is empty |
| PinSetupScreen.CellValue | src/screens/PINSetupScreen.js:43-50 | a cell keeps at most one character, the last one typed; it is empty only for an empty value, and a digit value leaves a digit |
| PinSetupScreen.ContinueDisabled | src/screens/PINSetupScreen.js:251-255 | Continue is disabled exactly when the buffer of the current step has an empty cell |
| PinSetupScreen.ContinueEnabledMeansFull | src/screens/PINSetupScreen.js:251-255 | Continue is enabled only when the buffer of the current step holds four digits |
| PinSetupScreen.PinScreen.constructor | src/screens/PINSetupScreen.js:20-27 | the route parameters are kept, both buffers are empty, and the step is create |
| PinSetupScreen.PinScreen.HandlePinChange | src/screens/PINSetupScreen.js:35-53 | a non-digit value changes nothing; otherwise the cell takes the value's last character (or is cleared) and the other buffer is untouched |
| PinSetupScreen.PinScreen.HandleKeyPress | src/screens/PINSetupScreen.js:55-68 | Backspace on an empty cell after the first clears the cell before it; nothing else changes |
| PinSetupScreen.PinScreen.HandleContinue | src/screens/PINSetupScreen.js:70-115 | an incomplete PIN is reported; a full one moves create to confirm; on confirm a different entry clears only the confirm buffer and stays; a matching one activates with the four-digit PIN |
| PinSetupScreen.PinScreen.HandleActivateLocker | src/screens/PINSetupScreen.js:117-133 | the active-rental screen gets the locker, duration, amount, PIN and start time |
| PinSetupScreen.PinScreen.BackToCreate | src/screens/PINSetupScreen.js:283-285 | back to the create step with the confirm buffer cleared and the PIN kept |
| SuccessScreen.NextRemaining | src/screens/SuccessScreen.js:27-33 | a firing never leaves a negative time and never raises a non-negative one |
| SuccessScreen.RemainingCountsDown | src/screens/SuccessScreen.js:22-34 | after k firings from a non-negative start, max(0, start − k) seconds are left |
| SuccessScreen.RemainingMonotone | src/screens/SuccessScreen.js:25-34 | the remaining time never increases over firings and is never negative after the first |
| SuccessScreen.FormatTime | src/screens/SuccessScreen.js:39-44 | the display ends in ":mm:ss" and is "hh:mm:ss", eight characters, below 100 hours |
| SuccessScreen.FormatTimeReadsBack | src/screens/SuccessScreen.js:39-44 | the display splits into hours, minutes and seconds of at least two digits, minutes and seconds below 60, that add back up to the input; below 100 hours it is eight characters |
| SuccessScreen.EndTimeMillis | src/screens/SuccessScreen.js:57-59 | the end is `duration` hours, in milliseconds, after the start |
| SuccessScreen.WindowMatchesCountdown | src/screens/SuccessScreen.js:22-59 | the rental window in milliseconds is the initial countdown in seconds times 1000 |
| SuccessScreen.ExtendTarget | src/screens/SuccessScreen.js:79-94 | extending leads somewhere exactly when confirmed, and then to payment for the same locker marked as an extension |
| SuccessScreen.EndTarget | src/screens/SuccessScreen.js:96-116 | ending leads somewhere exactly when confirmed, and then home |
| SuccessScreen.RentalScreen.constructor | src/screens/SuccessScreen.js:17-22 | the countdown starts at the duration in seconds |
| SuccessScreen.RentalScreen.Tick | src/screens/SuccessScreen.js:25-34 | the remaining time takes one firing step, never goes below 0, and never rises |
| SuccessScreen.RentalScreen.EndTime | src/screens/SuccessScreen.js:57-59 | the end is the start plus the duration in milliseconds |
| SuccessScreen.RentalScreen.HandleExtendRental | src/screens/SuccessScreen.js:79-94 | a confirmed extension goes to payment for this locker |
| SuccessScreen.RentalScreen.HandleEndRental | src/screens/SuccessScreen.js:96-116 | a confirmed end goes home |
| Wizard.InitialAdmissible | src/navigation/AppNavigator.js:20 | the navigator starts at Home, and Home leads to phone entry |
| Wizard.PhoneEdge | src/screens/MobileVerificationScreen.js:83-85 | phone entry sends on "+1" followed by exactly ten digits |
| Wizard.LockerEdge | src/screens/ChooseLockerScreen.js:125-128 | locker choice sends on an available locker |
| Wizard.PaymentEdge | src/screens/PaymentScreen.js:75-80 | with the corrected custom-hours check, payment keeps the locker and sends on at least one hour, its price and a catalogue method |
| Wizard.PinEdge | src/screens/PINSetupScreen.js:125-131 | PIN setup passes locker, duration and amount through and adds a four-digit PIN |
| Wizard.RentalEdges | src/screens/SuccessScreen.js:79-116 | extending and ending lead only to admissible routes |
| Wizard.RentalWindow | src/screens/SuccessScreen.js:57-59 | on a rental reached through the screens with the corrected custom-hours check, the countdown starts at one hour or more, the window matches it, and the amount is the hours at 250 cents |

## Left out

- Rendering, styles, layout breakpoints, gradients and Lottie animations are not modelled. The `showAnimation`/`animationType` flags only drive them.
- `Alert.alert` dialogs are not modelled. The error messages are the refusal values. A dialog's buttons become the `confirmed` parameter.
- Moving keyboard focus (`inputRefs`, `pinRefs`) is not modelled. In OTP entry, `HandleKeyPress` returns the cell it would focus.
- The scheduling of `setInterval`/`setTimeout` is not modelled. Each interval firing is one `Tick` call.
  - PIN setup runs its delayed callbacks as part of `HandleContinue`: 1500 ms to the confirm step, 2000 ms to clear a mismatch, and 1500 ms then 2000 ms to activate. The PIN screen's `isProcessing` flag is therefore not modelled, and neither is the fact that it hides the "back to create PIN" link (`PinSetupScreen.PinScreen.BackToCreate`) while it is set.
  - In OTP entry, the 1500 ms callback and the 2000/2500 ms callbacks nested in it are one `FinishVerification` step.
- OtpVerificationScreen.OtpScreen.HandleVerifyOtp: requires that no check is under way. Both callers guarantee it: the auto-verify guard and the disabled button. The model holds only one pending check.
- The resend countdown's second `setInterval` is not modelled as a separate timer. It is never cleared on unmount. It can only start once the first interval has reached 0 and cleared itself, so at most one runs at a time, and the model keeps one timer.
- The resend and verify buttons' `disabled` states are part of the methods' conditions.
- Floating point is not modelled. Money is whole cents, and `toFixed(2)` and the "$2.5/hr" header are left out.
- Dates are not modelled. `rentalStartTime` is milliseconds since the epoch, not an ISO string. `formatDateTime` and `toLocaleString` are left out.
- `getProgressPercentage` is floating-point arithmetic and is not modelled.
- SuccessScreen's "show PIN" toggle and `handleOpenLocker` are not modelled. They only show dialogs and text.
- The text fields' `maxLength` limits are not modelled: 14 for the phone, 1 per OTP or PIN cell, 3 for the custom hours. The handlers are modelled on any text.
  - `OtpVerificationScreen.SingleDigitCellsPass` states what the one-character cells give.
- `countryCode` has a setter that nothing calls, so it is a constant "+1".
- The payment screen reads only `lockerId` from its route. The `isExtending` flag that "Extend" passes is kept in the route and on `PaymentForm` but never read.
- The home screen's static content and store links (`Linking`) are not modelled. Only the navigation of its "Available Lockers" card is.
- `navigation.goBack` buttons are not modelled.
- Two behaviours of the code worth stating:
  - **PIN mismatch.** The confirm step stays on screen and only the confirm buffer is cleared (src/screens/PINSetupScreen.js:93-103).
  - **Phone length.** The field stores formatter output, which keeps at most ten digits. So although the validator accepts 10 to 15 digits, exactly ten get through (`MobileVerificationScreen.SendNeedsTenDigits`).
- PaymentScreen.PaymentForm.HandlePayment: follows the corrected check `CheckPayment`, not the written one. On a non-empty custom count that does not parse, such as "-", the code navigates to PIN setup with `duration: NaN` and `amount: 0` (`PaymentScreen.UnparsableHoursGetThrough`). The method refuses with "Please enter valid hours" instead.
- Wizard.PaymentEdge: is stated for the corrected check. With the written check, an unparsable custom count sends a route with no hours, which `Wizard.Admissible` excludes.
- Wizard.RentalWindow: holds for rentals reached through the corrected check. With the written check, an unparsable count reaches the active-rental screen with a `NaN` duration, so the countdown starts at `NaN` (src/screens/SuccessScreen.js:22).

## Findings

| source | as written | input that shows it | evidently intended | confidence | as-written member | corrected member |
|---|---|---|---|---|---|---|
| src/screens/PaymentScreen.js:60 | the custom-hours guard `!customHours \|\| parseInt(customHours) <= 0` lets an unparsable count through, because `NaN <= 0` is false; payment then goes on with `duration: NaN` and `amount: 0` | custom duration with hours "-" and method "card" | refuse any count that does not parse to at least one hour with "Please enter valid hours" | not executed | PaymentScreen.CheckPaymentAsWritten, PaymentScreen.NaNHoursGetThrough | PaymentScreen.CheckPayment, PaymentScreen.NaNHoursRefused |
