/**
 * PIN setup (src/screens/PINSetupScreen.js): two four-cell buffers and the
 * two-step create/confirm flow. On a mismatch the screen stays on the confirm
 * step and clears only the confirm buffer. The animation and activation
 * delays are folded into the step that schedules them.
 */
module PinSetupScreen {
  import opened JsStrings
  import opened Routes

  /** `step`: 1 is create, 2 is confirm. */
  datatype Step = CreatePin | ConfirmPin

  const EmptyPin: seq<string> := ["", "", "", ""]
  const PinMessage: string := "Please enter a 4-digit PIN"

  /** A cell is empty or holds one digit. */
  predicate CellOk(c: string) { c == "" || (|c| == 1 && IsDigit(c[0])) }

  predicate WellFormedBuffer(b: seq<string>) { |b| == 4 && forall i :: 0 <= i < 4 ==> CellOk(b[i]) }

  predicate SomeEmpty(b: seq<string>) { exists i :: 0 <= i < |b| && b[i] == "" }

  /** What a typed value leaves in its cell: the last character, or nothing. */
  function CellValue(value: string): (r: string)
    ensures |r| <= 1 && (value == "" <==> r == "")
    ensures value != "" ==> r == value[|value| - 1..]
    ensures AllDigits(value) ==> CellOk(r)
  {
    if value == "" then "" else [value[|value| - 1]]
  }

  /** The Continue button's `disabled` guard (while no activation is in progress). */
  function ContinueDisabled(step: Step, pin: seq<string>, confirmPin: seq<string>): (r: bool)
    ensures var onScreen := if step == CreatePin then pin else confirmPin;
            r <==> exists i :: 0 <= i < |onScreen| && onScreen[i] == ""
  {
    (step == CreatePin && SomeEmpty(pin)) || (step == ConfirmPin && SomeEmpty(confirmPin))
  }

  /** A well-formed buffer joins to a digit string, of length 4 exactly when no cell is empty. */
  lemma FullBuffer(b: seq<string>)
    requires WellFormedBuffer(b)
    ensures AllDigits(Join(b))
    ensures |Join(b)| == 4 <==> !SomeEmpty(b)
  {
    JoinOfCells(b);
    forall i | 0 <= i < |b| ensures AllDigits(b[i]) {
      assert CellOk(b[i]);
    }
    JoinDigits(b);
  }

  /** Continue is enabled only when the buffer on screen holds four digits. */
  lemma ContinueEnabledMeansFull(step: Step, pin: seq<string>, confirmPin: seq<string>)
    requires WellFormedBuffer(pin) && WellFormedBuffer(confirmPin)
    requires !ContinueDisabled(step, pin, confirmPin)
    ensures step == CreatePin ==> |Join(pin)| == 4
    ensures step == ConfirmPin ==> |Join(confirmPin)| == 4
  {
    FullBuffer(pin);
    FullBuffer(confirmPin);
  }

  datatype ContinueOutcome =
    | PinIncomplete(message: string)
    | PinCreated
    | PinMismatch
    | Activated(route: Route)

  /** The screen's state; the route parameters are constants. */
  class PinScreen {
    const lockerId: string
    const duration: int
    const amount: int
    const paymentMethod: string
    var pin: seq<string>
    var confirmPin: seq<string>
    var step: Step

    ghost predicate Valid()
      reads this
    {
      WellFormedBuffer(pin) && WellFormedBuffer(confirmPin)
    }

    constructor (lockerId: string, duration: int, amount: int, paymentMethod: string)
      ensures Valid()
      ensures this.lockerId == lockerId && this.duration == duration
      ensures this.amount == amount && this.paymentMethod == paymentMethod
      ensures pin == EmptyPin && confirmPin == EmptyPin && step == CreatePin
    {
      this.lockerId := lockerId;
      this.duration := duration;
      this.amount := amount;
      this.paymentMethod := paymentMethod;
      pin := EmptyPin;
      confirmPin := EmptyPin;
      step := CreatePin;
    }

    /** The buffer a handler works on. */
    function Buffer(isPinConfirm: bool): seq<string>
      reads this
    {
      if isPinConfirm then confirmPin else pin
    }

    /**
     * `handlePinChange`: a value holding a non-digit is ignored; otherwise cell
     * `index` of the chosen buffer takes the value's last character (or is
     * cleared by an empty value) and nothing else changes.
     */
    method HandlePinChange(value: string, index: nat, isPinConfirm: bool)
      requires Valid() && index < 4
      modifies this`pin, this`confirmPin
      ensures Valid()
      ensures !AllDigits(value) ==> pin == old(pin) && confirmPin == old(confirmPin)
      ensures AllDigits(value) ==> Buffer(isPinConfirm) == old(Buffer(isPinConfirm))[index := CellValue(value)]
      ensures Buffer(!isPinConfirm) == old(Buffer(!isPinConfirm))
    {
      if value != "" && !AllDigits(value) {
        return;
      }
      var cell := CellValue(value);
      if isPinConfirm {
        confirmPin := confirmPin[index := cell];
      } else {
        pin := pin[index := cell];
      }
    }

    /** `handleKeyPress`: Backspace on an empty cell after the first clears the cell before it. */
    method HandleKeyPress(key: string, index: nat, isPinConfirm: bool)
      requires Valid() && index < 4
      modifies this`pin, this`confirmPin
      ensures Valid()
      ensures Buffer(isPinConfirm) ==
        if key == "Backspace" && old(Buffer(isPinConfirm))[index] == "" && index > 0
        then old(Buffer(isPinConfirm))[index - 1 := ""]
        else old(Buffer(isPinConfirm))
      ensures Buffer(!isPinConfirm) == old(Buffer(!isPinConfirm))
    {
      if key == "Backspace" {
        var current := if isPinConfirm then confirmPin else pin;
        if current[index] == "" && index > 0 {
          if isPinConfirm {
            confirmPin := confirmPin[index - 1 := ""];
          } else {
            pin := pin[index - 1 := ""];
          }
        }
      }
    }

    /**
     * `handleContinue`, with the delayed callbacks as part of the step: an
     * incomplete PIN is reported; on step 1 a full PIN moves to step 2; on
     * step 2 a different confirmation clears the confirm buffer and stays, and
     * a matching one activates the locker with the created PIN.
     */
    method HandleContinue(now: int) returns (r: ContinueOutcome)
      requires Valid()
      modifies this`step, this`confirmPin
      ensures Valid() && pin == old(pin)
      ensures |Join(pin)| != 4 ==> r == PinIncomplete(PinMessage) && step == old(step) && confirmPin == old(confirmPin)
      ensures |Join(pin)| == 4 && old(step) == CreatePin ==>
                r == PinCreated && step == ConfirmPin && confirmPin == old(confirmPin)
      ensures |Join(pin)| == 4 && old(step) == ConfirmPin && Join(old(confirmPin)) != Join(pin) ==>
                r == PinMismatch && step == ConfirmPin && confirmPin == EmptyPin
      ensures |Join(pin)| == 4 && old(step) == ConfirmPin && Join(old(confirmPin)) == Join(pin) ==>
                r == Activated(Success(lockerId, duration, amount, Join(pin), now))
                && step == ConfirmPin && confirmPin == old(confirmPin)
      ensures r.Activated? ==> |r.route.pin| == 4 && AllDigits(r.route.pin)
    {
      var pinString := Join(pin);
      FullBuffer(pin);
      if |pinString| != 4 {
        return PinIncomplete(PinMessage);
      }
      if step == CreatePin {
        step := ConfirmPin;
        return PinCreated;
      }
      var confirmPinString := Join(confirmPin);
      if confirmPinString != pinString {
        confirmPin := EmptyPin;
        return PinMismatch;
      }
      r := HandleActivateLocker(pinString, now);
    }

    /** `handleActivateLocker`: go to the active-rental screen with the route parameters passed through. */
    method HandleActivateLocker(pinCode: string, now: int) returns (r: ContinueOutcome)
      ensures r == Activated(Success(lockerId, duration, amount, pinCode, now))
    {
      r := Activated(Success(lockerId, duration, amount, pinCode, now));
    }

    /** "Back to create PIN": return to step 1 and clear only the confirm buffer. */
    method BackToCreate()
      requires Valid()
      modifies this`step, this`confirmPin
      ensures Valid()
      ensures step == CreatePin && confirmPin == EmptyPin
    {
      step := CreatePin;
      confirmPin := EmptyPin;
    }
  }
}
