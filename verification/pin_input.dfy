/**
 * The PIN pad (PinInputViewModel.kt): a buffer of at most four digits, checked against the
 * stored PIN when the fourth digit arrives.
 */
module PinInput {
  import opened Kotlin
  import opened Repository
  import Admin

  /** The PIN pad checks four characters. */
  const PIN_LENGTH: int := 4

  /** The two error texts of the PIN pad. */
  datatype PinError = PinLengthError | WrongPinError

  /** How `verifyPin` judges an entry against the stored PIN. */
  datatype Verdict = WrongLength | Correct | Incorrect

  function Judge(input: string, pin: string): (v: Verdict)
    ensures v == Correct <==> |input| == PIN_LENGTH && input == pin
    ensures v == WrongLength <==> |input| != PIN_LENGTH
  {
    if |input| != PIN_LENGTH then WrongLength
    else if input == pin then Correct
    else Incorrect
  }

  /** On a fresh store exactly the default PIN "0000" is accepted. */
  lemma DefaultPinAccepted(p: Prefs, input: string)
    requires PinKey !in p
    ensures Judge(input, Pin(p)) == Correct <==> input == DEFAULT_PIN
  {
  }

  /**
   * The length mismatch as written: once the admin screen stores a new PIN (six digits), no
   * entry on the four-digit pad is ever accepted again.
   */
  lemma ChangedPinNeverAccepted(p: Prefs, newPin: string, input: string)
    requires Admin.IsNewPin(newPin)
    ensures Judge(input, Pin(Admin.ChangedPin(p, newPin))) != Correct
  {
    Admin.ChangePinEffect(p, newPin);
  }

  /** The pad's LiveData values. */
  datatype PinScreen = PinScreen(pinInput: string, errorMessage: Option<PinError>, isPinCorrect: Option<bool>)

  /**
   * The pad after `verifyPin` judged its entry against `pin`. A wrong PIN posts its error and
   * then `clearPin` empties the entry and clears that error again, so no error remains.
   */
  function AfterVerify(s: PinScreen, pin: string): (t: PinScreen)
    ensures t.isPinCorrect == Some(Judge(s.pinInput, pin) == Correct)
    ensures t.errorMessage == (if Judge(s.pinInput, pin) == WrongLength then Some(PinLengthError) else None)
    ensures t.pinInput == (if Judge(s.pinInput, pin) == Incorrect then "" else s.pinInput)
  {
    match Judge(s.pinInput, pin)
    case WrongLength => s.(errorMessage := Some(PinLengthError), isPinCorrect := Some(false))
    case Correct => s.(isPinCorrect := Some(true), errorMessage := None)
    case Incorrect => s.(pinInput := "", errorMessage := None, isPinCorrect := Some(false))
  }

  class PinInputViewModel {
    const repo: DataRepository
    var pinInput: string
    var errorMessage: Option<PinError>
    var isPinCorrect: Option<bool>

    function View(): PinScreen
      reads this
    {
      PinScreen(pinInput, errorMessage, isPinCorrect)
    }

    /** The entry never holds more than four characters. */
    ghost predicate Valid()
      reads this
    {
      |pinInput| <= PIN_LENGTH
    }

    constructor (r: DataRepository)
      ensures Valid() && repo == r
      ensures View() == PinScreen("", None, None)
    {
      repo := r;
      pinInput := "";
      errorMessage := None;
      isPinCorrect := None;
    }

    method ClearPin()
      modifies this
      ensures View() == old(View()).(pinInput := "", errorMessage := None)
    {
      pinInput := "";
      errorMessage := None;
    }

    method VerifyPin() returns (ok: bool)
      requires Valid()
      modifies this
      ensures Valid()
      ensures ok == (Judge(old(pinInput), Pin(repo.prefs)) == Correct)
      ensures View() == AfterVerify(old(View()), Pin(repo.prefs))
    {
      var inputPin := pinInput;
      var correctPin := Pin(repo.prefs);
      if |inputPin| != PIN_LENGTH {
        errorMessage := Some(PinLengthError);
        isPinCorrect := Some(false);
        return false;
      }
      if inputPin == correctPin {
        isPinCorrect := Some(true);
        errorMessage := None;
        return true;
      } else {
        errorMessage := Some(WrongPinError);
        isPinCorrect := Some(false);
        ClearPin();
        return false;
      }
    }

    /** Appends while the entry is shorter than four; the fourth digit triggers the check. */
    method AddDigit(digit: char)
      requires Valid()
      modifies this
      ensures Valid()
      ensures |old(pinInput)| >= PIN_LENGTH ==> View() == old(View())
      ensures |old(pinInput)| < PIN_LENGTH - 1 ==> View() == old(View()).(pinInput := old(pinInput) + [digit], errorMessage := None)
      ensures |old(pinInput)| == PIN_LENGTH - 1 ==>
                View() == AfterVerify(old(View()).(pinInput := old(pinInput) + [digit], errorMessage := None), Pin(repo.prefs))
    {
      var current := pinInput;
      if |current| < PIN_LENGTH {
        var newPin := current + [digit];
        pinInput := newPin;
        errorMessage := None;
        if |newPin| == PIN_LENGTH {
          var _ := VerifyPin();
        }
      }
    }

    method RemoveDigit()
      requires Valid()
      modifies this
      ensures Valid()
      ensures old(pinInput) == "" ==> View() == old(View())
      ensures old(pinInput) != "" ==> View() == old(View()).(pinInput := old(pinInput)[..|old(pinInput)| - 1], errorMessage := None)
    {
      var current := pinInput;
      if current != "" {
        pinInput := current[..|current| - 1];
        errorMessage := None;
      }
    }
  }
}
