/**
 * ui/PasscodeActivity.kt: the four-digit keypad screen. It verifies the
 * stored passcode, creates one (entry then confirmation) or changes it
 * (current passcode, new one, confirmation), talking to the security store.
 */
module PasscodeScreen {
  import opened Wrappers
  import opened Text
  import opened SecurityManager

  const MODE_VERIFY := 0
  const MODE_CREATE := 1
  const MODE_CHANGE := 2
  const PasscodeLength := 4
  const IncorrectMessage := "Incorrect passcode. Please try again."
  const MismatchMessage := "Passcodes don't match. Please try again."

  predicate KnownMode(mode: int)
  {
    mode == MODE_VERIFY || mode == MODE_CREATE || mode == MODE_CHANGE
  }

  class PasscodeActivity {
    /** The digits typed so far. */
    var passcode: string
    /** The first entry, kept while the user confirms it. */
    var confirmPasscode: string
    var currentMode: int
    var isConfirmingPasscode: bool
    var isChangingOldPasscode: bool
    var finished: bool
    var resultOk: bool
    /** The error view: its text, and whether it is visible. */
    var errorText: string
    var errorShown: bool
    /** In change mode: the current passcode has been verified. */
    ghost var oldVerified: bool
    const security: SecurityPrefs

    ghost predicate Valid()
      reads this
    {
      && |passcode| <= PasscodeLength
      && (forall i :: 0 <= i < |passcode| ==> '0' <= passcode[i] <= '9')
      && (|passcode| == PasscodeLength ==> finished || !KnownMode(currentMode))
      && (isConfirmingPasscode ==> IsPasscode(confirmPasscode))
      && (currentMode == MODE_CHANGE && !isChangingOldPasscode ==> oldVerified)
    }

    /** The mode, the entry stage and the outcome are as they were. */
    twostate predicate KeepsProgress()
      reads this
    {
      && currentMode == old(currentMode) && confirmPasscode == old(confirmPasscode)
      && isConfirmingPasscode == old(isConfirmingPasscode) && isChangingOldPasscode == old(isChangingOldPasscode)
      && finished == old(finished) && resultOk == old(resultOk) && oldVerified == old(oldVerified)
    }

    /**
     * What verify mode does with the complete entry `entered`: a passcode the
     * store accepts finishes with OK; any other sets the incorrect-passcode
     * message and clears the buffer, hiding the error at once.
     */
    twostate predicate VerifyOutcome(entered: string)
      reads this, security
    {
      && unchanged(security)
      && (old(security.VerifyPasscode(entered)) ==> finished && resultOk && passcode == entered)
      && (!old(security.VerifyPasscode(entered)) ==>
           && passcode == "" && errorText == IncorrectMessage && !errorShown
           && finished == old(finished) && resultOk == old(resultOk))
    }

    /**
     * What a new-passcode stage does with the complete entry `entered` (create
     * mode, and change mode once the current passcode is verified): a first
     * entry is kept for confirmation; a matching confirmation saves it and
     * finishes with OK, and `enables` says whether the enabled flag is then
     * set or kept; a mismatch goes back to the first entry with the message.
     */
    twostate predicate NewPasscodeOutcome(entered: string, enables: bool)
      reads this, security
    {
      && (old(isConfirmingPasscode) && entered == old(confirmPasscode) ==>
           && security.passcodeHash == Some(HashPasscode(security.digest, entered))
           && security.passcodeEnabled == (if enables then Some(true) else old(security.passcodeEnabled))
           && finished && resultOk && passcode == entered)
      && (old(isConfirmingPasscode) && entered != old(confirmPasscode) ==>
           && unchanged(security) && !isConfirmingPasscode && passcode == ""
           && errorText == MismatchMessage && !errorShown && finished == old(finished))
      && (!old(isConfirmingPasscode) ==>
           && unchanged(security) && isConfirmingPasscode && confirmPasscode == entered && passcode == ""
           && !errorShown && finished == old(finished))
    }

    /**
     * What change mode does with the complete entry `entered`: while asking
     * for the current passcode, the entry either verifies and the new-passcode
     * stage begins, or the incorrect-passcode message is set; afterwards it
     * runs the new-passcode stage, keeping the enabled flag.
     */
    twostate predicate ChangeOutcome(entered: string)
      reads this, security
    {
      && (old(isChangingOldPasscode) ==>
           && unchanged(security) && passcode == "" && !errorShown && finished == old(finished)
           && (isChangingOldPasscode <==> !old(security.VerifyPasscode(entered)))
           && (isChangingOldPasscode ==> errorText == IncorrectMessage))
      && (!old(isChangingOldPasscode) ==> NewPasscodeOutcome(entered, false))
    }

    /** The complete entry `entered` has been handled by the mode's own handler. */
    twostate predicate CompletionOutcome(entered: string)
      reads this, security
    {
      && (old(currentMode) == MODE_VERIFY ==> VerifyOutcome(entered))
      && (old(currentMode) == MODE_CREATE ==> NewPasscodeOutcome(entered, true))
      && (old(currentMode) == MODE_CHANGE ==> ChangeOutcome(entered))
      && (!KnownMode(old(currentMode)) ==> unchanged(security) && passcode == entered && finished == old(finished))
    }

    /** onCreate: the mode comes from the intent; change mode starts by asking for the current passcode. */
    constructor (mode: int, security: SecurityPrefs)
      ensures Valid() && this.security == security
      ensures currentMode == mode && passcode == "" && !finished && !isConfirmingPasscode
      ensures isChangingOldPasscode <==> mode == MODE_CHANGE
    {
      this.security := security;
      currentMode := mode;
      passcode := "";
      confirmPasscode := "";
      isConfirmingPasscode := false;
      isChangingOldPasscode := mode == MODE_CHANGE;
      finished := false;
      resultOk := false;
      errorText := "";
      errorShown := false;
      oldVerified := false;
    }

    /** A digit key: accepted only while fewer than four are typed; the fourth completes the entry. */
    method OnNumberClick(digit: nat)
      requires Valid() && digit < 10
      modifies this, security
      ensures Valid()
      ensures old(|passcode|) < PasscodeLength - 1 ==>
        passcode == old(passcode) + [DigitChar(digit)] && unchanged(security)
        && currentMode == old(currentMode) && finished == old(finished)
      ensures old(|passcode|) == PasscodeLength - 1 ==>
        currentMode == old(currentMode) && CompletionOutcome(old(passcode) + [DigitChar(digit)])
      ensures old(|passcode|) == PasscodeLength ==> unchanged(this) && unchanged(security)
    {
      if |passcode| < PasscodeLength {
        passcode := passcode + [DigitChar(digit)];
        errorShown := false;
        if |passcode| == PasscodeLength {
          HandleCompletePasscode();
        }
      }
    }

    /** The backspace key removes the last digit, if there is one, and the display refresh hides the error. */
    method OnBackspace()
      requires Valid()
      modifies this
      ensures Valid()
      ensures old(passcode) == "" ==> unchanged(this)
      ensures old(passcode) != "" ==>
        && passcode == old(passcode)[..|old(passcode)| - 1] && !errorShown && errorText == old(errorText)
        && KeepsProgress()
    {
      if passcode != "" {
        passcode := passcode[..|passcode| - 1];
        errorShown := false;
      }
    }

    /** The cancel key closes the screen without setting a result. */
    method OnCancel()
      requires Valid()
      modifies this
      ensures Valid() && finished && resultOk == old(resultOk)
      ensures passcode == old(passcode) && errorShown == old(errorShown) && errorText == old(errorText)
      ensures currentMode == old(currentMode) && confirmPasscode == old(confirmPasscode)
      ensures isConfirmingPasscode == old(isConfirmingPasscode) && isChangingOldPasscode == old(isChangingOldPasscode)
    {
      finished := true;
    }

    /** The back button closes the screen, except in verify mode where it is ignored. */
    method OnBackPressed()
      requires Valid()
      modifies this
      ensures Valid()
      ensures currentMode == MODE_VERIFY ==> unchanged(this)
      ensures currentMode != MODE_VERIFY ==> finished && resultOk == old(resultOk) && passcode == old(passcode)
    {
      if currentMode != MODE_VERIFY {
        finished := true;
      }
    }

    method HandleCompletePasscode()
      requires |passcode| == PasscodeLength && IsPasscode(passcode)
      requires isConfirmingPasscode ==> IsPasscode(confirmPasscode)
      requires currentMode == MODE_CHANGE && !isChangingOldPasscode ==> oldVerified
      modifies this, security
      ensures Valid()
      ensures finished || passcode == "" || !KnownMode(currentMode)
      ensures currentMode == old(currentMode) && CompletionOutcome(old(passcode))
    {
      if currentMode == MODE_VERIFY {
        VerifyPasscode();
      } else if currentMode == MODE_CREATE {
        HandleCreatePasscode();
      } else if currentMode == MODE_CHANGE {
        HandleChangePasscode();
      }
    }

    /**
     * Verify mode: success reports OK and closes. A wrong passcode sets the
     * error message and clears the buffer; the display refresh of that reset
     * makes the error view invisible again at once.
     */
    method VerifyPasscode()
      requires IsPasscode(passcode)
      modifies this
      ensures VerifyOutcome(old(passcode))
      ensures currentMode == old(currentMode) && isConfirmingPasscode == old(isConfirmingPasscode)
      ensures confirmPasscode == old(confirmPasscode) && isChangingOldPasscode == old(isChangingOldPasscode)
      ensures oldVerified == old(oldVerified)
    {
      if security.VerifyPasscode(passcode) {
        resultOk := true;
        finished := true;
      } else {
        ShowError(IncorrectMessage);
        ResetPasscode();
      }
    }

    /** showError: the message becomes visible (its delayed hiding is not modelled). */
    method ShowError(message: string)
      modifies this
      ensures errorText == message && errorShown && passcode == old(passcode)
      ensures KeepsProgress()
    {
      errorText := message;
      errorShown := true;
    }

    /** resetPasscode: the buffer is cleared and the display refresh hides the error. */
    method ResetPasscode()
      modifies this
      ensures passcode == "" && errorText == old(errorText) && !errorShown
      ensures KeepsProgress()
    {
      passcode := "";
      errorShown := false;
    }

    /**
     * Create mode: the first entry is kept and a confirmation asked for; a
     * matching confirmation saves and enables the passcode; a mismatch goes
     * back to the first entry.
     */
    method HandleCreatePasscode()
      requires IsPasscode(passcode)
      requires isConfirmingPasscode ==> IsPasscode(confirmPasscode)
      modifies this, security
      ensures currentMode == old(currentMode) && isChangingOldPasscode == old(isChangingOldPasscode)
      ensures oldVerified == old(oldVerified)
      ensures isConfirmingPasscode ==> IsPasscode(confirmPasscode)
      ensures NewPasscodeOutcome(old(passcode), true)
    {
      if isConfirmingPasscode {
        if passcode == confirmPasscode {
          security.SavePasscode(passcode);
          security.SetPasscodeEnabled(true);
          resultOk := true;
          finished := true;
        } else {
          ShowError(MismatchMessage);
          isConfirmingPasscode := false;
          ResetPasscode();
        }
      } else {
        confirmPasscode := passcode;
        isConfirmingPasscode := true;
        ResetPasscode();
      }
    }

    /**
     * Change mode: the current passcode must verify before a new one is
     * taken; a confirmed new passcode is saved, leaving the enabled flag as
     * it was.
     */
    method HandleChangePasscode()
      requires IsPasscode(passcode)
      requires isConfirmingPasscode ==> IsPasscode(confirmPasscode)
      requires currentMode == MODE_CHANGE && !isChangingOldPasscode ==> oldVerified
      modifies this, security
      ensures currentMode == old(currentMode)
      ensures isConfirmingPasscode ==> IsPasscode(confirmPasscode)
      ensures currentMode == MODE_CHANGE && !isChangingOldPasscode ==> oldVerified
      ensures ChangeOutcome(old(passcode))
      ensures security.passcodeHash != old(security.passcodeHash) ==> old(currentMode == MODE_CHANGE ==> oldVerified)
    {
      if isChangingOldPasscode {
        if security.VerifyPasscode(passcode) {
          isChangingOldPasscode := false;
          oldVerified := true;
          ResetPasscode();
        } else {
          ShowError(IncorrectMessage);
          ResetPasscode();
        }
      } else if isConfirmingPasscode {
        if passcode == confirmPasscode {
          security.SavePasscode(passcode);
          resultOk := true;
          finished := true;
        } else {
          ShowError(MismatchMessage);
          isConfirmingPasscode := false;
          ResetPasscode();
        }
      } else {
        confirmPasscode := passcode;
        isConfirmingPasscode := true;
        ResetPasscode();
      }
    }
  }
}
