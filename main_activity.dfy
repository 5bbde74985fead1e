/**
 * ui/MainActivity.kt: the app lock. Going to the background locks the app,
 * coming back launches the passcode screen in verify mode when protection is
 * on, and its result unlocks the app or closes it.
 */
module MainScreen {
  import opened SecurityManager

  const REQUEST_PASSCODE_VERIFICATION := 1001

  class MainActivity {
    var isAppLocked: bool
    var isCheckingPasscode: bool
    var finished: bool
    /** How many verification screens have been launched. */
    ghost var launches: nat
    const security: SecurityPrefs

    /** A verification in progress always belongs to a locked app. */
    ghost predicate Valid()
      reads this
    {
      isCheckingPasscode ==> isAppLocked
    }

    /**
     * The outcome of checkPasscodeProtection: with protection on, the app is
     * locked, a verification runs and one more verification screen has been
     * launched; with it off, the app is unlocked, nothing runs and nothing
     * is launched.
     */
    twostate predicate ProtectionChecked()
      reads this, security
    {
      && (security.IsPasscodeEnabled() ==> isAppLocked && isCheckingPasscode && launches == old(launches) + 1)
      && (!security.IsPasscodeEnabled() ==> !isAppLocked && !isCheckingPasscode && launches == old(launches))
    }

    constructor (security: SecurityPrefs)
      ensures Valid() && this.security == security
      ensures !isAppLocked && !isCheckingPasscode && !finished && launches == 0
    {
      this.security := security;
      isAppLocked := false;
      isCheckingPasscode := false;
      finished := false;
      launches := 0;
    }

    /** Protection on: lock and launch verification. Off: unlocked, nothing in progress. */
    method CheckPasscodeProtection()
      modifies this
      ensures Valid() && finished == old(finished)
      ensures ProtectionChecked()
    {
      if security.IsPasscodeEnabled() {
        isAppLocked := true;
        isCheckingPasscode := true;
        launches := launches + 1;
      } else {
        isAppLocked := false;
        isCheckingPasscode := false;
      }
    }

    /** onCreate checks only on a fresh launch, not when the activity is re-created from saved state. */
    method OnCreate(restored: bool)
      requires Valid()
      modifies this
      ensures Valid() && finished == old(finished)
      ensures restored ==> unchanged(this)
      ensures !restored ==> ProtectionChecked()
      ensures !restored ==> (isAppLocked <==> security.IsPasscodeEnabled()) && (isCheckingPasscode <==> security.IsPasscodeEnabled())
    {
      if !restored {
        CheckPasscodeProtection();
      }
    }

    /** Re-checks only when locked and no verification is already running. */
    method OnResume()
      requires Valid()
      modifies this
      ensures Valid() && finished == old(finished)
      ensures old(isCheckingPasscode) ==> unchanged(this)
      ensures !old(isAppLocked) ==> unchanged(this)
      ensures launches <= old(launches) + 1
      ensures launches == old(launches) + 1 ==> old(isAppLocked) && !old(isCheckingPasscode)
      ensures old(isAppLocked) && !old(isCheckingPasscode) ==> ProtectionChecked()
    {
      if isAppLocked && !isCheckingPasscode {
        CheckPasscodeProtection();
      }
    }

    /** Going to the background locks the app, unless it is the verification screen coming up. */
    method OnPause()
      requires Valid()
      modifies this
      ensures Valid()
      ensures isAppLocked == (old(isAppLocked) || !isCheckingPasscode)
      ensures isCheckingPasscode == old(isCheckingPasscode) && launches == old(launches) && finished == old(finished)
    {
      if !isCheckingPasscode {
        isAppLocked := true;
      }
    }

    /** The verification result: checking ends; OK unlocks, anything else closes the app. */
    method OnActivityResult(requestCode: int, resultOk: bool)
      requires Valid()
      modifies this
      ensures Valid() && launches == old(launches)
      ensures requestCode != REQUEST_PASSCODE_VERIFICATION ==> unchanged(this)
      ensures requestCode == REQUEST_PASSCODE_VERIFICATION ==>
        && !isCheckingPasscode
        && (resultOk ==> !isAppLocked && finished == old(finished))
        && (!resultOk ==> finished && isAppLocked == old(isAppLocked))
    {
      if requestCode == REQUEST_PASSCODE_VERIFICATION {
        isCheckingPasscode := false;
        if resultOk {
          isAppLocked := false;
        } else {
          finished := true;
        }
      }
    }
  }
}
