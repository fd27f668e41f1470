/** The profile page (frontend/src/pages/Profile.js): editing the name and
    password, adding funds, and cancelling an edit. */
module Profile {
  import opened Common

  const MISMATCH := "Passwords do not match"
  const UPDATE_FAILED := "Failed to update profile"
  const UPDATED := "Profile updated successfully"
  const INVALID_AMOUNT := "Please enter a valid amount"
  const FUNDS_FAILED := "Failed to add funds"
  const LOAD_FAILED := "Failed to load profile"

  /** The remote calls and callbacks of the two handlers, in order.
      `ReloadProfile` is the page's own fetchProfile, started and not
      awaited; its result arrives through `ProfileLoaded`. */
  datatype Step = UpdateProfileCall(userId: int, name: string, password: Option<string>)
                | AddFundsCall(userId: int, amount: real)
                | ReloadProfile | GetProfile(userId: int) | UserUpdate(user: User)

  /** `password || null`: an empty password is sent as null. */
  function PasswordArg(password: string): (arg: Option<string>)
    ensures arg.None? <==> password == ""
    ensures arg.Some? ==> arg.value == password
  {
    if password == "" then None else Some(password)
  }

  /** The mismatch check applies only to a non-empty new password. */
  predicate PasswordsClash(password: string, confirm: string)
  {
    password != "" && password != confirm
  }

  class ProfilePage {
    const userId: int
    var profile: Option<User>
    var loading: bool
    var editing: bool
    var name: string
    var password: string
    var confirmPassword: string
    var walletAmount: NumberInput
    var error: string
    var success: Notice
    var loadingUpdate: bool
    var loadingWallet: bool

    constructor (uid: int)
      ensures userId == uid && profile == None && loading && !editing
      ensures name == "" && password == "" && confirmPassword == "" && walletAmount == Blank
      ensures error == "" && success == NoNotice && !loadingUpdate && !loadingWallet
    {
      userId := uid;
      profile := None;
      loading := true;
      editing := false;
      name, password, confirmPassword := "", "", "";
      walletAmount := Blank;
      error := "";
      success := NoNotice;
      loadingUpdate, loadingWallet := false, false;
    }

    /** fetchProfile once its call settles: a loaded profile also resets
        the name field and clears the error. */
    method ProfileLoaded(fetched: Remote<User>)
      modifies this`profile, this`name, this`error, this`loading
      ensures fetched.Done? ==> profile == Some(fetched.value) && name == fetched.value.name && error == ""
      ensures fetched.Failed? ==> profile == old(profile) && name == old(name) && error == LOAD_FAILED
      ensures !loading
    {
      if fetched.Done? {
        profile := Some(fetched.value);
        name := fetched.value.name;
        error := "";
      } else {
        error := LOAD_FAILED;
      }
      loading := false;
    }

    method StartEditing()
      modifies this`editing
      ensures editing
    {
      editing := true;
    }

    method EditFields(n: string, p: string, c: string, amount: NumberInput)
      modifies this`name, this`password, this`confirmPassword, this`walletAmount
      ensures name == n && password == p && confirmPassword == c && walletAmount == amount
    {
      name, password, confirmPassword, walletAmount := n, p, c, amount;
    }

    /** The Cancel button: leaves edit mode, restores the name from the
        loaded profile ('' when none), clears both password fields and
        the error. */
    method CancelEdit()
      modifies this`editing, this`name, this`password, this`confirmPassword, this`error
      ensures !editing && password == "" && confirmPassword == "" && error == ""
      ensures name == (if profile.Some? then profile.value.name else "")
    {
      editing := false;
      name := if profile.Some? then profile.value.name else "";
      password := "";
      confirmPassword := "";
      error := "";
    }

    /** handleUpdateProfile. A non-empty password that differs from its
        confirmation sets an error and makes no call. Otherwise the name
        and the password (null when empty) are sent; on success edit mode
        ends, both password fields are cleared, the page reloads the
        profile, and the freshly fetched profile goes to the user update
        callback. `loadingUpdate` is false afterwards. */
    method UpdateProfile(updated: Remote<()>, refreshed: Remote<User>) returns (steps: seq<Step>)
      modifies this`error, this`success, this`editing, this`password, this`confirmPassword, this`loadingUpdate
      ensures PasswordsClash(old(password), old(confirmPassword)) ==>
                steps == [] && error == MISMATCH && editing == old(editing) &&
                password == old(password) && confirmPassword == old(confirmPassword) &&
                loadingUpdate == old(loadingUpdate) && success == old(success)
      ensures !PasswordsClash(old(password), old(confirmPassword)) ==>
                !loadingUpdate && |steps| >= 1 &&
                steps[0] == UpdateProfileCall(userId, name, PasswordArg(old(password)))
      ensures !PasswordsClash(old(password), old(confirmPassword)) && updated.Failed? ==>
                |steps| == 1 && error == ErrorText(updated.message, UPDATE_FAILED) &&
                editing == old(editing) && password == old(password) && confirmPassword == old(confirmPassword)
      ensures !PasswordsClash(old(password), old(confirmPassword)) && updated.Done? ==>
                steps[1..] == [ReloadProfile, GetProfile(userId)] +
                              (if refreshed.Done? then [UserUpdate(refreshed.value)] else []) &&
                success == Says(UPDATED) && !editing && password == "" && confirmPassword == "" &&
                error == (if refreshed.Done? then "" else ErrorText(refreshed.message, UPDATE_FAILED))
    {
      if PasswordsClash(password, confirmPassword) {
        error := MISMATCH;
        return [];
      }
      loadingUpdate := true;
      error := "";
      steps := [UpdateProfileCall(userId, name, PasswordArg(password))];
      if updated.Failed? {
        error := ErrorText(updated.message, UPDATE_FAILED);
        loadingUpdate := false;
        return;
      }
      success := Says(UPDATED);
      editing := false;
      password := "";
      confirmPassword := "";
      steps := steps + [ReloadProfile, GetProfile(userId)];
      if refreshed.Done? {
        steps := steps + [UserUpdate(refreshed.value)];
      } else {
        error := ErrorText(refreshed.message, UPDATE_FAILED);
      }
      loadingUpdate := false;
    }

    /** handleAddToWallet. An amount that is not a positive number sets an
        error and makes no call. Otherwise addToWallet; on success the
        banner shows the amount, the field is cleared, the page reloads
        the profile and the fresh profile goes to the callback.
        `loadingWallet` is false afterwards. */
    method AddToWallet(funded: Remote<()>, refreshed: Remote<User>) returns (steps: seq<Step>)
      modifies this`error, this`success, this`walletAmount, this`loadingWallet
      ensures !PositiveAmount(old(walletAmount)) ==>
                steps == [] && error == INVALID_AMOUNT && success == old(success) &&
                walletAmount == old(walletAmount) && loadingWallet == old(loadingWallet)
      ensures PositiveAmount(old(walletAmount)) ==>
                !loadingWallet && |steps| >= 1 && steps[0] == AddFundsCall(userId, old(walletAmount).value)
      ensures PositiveAmount(old(walletAmount)) && funded.Failed? ==>
                |steps| == 1 && error == ErrorText(funded.message, FUNDS_FAILED) &&
                success == old(success) && walletAmount == old(walletAmount)
      ensures PositiveAmount(old(walletAmount)) && funded.Done? ==>
                steps[1..] == [ReloadProfile, GetProfile(userId)] +
                              (if refreshed.Done? then [UserUpdate(refreshed.value)] else []) &&
                success == WalletFunded(old(walletAmount).value) && walletAmount == Blank &&
                error == (if refreshed.Done? then "" else ErrorText(refreshed.message, FUNDS_FAILED))
    {
      if !PositiveAmount(walletAmount) {
        error := INVALID_AMOUNT;
        return [];
      }
      var amount := walletAmount.value;
      loadingWallet := true;
      error := "";
      steps := [AddFundsCall(userId, amount)];
      if funded.Failed? {
        error := ErrorText(funded.message, FUNDS_FAILED);
        loadingWallet := false;
        return;
      }
      success := WalletFunded(amount);
      walletAmount := Blank;
      steps := steps + [ReloadProfile, GetProfile(userId)];
      if refreshed.Done? {
        steps := steps + [UserUpdate(refreshed.value)];
      } else {
        error := ErrorText(refreshed.message, FUNDS_FAILED);
      }
      loadingWallet := false;
    }
  }
}
