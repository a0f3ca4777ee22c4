/**
 * app/dashboard/settings/page.tsx: the change-password form. The handler
 * checks the two new-password fields and reports success; no call is made
 * to Firebase Auth, and the current password is never looked at.
 */
module Settings {
  import opened Common
  import opened JsText

  const MismatchMessage: string := "Passwords do not match"
  const TooShortMessage: string := "Password must be at least 6 characters"
  const ChangedMessage: string := "Password changed successfully"
  const MinLength: nat := 6

  /**
   * The two checks of `handleChangePassword`, in order: the mismatch first,
   * then the length of the new password in UTF-16 code units. `None` means
   * the change is accepted.
   */
  function PasswordCheck(newPassword: string, confirmPassword: string): (error: Option<string>)
    ensures error == Some(MismatchMessage) <==> newPassword != confirmPassword
    ensures error == Some(TooShortMessage) <==> newPassword == confirmPassword && Utf16Length(newPassword) < MinLength
    ensures error.None? <==> newPassword == confirmPassword && Utf16Length(newPassword) >= MinLength
  {
    if newPassword != confirmPassword then Some(MismatchMessage)
    else if Utf16Length(newPassword) < MinLength then Some(TooShortMessage)
    else None
  }

  /** Three emoji are six code units and pass the length check; five ASCII letters do not. */
  lemma PasswordCheckExamples()
    ensures PasswordCheck("\U{1F600}\U{1F600}\U{1F600}", "\U{1F600}\U{1F600}\U{1F600}").None?
    ensures PasswordCheck("abcde", "abcde") == Some(TooShortMessage)
  {
    Utf16LengthOfEmoji();
    Utf16LengthOfBmp("abcde");
  }

  /** The password card's state. */
  class PasswordSettings {
    var currentPassword: string
    var newPassword: string
    var confirmPassword: string
    var passwordError: Option<string>
    var passwordSuccess: Option<string>

    constructor()
      ensures currentPassword == "" && newPassword == "" && confirmPassword == ""
      ensures passwordError.None? && passwordSuccess.None?
    {
      currentPassword := "";
      newPassword := "";
      confirmPassword := "";
      passwordError := None;
      passwordSuccess := None;
    }

    /** The three inputs' `onChange` handlers. */
    method Enter(current: string, password: string, confirm: string)
      modifies this
      ensures currentPassword == current && newPassword == password && confirmPassword == confirm
      ensures passwordError == old(passwordError) && passwordSuccess == old(passwordSuccess)
    {
      currentPassword := current;
      newPassword := password;
      confirmPassword := confirm;
    }

    /**
     * `handleChangePassword`: both messages are cleared, then either the
     * first failing check's message is shown and the fields are kept, or the
     * success message is shown and all three fields are emptied.
     */
    method ChangePassword()
      modifies this
      ensures old(PasswordCheck(newPassword, confirmPassword)).Some? ==>
        && passwordError == old(PasswordCheck(newPassword, confirmPassword)) && passwordSuccess.None?
        && currentPassword == old(currentPassword) && newPassword == old(newPassword)
        && confirmPassword == old(confirmPassword)
      ensures old(PasswordCheck(newPassword, confirmPassword)).None? ==>
        && passwordError.None? && passwordSuccess == Some(ChangedMessage)
        && currentPassword == "" && newPassword == "" && confirmPassword == ""
    {
      passwordError := None;
      passwordSuccess := None;
      if newPassword != confirmPassword {
        passwordError := Some(MismatchMessage);
        return;
      }
      if Utf16Length(newPassword) < MinLength {
        passwordError := Some(TooShortMessage);
        return;
      }
      passwordSuccess := Some(ChangedMessage);
      currentPassword := "";
      newPassword := "";
      confirmPassword := "";
    }
  }

  /**
   * The browser's constraint validation: the three inputs are `required`, so
   * the form is submitted, and the handler runs, only when none is empty.
   */
  predicate Submittable(current: string, password: string, confirm: string)
  {
    current != "" && password != "" && confirm != ""
  }

  /**
   * A visit to the card: fill in the three fields and submit twice. After a
   * successful change the fields are empty, so the browser blocks the second
   * submission and the success message stays; the handler alone, reached
   * with the empty fields, would report the length message instead.
   */
  method ChangeTwice(current: string, password: string)
    returns (first: Option<string>, second: Option<string>, shown: Option<string>, handlerAlone: Option<string>)
    requires current != "" && Utf16Length(password) >= MinLength
    ensures first.None? && second.None? && shown == Some(ChangedMessage)
    ensures handlerAlone == Some(TooShortMessage)
  {
    var form := new PasswordSettings();
    form.Enter(current, password, password);
    assert password != "";
    if Submittable(form.currentPassword, form.newPassword, form.confirmPassword) {
      form.ChangePassword();
    }
    first := form.passwordError;
    // The emptied fields make the second submission one the browser blocks.
    assert !Submittable(form.currentPassword, form.newPassword, form.confirmPassword);
    second := form.passwordError;
    shown := form.passwordSuccess;
    form.ChangePassword();
    handlerAlone := form.passwordError;
  }
}
