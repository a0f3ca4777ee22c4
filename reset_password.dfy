/**
 * app/reset-password/page.tsx: the page reached from a password-reset
 * e-mail. Without an `oobCode` query parameter only an error line is shown;
 * otherwise the form's submit handler validates the two fields, then asks
 * Firebase Auth to verify the code and, if that succeeds, to confirm the new
 * password. The two auth calls are oracles: whether each succeeds is an input.
 */
module ResetPassword {
  import opened Common
  import opened JsText

  const MissingCodeMessage: string := "Invalid or missing reset code."
  const FillAllMessage: string := "Please fill in all fields"
  const TooShortMessage: string := "Password must be at least 8 characters"
  const MismatchMessage: string := "Passwords don't match"
  const InvalidLinkMessage: string := "Invalid reset link"
  const ExpiredMessage: string := "Failed to reset password. The link may have expired."
  const MinLength: nat := 8

  /** What the page renders. */
  datatype Screen = MissingCode(message: string) | ResetDone | ResetForm(error: Option<string>)

  /** `oobCode` is truthy: the query parameter is present and not empty. */
  predicate HasCode(oobCode: Option<string>)
  {
    oobCode.Some? && oobCode.value != ""
  }

  /** The early return for a missing or empty code comes before anything else is rendered. */
  function Render(oobCode: Option<string>, success: bool, error: Option<string>): (s: Screen)
    ensures !HasCode(oobCode) <==> s == MissingCode(MissingCodeMessage)
    ensures HasCode(oobCode) ==> (s == ResetDone <==> success)
    ensures HasCode(oobCode) && !success ==> s == ResetForm(error)
  {
    if !HasCode(oobCode) then MissingCode(MissingCodeMessage)
    else if success then ResetDone
    else ResetForm(error)
  }

  /**
   * The handler's checks in order: an empty field, a new password under
   * eight UTF-16 code units, a mismatch, and a missing code. `None` lets the
   * auth calls go ahead.
   */
  function ResetCheck(newPassword: string, confirmPassword: string, oobCode: Option<string>): (error: Option<string>)
    ensures error == Some(FillAllMessage) <==> newPassword == "" || confirmPassword == ""
    ensures error == Some(TooShortMessage) <==>
      newPassword != "" && confirmPassword != "" && Utf16Length(newPassword) < MinLength
    ensures error == Some(MismatchMessage) <==>
      newPassword != "" && confirmPassword != "" && Utf16Length(newPassword) >= MinLength && newPassword != confirmPassword
    ensures error == Some(InvalidLinkMessage) <==>
      newPassword != "" && Utf16Length(newPassword) >= MinLength && newPassword == confirmPassword && !HasCode(oobCode)
    ensures error.None? <==> Utf16Length(newPassword) >= MinLength && newPassword == confirmPassword && HasCode(oobCode)
  {
    if newPassword == "" || confirmPassword == "" then Some(FillAllMessage)
    else if Utf16Length(newPassword) < MinLength then Some(TooShortMessage)
    else if newPassword != confirmPassword then Some(MismatchMessage)
    else if !HasCode(oobCode) then Some(InvalidLinkMessage)
    else None
  }

  /** A call made to Firebase Auth. */
  datatype AuthCall = VerifyCode(code: string) | ConfirmReset(code: string, password: string)

  class ResetPasswordForm {
    const oobCode: Option<string>
    var newPassword: string
    var confirmPassword: string
    var error: Option<string>
    var success: bool
    var loading: bool
    /** Every auth call made so far, in order. */
    var calls: seq<AuthCall>

    constructor(code: Option<string>)
      ensures oobCode == code && newPassword == "" && confirmPassword == ""
      ensures error.None? && !success && !loading && calls == []
    {
      oobCode := code;
      newPassword := "";
      confirmPassword := "";
      error := None;
      success := false;
      loading := false;
      calls := [];
    }

    method Enter(password: string, confirm: string)
      modifies this
      ensures newPassword == password && confirmPassword == confirm
      ensures error == old(error) && success == old(success) && loading == old(loading) && calls == old(calls)
    {
      newPassword := password;
      confirmPassword := confirm;
    }

    /**
     * `handleSubmit`. The form, and so the handler, exists only when a
     * non-empty code is present. A check that fails sets its message and returns before
     * `loading` is set or any auth call is made; otherwise the code is
     * verified, the reset is confirmed only after a successful verify, any
     * failure gives one message, and `loading` ends false.
     */
    method HandleSubmit(verifyOk: bool, confirmOk: bool)
      requires HasCode(oobCode)
      modifies this
      ensures newPassword == old(newPassword) && confirmPassword == old(confirmPassword)
      ensures old(ResetCheck(newPassword, confirmPassword, oobCode)).Some? ==>
        && error == old(ResetCheck(newPassword, confirmPassword, oobCode))
        && loading == old(loading) && success == old(success) && calls == old(calls)
      ensures old(ResetCheck(newPassword, confirmPassword, oobCode)).None? ==>
        && !loading
        && calls == old(calls) + [VerifyCode(oobCode.value)]
             + (if verifyOk then [ConfirmReset(oobCode.value, newPassword)] else [])
        && (verifyOk && confirmOk ==> success && error.None?)
        && (!(verifyOk && confirmOk) ==> success == old(success) && error == Some(ExpiredMessage))
    {
      error := None;
      if newPassword == "" || confirmPassword == "" {
        error := Some(FillAllMessage);
        return;
      }
      if Utf16Length(newPassword) < MinLength {
        error := Some(TooShortMessage);
        return;
      }
      if newPassword != confirmPassword {
        error := Some(MismatchMessage);
        return;
      }
      if !HasCode(oobCode) {
        // The page returned early without a code, so this second guard cannot fire.
        assert false;
      }
      loading := true;
      calls := calls + [VerifyCode(oobCode.value)];
      if verifyOk {
        calls := calls + [ConfirmReset(oobCode.value, newPassword)];
        if confirmOk {
          success := true;
        } else {
          error := Some(ExpiredMessage);
        }
      } else {
        error := Some(ExpiredMessage);
      }
      loading := false;
    }
  }

  /**
   * The browser's constraint validation: both inputs are `required`, so the
   * form is submitted, and the handler runs, only when neither is empty.
   */
  predicate Submittable(newPassword: string, confirmPassword: string)
  {
    newPassword != "" && confirmPassword != ""
  }

  /** With a non-empty code, as there must be for the handler to exist, the missing-link check never fires. */
  lemma InvalidLinkUnreachable(newPassword: string, confirmPassword: string, code: string)
    requires code != ""
    ensures ResetCheck(newPassword, confirmPassword, Some(code)) != Some(InvalidLinkMessage)
  {
  }

  /**
   * Seven matching characters are too short even though they match; two
   * different long passwords are a mismatch; three emoji are six code units,
   * too short, while four are eight and pass.
   */
  lemma CheckExamples()
    ensures ResetCheck("abcdefg", "abcdefg", Some("c")) == Some(TooShortMessage)
    ensures ResetCheck("abcdefgh", "abcdefgi", Some("c")) == Some(MismatchMessage)
    ensures ResetCheck("", "abcdefgh", None) == Some(FillAllMessage)
    ensures ResetCheck("\U{1F600}\U{1F600}\U{1F600}", "\U{1F600}\U{1F600}\U{1F600}", Some("c")) == Some(TooShortMessage)
    ensures ResetCheck("\U{1F600}\U{1F600}\U{1F600}\U{1F600}", "\U{1F600}\U{1F600}\U{1F600}\U{1F600}", Some("c")).None?
  {
    Utf16LengthOfBmp("abcdefg");
    Utf16LengthOfBmp("abcdefgh");
    Utf16LengthOfEmoji();
    var three := "\U{1F600}\U{1F600}\U{1F600}";
    var four := three + "\U{1F600}";
    assert four[..|four| - 1] == three && four[|four| - 1] == '\U{1F600}';
    assert Utf16Length(four) == Utf16Length(three) + 2;
    assert four == "\U{1F600}\U{1F600}\U{1F600}\U{1F600}" && Utf16Length(four) == 8;
    assert HasCode(Some("c"));
  }

  /** An empty `oobCode` counts as missing: the page shows only the error line. */
  lemma EmptyCodeIsMissing(success: bool, error: Option<string>)
    ensures Render(Some(""), success, error) == MissingCode(MissingCodeMessage)
  {
  }

  /**
   * A whole visit: open the page with `code`, fill in the form and submit
   * once. The result is the screen shown afterwards and the auth calls made.
   * A form with an empty field is never submitted, so the handler's own
   * "fill in all fields" message is never shown.
   */
  method Visit(code: Option<string>, password: string, confirm: string, verifyOk: bool, confirmOk: bool)
    returns (screen: Screen, calls: seq<AuthCall>)
    ensures !HasCode(code) ==> screen == MissingCode(MissingCodeMessage) && calls == []
    ensures HasCode(code) && !Submittable(password, confirm) ==> screen == ResetForm(None) && calls == []
    ensures HasCode(code) && Submittable(password, confirm) && ResetCheck(password, confirm, code).Some? ==>
      screen == ResetForm(ResetCheck(password, confirm, code)) && calls == []
    ensures HasCode(code) && ResetCheck(password, confirm, code).None? ==>
      && calls == [VerifyCode(code.value)] + (if verifyOk then [ConfirmReset(code.value, password)] else [])
      && (screen == ResetDone <==> verifyOk && confirmOk)
      && (screen != ResetDone ==> screen == ResetForm(Some(ExpiredMessage)))
    ensures screen != ResetForm(Some(FillAllMessage))
  {
    var form := new ResetPasswordForm(code);
    if !HasCode(code) {
      return Render(code, form.success, form.error), form.calls;
    }
    form.Enter(password, confirm);
    if Submittable(password, confirm) {
      form.HandleSubmit(verifyOk, confirmOk);
    }
    screen := Render(code, form.success, form.error);
    calls := form.calls;
  }
}
