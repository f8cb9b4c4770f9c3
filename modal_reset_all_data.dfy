/** The "reset all data" confirmation dialog: the user types the reset
    phrase and either the wallet password or ticks "I forgot my password";
    the wallet is reset only when the phrase matches up to letter case and
    the password is correct or declared forgotten. */
module ResetModal {
  import opened Text

  const ConfirmationMismatch := "Confirmation message does not match"
  const PasswordMissing := "You must write your password or check that you have forgotten it"
  const InvalidPassword := "Invalid password"

  /** What pressing "confirm" leads to: nothing (the browser flags the form),
      an error message, or the reset (`props.success()`). */
  datatype ConfirmOutcome = FormInvalid | Rejected(message: string) | Confirmed

  /** The guard chain of `handleConfirm`. `formValid` is the form's own
      validity, `passwordCorrect` what the wallet says of `password`. */
  function ConfirmOutcomeOf(formValid: bool, confirmText: string, resetMessage: string,
                            password: string, forgotPassword: bool, passwordCorrect: bool): (r: ConfirmOutcome)
    // an invalid form is left to the browser: no message, no reset
    ensures r == FormInvalid <==> !formValid
    // the phrase is checked first, before anything about the password
    ensures r == Rejected(ConfirmationMismatch) <==> formValid && Lower(confirmText) != Lower(resetMessage)
    ensures r == Rejected(PasswordMissing) <==>
      formValid && Lower(confirmText) == Lower(resetMessage) && password == "" && !forgotPassword
    // a typed wrong password is refused even when "forgot" is ticked
    ensures r == Rejected(InvalidPassword) <==>
      formValid && Lower(confirmText) == Lower(resetMessage) && password != "" && !passwordCorrect
    ensures r == Confirmed <==>
      formValid && Lower(confirmText) == Lower(resetMessage) &&
      ((password != "" && passwordCorrect) || (password == "" && forgotPassword))
  {
    if !formValid then FormInvalid
    else if Lower(confirmText) != Lower(resetMessage) then Rejected(ConfirmationMismatch)
    else if password == "" && !forgotPassword then Rejected(PasswordMissing)
    else if password != "" && !passwordCorrect then Rejected(InvalidPassword)
    else Confirmed
  }

  /** The browser's `checkValidity` for this form: the phrase field is
      required, and so is the password field unless "forgot" is ticked (the
      field is then disabled, and disabled fields are not checked). */
  predicate FormValid(password: string, confirmText: string, forgotPassword: bool)
  {
    confirmText != "" && (forgotPassword || password != "")
  }

  /** Because of the `required` attributes the "write your password" message
      is never shown: the browser stops an empty password first. */
  lemma PasswordMissingUnreachable(confirmText: string, resetMessage: string, password: string,
                                   forgotPassword: bool, passwordCorrect: bool)
    ensures ConfirmOutcomeOf(FormValid(password, confirmText, forgotPassword), confirmText, resetMessage,
                             password, forgotPassword, passwordCorrect) != Rejected(PasswordMissing)
  {
  }

  class ModalResetAllData {
    /** `CONFIRM_RESET_MESSAGE`. */
    const resetMessage: string
    var errorMessage: string
    var forgotPassword: bool
    /** The values of the password and phrase inputs. */
    var password: string
    var confirmMessage: string
    /** How many times `props.success()` was called. */
    var successCalls: nat

    /** The password input is empty whenever "forgot" is ticked. */
    ghost predicate Valid()
      reads this
    {
      forgotPassword ==> password == ""
    }

    constructor (resetMessage: string)
      ensures Valid()
      ensures this.resetMessage == resetMessage
      ensures errorMessage == "" && !forgotPassword && password == "" && confirmMessage == "" && successCalls == 0
    {
      this.resetMessage := resetMessage;
      errorMessage := "";
      forgotPassword := false;
      password := "";
      confirmMessage := "";
      successCalls := 0;
    }

    /** The user types into the password input, which is only enabled while
        "forgot" is not ticked. */
    method EnterPassword(text: string)
      requires Valid() && !forgotPassword
      modifies this
      ensures Valid()
      ensures password == text
      ensures errorMessage == old(errorMessage) && forgotPassword == old(forgotPassword)
      ensures confirmMessage == old(confirmMessage) && successCalls == old(successCalls)
    {
      password := text;
    }

    /** The user types into the phrase input. */
    method EnterConfirmMessage(text: string)
      requires Valid()
      modifies this
      ensures Valid()
      ensures confirmMessage == text
      ensures errorMessage == old(errorMessage) && forgotPassword == old(forgotPassword)
      ensures password == old(password) && successCalls == old(successCalls)
    {
      confirmMessage := text;
    }

    /** `handleConfirm`; `formValid` is what the browser's `checkValidity`
        says of the form and `passwordCorrect` what `isPasswordCorrect` says
        of the typed password. */
    method HandleConfirm(formValid: bool, passwordCorrect: bool) returns (outcome: ConfirmOutcome)
      requires Valid()
      modifies this
      ensures Valid()
      ensures outcome == ConfirmOutcomeOf(formValid, confirmMessage,
                                          resetMessage, password, forgotPassword, passwordCorrect)
      ensures errorMessage == (if outcome.Rejected? then outcome.message else old(errorMessage))
      ensures successCalls == old(successCalls) + (if outcome == Confirmed then 1 else 0)
      ensures password == old(password) && confirmMessage == old(confirmMessage) && forgotPassword == old(forgotPassword)
      // not reachable through the dialog: the missing-password message when
      // the browser enforces `required`, and a wrong password while "forgot"
      // is ticked
      ensures formValid == FormValid(password, confirmMessage, forgotPassword) ==> outcome != Rejected(PasswordMissing)
      ensures forgotPassword ==> outcome != Rejected(InvalidPassword)
    {
      if !formValid {
        return FormInvalid;
      }
      if Lower(confirmMessage) != Lower(resetMessage) {
        errorMessage := ConfirmationMismatch;
        return Rejected(ConfirmationMismatch);
      }
      if password == "" && !forgotPassword {
        errorMessage := PasswordMissing;
        return Rejected(PasswordMissing);
      }
      if password != "" && !passwordCorrect {
        errorMessage := InvalidPassword;
        return Rejected(InvalidPassword);
      }
      successCalls := successCalls + 1;
      return Confirmed;
    }

    /** `setForgotPassword`: toggle the flag; ticking it clears the password. */
    method SetForgotPassword()
      requires Valid()
      modifies this
      ensures Valid()
      ensures forgotPassword == !old(forgotPassword)
      ensures password == if old(forgotPassword) then old(password) else ""
      ensures errorMessage == old(errorMessage) && confirmMessage == old(confirmMessage) && successCalls == old(successCalls)
    {
      var wasForgotten := forgotPassword;
      forgotPassword := !forgotPassword;
      if !wasForgotten {
        password := "";
      }
    }

    /** `onDismiss`: close the dialog with every field back to its start. */
    method OnDismiss()
      modifies this
      ensures Valid()
      ensures password == "" && confirmMessage == "" && !forgotPassword && errorMessage == ""
      ensures successCalls == old(successCalls)
    {
      password := "";
      confirmMessage := "";
      forgotPassword := false;
      errorMessage := "";
    }
  }
}
