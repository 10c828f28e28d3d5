/**
 * The sign-up form's submit handler: two password checks in a fixed order,
 * then one call to the context's `signup`, whose result (or rejection) is
 * turned into a navigation or a message, with `loading` raised around the
 * call and lowered on every way out of it. The handler is split at its
 * `await`, so the state while the call is in flight can be observed.
 */
module Signup {
  import opened Wrappers
  import opened AuthContext

  const MismatchError: string := "Passwords must match"
  const LengthError: string := "Password must be at least 6 characters"
  const ConfirmMessage: string := "Signup successful! Please check your email to confirm your account."
  const FailedMessage: string := "Signup failed. Please try again."
  const UnexpectedError: string := "Unexpected error. Please try again later."

  /** How the awaited `signup` call settled. */
  datatype Settled = Resolved(result: SignupResult) | Rejected

  class SignupForm {
    var name: string
    var email: string
    var password: string
    var confirm: string
    var loading: bool
    var error: string
    /** Where the form navigated to, if anywhere. */
    var navigatedTo: Option<string>

    constructor ()
      ensures name == "" && email == "" && password == "" && confirm == ""
      ensures !loading && error == "" && navigatedTo == None
    {
      name, email, password, confirm := "", "", "", "";
      loading, error, navigatedTo := false, "", None;
    }

    /**
     * The synchronous part of `handleSubmit`, up to the awaited call: clear
     * the message, run the two password checks in order, and on success
     * raise `loading` (which disables the button and shows "Creating...")
     * and call `signup`. `called` says whether the call was made.
     */
    method BeginSubmit() returns (called: bool)
      modifies this`error, this`loading
      ensures called <==> password == confirm && |password| >= 6
      ensures password != confirm ==> error == MismatchError
      ensures password == confirm && |password| < 6 ==> error == LengthError
      ensures called ==> error == "" && loading
      ensures !called ==> loading == old(loading)
    {
      error := "";
      if password != confirm {
        error := MismatchError;
        return false;
      }
      if |password| < 6 {
        error := LengthError;
        return false;
      }
      loading := true;
      called := true;
    }

    /**
     * The rest of `handleSubmit`, once the awaited `signup` settles: the
     * result becomes a navigation or a message, a rejection the generic
     * message, and `finally` lowers `loading` on every way out.
     */
    method SubmitSettled(outcome: Settled)
      modifies this`error, this`loading, this`navigatedTo
      ensures !loading
      ensures outcome == Resolved(SignedUp) ==> navigatedTo == Some("/dashboard") && error == old(error)
      ensures outcome == Resolved(NeedsConfirmation) ==> navigatedTo == old(navigatedTo) && error == ConfirmMessage
      ensures outcome == Resolved(Failed) ==> navigatedTo == old(navigatedTo) && error == FailedMessage
      ensures outcome == Rejected ==> navigatedTo == old(navigatedTo) && error == UnexpectedError
    {
      match outcome {
        case Resolved(SignedUp) =>
          navigatedTo := Some("/dashboard");
        case Resolved(NeedsConfirmation) =>
          error := ConfirmMessage;
        case Resolved(Failed) =>
          error := FailedMessage;
        case Rejected =>
          error := UnexpectedError;
      }
      loading := false;
    }

    /**
     * A whole submission with no other event in between: `outcome` is how
     * `signup` settles if it is called.
     */
    method Submit(outcome: Settled) returns (called: bool)
      modifies this`error, this`loading, this`navigatedTo
      ensures called <==> password == confirm && |password| >= 6
      ensures password != confirm ==> error == MismatchError
      ensures password == confirm && |password| < 6 ==> error == LengthError
      ensures !called ==> loading == old(loading) && navigatedTo == old(navigatedTo)
      ensures called ==> !loading
      ensures called && outcome == Resolved(SignedUp) ==> navigatedTo == Some("/dashboard") && error == ""
      ensures called && outcome == Resolved(NeedsConfirmation) ==> navigatedTo == old(navigatedTo) && error == ConfirmMessage
      ensures called && outcome == Resolved(Failed) ==> navigatedTo == old(navigatedTo) && error == FailedMessage
      ensures called && outcome == Rejected ==> navigatedTo == old(navigatedTo) && error == UnexpectedError
    {
      called := BeginSubmit();
      if called {
        SubmitSettled(outcome);
      }
    }
  }

  /** While the call is in flight the button is disabled; whatever the call does, it is enabled again afterwards. */
  method LoadingSpansTheCall(outcome: Settled) returns (during: bool, after: bool)
    ensures during && !after
  {
    var form := new SignupForm();
    form.password, form.confirm := "secret1", "secret1";
    var called := form.BeginSubmit();
    during := form.loading;
    form.SubmitSettled(outcome);
    after := form.loading;
  }

  /**
   * A mismatch is reported even when the password is also too short, and
   * the context is not called.
   */
  method MismatchReportedFirst(outcome: Settled) returns (called: bool, message: string)
    ensures !called && message == MismatchError
  {
    var form := new SignupForm();
    form.password, form.confirm := "abc", "abd";
    called := form.Submit(outcome);
    message := form.error;
  }

  /** A failed attempt's message is cleared and replaced by the next submission. */
  method RetryReplacesMessage(response: SignUpResponse) returns (first: string, second: string)
    requires response.SignUpReturned? && response.error.None? && (response.hasUser || response.hasSession)
    ensures first == FailedMessage && second == ""
  {
    var form := new SignupForm();
    form.password, form.confirm := "secret1", "secret1";
    var called := form.Submit(Resolved(SignupResultOf(SignUpThrew)));
    first := form.error;
    called := form.Submit(Resolved(SignupResultOf(response)));
    second := form.error;
  }
}
