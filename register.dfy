/** The registration page: its submit handler turns the sign-up outcome into
    either a move to the dashboard or one of three error messages. */
module Register {
  import opened Auth

  const EmailInUseCode: string := "auth/email-already-in-use"
  const WeakPasswordCode: string := "auth/weak-password"

  const EmailInUseMessage: string := "Questa email è già registrata."
  const WeakPasswordMessage: string := "La password deve essere di almeno 6 caratteri."
  const GenericMessage: string := "Si è verificato un errore durante la registrazione."

  /** The message shown for a rejected sign-up with error code `code`: the two
      recognised codes each have their own message, every other code the generic one. */
  function ErrorMessage(code: string): (m: string)
    ensures m != ""
    ensures m == EmailInUseMessage <==> code == EmailInUseCode
    ensures m == WeakPasswordMessage <==> code == WeakPasswordCode
    ensures m == GenericMessage <==> code != EmailInUseCode && code != WeakPasswordCode
  {
    if code == EmailInUseCode then EmailInUseMessage
    else if code == WeakPasswordCode then WeakPasswordMessage
    else GenericMessage
  }

  /** The messages the page can show; "" means none. */
  predicate IsShownError(error: string) {
    error == "" || error == EmailInUseMessage || error == WeakPasswordMessage || error == GenericMessage
  }

  class RegisterPage {
    var email: string
    var password: string
    var error: string
    var loading: bool
    /** The routes pushed on the router, oldest first. */
    var pushed: seq<string>

    /** The error shown is always empty or one of the three messages. */
    ghost predicate Valid()
      reads this
    {
      IsShownError(error)
    }

    /** The create-account button is disabled while a sign-up is in flight. */
    predicate SubmitDisabled()
      reads this
    {
      loading
    }

    constructor ()
      ensures Valid()
      ensures email == "" && password == "" && error == "" && !loading && pushed == []
    {
      email, password, error, loading := "", "", "", false;
      pushed := [];
    }

    /** The handler up to the sign-up call: show progress, clear the error. */
    method BeginRegister()
      modifies this`loading, this`error
      ensures Valid()
      ensures loading && error == "" && SubmitDisabled()
    {
      loading := true;
      error := "";
    }

    /** The handler once the sign-up call has settled. */
    method FinishRegister(outcome: AuthOutcome)
      requires Valid()
      modifies this`loading, this`error, this`pushed
      ensures Valid()
      ensures !loading && !SubmitDisabled()
      ensures outcome == Succeeded ==> pushed == old(pushed) + [DashboardRoute] && error == old(error)
      ensures outcome != Succeeded ==> pushed == old(pushed) && error == ErrorMessage(outcome.code)
    {
      if outcome == Succeeded {
        pushed := pushed + [DashboardRoute];
      } else {
        error := ErrorMessage(outcome.code);
      }
      loading := false;
    }

    /** The whole handler: on success the user is sent to the dashboard with no
        error shown; on failure exactly one non-empty message is shown and the
        page stays. Either way the button is enabled again. */
    method HandleRegister(outcome: AuthOutcome)
      modifies this`loading, this`error, this`pushed
      ensures Valid()
      ensures !loading
      ensures outcome == Succeeded ==> pushed == old(pushed) + [DashboardRoute] && error == ""
      ensures outcome != Succeeded ==>
        pushed == old(pushed) && error == ErrorMessage(outcome.code) && error != ""
    {
      BeginRegister();
      FinishRegister(outcome);
    }
  }
}
