/** The sign-in page: same shape as registration, but every rejected sign-in
    shows the same message, whatever its cause. */
module Login {
  import opened Auth

  const FailureMessage: string := "Email o password non validi."

  class LoginPage {
    var email: string
    var password: string
    var error: string
    var loading: bool
    /** The routes pushed on the router, oldest first. */
    var pushed: seq<string>

    /** The error shown is either empty or the one failure message. */
    ghost predicate Valid()
      reads this
    {
      error == "" || error == FailureMessage
    }

    /** The sign-in button is disabled while a sign-in is in flight. */
    predicate SubmitDisabled()
      reads this
    {
      loading
    }

    constructor ()
      ensures Valid()
      ensures email == "" && password == "" && error == "" && !loading && pushed == []
    {
      email, password, error, loading := "", "", "", false;
      pushed := [];
    }

    /** The handler up to the sign-in call: show progress, clear the error. */
    method BeginLogin()
      modifies this`loading, this`error
      ensures Valid()
      ensures loading && error == "" && SubmitDisabled()
    {
      loading := true;
      error := "";
    }

    /** The handler once the sign-in call has settled. */
    method FinishLogin(outcome: AuthOutcome)
      requires Valid()
      modifies this`loading, this`error, this`pushed
      ensures Valid()
      ensures !loading && !SubmitDisabled()
      ensures outcome == Succeeded ==> pushed == old(pushed) + [DashboardRoute] && error == old(error)
      ensures outcome != Succeeded ==> pushed == old(pushed) && error == FailureMessage
    {
      if outcome == Succeeded {
        pushed := pushed + [DashboardRoute];
      } else {
        error := FailureMessage;
      }
      loading := false;
    }

    /** The whole handler: success sends the user to the dashboard with no error
        shown; any failure shows the single message. The button is enabled again. */
    method HandleLogin(outcome: AuthOutcome)
      modifies this`loading, this`error, this`pushed
      ensures Valid()
      ensures !loading
      ensures outcome == Succeeded ==> pushed == old(pushed) + [DashboardRoute] && error == ""
      ensures outcome != Succeeded ==> pushed == old(pushed) && error == FailureMessage
    {
      BeginLogin();
      FinishLogin(outcome);
    }
  }
}
