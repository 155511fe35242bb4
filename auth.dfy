/** What the pages see of the identity provider: the signed-in user, and how a
    sign-in or sign-up call ended. */
module Auth {

  datatype User = User(uid: string)

  /** A sign-in or sign-up call either resolves or rejects with an error code. */
  datatype AuthOutcome = Succeeded | Failed(code: string)

  /** Where both auth pages send the user after a successful call. */
  const DashboardRoute: string := "/dashboard"
}
