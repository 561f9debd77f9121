/**
 * The admin pages' HTTP Basic authentication (section 2 of RFC 7617): the
 * credential predicate handed to the Basic-auth middleware.
 */
module Middleware {
  import opened Common

  /** The configured admin credentials. */
  datatype Config = Config(authUser: string, authPass: string)

  /** What the predicate reports: whether the credentials are accepted, and an error (Go's `error`). */
  datatype Verdict = Verdict(accepted: bool, err: Option<string>)

  /**
   * Go's `subtle.ConstantTimeCompare`: 0 when the lengths differ, otherwise 1
   * exactly when every position agrees.
   */
  function ConstantTimeCompare(x: string, y: string): (r: int)
    ensures r == 0 || r == 1
    ensures r == 1 <==> x == y
  {
    if |x| != |y| then 0
    else if forall i :: 0 <= i < |x| ==> x[i] == y[i] then 1
    else 0
  }

  /** The predicate: accept exactly when both the username and the password match the configuration. */
  function BasicAuthValidator(config: Config, username: string, password: string): (v: Verdict)
    ensures v.err.None?
    ensures v.accepted <==> username == config.authUser && password == config.authPass
  {
    if ConstantTimeCompare(username, config.authUser) == 1
      && ConstantTimeCompare(password, config.authPass) == 1
    then Verdict(true, None)
    else Verdict(false, None)
  }

  /** A wrong username is rejected whatever the password. */
  lemma WrongUsernameRejected(config: Config, username: string, password: string)
    requires username != config.authUser
    ensures !BasicAuthValidator(config, username, password).accepted
  {
  }

  /** A wrong password is rejected whatever the username. */
  lemma WrongPasswordRejected(config: Config, username: string, password: string)
    requires password != config.authPass
    ensures !BasicAuthValidator(config, username, password).accepted
  {
  }
}
