/** The login gate: the credential check and the per-session flag it sets. */
module Auth {
  import opened Wrappers

  /** `process.env.login_username` and `process.env.login_password`; `None`
      when the variable is not set (JavaScript `undefined`). */
  datatype Secrets = Secrets(username: Option<string>, password: Option<string>)

  /** `authenticated(username, password)`: strict equality with both secrets.
      An absent form field is `undefined` too, so it equals an unset secret. */
  function Authenticated(secrets: Secrets, username: Option<string>, password: Option<string>): bool
  {
    username == secrets.username && password == secrets.password
  }

  /** When both secrets are configured, only a request that carries both
      fields, with exactly those values, gets in. */
  lemma ConfiguredSecretsNeedBothFields(secrets: Secrets, username: Option<string>, password: Option<string>)
    requires secrets.username.Some? && secrets.password.Some?
    requires Authenticated(secrets, username, password)
    ensures username.Some? && password.Some?
    ensures username.value == secrets.username.value && password.value == secrets.password.value
  {
  }

  /** When neither variable is set, a login form sent without either field is
      accepted: `undefined === undefined`. */
  lemma UnsetSecretsAdmitEmptyLogin(secrets: Secrets)
    requires secrets.username.None? && secrets.password.None?
    ensures Authenticated(secrets, None, None)
    ensures forall u: string :: !Authenticated(secrets, Some(u), None)
  {
  }

  /** `req.session`: the per-client state kept by express-session. Its
      `authenticated` property is `undefined` (falsy) until a login succeeds. */
  class Session {
    var authenticated: bool

    constructor ()
      ensures !authenticated
    {
      authenticated := false;
    }

    /** `req.session.authenticated = true` */
    method MarkAuthenticated()
      modifies this
      ensures authenticated
    {
      authenticated := true;
    }
  }
}
