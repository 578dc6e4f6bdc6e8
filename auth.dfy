/**
 * The check every protected endpoint runs on the caller's bearer token: the
 * server must have a password configured, and the token must equal it.
 */
module Auth {
  import opened Wrappers
  import Config

  /** An `HTTPException`: status code and detail text. */
  datatype HttpError = HttpError(status: nat, detail: string)

  const NotConfigured := HttpError(500, "CODEBUDDY_PASSWORD is not configured on the server.")
  const Forbidden := HttpError(403, "Invalid password")

  /** `authenticate`, with the configured password and the presented token. An
      unset or empty password is refused first, whatever the token; then a
      token other than the password is refused; otherwise the token is returned. */
  function Authenticate(password: Option<string>, token: string): (r: Result<string, HttpError>)
    ensures r == Failure(NotConfigured) <==> password.None? || password.value == ""
    ensures r == Failure(Forbidden) <==> password.Some? && password.value != "" && token != password.value
    ensures r.Success? <==> password.Some? && password.value != "" && token == password.value
    ensures r.Success? ==> r.value == token
  {
    if password.None? || password.value == "" then Failure(NotConfigured)
    else if token != password.value then Failure(Forbidden)
    else Success(token)
  }

  /** The decision as the server takes it, with the password read from the environment. */
  function AuthenticateIn(env: Config.Env, token: string): Result<string, HttpError> {
    Authenticate(Config.ServerPassword(env), token)
  }

  /** The configuration check comes before any comparison: without a password
      every token gets the same 500, so a caller learns nothing about tokens. */
  lemma UnconfiguredIgnoresToken(env: Config.Env, t1: string, t2: string)
    requires "CODEBUDDY_PASSWORD" !in env || env["CODEBUDDY_PASSWORD"] == ""
    ensures AuthenticateIn(env, t1) == AuthenticateIn(env, t2) == Failure(NotConfigured)
  {
  }

  /** With a password configured, exactly one token is let through: the password. */
  lemma OnlyPasswordPasses(env: Config.Env, token: string)
    requires "CODEBUDDY_PASSWORD" in env && env["CODEBUDDY_PASSWORD"] != ""
    ensures AuthenticateIn(env, token).Success? <==> token == env["CODEBUDDY_PASSWORD"]
    ensures AuthenticateIn(env, token).Failure? ==> AuthenticateIn(env, token).error.status == 403
  {
  }
}
