/**
 * Vocabulary shared by the two route middlewares: navigation actions,
 * the access-token cookie as the middlewares see it, and JavaScript's
 * `String.prototype.startsWith`.
 */
module Routing {
  import opened Wrappers

  /** The login page, the one place an unauthenticated visitor may stay. */
  const LoginPath: string := "/auth/login"

  /** The result of a route middleware: let the navigation through, or `navigateTo(target)`. */
  datatype Action = Allow | Redirect(target: string)

  /** The claims `jwtDecode` yields for the access token; only `role` is consulted. */
  datatype Claims = Claims(role: string)

  /** The `token` cookie: its raw text and the claims decoding that text yields. */
  datatype Jwt = Jwt(raw: string, claims: Claims)

  /** JavaScript's `!token` is false: the cookie is set and is not the empty string. */
  predicate HasToken(token: Option<Jwt>)
  {
    token.Some? && token.value.raw != ""
  }

  /**
   * `s.startsWith(prefix)`: character by character, as ECMAScript defines it.
   * The postcondition is the declarative reading: `prefix` is an initial slice of `s`.
   */
  function StartsWith(s: string, prefix: string): (r: bool)
    ensures r <==> |prefix| <= |s| && s[..|prefix|] == prefix
  {
    if prefix == [] then true
    else if s == [] then false
    else s[0] == prefix[0] && StartsWith(s[1..], prefix[1..])
  }
}
