/**
 * The named route middleware of app/middleware/auth.ts, run before
 * navigations to the pages that use it: an ordered chain of rules from the
 * access-token cookie and the target path to an action.
 */
module AuthMiddleware {
  import opened Wrappers
  import opened Routing

  /** The landing area of each known role; `None` for any other role. */
  function Home(role: string): (home: Option<string>)
    ensures home.Some? <==> role in {"admin", "superAdmin", "user"}
    ensures home.Some? ==> home.value == "/" + role
  {
    if role == "admin" then Some("/admin")
    else if role == "superAdmin" then Some("/superAdmin")
    else if role == "user" then Some("/user")
    else None
  }

  /**
   * The navigations the guard lets through, stated as a table rather than
   * as a chain: without a token only the login page; with one, any path
   * under the role's home (a plain string prefix, so `/adminX` is under
   * `/admin`), and every path for a role with no home.
   */
  predicate Permitted(token: Option<Jwt>, path: string)
  {
    if !HasToken(token) then path == LoginPath
    else
      var home := Home(token.value.claims.role);
      home.None? || StartsWith(path, home.value)
  }

  /** The rules in source order; the first one that fires decides. */
  function Guard(token: Option<Jwt>, path: string): (r: Action)
    ensures r == Allow <==> Permitted(token, path)
    ensures !HasToken(token) && r.Redirect? ==> r.target == LoginPath
    ensures HasToken(token) && r.Redirect? ==> Some(r.target) == Home(token.value.claims.role)
  {
    if path == LoginPath && !HasToken(token) then Allow
    else if !HasToken(token) then Redirect(LoginPath)
    else
      var payload := token.value.claims;
      if payload.role == "admin" && !StartsWith(path, "/admin") then Redirect("/admin")
      else if payload.role == "superAdmin" && !StartsWith(path, "/superAdmin") then Redirect("/superAdmin")
      else if payload.role == "user" && !StartsWith(path, "/user") then Redirect("/user")
      else Allow
  }

  /** Following the guard's redirect with the same token is let through. */
  lemma GuardIdempotent(token: Option<Jwt>, path: string)
    ensures Guard(token, path).Redirect? ==> Guard(token, Guard(token, path).target) == Allow
  {
  }

  /**
   * For a token holder the redirect target is a function of the role alone:
   * two paths that are both redirected are redirected to the same place.
   */
  lemma TargetIndependentOfPath(token: Option<Jwt>, p: string, q: string)
    requires HasToken(token)
    requires Guard(token, p).Redirect? && Guard(token, q).Redirect?
    ensures Guard(token, p).target == Guard(token, q).target
  {
  }

  /** The prefix test is not a path-segment test: `/adminPanel` is inside `/admin`. */
  lemma PrefixIsNotSegment(raw: string)
    requires raw != ""
    ensures Guard(Some(Jwt(raw, Claims("admin"))), "/adminPanel") == Allow
    ensures Guard(Some(Jwt(raw, Claims("user"))), "/users") == Allow
  {
  }

  /** A user who asks for the admin area lands on the user area. */
  lemma UserAskingForAdmin(raw: string)
    requires raw != ""
    ensures Guard(Some(Jwt(raw, Claims("user"))), "/admin") == Redirect("/user")
  {
  }
}
