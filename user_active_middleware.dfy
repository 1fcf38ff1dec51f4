/**
 * The account-activity guard of app/middleware/user-active.ts: for pages
 * below `/user/` it looks the profile up and sends inactive accounts, and
 * every failed lookup, to the user index page.
 */
module UserActiveMiddleware {
  import opened Wrappers
  import opened Routing
  import AuthMiddleware

  /** The user index page, which explains an inactive account itself. */
  const UserIndex: string := "/user"

  /** What `GET profile` produced: a failure of any kind, or a body whose `isActive` may be missing. */
  datatype ProfileLookup = LookupFailed | LookupOk(isActive: Option<bool>)

  /**
   * Whether the guard looks the profile up at all. The source also excludes
   * `/user`, which a path starting with `/user/` can never be; so exactly the
   * paths strictly below `/user/` are checked, and only with a token.
   */
  function NeedsCheck(token: Option<Jwt>, path: string): (b: bool)
    ensures b <==> HasToken(token) && |path| > |UserIndex| + 1 && path[..|UserIndex| + 1] == UserIndex + "/"
    ensures path == UserIndex || path == UserIndex + "/" ==> !b
  {
    if !HasToken(token) then false
    else if !StartsWith(path, "/user/") || path == "/user" || path == "/user/" then false
    else true
  }

  /** `!response.data.isActive`: a missing flag reads as inactive. */
  predicate Inactive(isActive: Option<bool>)
  {
    isActive != Some(true)
  }

  /** The whole middleware; `lookup` is consulted only on a checked path. */
  function Guard(token: Option<Jwt>, path: string, lookup: ProfileLookup): (r: Action)
    ensures r == Allow || r == Redirect(UserIndex)
    ensures !NeedsCheck(token, path) ==> r == Allow
    ensures NeedsCheck(token, path) ==> (r == Allow <==> lookup == LookupOk(Some(true)))
  {
    if !NeedsCheck(token, path) then Allow
    else
      match lookup
      case LookupOk(isActive) => if Inactive(isActive) then Redirect(UserIndex) else Allow
      case LookupFailed => Redirect(UserIndex)
  }

  /** Fail-closed: a failed lookup is treated exactly like an inactive account. */
  lemma FailureLikeInactive(token: Option<Jwt>, path: string)
    ensures Guard(token, path, LookupFailed) == Guard(token, path, LookupOk(Some(false)))
    ensures Guard(token, path, LookupFailed) == Guard(token, path, LookupOk(None))
  {
  }

  /** The redirect target is exempt from the check, so following it does nothing more. */
  lemma GuardIdempotent(token: Option<Jwt>, path: string, first: ProfileLookup, again: ProfileLookup)
    ensures Guard(token, path, first).Redirect? ==> Guard(token, Guard(token, path, first).target, again) == Allow
  {
  }

  /**
   * The two middlewares agree for a user: the activity guard only ever sends
   * them somewhere the role guard lets through, and the role guard only ever
   * sends them somewhere the activity guard does not check.
   */
  lemma GuardsAgreeForUser(token: Option<Jwt>, path: string, lookup: ProfileLookup, again: ProfileLookup)
    requires HasToken(token) && token.value.claims.role == "user"
    ensures Guard(token, path, lookup).Redirect? ==> AuthMiddleware.Guard(token, Guard(token, path, lookup).target) == Allow
    ensures AuthMiddleware.Guard(token, path).Redirect? ==> Guard(token, AuthMiddleware.Guard(token, path).target, again) == Allow
  {
  }
}
