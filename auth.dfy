/**
 * The two authentication middlewares (backend/src/middleware/auth.middleware.js).
 *
 * `protectRoute` lets a request through when the identity provider attached
 * a user id to it. `requireAdmin` looks that user up and lets the request
 * through when the user's primary email is the configured administrator
 * email. The lookup is an abstract function that may fail; the configured
 * email is a parameter, `None` where the variable is unset.
 */
module Auth {
  import opened Optional

  /** The identity provider's answer to `users.getUser(userId)`. */
  datatype UserLookup = LookupFailed | Found(primaryEmail: Option<string>)

  /** What a middleware does with a request: `next()`, a JSON error response, or `next(error)`. */
  datatype Decision = Continue | Deny(status: nat, message: string) | ContinueWithError

  const NotSignedIn := "Unauthorized - you must be logged in"
  const NotAdmin := "Unauthorized - you must be an admin"

  /** A user id is truthy when it is present and not empty. */
  predicate SignedIn(userId: Option<string>) {
    userId.Some? && userId.value != ""
  }

  /** `protectRoute`: 401 exactly when `req.auth.userId` is missing or empty, `next()` otherwise. */
  function ProtectRoute(userId: Option<string>): (d: Decision)
    ensures d == Deny(401, NotSignedIn) <==> !SignedIn(userId)
    ensures d == Continue <==> SignedIn(userId)
  {
    if !SignedIn(userId) then Deny(401, NotSignedIn) else Continue
  }

  /** `process.env.ADMIN_EMAIL === userEmail`: strict equality of two possibly undefined strings. */
  predicate IsAdmin(adminEmail: Option<string>, userEmail: Option<string>) {
    adminEmail == userEmail
  }

  /**
   * `requireAdmin`: look the user up, then compare emails. Exactly one
   * outcome per request: it passes exactly when the lookup succeeds and the
   * emails are equal, answers 403 exactly when the lookup succeeds and they
   * differ, and passes an error to `next` exactly when the lookup fails.
   */
  function RequireAdmin(userId: string, adminEmail: Option<string>, getUser: string -> UserLookup): (d: Decision)
    ensures d == Continue <==> getUser(userId).Found? && getUser(userId).primaryEmail == adminEmail
    ensures d == Deny(403, NotAdmin) <==> getUser(userId).Found? && getUser(userId).primaryEmail != adminEmail
    ensures d == ContinueWithError <==> getUser(userId) == LookupFailed
  {
    match getUser(userId)
    case LookupFailed => ContinueWithError
    case Found(email) => if IsAdmin(adminEmail, email) then Continue else Deny(403, NotAdmin)
  }

  /** The comparison is exact: two emails that differ in any character, letter case included, do not match. */
  lemma AdminEmailIsExact(adminEmail: string, userEmail: string)
    ensures IsAdmin(Some(adminEmail), Some(userEmail)) <==> adminEmail == userEmail
  {
  }

  /** A user without a primary email is admitted exactly when no administrator email is configured. */
  lemma NoEmailAdmittedOnlyWhenUnset(userId: string, adminEmail: Option<string>, getUser: string -> UserLookup)
    requires getUser(userId) == Found(None)
    ensures RequireAdmin(userId, adminEmail, getUser) == Continue <==> adminEmail == None
  {
  }
}
