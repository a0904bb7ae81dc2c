/**
 * The authorization guards of middleware/index.js. Each guard decides whether
 * a request proceeds (`next()`) or is refused, and with which flash message
 * and redirect. Guards only read: they are functions of the request and of
 * the result of the database lookup.
 */
module Middleware {
  import opened Http

  type UserId = nat

  /** The authenticated user passport attaches to the request (`req.user`). */
  datatype Identity = Identity(id: UserId, username: string, isAdmin: bool, isPaid: bool)

  /** What the guards look at: the session's user, and whether the request
      declares `content-type: application/json`. */
  datatype Request = Request(user: Option<Identity>, json: bool)

  /** The result of `findById`: an error, no document, or the document's `author.id`. */
  datatype Lookup = LookupFailed | Missing | Found(ownerId: UserId)

  /** The two kinds of owned resource, checked by the same rule. */
  datatype Resource = CampgroundResource | CommentResource

  const NeedLogin := "You need to be logged in to do that"
  const NoPermission := "You don`t have permission to do that"
  const NeedPayment := "Please pay registration fee before continuing"
  const LoginRequired := "Login required"
  /** What the error handler receives when `req.send` is called: requests have no `send`. */
  const NoSendOnRequest := "req.send is not a function"

  function NotFoundText(kind: Resource): string
  {
    match kind
    case CampgroundResource => "Campground not found"
    case CommentResource => "Comment not found"
  }

  /** `isLoggedIn` as the authors evidently meant it: a JSON request that is
      not authenticated gets a JSON error object back. */
  function IsLoggedIn(req: Request): (r: Response)
    ensures r == Next <==> req.user.Some?
    ensures req.user.None? && req.json ==> r == Send(ErrorBody(LoginRequired))
    ensures req.user.None? && !req.json ==> r == Redirect(Some(Flash(Warning, NeedLogin)), Path("/login"))
  {
    if req.user.Some? then Next
    else if req.json then Send(ErrorBody(LoginRequired))
    else Redirect(Some(Flash(Warning, NeedLogin)), Path("/login"))
  }

  /** `isLoggedIn` as written: the JSON branch calls `send` on the request,
      which throws a TypeError that Express hands to its error handler. */
  function IsLoggedInAsWritten(req: Request): (r: Response)
    ensures req.user.None? && req.json ==> r.Fail?
    ensures !(req.user.None? && req.json) ==> r == IsLoggedIn(req)
  {
    if req.user.Some? then Next
    else if req.json then Fail(NoSendOnRequest)
    else Redirect(Some(Flash(Warning, NeedLogin)), Path("/login"))
  }

  /** The JSON login error of the source is never delivered. */
  lemma JsonLoginErrorNeverSent()
    ensures IsLoggedInAsWritten(Request(None, true)) != IsLoggedIn(Request(None, true))
    ensures IsLoggedInAsWritten(Request(None, true)) == Fail(NoSendOnRequest)
  {
  }

  /** `isPaid`; it runs after `isLoggedIn`, so `req.user` is present. */
  function IsPaid(user: Identity): (r: Response)
    ensures r == Next <==> user.isPaid
    ensures !user.isPaid ==> r == Redirect(Some(Flash(Warning, NeedPayment)), Path("/checkout"))
  {
    if user.isPaid then Next else Redirect(Some(Flash(Warning, NeedPayment)), Path("/checkout"))
  }

  /** `router.use(isLoggedIn, isPaid)` at the head of the campground routes:
      the first guard that refuses answers the request. */
  function LoggedInAndPaid(req: Request): (r: Response)
    ensures r == Next <==> req.user.Some? && req.user.value.isPaid
    ensures req.user.None? ==> r == IsLoggedIn(req)
    ensures req.user.Some? ==> r == IsPaid(req.user.value)
  {
    var login := IsLoggedIn(req);
    if login != Next then login else IsPaid(req.user.value)
  }

  /** `checkCampgroundOwnership` and `checkCommentOwnership`: the two differ
      only in the resource looked up and in the not-found message. */
  function CheckOwnership(kind: Resource, user: Option<Identity>, lookup: Lookup): (r: Response)
    // the request proceeds iff it is authenticated, the resource exists and
    // the user owns it or is an administrator
    ensures r == Next <==>
              user.Some? && lookup.Found? && (lookup.ownerId == user.value.id || user.value.isAdmin)
    ensures user.None? ==> r == Redirect(Some(Flash(Warning, NeedLogin)), Back)
    ensures user.Some? && !lookup.Found? ==> r == Redirect(Some(Flash(Error, NotFoundText(kind))), Back)
    ensures user.Some? && lookup.Found? && lookup.ownerId != user.value.id && !user.value.isAdmin ==>
              r == Redirect(Some(Flash(Error, NoPermission)), Back)
  {
    if user.Some? then
      if lookup.LookupFailed? || lookup.Missing? then
        Redirect(Some(Flash(Error, NotFoundText(kind))), Back)
      else if lookup.ownerId == user.value.id || user.value.isAdmin then
        Next
      else
        Redirect(Some(Flash(Error, NoPermission)), Back)
    else
      Redirect(Some(Flash(Warning, NeedLogin)), Back)
  }

  function CheckCampgroundOwnership(user: Option<Identity>, lookup: Lookup): (r: Response)
    ensures r == Next <==> user.Some? && lookup.Found? && (lookup.ownerId == user.value.id || user.value.isAdmin)
    ensures user.None? ==> r == Redirect(Some(Flash(Warning, NeedLogin)), Back)
    ensures user.Some? && !lookup.Found? ==> r == Redirect(Some(Flash(Error, "Campground not found")), Back)
    ensures user.Some? && lookup.Found? && lookup.ownerId != user.value.id && !user.value.isAdmin ==>
              r == Redirect(Some(Flash(Error, NoPermission)), Back)
  {
    CheckOwnership(CampgroundResource, user, lookup)
  }

  function CheckCommentOwnership(user: Option<Identity>, lookup: Lookup): (r: Response)
    ensures r == Next <==> user.Some? && lookup.Found? && (lookup.ownerId == user.value.id || user.value.isAdmin)
    ensures user.None? ==> r == Redirect(Some(Flash(Warning, NeedLogin)), Back)
    ensures user.Some? && !lookup.Found? ==> r == Redirect(Some(Flash(Error, "Comment not found")), Back)
    ensures user.Some? && lookup.Found? && lookup.ownerId != user.value.id && !user.value.isAdmin ==>
              r == Redirect(Some(Flash(Error, NoPermission)), Back)
  {
    CheckOwnership(CommentResource, user, lookup)
  }

  /** The decision of the ownership guard, without its messages. */
  datatype Decision = Allow | DenyUnauthenticated | DenyNotFound | DenyForbidden

  /** Reads the decision back from a response of `CheckOwnership`. */
  function DecisionOf(r: Response): Decision
  {
    if r == Next then Allow
    else if r.Redirect? && r.flash.Some? && r.flash.value.level == Warning then DenyUnauthenticated
    else if r.Redirect? && r.flash.Some? && r.flash.value.text == NoPermission then DenyForbidden
    else DenyNotFound
  }

  /** The ownership rule of the design, stated case by case. */
  predicate DecidedAs(user: Option<Identity>, lookup: Lookup, d: Decision)
  {
    match d
    case Allow => user.Some? && lookup.Found? && (lookup.ownerId == user.value.id || user.value.isAdmin)
    case DenyUnauthenticated => user.None?
    case DenyNotFound => user.Some? && !lookup.Found?
    case DenyForbidden =>
      user.Some? && lookup.Found? && lookup.ownerId != user.value.id && !user.value.isAdmin
  }

  /** Every request gets exactly the decision the rule assigns it, for
      campgrounds and comments alike: the comment check behaves as the
      campground check, message for a missing document aside. */
  lemma OwnershipDecision(kind: Resource, user: Option<Identity>, lookup: Lookup, d: Decision)
    ensures DecisionOf(CheckOwnership(kind, user, lookup)) == d <==> DecidedAs(user, lookup, d)
    ensures DecisionOf(CheckCommentOwnership(user, lookup)) == DecisionOf(CheckCampgroundOwnership(user, lookup))
  {
  }
}
