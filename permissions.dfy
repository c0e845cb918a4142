/**
 * The permission engine: the permission classes the viewsets name, each as the
 * pair of checks the framework runs. `...HasPermission` is consulted on every
 * request, before any object is loaded; `...HasObjectPermission` only once a view
 * has loaded the target object, and only if the first check passed.
 */
module Permissions {
  import opened Http
  import opened Accounts

  /** What a has_object_permission call does: return True, return False, or raise
      AttributeError by reading an attribute the anonymous user object lacks
      (`role`, `is_admin`, `is_moderator` belong to the stored user model only). */
  datatype Verdict = Allow | Deny | AttributeError(attribute: string)

  function FromBool(b: bool): Verdict {
    if b then Allow else Deny
  }

  // ---- AdminOrReadOnly ----

  predicate AdminOrReadOnlyHasPermission(a: Actor, m: Method) {
    IsSafe(m) || (a.Authenticated? && (a.user.isAdmin || a.user.isSuperuser))
  }

  function AdminOrReadOnlyHasObjectPermission(a: Actor, m: Method): Verdict {
    if IsSafe(m) || IsSuperuser(a) then Allow
    else if a.Anonymous? then AttributeError("is_admin")
    else FromBool(a.user.isAdmin)
  }

  // ---- AdminOnly ----

  predicate AdminOnlyHasPermission(a: Actor, m: Method) {
    a.Authenticated? && a.user.isAdmin
  }

  function AdminOnlyHasObjectPermission(a: Actor, m: Method): Verdict {
    if IsSuperuser(a) then Allow
    else if a.Anonymous? then AttributeError("is_admin")
    else FromBool(a.user.isAdmin)
  }

  // ---- AuthorOrHasRoleOrReadOnly ----

  predicate AuthorOrHasRoleOrReadOnlyHasPermission(a: Actor, m: Method) {
    IsSafe(m) || a.Authenticated?
  }

  function AuthorOrHasRoleOrReadOnlyHasObjectPermission(a: Actor, m: Method, author: UserId): Verdict {
    if IsSafe(m) || IsSuperuser(a) then Allow
    else if a.Anonymous? then AttributeError("is_admin")
    else FromBool(a.user.isAdmin || a.user.isModerator || a.user.id == author)
  }

  // ---- ReviewAndCommentPermission ----

  predicate ReviewAndCommentHasPermission(a: Actor, m: Method) {
    IsSafe(m) || a.Authenticated?
  }

  function ReviewAndCommentHasObjectPermission(a: Actor, m: Method, author: UserId): Verdict {
    if IsSafe(m) then Allow
    else if m == POST then FromBool(a.Authenticated?)
    else if m == PATCH || m == DELETE then
      if a.Anonymous? then AttributeError("role")
      else FromBool(a.user.role == "admin" || a.user.role == "moderator" || a.user.id == author)
    else Deny
  }

  // ---- dispatch, with the framework's own AllowAny and IsAuthenticated ----

  datatype PermissionClass =
    | AllowAny
    | IsAuthenticated
    | AdminOrReadOnly
    | AdminOnly
    | AuthorOrHasRoleOrReadOnly
    | ReviewAndCommentPermission

  predicate HasPermission(p: PermissionClass, a: Actor, m: Method) {
    match p
    case AllowAny => true
    case IsAuthenticated => a.Authenticated?
    case AdminOrReadOnly => AdminOrReadOnlyHasPermission(a, m)
    case AdminOnly => AdminOnlyHasPermission(a, m)
    case AuthorOrHasRoleOrReadOnly => AuthorOrHasRoleOrReadOnlyHasPermission(a, m)
    case ReviewAndCommentPermission => ReviewAndCommentHasPermission(a, m)
  }

  /** The framework's BasePermission grants every object, so AllowAny and
      IsAuthenticated never refuse at this phase. */
  function HasObjectPermission(p: PermissionClass, a: Actor, m: Method, author: UserId): Verdict {
    match p
    case AllowAny => Allow
    case IsAuthenticated => Allow
    case AdminOrReadOnly => AdminOrReadOnlyHasObjectPermission(a, m)
    case AdminOnly => AdminOnlyHasObjectPermission(a, m)
    case AuthorOrHasRoleOrReadOnly => AuthorOrHasRoleOrReadOnlyHasObjectPermission(a, m, author)
    case ReviewAndCommentPermission => ReviewAndCommentHasObjectPermission(a, m, author)
  }

  /** Both phases in the framework's order, for a request on one object whose author
      is `author`: the object check only runs once the request check passed, and
      then it never meets an attribute the actor lacks. */
  function Authorize(p: PermissionClass, a: Actor, m: Method, author: UserId): (v: Verdict)
    ensures !v.AttributeError?
    ensures v == Allow ==> HasPermission(p, a, m)
  {
    if !HasPermission(p, a, m) then Deny else HasObjectPermission(p, a, m, author)
  }

  // ---- the rule table ----

  /** Every read passes every class but AdminOnly and IsAuthenticated, in both phases,
      whoever asks, the anonymous caller included. */
  lemma SafeMethodsAlwaysPass(a: Actor, m: Method, author: UserId)
    requires IsSafe(m)
    ensures AdminOrReadOnlyHasPermission(a, m) && AdminOrReadOnlyHasObjectPermission(a, m) == Allow
    ensures AuthorOrHasRoleOrReadOnlyHasPermission(a, m)
    ensures AuthorOrHasRoleOrReadOnlyHasObjectPermission(a, m, author) == Allow
    ensures forall p :: p != AdminOnly && p != IsAuthenticated ==> Authorize(p, a, m, author) == Allow
  {
  }

  /** A write on a catalog resource needs an authenticated admin or superuser. */
  lemma AdminOrReadOnlyWrites(a: Actor, m: Method)
    requires !IsSafe(m)
    ensures AdminOrReadOnlyHasPermission(a, m) <==> a.Authenticated? && (a.user.isAdmin || a.user.isSuperuser)
    ensures !AdminOrReadOnlyHasPermission(Anonymous, m)
  {
  }

  /** AdminOnly does not look at the method: a read is refused like a write, and
      `is_superuser` alone does not open it before the object is loaded. */
  lemma AdminOnlyIgnoresMethod(a: Actor, m: Method)
    ensures AdminOnlyHasPermission(a, m) <==> a.Authenticated? && a.user.isAdmin
    ensures AdminOnlyHasPermission(a, m) == AdminOnlyHasPermission(a, GET)
    ensures a.Authenticated? && a.user.isSuperuser && !a.user.isAdmin ==>
              !AdminOnlyHasPermission(a, m) && AdminOnlyHasObjectPermission(a, m) == Allow
  {
  }

  /** At the object phase AdminOnly grants a stored user exactly when it is a superuser or an admin. */
  lemma AdminOnlyObjectRule(u: User, m: Method)
    ensures AdminOnlyHasObjectPermission(Authenticated(u), m) == FromBool(u.isSuperuser || u.isAdmin)
  {
  }

  /** Reviews and comments can be read by anyone and written by any authenticated user
      before the object is loaded. */
  lemma AuthorOrHasRoleOrReadOnlyRequestRule(a: Actor, m: Method)
    ensures AuthorOrHasRoleOrReadOnlyHasPermission(a, m) <==> IsSafe(m) || a.Authenticated?
  {
  }

  /** An author may do anything to their own review or comment, whatever their role;
      anybody else needs to be a superuser, an admin or a moderator to write it. */
  lemma AuthorOrHasRoleOrReadOnlyObjectRule(u: User, m: Method, author: UserId)
    ensures u.id == author ==> Authorize(AuthorOrHasRoleOrReadOnly, Authenticated(u), m, author) == Allow
    ensures !IsSafe(m) && u.id != author ==>
              AuthorOrHasRoleOrReadOnlyHasObjectPermission(Authenticated(u), m, author)
                == FromBool(u.isSuperuser || u.isAdmin || u.isModerator)
  {
  }

  /** The older review permission refuses PUT at the object phase, even to the author
      and even to a superuser. */
  lemma ReviewAndCommentRefusesPut(a: Actor, author: UserId)
    ensures ReviewAndCommentHasObjectPermission(a, PUT, author) == Deny
    ensures Authorize(ReviewAndCommentPermission, a, PUT, author) == Deny
  {
  }

  /** Editing or deleting needs the literal role 'admin' or 'moderator', or authorship. */
  lemma ReviewAndCommentEditRule(u: User, m: Method, author: UserId)
    requires m == PATCH || m == DELETE
    ensures ReviewAndCommentHasObjectPermission(Authenticated(u), m, author)
              == FromBool(u.role == "admin" || u.role == "moderator" || u.id == author)
  {
  }

  /** No class but AllowAny lets an anonymous caller write: the refusal happens before
      the object is loaded, so it is a plain denial and never an AttributeError. */
  lemma AnonymousNeverWrites(p: PermissionClass, m: Method, author: UserId)
    requires !IsSafe(m) && p != AllowAny
    ensures !HasPermission(p, Anonymous, m)
    ensures Authorize(p, Anonymous, m, author) == Deny
  {
  }
}
