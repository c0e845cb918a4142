/**
 * The two revisions of the review and comment permission: the older
 * ReviewAndCommentPermission (literal role strings, PUT refused) and the newer
 * AuthorOrHasRoleOrReadOnly (the user's flags, every method). The older class is
 * the same text in both permission modules of the repository, so one definition
 * serves both.
 */
module PermissionRevisions {
  import opened Http
  import opened Accounts
  import opened Permissions

  /** The older class: before the object is loaded, a read or an authenticated user. */
  lemma OldRequestPhase(a: Actor, m: Method)
    ensures ReviewAndCommentHasPermission(a, m) <==> IsSafe(m) || a.Authenticated?
    ensures ReviewAndCommentHasPermission(a, m) == AuthorOrHasRoleOrReadOnlyHasPermission(a, m)
  {
  }

  /** The older class grants every read of an object, and a POST on an object to
      exactly the authenticated users. */
  lemma OldObjectReadsAndPosts(a: Actor, m: Method, author: UserId)
    ensures IsSafe(m) ==> ReviewAndCommentHasObjectPermission(a, m, author) == Allow
    ensures ReviewAndCommentHasObjectPermission(a, POST, author) == FromBool(a.Authenticated?)
  {
  }

  /** In the older class `is_superuser` counts for nothing: a superuser whose role is
      'user' cannot edit or delete somebody else's review; the newer class lets them. */
  lemma SuperuserOnlyInNewRevision(u: User, m: Method, author: UserId)
    requires m == PATCH || m == DELETE
    requires u.isSuperuser && u.role == "user" && u.id != author
    ensures ReviewAndCommentHasObjectPermission(Authenticated(u), m, author) == Deny
    ensures Authorize(ReviewAndCommentPermission, Authenticated(u), m, author) == Deny
    ensures Authorize(AuthorOrHasRoleOrReadOnly, Authenticated(u), m, author) == Allow
  {
  }

  /** The older class reads the role string where the newer one reads the flags: a user
      recorded with role 'moderator' but without the moderator flag is let through only
      by the older class. */
  lemma RoleStringOnlyInOldRevision(u: User, m: Method, author: UserId)
    requires m == PATCH || m == DELETE
    requires u.role == "moderator" && !u.isModerator && !u.isAdmin && !u.isSuperuser && u.id != author
    ensures Authorize(ReviewAndCommentPermission, Authenticated(u), m, author) == Allow
    ensures Authorize(AuthorOrHasRoleOrReadOnly, Authenticated(u), m, author) == Deny
  {
  }

  /** An author may PUT their own review under the newer class only. */
  lemma PutOnlyInNewRevision(u: User)
    ensures Authorize(ReviewAndCommentPermission, Authenticated(u), PUT, u.id) == Deny
    ensures Authorize(AuthorOrHasRoleOrReadOnly, Authenticated(u), PUT, u.id) == Allow
  {
  }

  /** An object-level POST by an ordinary user who is not the author passes only the
      older class (the newer one has no POST case of its own). */
  lemma PostOnObjectDiffers(u: User, author: UserId)
    requires !u.isSuperuser && !u.isAdmin && !u.isModerator && u.id != author
    ensures Authorize(ReviewAndCommentPermission, Authenticated(u), POST, author) == Allow
    ensures Authorize(AuthorOrHasRoleOrReadOnly, Authenticated(u), POST, author) == Deny
  {
  }

  /** A user whose flags say what its role says and who is not a superuser. */
  predicate FlagsMatchRole(u: User) {
    && !u.isSuperuser
    && (u.isAdmin <==> u.role == "admin")
    && (u.isModerator <==> u.role == "moderator")
  }

  /** Those are the only differences: for every actor whose flags match the role, and
      every method but PUT and POST, the two revisions decide alike. */
  lemma RevisionsAgreeOtherwise(a: Actor, m: Method, author: UserId)
    requires a.Authenticated? ==> FlagsMatchRole(a.user)
    requires m != PUT && m != POST
    ensures Authorize(ReviewAndCommentPermission, a, m, author)
              == Authorize(AuthorOrHasRoleOrReadOnly, a, m, author)
  {
  }
}
