/**
 * The views that change the store: sign-up, the caller's own record (`users/me`),
 * the administrators' update and delete of a user, the creation of reviews and
 * comments under their path parent, and a client of the token exchange. Each
 * runs in the framework's order: the permission check, the serializer's
 * validation, then the write.
 */
module Views {
  import opened Http
  import opened Accounts
  import opened Permissions
  import opened Titles
  import opened Feedback
  import opened Serializers
  import opened Store

  /** The actions of the user viewset. */
  datatype UserAction =
    | ListAction | CreateAction | RetrieveAction | UpdateAction | PartialUpdateAction | DestroyAction | MeAction
    | MetadataAction  // OPTIONS, which the framework answers on every route
    | UnboundAction   // a method the route does not bind

  /** The action the `users/me` route binds to each method: `me` for the methods the
      action lists (HEAD goes with GET), `metadata` for OPTIONS, none otherwise. */
  function MeRouteAction(m: Method): UserAction {
    match m
    case GET | HEAD | PATCH | DELETE => MeAction
    case OPTIONS => MetadataAction
    case POST | PUT => UnboundAction
  }

  /** `UserViewSet.get_permissions`. */
  function UserViewPermission(action: UserAction): PermissionClass {
    if action == MeAction then IsAuthenticated else AdminOnly
  }

  /** `users/me` is open to every authenticated user and to nobody else; every other
      user action, reads included, is for admins only. */
  lemma OnlyMeIsOpenToNonAdmins(action: UserAction, a: Actor, m: Method)
    ensures HasPermission(UserViewPermission(MeAction), a, m) <==> a.Authenticated?
    ensures action != MeAction ==>
              (HasPermission(UserViewPermission(action), a, m) <==> a.Authenticated? && a.user.isAdmin)
  {
  }

  /** `SignUpView.create`. A supplied, non-blank username that is already stored is
      answered from the stored record: 400 when a supplied, non-blank email differs
      from the stored one, 200 with the stored username and email otherwise, and
      nothing is created either way. Any other request goes through the serializer
      and, when it validates, creates exactly one user with the confirmation code
      `code`. Sending the code by mail is not modelled. */
  method SignUp(db: Database, username: Option<string>, email: Option<string>, code: string) returns (r: Result<Response>)
    requires db.Valid()
    modifies db
    ensures db.Valid()
    ensures db.titles == old(db.titles) && db.reviews == old(db.reviews) && db.comments == old(db.comments)
    ensures username.Some? && username.value != "" && username.value in old(db.users) ==>
              && db.users == old(db.users)
              && r == Ok(if email.Some? && email.value != "" && email.value != old(db.users)[username.value].email
                         then Response(StatusBadRequest, map[])
                         else Response(StatusOk, SignUpData(old(db.users)[username.value])))
    ensures !(username.Some? && username.value != "" && username.value in old(db.users)) ==>
              && (ValidateSignUp(old(db.users), username, email).Err? ==>
                    r == Err(ValidateSignUp(old(db.users), username, email).error) && db.users == old(db.users))
              && (ValidateSignUp(old(db.users), username, email).Ok? ==>
                    var u := User(old(db.nextId), username.value, email.value, "", "", "", DefaultRole,
                                  false, false, false, code);
                    && username.value !in old(db.users)
                    && db.users == old(db.users)[username.value := u]
                    && |db.users| == |old(db.users)| + 1
                    && r == Ok(Response(StatusOk, SignUpData(u))))
  {
    if username.Some? && username.value != "" && username.value in db.users {
      var user := db.users[username.value];
      if email.Some? && email.value != "" && user.email != email.value {
        return Ok(Response(StatusBadRequest, map[]));
      }
      return Ok(Response(StatusOk, SignUpData(user)));
    }
    var valid := ValidateSignUp(db.users, username, email);
    if valid.Err? {
      return Err(valid.error);
    }
    var u := db.InsertUser(valid.value.0, valid.value.1, code);
    r := Ok(Response(StatusOk, SignUpData(u)));
  }

  /** `UserViewSet.me`. GET returns the caller's record; PATCH saves a partial update in
      which the caller's current role replaces any role the request supplied; DELETE
      raises MethodNotAllowed and changes nothing. HEAD reaches the action too, but no
      branch of it matches, so the view returns nothing and the framework fails with a
      server error. The methods the action does not list fall back to the viewset's
      admin-only permission before anything else. */
  method Me(db: Database, a: Actor, m: Method, patch: UserPatch) returns (r: Result<Response>)
    requires db.Valid() && db.Authenticates(a)
    modifies db
    ensures db.Valid()
    ensures db.titles == old(db.titles) && db.reviews == old(db.reviews) && db.comments == old(db.comments)
    ensures m != PATCH || r.Err? ==> db.users == old(db.users)
    ensures a.Anonymous? ==> r == Err(PermissionDenied)
    ensures a.Authenticated? && m == GET ==> r == Ok(Response(StatusOk, UserData(a.user)))
    ensures a.Authenticated? && m == HEAD ==> r == Err(NoResponse)
    ensures a.Authenticated? && m == DELETE ==> r == Err(MethodNotAllowed)
    ensures a.Authenticated? && (m == OPTIONS || m == POST || m == PUT) ==>
              r == (if !a.user.isAdmin then Err(PermissionDenied)
                    else if m == OPTIONS then Ok(Response(StatusOk, map[]))
                    else Err(MethodNotAllowed))
    ensures a.Authenticated? && m == PATCH ==>
              var forced := patch.(role := Some(a.user.role));
              var updated := Patched(a.user, forced);
              && (ValidatePatch(old(db.users), a.user, forced).Err? ==> r == Err(ValidationError("username")))
              && (ValidatePatch(old(db.users), a.user, forced).Ok? ==>
                    && r == Ok(Response(StatusOk, UserData(updated)))
                    && db.users == (old(db.users) - {a.user.username})[updated.username := updated]
                    && db.users[updated.username].role == a.user.role)
  {
    if !HasPermission(UserViewPermission(MeRouteAction(m)), a, m) {
      return Err(PermissionDenied);
    }
    match m {
      case GET => r := Ok(Response(StatusOk, UserData(a.user)));
      case HEAD => r := Err(NoResponse);
      case OPTIONS => r := Ok(Response(StatusOk, map[]));
      case PATCH =>
        var forced := patch.(role := Some(a.user.role));
        var valid := ValidatePatch(db.users, a.user, forced);
        if valid.Err? {
          return Err(valid.error);
        }
        var updated := Patched(a.user, forced);
        db.ReplaceUser(a.user.username, updated);
        r := Ok(Response(StatusOk, UserData(updated)));
      case DELETE => r := Err(MethodNotAllowed);
      case POST => r := Err(MethodNotAllowed);
      case PUT => r := Err(MethodNotAllowed);
    }
  }

  /** A self-update through `users/me` never changes what any permission class decides
      for the caller: the key, the role and the privilege flags all stay. */
  lemma SelfUpdateKeepsPrivileges(u: User, patch: UserPatch, p: PermissionClass, m: Method, author: UserId)
    ensures var updated := Patched(u, patch.(role := Some(u.role)));
            && updated.role == u.role
            && Authorize(p, Authenticated(updated), m, author) == Authorize(p, Authenticated(u), m, author)
  {
  }

  /** `UserViewSet.update` (PUT) and `partial_update` (PATCH) on `users/{name}`, for
      admins: both save a partial update, role included; PATCH answers 200, PUT answers
      405 although the update was saved. */
  method UpdateUser(db: Database, a: Actor, m: Method, name: string, patch: UserPatch) returns (r: Result<Response>)
    requires db.Valid() && db.Authenticates(a)
    requires m == PUT || m == PATCH
    modifies db
    ensures db.Valid()
    ensures db.titles == old(db.titles) && db.reviews == old(db.reviews) && db.comments == old(db.comments)
    ensures r.Err? ==> db.users == old(db.users)
    ensures !(a.Authenticated? && a.user.isAdmin) ==> r == Err(PermissionDenied)
    ensures a.Authenticated? && a.user.isAdmin && name !in old(db.users) ==> r == Err(NotFound)
    ensures a.Authenticated? && a.user.isAdmin && name in old(db.users) ==>
              var current := old(db.users)[name];
              var updated := Patched(current, patch);
              && (ValidatePatch(old(db.users), current, patch).Err? ==> r == Err(ValidationError("username")))
              && (ValidatePatch(old(db.users), current, patch).Ok? ==>
                    && db.users == (old(db.users) - {name})[updated.username := updated]
                    && r == Ok(Response(if m == PUT then StatusMethodNotAllowed else StatusOk, UserData(updated))))
  {
    var action := if m == PUT then UpdateAction else PartialUpdateAction;
    if !HasPermission(UserViewPermission(action), a, m) {
      return Err(PermissionDenied);
    }
    if name !in db.users {
      return Err(NotFound);
    }
    var current := db.users[name];
    var valid := ValidatePatch(db.users, current, patch);
    if valid.Err? {
      return Err(valid.error);
    }
    var updated := Patched(current, patch);
    db.ReplaceUser(name, updated);
    r := Ok(Response(if m == PUT then StatusMethodNotAllowed else StatusOk, UserData(updated)));
  }

  /** `UserViewSet.destroy` on `users/{name}`, for admins: deletes the user with the
      cascade the models declare and answers 204. */
  method DestroyUser(db: Database, a: Actor, name: string) returns (r: Result<Response>)
    requires db.Valid() && db.Authenticates(a)
    modifies db
    ensures db.Valid()
    ensures db.titles == old(db.titles)
    ensures r.Err? ==> db.users == old(db.users) && db.reviews == old(db.reviews) && db.comments == old(db.comments)
    ensures !(a.Authenticated? && a.user.isAdmin) ==> r == Err(PermissionDenied)
    ensures a.Authenticated? && a.user.isAdmin && name !in old(db.users) ==> r == Err(NotFound)
    ensures a.Authenticated? && a.user.isAdmin && name in old(db.users) ==>
              && r == Ok(Response(StatusNoContent, map[]))
              && db.users == old(db.users) - {name}
              && db.reviews == ReviewsWithoutAuthor(old(db.reviews), old(db.users)[name].id)
              && db.comments == CommentsSurviving(old(db.comments), db.reviews, Some(old(db.users)[name].id))
  {
    if !HasPermission(UserViewPermission(DestroyAction), a, DELETE) {
      return Err(PermissionDenied);
    }
    if name !in db.users {
      return Err(NotFound);
    }
    db.DeleteUser(name);
    r := Ok(Response(StatusNoContent, map[]));
  }

  /** `ReviewViewSet.create` on `titles/{titleId}/reviews`: the permission check, the
      text and score fields, `ReviewSerializer.validate` (404, one review per title and
      author), then `perform_create`, which binds the author to the caller and the
      title to the path. `guard` is the viewset's permission class, which differs
      between the two revisions of the view. */
  method CreateReview(db: Database, guard: PermissionClass, a: Actor, titleId: TitleId, text: string, score: Option<int>)
    returns (r: Result<Review>)
    requires db.Valid() && db.Authenticates(a)
    requires guard == AuthorOrHasRoleOrReadOnly || guard == ReviewAndCommentPermission
    modifies db
    ensures db.Valid()
    ensures db.users == old(db.users) && db.titles == old(db.titles) && db.comments == old(db.comments)
    ensures r.Err? ==> db.reviews == old(db.reviews)
    ensures a.Anonymous? ==> r == Err(PermissionDenied)
    ensures a.Authenticated? ==>
              && (text == "" ==> r == Err(ValidationError("text")))
              && (text != "" && ValidateScore(score).Err? ==> r == Err(ValidationError("score")))
              && (text != "" && ValidateScore(score).Ok? ==>
                    var check := ValidateReview(old(db.titles), old(db.reviews), POST, titleId, a.user.id, ());
                    && (check.Err? ==> r == Err(check.error))
                    && (check.Ok? ==>
                          && r == Ok(Review(old(db.nextId), titleId, a.user.id, text, score.value, old(db.clock)))
                          && db.reviews == [r.value] + old(db.reviews)))
  {
    if !HasPermission(guard, a, POST) {
      return Err(PermissionDenied);
    }
    var validText := ValidateText(text);
    if validText.Err? {
      return Err(validText.error);
    }
    var validScore := ValidateScore(score);
    if validScore.Err? {
      return Err(validScore.error);
    }
    var check := ValidateReview(db.titles, db.reviews, POST, titleId, a.user.id, ());
    if check.Err? {
      return Err(check.error);
    }
    assert HasUserId(db.users, a.user.id) by {
      assert db.users[a.user.username].id == a.user.id;
    }
    var review := db.InsertReview(titleId, a.user.id, text, validScore.value);
    r := Ok(review);
  }

  /** `destroy` on `titles/{titleId}/reviews/{reviewId}`: the request check, the lookup
      in the title's queryset (404 for an absent title and for a review of another
      title), the object check against the review's author, then the delete, which
      takes the review's comments with it. */
  method DestroyReview(db: Database, guard: PermissionClass, a: Actor, titleId: TitleId, reviewId: nat)
    returns (r: Result<Response>)
    requires db.Valid() && db.Authenticates(a)
    requires guard == AuthorOrHasRoleOrReadOnly || guard == ReviewAndCommentPermission
    modifies db
    ensures db.Valid()
    ensures db.users == old(db.users) && db.titles == old(db.titles)
    ensures r.Err? ==> db.reviews == old(db.reviews) && db.comments == old(db.comments)
    ensures a.Anonymous? ==> r == Err(PermissionDenied)
    ensures a.Authenticated? ==>
              var found := FindReview(ReviewsOfTitle(old(db.reviews), titleId), reviewId);
              && (!HasTitle(old(db.titles), titleId) || found.None? ==> r == Err(NotFound))
              && (HasTitle(old(db.titles), titleId) && found.Some? ==>
                    if Authorize(guard, a, DELETE, found.value.authorId) == Allow
                    then && r == Ok(Response(StatusNoContent, map[]))
                         && db.reviews == ReviewsWithoutId(old(db.reviews), reviewId)
                         && db.comments == CommentsSurviving(old(db.comments), db.reviews, None)
                    else r == Err(PermissionDenied))
  {
    if !HasPermission(guard, a, DELETE) {
      return Err(PermissionDenied);
    }
    var queryset := ReviewQueryset(db.titles, db.reviews, titleId);
    if queryset.Err? {
      return Err(queryset.error);
    }
    var found := FindReview(queryset.value, reviewId);
    if found.None? {
      return Err(NotFound);
    }
    if HasObjectPermission(guard, a, DELETE, found.value.authorId) != Allow {
      return Err(PermissionDenied);
    }
    db.DeleteReview(reviewId);
    r := Ok(Response(StatusNoContent, map[]));
  }

  /** `CommentViewSet.create` on `.../reviews/{reviewId}/comments`: the permission check,
      the text field, then `perform_create`: 404 when the review is absent, otherwise a
      comment bound to the caller and to the path review. The title in the path is not
      consulted. `guard` is the viewset's permission class in either revision. */
  method CreateComment(db: Database, guard: PermissionClass, a: Actor, reviewId: nat, text: string) returns (r: Result<Comment>)
    requires db.Valid() && db.Authenticates(a)
    requires guard == AuthorOrHasRoleOrReadOnly || guard == ReviewAndCommentPermission
    modifies db
    ensures db.Valid()
    ensures db.users == old(db.users) && db.titles == old(db.titles) && db.reviews == old(db.reviews)
    ensures r.Err? ==> db.comments == old(db.comments)
    ensures a.Anonymous? ==> r == Err(PermissionDenied)
    ensures a.Authenticated? && text == "" ==> r == Err(ValidationError("text"))
    ensures a.Authenticated? && text != "" && !HasReviewId(old(db.reviews), reviewId) ==> r == Err(NotFound)
    ensures a.Authenticated? && text != "" && HasReviewId(old(db.reviews), reviewId) ==>
              && r == Ok(Comment(old(db.nextId), reviewId, a.user.id, text, old(db.clock)))
              && db.comments == [r.value] + old(db.comments)
  {
    if !HasPermission(guard, a, POST) {
      return Err(PermissionDenied);
    }
    var validText := ValidateText(text);
    if validText.Err? {
      return Err(validText.error);
    }
    if !HasReviewId(db.reviews, reviewId) {
      return Err(NotFound);
    }
    assert HasUserId(db.users, a.user.id) by {
      assert db.users[a.user.username].id == a.user.id;
    }
    var comment := db.InsertComment(reviewId, a.user.id, text);
    r := Ok(comment);
  }

  /** Two token requests in a row with the same username and code: the exchange leaves
      the store alone, so the code is not consumed and the second request succeeds or
      fails exactly as the first did. Each request mints its own token (`mint1`,
      `mint2`), so two successes may carry different tokens. */
  method ExchangeTokenTwice(db: Database, username: string, code: Option<string>,
                            mint1: UserId -> string, mint2: UserId -> string)
    returns (first: Result<map<string, string>>, second: Result<map<string, string>>)
    ensures first.Ok? <==> username in db.users && code == Some(db.users[username].confirmationCode)
    ensures first.Ok? <==> second.Ok?
    ensures first.Err? ==> second == first
    ensures second.Ok? ==> second.value == map["token" := mint2(db.users[username].id)]
    ensures second.Ok? ==> second.value.Keys == {"token"}
  {
    var s1 := new TokenSerializer();
    first := s1.Validate(db.users, username, code, mint1);
    var s2 := new TokenSerializer();
    second := s2.Validate(db.users, username, code, mint2);
  }
}
