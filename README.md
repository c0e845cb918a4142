# api_yamdb access control and validation, in Dafny

api_yamdb is a Django REST backend for a review site: users sign up and get a
confirmation code, exchange it for a token, and then read and write categories,
genres, titles, one review per user per title, and comments on reviews. This
project models the part of it that has a contract of its own:

- the permission classes, each as the pair of checks the framework runs
  (`has_permission` before the object is loaded, `has_object_permission` after),
  both revisions of the review and comment permission, and the differences
  between them;
- the serializers' validation rules: the reserved username `me`, sign-up
  fields, the username uniqueness of a user update, review text and score in
  [1, 10], one review per title and author on POST only, and the token exchange;
- the views that write: sign-up (idempotent for an existing username), the
  caller's own record at `users/me` (role forced unchanged, DELETE refused), the
  admins' update and delete of users, review and comment creation bound to the
  caller and to the path parent, and review deletion through both permission
  phases;
- the models' invariants: score bounds, cascading deletes, newest-first
  ordering, unique slugs with length limits, and `Genres.__str__`.

Modules, one per file: `Http` (methods, errors, responses), `Accounts` (users,
the actor, partial updates), `Sequences` (queryset filtering and the pairwise
orderings it keeps), `Permissions`, `PermissionRevisions`, `Catalog`
(categories and genres), `Titles`, `Feedback` (reviews and comments),
`Serializers`, `Store` (the relational store as a class whose methods keep its
invariant) and `Views`.

A has_object_permission call can return True, return False, or raise
`AttributeError`, because the anonymous user object has no `role`, `is_admin`
or `is_moderator`. `Permissions.Authorize` runs both phases in order and is
proved never to raise: every class whose object check could raise refuses the
anonymous caller first.

Behaviour of the code worth knowing, which the model keeps:

- DELETE on `users/{username}` deletes the user (the viewset is a full
  `ModelViewSet`).
- PUT on `users/{username}` saves the update and then answers 405.
- The older review permission ignores `is_superuser` and refuses PUT.
- On `users/me`, OPTIONS, POST and PUT are checked against the admin-only
  class, because the framework binds no `me` action to them.
- HEAD on `users/me` reaches the `me` action, which has no branch for it and
  returns nothing; the framework then fails with a server error
  (`NoResponse` in the model).

## Model

| member | source | states |
|---|---|---|
| Accounts.Patched | api_yamdb/api/views.py:99-109 | a partial update writes every supplied field, keeps every field not supplied, and never touches the key, the confirmation code or the privilege flags |
| Sequences.Filter | api_yamdb/api_yamdb/api/views.py:29-32 | a filtered queryset holds exactly the rows that satisfy the condition, and is no longer than the table |
| Sequences.FilterKeepsPairwise | api_yamdb/api_yamdb/reviews/models.py:39-40 | filtering a table keeps every pairwise ordering of it, newest-first included |
| Permissions.Authorize | api_yamdb/api/permissions.py:5-51 | running the request check and then the object check never raises, and granting implies the request check passed |
| Permissions.SafeMethodsAlwaysPass | api_yamdb/api/permissions.py:5-13 | every read passes AdminOrReadOnly and AuthorOrHasRoleOrReadOnly in both phases, and every class but AdminOnly and IsAuthenticated, for any actor |
| Permissions.AdminOrReadOnlyWrites | api_yamdb/api/permissions.py:6-12 | an unsafe method passes iff the actor is authenticated and admin or superuser; anonymous never passes |
| Permissions.AdminOnlyIgnoresMethod | api_yamdb/api/permissions.py:24-28 | the request check is authenticated-and-admin for every method; a superuser who is not admin fails it yet passes the object check |
| Permissions.AdminOnlyObjectRule | api_yamdb/api/permissions.py:30-34 | the object check grants exactly superusers and admins |
| Permissions.AuthorOrHasRoleOrReadOnlyRequestRule | api_yamdb/api/permissions.py:38-42 | the request check passes iff the method is safe or the actor is authenticated |
| Permissions.AuthorOrHasRoleOrReadOnlyObjectRule | api_yamdb/api/permissions.py:44-51 | the author passes both phases for every method; a non-author writes iff superuser, admin or moderator |
| Permissions.ReviewAndCommentRefusesPut | api_yamdb/api/permissions.py:65-76 | PUT is refused at the object phase and overall, to everyone |
| Permissions.ReviewAndCommentEditRule | api_yamdb/api/permissions.py:70-75 | PATCH and DELETE pass iff the role is 'admin' or 'moderator' or the actor is the author |
| Permissions.AnonymousNeverWrites | api_yamdb/api/permissions.py:38-42 | no class but AllowAny lets an anonymous caller use an unsafe method, and the refusal is a denial, never an error |
| PermissionRevisions.OldRequestPhase | api_yamdb/api_yamdb/api/permissions.py:10-13 | the request check passes iff the method is safe or the user is authenticated, as in the newer class |
| PermissionRevisions.OldObjectReadsAndPosts | api_yamdb/api_yamdb/api/permissions.py:15-19 | reads always pass the object check; POST passes it iff the user is authenticated |
| PermissionRevisions.SuperuserOnlyInNewRevision | api_yamdb/api_yamdb/api/permissions.py:20-25 | a superuser with role 'user' who is not the author is refused PATCH and DELETE by the older class and granted by the newer |
| PermissionRevisions.RoleStringOnlyInOldRevision | api_yamdb/api_yamdb/api/permissions.py:20-25 | a user with role 'moderator' but no moderator flag may edit others' reviews only under the older class |
| PermissionRevisions.PutOnlyInNewRevision | api_yamdb/api_yamdb/api/permissions.py:26 | the author's PUT is refused by the older class and granted by the newer |
| PermissionRevisions.PostOnObjectDiffers | api_yamdb/api_yamdb/api/permissions.py:18-19 | an object-level POST by an ordinary non-author passes only the older class |
| PermissionRevisions.RevisionsAgreeOtherwise | api_yamdb/api_yamdb/api/permissions.py:15-26 | for users whose flags match their role, and every method but PUT and POST, both classes decide alike |
| Catalog.CheckEntry | api_yamdb/reviews/models.py:4-13 | an entry is accepted iff its name has 1 to 256 characters, its slug 1 to 50 slug characters, and the slug is not taken; a taken slug is a validation error on 'slug' |
| Catalog.GenreStringIsName | api_yamdb/reviews/models.py:34-35 | a genre's string form is its name |
| Catalog.Catalog.CreateCategory | api_yamdb/reviews/models.py:4-13 | a category is stored under its slug when the checks pass; otherwise the table is unchanged and the error returned |
| Catalog.Catalog.DeleteCategory | api_yamdb/reviews/models.py:9-13 | an absent slug is NotFound; otherwise exactly that category is removed |
| Catalog.Catalog.CreateGenre | api_yamdb/reviews/models.py:19-28 | a genre is stored under its slug when the checks pass; otherwise the table is unchanged and the error returned |
| Catalog.Catalog.DeleteGenre | api_yamdb/reviews/models.py:24-28 | an absent slug is NotFound; otherwise exactly that genre is removed |
| Catalog.SlugsUnique | api_yamdb/reviews/models.py:5-28 | in a valid catalog no two categories and no two genres share a slug, and every slug and name is within its limit |
| Titles.TitlesWithout | api_yamdb/api/views.py:157-163 | deleting a title leaves exactly the other titles |
| Titles.InsertByName | api_yamdb/api/views.py:157-160 | inserting into a name-ordered listing keeps it ordered and adds exactly that title |
| Titles.OrderByName | api_yamdb/api_yamdb/api/views.py:18-20 | the title listing is ordered by name and is a permutation of the stored titles |
| Titles.ReadsNestedWritesFlat | api_yamdb/api/views.py:165-168 | list and retrieve, and only they, use the nested serializer; every write uses the slug serializer |
| Feedback.DefaultScoreIsInvalid | api_yamdb/api_yamdb/reviews/models.py:31-37 | the column default 0 is outside the validated range, whose ends are 1 and 10 |
| Feedback.FindReview | api_yamdb/api_yamdb/api/views.py:46-49 | a review with the key is found iff one is stored, and what is found is stored with that key |
| Feedback.OneReviewPerTitleAndAuthor | api_yamdb/api_yamdb/api/serializers.py:22-25 | a well-formed review table holds at most one review per title and author |
| Feedback.ReviewsOfTitle | api_yamdb/api_yamdb/api/views.py:29-32 | exactly the title's reviews, still newest first |
| Feedback.CommentsOfReview | api_yamdb/api_yamdb/api/views.py:46-49 | exactly the review's comments, still newest first |
| Feedback.ReviewQueryset | api_yamdb/api_yamdb/api/views.py:29-32 | NotFound iff the title is absent; otherwise exactly its reviews, newest first |
| Feedback.CommentQueryset | api_yamdb/api_yamdb/api/views.py:46-49 | NotFound iff the review is absent; otherwise exactly its comments, newest first |
| Feedback.ReviewsWithoutTitle | api_yamdb/api_yamdb/reviews/models.py:19-23 | deleting a title leaves exactly the reviews of other titles, in order |
| Feedback.ReviewsWithoutId | api_yamdb/api_yamdb/api/views.py:23-32 | deleting a review leaves exactly the other reviews, in order |
| Feedback.ReviewsWithoutAuthor | api_yamdb/api_yamdb/reviews/models.py:24-26 | deleting a user leaves exactly the reviews by others, in order |
| Feedback.CommentsSurviving | api_yamdb/api_yamdb/reviews/models.py:49-58 | a comment survives iff its review survives and its author was not deleted, in order |
| Feedback.ScoreSumBounds | api_yamdb/api_yamdb/reviews/models.py:31-37 | the sum of n valid scores lies between n and 10n |
| Feedback.Rating | api_yamdb/api/serializers.py:114-116 | a title has no rating iff it has no review, and its rating lies in [1, 10] when every score is valid |
| Serializers.ValidateUsername | api_yamdb/api/serializers.py:16-21 | refuses exactly "me" and returns every other username unchanged |
| Serializers.OnlyLowerCaseMeIsReserved | api_yamdb/api/serializers.py:17 | "me" fails while "Me", "ME" and "me2" pass |
| Serializers.ValidateSignUp | api_yamdb/api/serializers.py:11-21 | sign-up validates iff the username is given, non-blank, free and not "me", and the email is given and non-blank |
| Serializers.SignUpAsMeFails | api_yamdb/api/serializers.py:16-21 | signing up as "me" fails whatever the email |
| Serializers.ValidatePatch | api_yamdb/api/serializers.py:74-81 | an update validates iff a supplied username is non-blank and free or the user's own; the data come back unchanged |
| Serializers.ValidateText | api_yamdb/api_yamdb/api/serializers.py:28-30 | review text validates iff non-blank |
| Serializers.ValidateScore | api_yamdb/api_yamdb/api/serializers.py:15 | a score validates iff supplied and in [1, 10] |
| Serializers.ScoreBoundaries | api_yamdb/api/serializers.py:147 | 0 and 11 fail, 1 and 10 pass, a missing score and the column default fail |
| Serializers.ValidateReview | api_yamdb/api/serializers.py:149-158 | NotFound iff the title is absent; a validation error iff the title exists, the method is POST and the requester already reviewed it; otherwise the data unchanged |
| Serializers.DuplicateCheckScopedByAuthor | api_yamdb/api_yamdb/api/serializers.py:19-23 | other authors' reviews of the title do not stop a first review |
| Serializers.DuplicateCheckOnlyOnPost | api_yamdb/api_yamdb/api/serializers.py:22 | any method but POST validates for an existing title |
| Serializers.TokenSerializer.Validate | api_yamdb/api/serializers.py:46-71 | NotFound for an unknown username before any code check; a validation error iff the code differs; otherwise a map whose only key is 'token' |
| Store.Database.AddTitle | api_yamdb/api_yamdb/reviews/models.py:12-14 | a title is stored under a fresh key and nothing else changes |
| Store.Database.InsertUser | api_yamdb/api/serializers.py:23-24 | a new user gets a fresh key, role 'user', no privilege flags and the given code; nothing else changes |
| Store.Database.ReplaceUser | api_yamdb/api/views.py:109 | the user's record is replaced under its possibly new username and nothing else changes |
| Store.Database.InsertReview | api_yamdb/api_yamdb/api/views.py:34-37 | the review is put first with a fresh key and the latest date, keeping one review per title and author |
| Store.Database.InsertComment | api_yamdb/api_yamdb/api/views.py:51-54 | the comment is put first with a fresh key and the latest date |
| Store.Database.DeleteTitle | api_yamdb/api_yamdb/reviews/models.py:19-23 | the title, its reviews and their comments go; users stay |
| Store.Database.DeleteReview | api_yamdb/api_yamdb/reviews/models.py:54-58 | the review and its comments go; users and titles stay |
| Store.Database.DeleteUser | api_yamdb/api_yamdb/reviews/models.py:24-53 | the user, their reviews and comments, and the comments on their reviews go; titles stay |
| Views.OnlyMeIsOpenToNonAdmins | api_yamdb/api/views.py:131-134 | the `me` action admits exactly authenticated users; every other user action admits exactly authenticated admins |
| Views.SignUp | api_yamdb/api/views.py:42-63 | an existing username answers 400 on a different email and 200 with the stored data otherwise, creating nothing; a new one validates and creates exactly one user |
| Views.Me | api_yamdb/api/views.py:93-117 | GET returns the caller's record; HEAD gets no response (a server error); PATCH saves the update with the caller's role kept; DELETE is MethodNotAllowed and changes nothing; anonymous callers are refused |
| Views.SelfUpdateKeepsPrivileges | api_yamdb/api/views.py:99-102 | a self-update keeps the role and changes no permission decision for the caller |
| Views.UpdateUser | api_yamdb/api/views.py:119-129 | admins only; 404 for an unknown user; a valid update is saved and answered 405 for PUT and 200 for PATCH |
| Views.DestroyUser | api_yamdb/api/views.py:82-91 | admins only; 404 for an unknown user; otherwise the user, their reviews, their comments and the comments on their reviews are deleted, every other comment stays, answering 204 |
| Views.CreateReview | api_yamdb/api/views.py:182-185 | anonymous callers are refused; then text, score and the review rules; a created review has the caller as author and the path title |
| Views.DestroyReview | api_yamdb/api_yamdb/api/views.py:29-32 | 404 for an absent title or a review outside it; otherwise deleted with its comments iff both permission phases grant |
| Views.CreateComment | api_yamdb/api/views.py:199-202 | anonymous callers are refused; blank text fails; 404 for an absent review; otherwise the caller is author and the path review the parent |
| Views.ExchangeTokenTwice | api_yamdb/api/serializers.py:62-71 | two exchanges with the same code succeed or fail alike (a failure repeats exactly, a success again yields only a 'token'), so the code is never used up |

## Left out

- Email delivery of the confirmation code (`email_user`) and the generation of
  the code are external; the code is a parameter of `Views.SignUp`.
- JWT minting is the parameter `mint` of the token exchange.
- `authenticate()` is modelled as the lookup of the username. Which
  authentication backends are configured is not part of this model; Django's
  default backend, which needs a password, would find nobody.
- `Serializers.TokenSerializer.Validate`: the serializer's `confirmation_code`
  field comes from the user model, which is not part of this model. If that
  field is optional, a request without the key raises a KeyError in the source;
  if it is required, field validation answers 400 first. The model treats a
  missing code as a code that matches nothing, a validation error, which agrees
  with the required-field case only.
- The rating is the integer quotient of the score sum by the count, which is the
  mean cut to an integer for positive scores; database floating point is not
  modelled.
- URL routing, the admin site, the filter and search backends, and the nested
  and slug-related rendering of titles are not modelled; the choice of title
  serializer is.
- `SignUpView.retrieve` only re-sends mail and is left out.
- The title model itself is not part of this model: titles have a key and a
  name only, so the year, description, category (and its SET_NULL on category
  deletion) and genres are left out.
- The user model is not part of this model: `is_admin` and `is_moderator` are
  recorded flags, the role is any string, and username format and email
  uniqueness are not checked.
- Publication dates come from a logical clock that each insert advances, not a
  wall clock.
- Text fields are not whitespace-trimmed; blank means empty.
- When several fields fail at once, only the first is reported: review text
  before score, in `Serializers.ValidateSignUp` username before email, in
  `Catalog.CheckEntry` name before slug. The framework reports every failing
  field.
- Serializers.ValidateSignUp: the email is assumed required and accepted when
  non-blank; the email format check of Django's email field is not modelled.
- Titles.OrderByName: names are ordered by code point; the database
  collation that `order_by('name')` really follows is not modelled.
- Views.ExchangeTokenTwice: each exchange mints its token through its own
  function, so the model does not say what the token contains beyond its key.
- Views.Me, Views.UpdateUser, Views.DestroyUser, Views.CreateReview,
  Views.CreateComment, Views.DestroyReview: every view reports the framework's
  401 for an anonymous caller (no authenticator succeeded) as PermissionDenied.
- Update of a review or comment by its author, and comment deletion, are left
  out; their permission decisions are stated in `Permissions` and
  `PermissionRevisions`, and their validation in
  `Serializers.DuplicateCheckOnlyOnPost`.
- Category, genre and title views are represented by their permission class
  (`AdminOrReadOnly`) and the catalog tables; the view methods themselves are not
  modelled.
- Concurrency: the model is sequential, and uniqueness is an invariant of the
  store.
