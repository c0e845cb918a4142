/**
 * The identity store's records. The user model class itself is not part of this
 * model (the repository only has a stub for it); its fields here are exactly the
 * ones the permission classes, serializers and views read or write.
 */
module Accounts {
  import opened Http

  type UserId = nat

  /** A stored user. `isAdmin` and `isModerator` are the model's `is_admin` and
      `is_moderator`, kept as recorded flags because their definition is not shown. */
  datatype User = User(
    id: UserId,
    username: string,
    email: string,
    firstName: string,
    lastName: string,
    bio: string,
    role: string,
    isAdmin: bool,
    isModerator: bool,
    isSuperuser: bool,
    confirmationCode: string)

  /** `request.user`: the anonymous user object, or a stored user the authentication loaded. */
  datatype Actor = Anonymous | Authenticated(user: User)

  /** `request.user.is_superuser`, which the anonymous user object also has (always false). */
  predicate IsSuperuser(a: Actor) {
    a.Authenticated? && a.user.isSuperuser
  }

  /** `obj.author == request.user`: model instances are equal when their primary keys are,
      and the anonymous user object equals no stored user. */
  predicate IsAuthor(a: Actor, author: UserId) {
    a.Authenticated? && a.user.id == author
  }

  /** The role a newly created user starts with. */
  const DefaultRole: string := "user"

  /** The fields UserSerializer writes ('username', 'email', 'first_name', 'last_name',
      'bio', 'role'); None is a field the request did not supply. */
  datatype UserPatch = UserPatch(
    username: Option<string>,
    email: Option<string>,
    firstName: Option<string>,
    lastName: Option<string>,
    bio: Option<string>,
    role: Option<string>)

  function Pick(field: Option<string>, current: string): string {
    if field.Some? then field.value else current
  }

  /** A partial update saved through UserSerializer: supplied fields replace the stored ones. */
  function Patched(u: User, p: UserPatch): (r: User)
    ensures r.id == u.id && r.confirmationCode == u.confirmationCode
    ensures r.isAdmin == u.isAdmin && r.isModerator == u.isModerator && r.isSuperuser == u.isSuperuser
    ensures r.username == (if p.username.Some? then p.username.value else u.username)
    ensures r.email == (if p.email.Some? then p.email.value else u.email)
    ensures r.firstName == (if p.firstName.Some? then p.firstName.value else u.firstName)
    ensures r.lastName == (if p.lastName.Some? then p.lastName.value else u.lastName)
    ensures r.bio == (if p.bio.Some? then p.bio.value else u.bio)
    ensures r.role == (if p.role.Some? then p.role.value else u.role)
  {
    u.(username := Pick(p.username, u.username),
       email := Pick(p.email, u.email),
       firstName := Pick(p.firstName, u.firstName),
       lastName := Pick(p.lastName, u.lastName),
       bio := Pick(p.bio, u.bio),
       role := Pick(p.role, u.role))
  }

  /** UserSerializer's representation of a user. */
  function UserData(u: User): map<string, string> {
    map["username" := u.username, "email" := u.email, "first_name" := u.firstName,
        "last_name" := u.lastName, "bio" := u.bio, "role" := u.role]
  }

  /** SignUpSerializer's representation of a user. */
  function SignUpData(u: User): map<string, string> {
    map["username" := u.username, "email" := u.email]
  }

  /** The user table, keyed by the unique username: every key is its record's username,
      every id is below the next id to hand out, and no two records share an id. */
  ghost predicate UsersWellFormed(users: map<string, User>, nextId: nat) {
    && (forall n :: n in users ==> users[n].username == n && users[n].id < nextId)
    && (forall n, k :: n in users && k in users && users[n].id == users[k].id ==> n == k)
  }

  /** Some stored user has primary key `id`. */
  predicate HasUserId(users: map<string, User>, id: UserId) {
    exists n :: n in users && users[n].id == id
  }

  /** Removing a user keeps the table well formed, and every other user's key is still found. */
  lemma RemoveUserKeepsOthers(users: map<string, User>, nextId: nat, name: string)
    requires UsersWellFormed(users, nextId) && name in users
    ensures UsersWellFormed(users - {name}, nextId)
    ensures forall id :: HasUserId(users, id) && id != users[name].id ==> HasUserId(users - {name}, id)
  {
    forall id | HasUserId(users, id) && id != users[name].id ensures HasUserId(users - {name}, id) {
      var n :| n in users && users[n].id == id;
      assert (users - {name})[n] == users[n];
    }
  }
}
