/**
 * The validation rules the serializers apply before a view writes anything:
 * the reserved username, the sign-up fields, a user update's unique username,
 * the review fields (text, score in [1, 10]), the one-review-per-title rule,
 * and the token exchange.
 */
module Serializers {
  import opened Http
  import opened Accounts
  import opened Titles
  import opened Feedback

  /** The username that stands for the caller in the `users/me` route. */
  const ReservedUsername: string := "me"

  /** `SignUpSerializer.validate_username`: refuses exactly "me", case-sensitively,
      and hands every other username back as it came. */
  function ValidateUsername(username: string): (r: Result<string>)
    ensures r.Ok? <==> username != ReservedUsername
    ensures r.Ok? ==> r.value == username
    ensures r.Err? ==> r.error == ValidationError("username")
  {
    if username == ReservedUsername then Err(ValidationError("username")) else Ok(username)
  }

  /** Only the exact lower-case word is reserved. */
  lemma OnlyLowerCaseMeIsReserved()
    ensures ValidateUsername("me").Err?
    ensures ValidateUsername("Me") == Ok("Me") && ValidateUsername("ME") == Ok("ME")
    ensures ValidateUsername("me2") == Ok("me2")
  {
  }

  /** SignUpSerializer's checks of a new user: a non-blank username that is not taken
      and not reserved, then a non-blank email. Yields the (username, email) to create. */
  function ValidateSignUp(users: map<string, User>, username: Option<string>, email: Option<string>): (r: Result<(string, string)>)
    ensures r.Ok? <==>
              && username.Some? && username.value != "" && username.value !in users
              && username.value != ReservedUsername
              && email.Some? && email.value != ""
    ensures r.Ok? ==> r.value == (username.value, email.value)
    ensures r.Err? ==> r.error.ValidationError?
  {
    if username.None? || username.value == "" || username.value in users then Err(ValidationError("username"))
    else
      match ValidateUsername(username.value)
      case Err(e) => Err(e)
      case Ok(name) =>
        if email.None? || email.value == "" then Err(ValidationError("email"))
        else Ok((name, email.value))
  }

  /** Signing up as "me" always fails, whatever else is sent. */
  lemma SignUpAsMeFails(users: map<string, User>, email: Option<string>)
    ensures ValidateSignUp(users, Some(ReservedUsername), email) == Err(ValidationError("username"))
  {
  }

  /** UserSerializer's check of a partial update of `current`: a supplied username must
      not be blank nor belong to another user (the uniqueness validator leaves the
      instance itself out). Nothing else about the fields is checked. */
  function ValidatePatch(users: map<string, User>, current: User, p: UserPatch): (r: Result<UserPatch>)
    ensures r.Ok? <==>
              (p.username.Some? ==>
                 p.username.value != "" && (p.username.value !in users || users[p.username.value].id == current.id))
    ensures r.Ok? ==> r.value == p
    ensures r.Err? ==> r.error == ValidationError("username")
  {
    if p.username.Some? &&
       (p.username.value == "" || (p.username.value in users && users[p.username.value].id != current.id))
    then Err(ValidationError("username"))
    else Ok(p)
  }

  /** A review's `text`: required and not blank. */
  function ValidateText(text: string): (r: Result<string>)
    ensures r.Ok? <==> text != ""
    ensures r.Ok? ==> r.value == text
    ensures r.Err? ==> r.error == ValidationError("text")
  {
    if text == "" then Err(ValidationError("text")) else Ok(text)
  }

  /** A review's `score`: `IntegerField(max_value=10, min_value=1)`, required. */
  function ValidateScore(score: Option<int>): (r: Result<int>)
    ensures r.Ok? <==> score.Some? && ValidScore(score.value)
    ensures r.Ok? ==> r.value == score.value
    ensures r.Err? ==> r.error == ValidationError("score")
  {
    if score.Some? && MinScore <= score.value && score.value <= MaxScore then Ok(score.value)
    else Err(ValidationError("score"))
  }

  /** The score boundaries: 0 and 11 fail, 1 and 10 pass; a missing score fails too,
      since the field is required and does not fall back on the column default. */
  lemma ScoreBoundaries()
    ensures ValidateScore(Some(0)).Err? && ValidateScore(Some(11)).Err?
    ensures ValidateScore(Some(1)) == Ok(1) && ValidateScore(Some(10)) == Ok(10)
    ensures ValidateScore(None).Err? && ValidateScore(Some(DefaultScore)).Err?
  {
  }

  /** `ReviewSerializer.validate`: 404 when the path title is absent; on POST only, a
      validation error when the requester already reviewed the title; otherwise the
      data come back unchanged. */
  function ValidateReview<T>(titles: seq<Title>, rs: seq<Review>, m: Method, titleId: TitleId, author: UserId, data: T): (r: Result<T>)
    ensures r == Err(NotFound) <==> !HasTitle(titles, titleId)
    ensures r.Err? && r.error.ValidationError? <==>
              HasTitle(titles, titleId) && m == POST && HasReviewBy(rs, titleId, author)
    ensures r.Err? ==> r.error == NotFound || r.error.ValidationError?
    ensures r.Ok? ==> r.value == data
  {
    if !HasTitle(titles, titleId) then Err(NotFound)
    else if m == POST && HasReviewBy(rs, titleId, author) then Err(ValidationError("non_field_errors"))
    else Ok(data)
  }

  /** The duplicate check is scoped by author: another user's review of the same title
      does not stop a first review. */
  lemma DuplicateCheckScopedByAuthor<T>(titles: seq<Title>, rs: seq<Review>, titleId: TitleId, author: UserId, data: T)
    requires HasTitle(titles, titleId)
    requires forall x :: x in rs && x.titleId == titleId ==> x.authorId != author
    ensures ValidateReview(titles, rs, POST, titleId, author, data) == Ok(data)
  {
  }

  /** Only POST runs the duplicate check: an update of one's own review validates. */
  lemma DuplicateCheckOnlyOnPost<T>(titles: seq<Title>, rs: seq<Review>, m: Method, titleId: TitleId, author: UserId, data: T)
    requires HasTitle(titles, titleId) && m != POST
    ensures ValidateReview(titles, rs, m, titleId, author, data) == Ok(data)
  {
  }

  /**
   * TokenSerializer: exchanges a username and a confirmation code for an access
   * token. `user` is the serializer's own `self.user`. `authenticate()` is the
   * lookup of the username among `users`; the minting of the access token is the
   * parameter `mint`.
   */
  class TokenSerializer {
    var user: Option<User>

    constructor ()
      ensures user == None
    {
      user := None;
    }

    /** `validate`: NotFound when no user has the username, checked before any code;
        a validation error when the stored code differs from the presented one (None:
        the request carried none); otherwise exactly one key, 'token'. */
    method Validate(users: map<string, User>, username: string, presented: Option<string>, mint: UserId -> string)
      returns (r: Result<map<string, string>>)
      modifies this
      ensures user == (if username in users then Some(users[username]) else None)
      ensures username !in users ==> r == Err(NotFound)
      ensures username in users && presented != Some(users[username].confirmationCode) ==>
                r == Err(ValidationError("confirmation_code"))
      ensures username in users && presented == Some(users[username].confirmationCode) ==>
                r == Ok(map["token" := mint(users[username].id)])
      ensures r.Ok? ==> r.value.Keys == {"token"}
    {
      user := if username in users then Some(users[username]) else None;
      if user.None? {
        return Err(NotFound);
      }
      if presented != Some(user.value.confirmationCode) {
        return Err(ValidationError("confirmation_code"));
      }
      r := Ok(map["token" := mint(user.value.id)]);
    }
  }
}
