/**
 * The relational store the views write through: users keyed by their unique
 * username, titles, and the review and comment tables kept newest first. Primary
 * keys come from one counter and publication dates from a logical clock, both
 * only ever increasing. Deletes cascade as the models declare: a title takes its
 * reviews, a review its comments, a user the reviews and comments they wrote.
 */
module Store {
  import opened Http
  import opened Accounts
  import opened Sequences
  import opened Titles
  import opened Feedback

  class Database {
    var users: map<string, User>
    var titles: seq<Title>
    var reviews: seq<Review>
    var comments: seq<Comment>
    var nextId: nat
    var clock: nat

    /** The tables are each well formed and every foreign key points at a stored row. */
    ghost predicate Valid()
      reads this
    {
      && UsersWellFormed(users, nextId)
      && (forall t :: t in titles ==> t.id < nextId)
      && ReviewTableOk(reviews, nextId, clock)
      && CommentTableOk(comments, nextId, clock)
      && (forall r :: r in reviews ==> HasTitle(titles, r.titleId) && HasUserId(users, r.authorId))
      && (forall c :: c in comments ==> HasReviewId(reviews, c.reviewId) && HasUserId(users, c.authorId))
    }

    /** The authentication layer hands the views either the anonymous user or a stored user as it is stored. */
    ghost predicate Authenticates(a: Actor)
      reads this
    {
      a.Authenticated? ==> a.user.username in users && users[a.user.username] == a.user
    }

    constructor ()
      ensures Valid()
      ensures users == map[] && titles == [] && reviews == [] && comments == []
    {
      users, titles, reviews, comments := map[], [], [], [];
      nextId, clock := 1, 0;
    }

    /** Saves a new title under a fresh key. */
    method AddTitle(name: string) returns (t: Title)
      requires Valid()
      modifies this
      ensures Valid()
      ensures t == Title(old(nextId), name) && !HasTitle(old(titles), t.id)
      ensures titles == [t] + old(titles)
      ensures users == old(users) && reviews == old(reviews) && comments == old(comments)
    {
      t := Title(nextId, name);
      titles := [t] + titles;
      nextId := nextId + 1;
      forall r | r in reviews ensures HasTitle(titles, r.titleId) {
        var w :| w in old(titles) && w.id == r.titleId;
        assert w in titles;
      }
    }

    /** `User.objects.create_user`: a new user with the default role, no privilege and the
        confirmation code the model generated (`code`). */
    method InsertUser(username: string, email: string, code: string) returns (u: User)
      requires Valid() && username !in users
      modifies this
      ensures Valid()
      ensures u == User(old(nextId), username, email, "", "", "", DefaultRole, false, false, false, code)
      ensures users == old(users)[username := u]
      ensures titles == old(titles) && reviews == old(reviews) && comments == old(comments)
    {
      u := User(nextId, username, email, "", "", "", DefaultRole, false, false, false, code);
      users := users[username := u];
      nextId := nextId + 1;
      forall id | HasUserId(old(users), id) ensures HasUserId(users, id) {
        var n :| n in old(users) && old(users)[n].id == id;
        assert users[n] == old(users)[n];
      }
    }

    /** `serializer.save()` on a user: the record stored under `name` is replaced by `u`,
        which keeps its key and may carry a new, free username. */
    method ReplaceUser(name: string, u: User)
      requires Valid() && name in users && u.id == users[name].id
      requires u.username == name || u.username !in users
      modifies this
      ensures Valid()
      ensures users == (old(users) - {name})[u.username := u]
      ensures titles == old(titles) && reviews == old(reviews) && comments == old(comments)
    {
      users := (users - {name})[u.username := u];
      forall id | HasUserId(old(users), id) ensures HasUserId(users, id) {
        var n :| n in old(users) && old(users)[n].id == id;
        if n == name || n == u.username {
          assert users[u.username].id == id;
        } else {
          assert users[n] == old(users)[n];
        }
      }
    }

    /** Saves a review bound to a stored title and author, newest first. */
    method InsertReview(titleId: TitleId, authorId: UserId, text: string, score: int) returns (r: Review)
      requires Valid()
      requires HasTitle(titles, titleId) && HasUserId(users, authorId)
      requires ValidScore(score) && !HasReviewBy(reviews, titleId, authorId)
      modifies this
      ensures Valid()
      ensures r == Review(old(nextId), titleId, authorId, text, score, old(clock))
      ensures reviews == [r] + old(reviews)
      ensures users == old(users) && titles == old(titles) && comments == old(comments)
    {
      r := Review(nextId, titleId, authorId, text, score, clock);
      PrependKeepsPairwise(r, reviews, ReviewBefore);
      reviews := [r] + reviews;
      nextId, clock := nextId + 1, clock + 1;
      forall c | c in comments ensures HasReviewId(reviews, c.reviewId) {
        var w :| w in old(reviews) && w.id == c.reviewId;
        assert w in reviews;
      }
    }

    /** Saves a comment bound to a stored review and author, newest first. */
    method InsertComment(reviewId: nat, authorId: UserId, text: string) returns (c: Comment)
      requires Valid()
      requires HasReviewId(reviews, reviewId) && HasUserId(users, authorId)
      modifies this
      ensures Valid()
      ensures c == Comment(old(nextId), reviewId, authorId, text, old(clock))
      ensures comments == [c] + old(comments)
      ensures users == old(users) && titles == old(titles) && reviews == old(reviews)
    {
      c := Comment(nextId, reviewId, authorId, text, clock);
      PrependKeepsPairwise(c, comments, CommentBefore);
      comments := [c] + comments;
      nextId, clock := nextId + 1, clock + 1;
    }

    /** Deletes a title; its reviews go with it, and their comments with them. */
    method DeleteTitle(id: TitleId)
      requires Valid()
      modifies this
      ensures Valid()
      ensures titles == TitlesWithout(old(titles), id)
      ensures reviews == ReviewsWithoutTitle(old(reviews), id)
      ensures comments == CommentsSurviving(old(comments), reviews, None)
      ensures forall r :: r in reviews <==> r in old(reviews) && r.titleId != id
      ensures forall c :: c in comments <==> c in old(comments) && HasReviewId(reviews, c.reviewId)
      ensures users == old(users)
    {
      titles := TitlesWithout(titles, id);
      reviews := ReviewsWithoutTitle(reviews, id);
      comments := CommentsSurviving(comments, reviews, None);
      forall r | r in reviews ensures HasTitle(titles, r.titleId) {
        var w :| w in old(titles) && w.id == r.titleId;
        assert w in titles;
      }
    }

    /** Deletes a review; its comments go with it. */
    method DeleteReview(id: nat)
      requires Valid()
      modifies this
      ensures Valid()
      ensures reviews == ReviewsWithoutId(old(reviews), id)
      ensures comments == CommentsSurviving(old(comments), reviews, None)
      ensures forall r :: r in reviews <==> r in old(reviews) && r.id != id
      ensures forall c :: c in comments <==> c in old(comments) && c.reviewId != id
      ensures users == old(users) && titles == old(titles)
    {
      OtherReviewsRemain(reviews, id);
      reviews := ReviewsWithoutId(reviews, id);
      comments := CommentsSurviving(comments, reviews, None);
    }

    /** Deletes a user; the reviews and comments they wrote go with them, and so do the
        comments, by anyone, on their reviews. */
    method DeleteUser(name: string)
      requires Valid() && name in users
      modifies this
      ensures Valid()
      ensures users == old(users) - {name}
      ensures reviews == ReviewsWithoutAuthor(old(reviews), old(users)[name].id)
      ensures comments == CommentsSurviving(old(comments), reviews, Some(old(users)[name].id))
      ensures forall r :: r in reviews <==> r in old(reviews) && r.authorId != old(users)[name].id
      ensures forall c :: c in comments ==> c in old(comments) && c.authorId != old(users)[name].id
      ensures titles == old(titles)
    {
      var uid := users[name].id;
      RemoveUserKeepsOthers(users, nextId, name);
      users := users - {name};
      reviews := ReviewsWithoutAuthor(reviews, uid);
      comments := CommentsSurviving(comments, reviews, Some(uid));
    }
  }
}
