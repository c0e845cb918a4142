/**
 * Reviews and comments: their field constraints, their newest-first ordering, the
 * cascades that remove them with their title, review or author, the per-parent
 * querysets of the review and comment views, and a title's rating.
 *
 * A table is held as a sequence kept newest first; every queryset over it is a
 * filter and so inherits that order.
 */
module Feedback {
  import opened Http
  import opened Sequences
  import opened Titles

  datatype Review = Review(id: nat, titleId: TitleId, authorId: nat, text: string, score: int, pubDate: nat)

  datatype Comment = Comment(id: nat, reviewId: nat, authorId: nat, text: string, pubDate: nat)

  const MinScore: int := 1
  const MaxScore: int := 10
  /** The score column's default, used when a row is saved without a score. */
  const DefaultScore: int := 0

  /** The score validators: at least 1 and at most 10. */
  predicate ValidScore(score: int) {
    MinScore <= score <= MaxScore
  }

  /** The column default is not a valid score: a review stored without one would fail validation. */
  lemma DefaultScoreIsInvalid()
    ensures !ValidScore(DefaultScore)
    ensures ValidScore(MinScore) && ValidScore(MaxScore) && !ValidScore(MinScore - 1) && !ValidScore(MaxScore + 1)
  {
  }

  /** How two reviews of a table stand: the first is newer (later publication date and
      larger key), and they are not by the same author on the same title. */
  function ReviewBefore(a: Review, b: Review): bool {
    a.id > b.id && a.pubDate > b.pubDate && (a.titleId != b.titleId || a.authorId != b.authorId)
  }

  /** How two comments of a table stand: the first is newer. */
  function CommentBefore(a: Comment, b: Comment): bool {
    a.id > b.id && a.pubDate > b.pubDate
  }

  /** The review table on its own: newest first, one review per (title, author), valid
      scores, keys below `nextId` and dates before `clock`. */
  ghost predicate ReviewTableOk(rs: seq<Review>, nextId: nat, clock: nat) {
    && Pairwise(rs, ReviewBefore)
    && (forall r :: r in rs ==> r.id < nextId && r.pubDate < clock && ValidScore(r.score))
  }

  ghost predicate CommentTableOk(cs: seq<Comment>, nextId: nat, clock: nat) {
    && Pairwise(cs, CommentBefore)
    && (forall c :: c in cs ==> c.id < nextId && c.pubDate < clock)
  }

  /** `Review.objects.filter(title=..., author=...).exists()`. */
  predicate HasReviewBy(rs: seq<Review>, titleId: TitleId, authorId: nat) {
    exists r :: r in rs && r.titleId == titleId && r.authorId == authorId
  }

  /** `get_object_or_404(Review, id=...)` finds a row. */
  predicate HasReviewId(rs: seq<Review>, id: nat) {
    exists r :: r in rs && r.id == id
  }

  /** `queryset.get(pk=id)` on a table of reviews: the review with primary key `id`, if one is there. */
  function FindReview(rs: seq<Review>, id: nat): (r: Option<Review>)
    ensures r.Some? <==> HasReviewId(rs, id)
    ensures r.Some? ==> r.value in rs && r.value.id == id
  {
    if rs == [] then None
    else if rs[0].id == id then Some(rs[0])
    else
      assert HasReviewId(rs, id) ==> HasReviewId(rs[1..], id) by {
        if HasReviewId(rs, id) {
          var x :| x in rs && x.id == id;
          assert x in rs[1..];
        }
      }
      FindReview(rs[1..], id)
  }

  /** A review table holds at most one review for each (title, author) pair. */
  lemma OneReviewPerTitleAndAuthor(rs: seq<Review>, nextId: nat, clock: nat)
    requires ReviewTableOk(rs, nextId, clock)
    ensures forall x, y :: x in rs && y in rs && x.titleId == y.titleId && x.authorId == y.authorId ==> x == y
  {
  }

  // ---- querysets: the reviews of one title, the comments of one review ----

  /** The reviews of a table that satisfy `keep`, in the table's order. */
  function ReviewsWhere(rs: seq<Review>, keep: Review -> bool): (r: seq<Review>)
    ensures forall x :: x in r <==> x in rs && keep(x)
    ensures Pairwise(rs, ReviewBefore) ==> Pairwise(r, ReviewBefore)
  {
    FilterKeepsPairwise(rs, keep, ReviewBefore);
    Filter(rs, keep)
  }

  /** The comments of a table that satisfy `keep`, in the table's order. */
  function CommentsWhere(cs: seq<Comment>, keep: Comment -> bool): (r: seq<Comment>)
    ensures forall x :: x in r <==> x in cs && keep(x)
    ensures Pairwise(cs, CommentBefore) ==> Pairwise(r, CommentBefore)
  {
    FilterKeepsPairwise(cs, keep, CommentBefore);
    Filter(cs, keep)
  }

  /** `title.reviews.all()`: exactly the title's reviews, still newest first. */
  function ReviewsOfTitle(rs: seq<Review>, titleId: TitleId): (r: seq<Review>)
    ensures forall x :: x in r <==> x in rs && x.titleId == titleId
    ensures Pairwise(rs, ReviewBefore) ==> Pairwise(r, ReviewBefore)
  {
    ReviewsWhere(rs, (x: Review) => x.titleId == titleId)
  }

  /** `review.comments.all()`: exactly the review's comments, still newest first. */
  function CommentsOfReview(cs: seq<Comment>, reviewId: nat): (r: seq<Comment>)
    ensures forall x :: x in r <==> x in cs && x.reviewId == reviewId
    ensures Pairwise(cs, CommentBefore) ==> Pairwise(r, CommentBefore)
  {
    CommentsWhere(cs, (x: Comment) => x.reviewId == reviewId)
  }

  /** `ReviewViewSet.get_queryset`: 404 when the path title is absent, otherwise the
      title's reviews, newest first. */
  function ReviewQueryset(titles: seq<Title>, rs: seq<Review>, titleId: TitleId): (r: Result<seq<Review>>)
    ensures r.Err? <==> !HasTitle(titles, titleId)
    ensures r.Err? ==> r.error == NotFound
    ensures r.Ok? ==> forall x :: x in r.value <==> x in rs && x.titleId == titleId
    ensures r.Ok? && Pairwise(rs, ReviewBefore) ==> Pairwise(r.value, ReviewBefore)
  {
    if HasTitle(titles, titleId) then Ok(ReviewsOfTitle(rs, titleId)) else Err(NotFound)
  }

  /** `CommentViewSet.get_queryset`: 404 when the path review is absent, otherwise the
      review's comments, newest first. The title in the path is not consulted. */
  function CommentQueryset(rs: seq<Review>, cs: seq<Comment>, reviewId: nat): (r: Result<seq<Comment>>)
    ensures r.Err? <==> !HasReviewId(rs, reviewId)
    ensures r.Err? ==> r.error == NotFound
    ensures r.Ok? ==> forall x :: x in r.value <==> x in cs && x.reviewId == reviewId
    ensures r.Ok? && Pairwise(cs, CommentBefore) ==> Pairwise(r.value, CommentBefore)
  {
    if HasReviewId(rs, reviewId) then Ok(CommentsOfReview(cs, reviewId)) else Err(NotFound)
  }

  // ---- cascades (on_delete=CASCADE) ----

  /** The reviews left when the title `titleId` is deleted. */
  function ReviewsWithoutTitle(rs: seq<Review>, titleId: TitleId): (r: seq<Review>)
    ensures forall x :: x in r <==> x in rs && x.titleId != titleId
    ensures Pairwise(rs, ReviewBefore) ==> Pairwise(r, ReviewBefore)
  {
    ReviewsWhere(rs, (x: Review) => x.titleId != titleId)
  }

  /** The reviews left when the review `id` is deleted. */
  function ReviewsWithoutId(rs: seq<Review>, id: nat): (r: seq<Review>)
    ensures forall x :: x in r <==> x in rs && x.id != id
    ensures Pairwise(rs, ReviewBefore) ==> Pairwise(r, ReviewBefore)
  {
    ReviewsWhere(rs, (x: Review) => x.id != id)
  }

  /** Deleting one review leaves every other key findable. */
  lemma OtherReviewsRemain(rs: seq<Review>, id: nat)
    ensures forall other :: HasReviewId(rs, other) && other != id ==> HasReviewId(ReviewsWithoutId(rs, id), other)
  {
    forall other | HasReviewId(rs, other) && other != id ensures HasReviewId(ReviewsWithoutId(rs, id), other) {
      var w :| w in rs && w.id == other;
      assert w in ReviewsWithoutId(rs, id);
    }
  }

  /** The reviews left when the user `authorId` is deleted. */
  function ReviewsWithoutAuthor(rs: seq<Review>, authorId: nat): (r: seq<Review>)
    ensures forall x :: x in r <==> x in rs && x.authorId != authorId
    ensures Pairwise(rs, ReviewBefore) ==> Pairwise(r, ReviewBefore)
  {
    ReviewsWhere(rs, (x: Review) => x.authorId != authorId)
  }

  /** The comments left once the reviews are down to `survivors`, and, when a user is
      deleted, once that user's own comments are gone too: a comment goes with its
      review even when somebody else wrote it. */
  function CommentsSurviving(cs: seq<Comment>, survivors: seq<Review>, deletedAuthor: Option<nat>): (r: seq<Comment>)
    ensures forall x :: x in r <==>
              x in cs && HasReviewId(survivors, x.reviewId) && deletedAuthor != Some(x.authorId)
    ensures Pairwise(cs, CommentBefore) ==> Pairwise(r, CommentBefore)
  {
    CommentsWhere(cs, (x: Comment) => HasReviewId(survivors, x.reviewId) && deletedAuthor != Some(x.authorId))
  }

  // ---- rating ----

  function ScoreSum(rs: seq<Review>): int {
    if rs == [] then 0 else rs[0].score + ScoreSum(rs[1..])
  }

  lemma {:induction false} ScoreSumBounds(rs: seq<Review>)
    requires forall x :: x in rs ==> ValidScore(x.score)
    ensures MinScore * |rs| <= ScoreSum(rs) <= MaxScore * |rs|
  {
    if rs != [] {
      assert forall x :: x in rs[1..] ==> x in rs;
      ScoreSumBounds(rs[1..]);
    }
  }

  lemma QuotientBounds(sum: int, n: int)
    requires 0 < n && MinScore * n <= sum <= MaxScore * n
    ensures MinScore <= sum / n <= MaxScore
  {
  }

  /** The `rating` of a title as rendered: the mean of its reviews' scores, cut to an
      integer; absent when the title has no review, and within the score range when
      every score is. */
  function Rating(rs: seq<Review>, titleId: TitleId): (r: Option<int>)
    ensures r.None? <==> !exists x :: x in rs && x.titleId == titleId
    ensures r.Some? && (forall x :: x in rs ==> ValidScore(x.score)) ==> MinScore <= r.value <= MaxScore
  {
    var mine := ReviewsOfTitle(rs, titleId);
    if |mine| == 0 then None
    else if forall x :: x in rs ==> ValidScore(x.score) then
      ScoreSumBounds(mine);
      QuotientBounds(ScoreSum(mine), |mine|);
      Some(ScoreSum(mine) / |mine|)
    else Some(ScoreSum(mine) / |mine|)
  }
}
