/**
 * The two tables the service works on, as finite maps from row id to row,
 * and the per-movie aggregates the reports compute over them: the comments
 * of a movie (the rows a `LEFT JOIN ... ON comment.movie_id = movie.id`
 * groups under it), their number and their rounded average rating.
 */
module Store {
  import opened Wrappers
  import opened Ratings

  /** Row identifiers (UUID strings in the store). */
  type Id = string

  /** A release date, as a day number; only its order matters to the service. */
  type Date = int

  datatype Movie = Movie(title: string, description: string, releaseDate: Date)

  datatype Comment = Comment(content: string, rating: int, movieId: Id)

  /** The body of a create or update request for a movie. */
  datatype MovieRequest = MovieRequest(title: string, description: string, releaseDate: Date)

  /** The body of a create or update request for a comment. */
  datatype CommentRequest = CommentRequest(content: string, rate: int)

  /** The failures the service raises itself. */
  datatype Error = MovieNotFound | CommentNotFound | FetchByTitleFailed | InvalidOrderDirection

  function Message(e: Error): string {
    match e
    case MovieNotFound => "Movie not found"
    case CommentNotFound => "Comment not found"
    case FetchByTitleFailed => "Failed to fetch movies by title"
    case InvalidOrderDirection => "SelectQueryBuilder.addOrderBy \"order\" can accept only \"ASC\" and \"DESC\" values."
  }

  /** The ids of the comments that reference the movie `movieId`. */
  function CommentsOf(comments: map<Id, Comment>, movieId: Id): set<Id> {
    set c | c in comments && comments[c].movieId == movieId
  }

  /** The sum of the ratings of the comments `ids`. */
  ghost function SumRatings(comments: map<Id, Comment>, ids: set<Id>): int
    requires ids <= comments.Keys
    decreases ids
  {
    if ids == {} then 0
    else
      var x :| x in ids;
      comments[x].rating + SumRatings(comments, ids - {x})
  }

  /** The sum does not depend on which comment the definition takes first. */
  lemma {:induction false} SumRatingsPick(comments: map<Id, Comment>, ids: set<Id>, x: Id)
    requires ids <= comments.Keys && x in ids
    ensures SumRatings(comments, ids) == comments[x].rating + SumRatings(comments, ids - {x})
    decreases ids
  {
    var y :| y in ids && SumRatings(comments, ids) == comments[y].rating + SumRatings(comments, ids - {y});
    if y != x {
      SumRatingsPick(comments, ids - {y}, x);
      SumRatingsPick(comments, ids - {x}, y);
      assert ids - {y} - {x} == ids - {x} - {y};
    }
  }

  /** The sum over `ids` reads only the rows in `ids`. */
  lemma {:induction false} SumRatingsFrame(c1: map<Id, Comment>, c2: map<Id, Comment>, ids: set<Id>)
    requires ids <= c1.Keys && ids <= c2.Keys
    requires forall x :: x in ids ==> c1[x].rating == c2[x].rating
    ensures SumRatings(c1, ids) == SumRatings(c2, ids)
    decreases ids
  {
    if ids != {} {
      var x :| x in ids;
      SumRatingsPick(c1, ids, x);
      SumRatingsPick(c2, ids, x);
      SumRatingsFrame(c1, c2, ids - {x});
    }
  }

  /** Ratings between lo and hi sum to between lo and hi times their number. */
  lemma {:induction false} SumRatingsBounds(comments: map<Id, Comment>, ids: set<Id>, lo: int, hi: int)
    requires ids <= comments.Keys
    requires forall x :: x in ids ==> lo <= comments[x].rating <= hi
    ensures lo * |ids| <= SumRatings(comments, ids) <= hi * |ids|
    decreases ids
  {
    if ids != {} {
      var x :| x in ids;
      var rest := ids - {x};
      SumRatingsPick(comments, ids, x);
      SumRatingsBounds(comments, rest, lo, hi);
      assert |ids| == |rest| + 1;
      BoundsStep(SumRatings(comments, rest), comments[x].rating, |rest|, lo, hi);
    }
  }

  lemma BoundsStep(sum: int, r: int, n: nat, lo: int, hi: int)
    requires lo * n <= sum <= hi * n && lo <= r <= hi
    ensures lo * (n + 1) <= sum + r <= hi * (n + 1)
  {
    assert lo * (n + 1) == lo * n + lo;
    assert hi * (n + 1) == hi * n + hi;
  }

  /**
   * `ROUND(AVG(comment.rating), 2)` over the comments of a movie, in
   * hundredths; `None` is SQL's NULL, the average of no rows.
   */
  ghost function AvgRating(comments: map<Id, Comment>, movieId: Id): (r: Option<int>)
    ensures r.None? <==> CommentsOf(comments, movieId) == {}
  {
    var ids := CommentsOf(comments, movieId);
    if ids == {} then None else Some(AverageHundredths(SumRatings(comments, ids), |ids|))
  }

  /** The same average with NULL replaced by 0 (`COALESCE(..., 0)`, `|| 0`). */
  ghost function CoalescedAvgRating(comments: map<Id, Comment>, movieId: Id): (r: int)
    ensures CommentsOf(comments, movieId) == {} ==> r == 0
    ensures CommentsOf(comments, movieId) != {} ==> Some(r) == AvgRating(comments, movieId)
  {
    match AvgRating(comments, movieId)
    case None => 0
    case Some(a) => a
  }

  /** Every comment of movie `movieId` is rated on the 1 to 5 scale. */
  ghost predicate RatingsOnScale(comments: map<Id, Comment>, movieId: Id) {
    forall c :: c in CommentsOf(comments, movieId) ==> 1 <= comments[c].rating <= 5
  }

  /** With its ratings on the 1 to 5 scale a movie's existing average lies between 1.00 and 5.00. */
  lemma AvgRatingOnScale(comments: map<Id, Comment>, movieId: Id)
    requires RatingsOnScale(comments, movieId)
    ensures AvgRating(comments, movieId).Some? ==> 100 <= AvgRating(comments, movieId).value <= 500
  {
    var ids := CommentsOf(comments, movieId);
    if ids != {} {
      SumRatingsBounds(comments, ids, 1, 5);
      AverageWithin(SumRatings(comments, ids), |ids|, 1, 5);
    }
  }

  /**
   * A movie's average reads only that movie's comments: two stores that
   * hold the same comments, with the same ratings, for `movieId` give it the
   * same average, whatever else they hold.
   */
  lemma AvgRatingLocal(c1: map<Id, Comment>, c2: map<Id, Comment>, movieId: Id)
    requires CommentsOf(c1, movieId) == CommentsOf(c2, movieId)
    requires forall x :: x in CommentsOf(c1, movieId) ==> c1[x].rating == c2[x].rating
    ensures AvgRating(c1, movieId) == AvgRating(c2, movieId)
  {
    SumRatingsFrame(c1, c2, CommentsOf(c1, movieId));
  }

  /** A new comment joins the comments of its own movie and of no other. */
  lemma AddCommentGroups(comments: map<Id, Comment>, id: Id, c: Comment, m: Id)
    requires id !in comments
    ensures CommentsOf(comments[id := c], m)
         == if c.movieId == m then CommentsOf(comments, m) + {id} else CommentsOf(comments, m)
    ensures |CommentsOf(comments[id := c], m)|
         == |CommentsOf(comments, m)| + (if c.movieId == m then 1 else 0)
  {
    assert id !in CommentsOf(comments, m);
  }

  /** A new comment adds its rating to its movie's sum of ratings. */
  lemma AddCommentSum(comments: map<Id, Comment>, id: Id, c: Comment)
    requires id !in comments
    ensures SumRatings(comments[id := c], CommentsOf(comments[id := c], c.movieId))
         == SumRatings(comments, CommentsOf(comments, c.movieId)) + c.rating
  {
    var after := comments[id := c];
    var before := CommentsOf(comments, c.movieId);
    AddCommentGroups(comments, id, c, c.movieId);
    SumRatingsPick(after, before + {id}, id);
    assert before + {id} - {id} == before;
    SumRatingsFrame(after, comments, before);
  }
}
