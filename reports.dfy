/**
 * The read operations of the movie service, as functions of the two
 * tables: the entity reads (`getMovies`, `getMovieById`, `getCommentById`,
 * `getMoviesByTitle`) and the aggregate reports (`getAvgRatingByMovieId`,
 * `getTotalCommentFromEachMovie`, `getMoviesWithRatingsAndGrades`).
 *
 * Results without an ORDER BY have no defined row order, so the raw-row
 * reports are sets of rows and the entity lists are maps keyed by id.
 */
module Reports {
  import opened Wrappers
  import opened Text
  import opened Ratings
  import opened Store

  /** A movie with its comments attached, as a `relations: ['comments']` load returns it. */
  datatype MovieView = MovieView(movie: Movie, comments: map<Id, Comment>)

  /** The comments rows that reference `movieId`. */
  function AttachedComments(comments: map<Id, Comment>, movieId: Id): (r: map<Id, Comment>)
    ensures r.Keys == CommentsOf(comments, movieId)
    ensures forall c :: c in r ==> r[c] == comments[c]
  {
    map c | c in comments && comments[c].movieId == movieId :: comments[c]
  }

  /** `getMovies`: every movie, each with its comments. */
  function GetMovies(movies: map<Id, Movie>, comments: map<Id, Comment>): (r: map<Id, MovieView>)
    ensures r.Keys == movies.Keys
    ensures forall id :: id in r ==> r[id] == MovieView(movies[id], AttachedComments(comments, id))
  {
    map id | id in movies :: MovieView(movies[id], AttachedComments(comments, id))
  }

  /**
   * Each comment of an existing movie shows up under that movie and under no
   * other; a comment whose movie is gone shows up nowhere.
   */
  lemma {:induction false} CommentAttachedOnce(movies: map<Id, Movie>, comments: map<Id, Comment>, c: Id)
    requires c in comments
    ensures forall id :: id in movies ==>
      (c in GetMovies(movies, comments)[id].comments <==> comments[c].movieId == id)
  {
    forall id | id in movies
      ensures c in GetMovies(movies, comments)[id].comments <==> comments[c].movieId == id
    {
      assert GetMovies(movies, comments)[id].comments == AttachedComments(comments, id);
    }
  }

  /** `getMovieById`: the movie with its comments, or absent. */
  function GetMovieById(movies: map<Id, Movie>, comments: map<Id, Comment>, id: Id): (r: Option<MovieView>)
    ensures r.Some? <==> id in movies
    ensures r.Some? ==> r.value == GetMovies(movies, comments)[id]
  {
    if id in movies then Some(MovieView(movies[id], AttachedComments(comments, id))) else None
  }

  /** `getCommentById`: the comment row, or absent. */
  function GetCommentById(comments: map<Id, Comment>, id: Id): (r: Option<Comment>)
    ensures r.Some? <==> id in comments
    ensures r.Some? ==> r.value == comments[id]
  {
    if id in comments then Some(comments[id]) else None
  }

  /**
   * `getMoviesByTitle`: an empty or blank title is refused, and the
   * refusal surfaces, like any other failure of the lookup, as the generic
   * "Failed to fetch movies by title" error; otherwise every movie whose
   * title contains the given text.
   */
  function GetMoviesByTitle(movies: map<Id, Movie>, title: string): (r: Result<map<Id, Movie>, Error>)
    ensures r.Failure? <==> IsBlank(title)
    ensures r.Failure? ==> r.error == FetchByTitleFailed
    ensures r.Success? ==> forall id :: id in r.value <==> id in movies && Contains(movies[id].title, title)
    ensures r.Success? ==> forall id :: id in r.value ==> r.value[id] == movies[id]
  {
    TrimEmptyIffBlank(title);
    if |title| == 0 || Trim(title) == [] then Failure(FetchByTitleFailed)
    else Success(map id | id in movies && Contains(movies[id].title, title) :: movies[id])
  }

  /**
   * `getAvgRatingByMovieId`: the rounded average rating of the movie's
   * comments, 0 when it has none (whether or not the movie exists).
   */
  ghost function GetAvgRatingByMovieId(comments: map<Id, Comment>, movieId: Id): (r: int)
    ensures CommentsOf(comments, movieId) == {} ==> r == 0
    ensures RatingsOnScale(comments, movieId) && CommentsOf(comments, movieId) != {} ==> 100 <= r <= 500
  {
    var r := CoalescedAvgRating(comments, movieId);
    if RatingsOnScale(comments, movieId) then AvgRatingOnScale(comments, movieId); r else r
  }

  /** A row of `getTotalCommentFromEachMovie`. */
  datatype CountRow = CountRow(movieId: Id, movieTitle: string, totalComments: nat)

  /**
   * `getTotalCommentFromEachMovie`: movies left-joined with their comments,
   * grouped, counted. The report has exactly one row per movie, movies
   * without comments included, and each row counts the comments that
   * reference it.
   */
  function GetTotalCommentFromEachMovie(movies: map<Id, Movie>, comments: map<Id, Comment>): (rows: set<CountRow>)
    ensures forall row :: row in rows ==>
      row.movieId in movies && row.movieTitle == movies[row.movieId].title
      && row.totalComments == |CommentsOf(comments, row.movieId)|
    ensures forall id :: id in movies ==> CountRow(id, movies[id].title, |CommentsOf(comments, id)|) in rows
    ensures forall r1, r2 :: r1 in rows && r2 in rows && r1.movieId == r2.movieId ==> r1 == r2
  {
    set id | id in movies :: CountRow(id, movies[id].title, |CommentsOf(comments, id)|)
  }

  /** A row of `getMoviesWithRatingsAndGrades`. */
  datatype RatingRow = RatingRow(movieId: Id, movieTitle: string, movieRating: int, grade: string)

  /** The row the ratings report builds for one movie. */
  ghost function RatingRowOf(movies: map<Id, Movie>, comments: map<Id, Comment>, id: Id): RatingRow
    requires id in movies
  {
    var rating := CoalescedAvgRating(comments, id);
    RatingRow(id, movies[id].title, rating, Label(GradeOf(rating)))
  }

  /**
   * `getMoviesWithRatingsAndGrades`: for every movie its rounded average
   * rating (0 without comments) and the grade of that rating. The report
   * has exactly one row per movie, movies without comments included, and
   * its rating is the one `getAvgRatingByMovieId` reports for the same movie.
   */
  ghost function GetMoviesWithRatingsAndGrades(movies: map<Id, Movie>, comments: map<Id, Comment>): (rows: set<RatingRow>)
    ensures forall row :: row in rows ==>
      row.movieId in movies && row == RatingRowOf(movies, comments, row.movieId)
      && row.movieRating == GetAvgRatingByMovieId(comments, row.movieId)
    ensures forall id :: id in movies ==> RatingRowOf(movies, comments, id) in rows
    ensures forall r1, r2 :: r1 in rows && r2 in rows && r1.movieId == r2.movieId ==> r1 == r2
  {
    set id | id in movies :: RatingRowOf(movies, comments, id)
  }

  /** A movie without comments is reported with rating 0 and grade "No Rating". */
  lemma UncommentedMovieNotRated(movies: map<Id, Movie>, comments: map<Id, Comment>, id: Id)
    requires id in movies && CommentsOf(comments, id) == {}
    ensures RatingRowOf(movies, comments, id).movieRating == 0
    ensures RatingRowOf(movies, comments, id).grade == "No Rating"
  {
  }

  /**
   * A movie with at least one comment, all rated on the 1 to 5 scale, gets a rating between 1.00 and 5.00 and one of the four
   * real grades.
   */
  lemma CommentedMovieGraded(movies: map<Id, Movie>, comments: map<Id, Comment>, id: Id)
    requires id in movies && CommentsOf(comments, id) != {}
    requires RatingsOnScale(comments, id)
    ensures 100 <= RatingRowOf(movies, comments, id).movieRating <= 500
    ensures RatingRowOf(movies, comments, id).grade in {"Great", "Good", "Average", "Poor"}
  {
    AvgRatingOnScale(comments, id);
  }

  /** The two comments rated 5 and 3 on "m1" average 4.00; "m2" has none. */
  lemma InceptionAverages(comments: map<Id, Comment>)
    requires comments == map["c1" := Comment("", 5, "m1"), "c2" := Comment("", 3, "m1")]
    ensures AvgRating(comments, "m1") == Some(400)
    ensures CommentsOf(comments, "m2") == {}
  {
    var ids := CommentsOf(comments, "m1");
    assert ids == {"c1", "c2"} by {
      assert "c1" in ids && "c2" in ids;
      forall c | c in ids ensures c == "c1" || c == "c2" { }
    }
    SumRatingsPick(comments, ids, "c1");
    assert ids - {"c1"} == {"c2"};
    SumRatingsPick(comments, {"c2"}, "c2");
    assert {"c2"} - {"c2"} == {};
    assert AvgRating(comments, "m1") == Some(AverageHundredths(8, 2));
    assert AverageHundredths(8, 2) == 400;
    assert CommentsOf(comments, "m2") == {} by {
      forall c | c in comments ensures comments[c].movieId != "m2" { }
    }
  }

  /** "Inception" with ratings 5 and 3 averages 4.00 and is graded "Good"; "Nope" has no comments. */
  lemma InceptionScenario()
    ensures var movies := map["m1" := Movie("Inception", "", 0), "m2" := Movie("Nope", "", 0)];
            var comments := map["c1" := Comment("", 5, "m1"), "c2" := Comment("", 3, "m1")];
            && RatingRow("m1", "Inception", 400, "Good") in GetMoviesWithRatingsAndGrades(movies, comments)
            && RatingRow("m2", "Nope", 0, "No Rating") in GetMoviesWithRatingsAndGrades(movies, comments)
  {
    var movies := map["m1" := Movie("Inception", "", 0), "m2" := Movie("Nope", "", 0)];
    var comments := map["c1" := Comment("", 5, "m1"), "c2" := Comment("", 3, "m1")];
    InceptionAverages(comments);
    assert RatingRowOf(movies, comments, "m1") == RatingRow("m1", "Inception", 400, "Good");
    assert RatingRowOf(movies, comments, "m2") == RatingRow("m2", "Nope", 0, "No Rating");
  }
}
