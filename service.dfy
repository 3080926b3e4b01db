/**
 * The movie service: the six operations that change the two tables, and the
 * three search operations that compose a query through the query builder.
 *
 * Creating, updating and deleting follow the service's own rules, which
 * differ between the entities: adding or updating a comment first looks the
 * target row up and fails when it is missing, while updating or deleting a
 * movie (and deleting a comment) goes straight to the store, where a missing
 * row is simply not affected. Each operation is one sequential step.
 */
module Service {
  import opened Wrappers
  import opened Text
  import opened Ratings
  import opened Store
  import opened Reports
  import opened Query

  /** Every comment references a movie that exists. */
  ghost predicate ReferencesResolve(movies: map<Id, Movie>, comments: map<Id, Comment>) {
    forall c :: c in comments ==> comments[c].movieId in movies
  }

  /** Every id a row has or references. */
  function IdsInUse(movies: map<Id, Movie>, comments: map<Id, Comment>): set<Id> {
    movies.Keys + comments.Keys + set c | c in comments :: comments[c].movieId
  }

  ghost function MaxLength(ids: set<Id>): (n: nat)
    ensures forall x :: x in ids ==> |x| <= n
    decreases ids
  {
    if ids == {} then 0
    else
      var x :| x in ids;
      var m := MaxLength(ids - {x});
      if |x| > m then |x| else m
  }

  /** An id longer than every id in `used`; it shows that a fresh id always exists. */
  ghost function UnusedId(used: set<Id>): (id: Id)
    ensures id !in used
  {
    seq(MaxLength(used) + 1, _ => 'x')
  }

  /** The movie row a create or update request describes. */
  function MovieFrom(request: MovieRequest): Movie {
    Movie(request.title, request.description, request.releaseDate)
  }

  /** A row of `searchMoviesWithDynamicConditions`. */
  datatype SearchRow = SearchRow(movieId: Id, movieTitle: string, movieRating: int)

  /** The select list of the dynamic search: id, title and the average rating with NULL read as 0. */
  ghost function SearchRows(ids: seq<Id>, movies: map<Id, Movie>, comments: map<Id, Comment>): seq<SearchRow>
    requires forall i :: 0 <= i < |ids| ==> ids[i] in movies
  {
    seq(|ids|, i requires 0 <= i < |ids| => SearchRow(ids[i], movies[ids[i]].title, CoalescedAvgRating(comments, ids[i])))
  }

  /** Title `a` may be listed before title `b` in direction `d`. */
  predicate TitlesInOrder(a: string, b: string, d: Direction) {
    if d == Asc then LexLe(a, b) else LexLe(b, a)
  }

  /** Release date `a` may be listed before release date `b` in direction `d`. */
  predicate DatesInOrder(a: Date, b: Date, d: Direction) {
    if d == Asc then a <= b else b <= a
  }

  /**
   * The text the dynamic search puts between the two `%` of its pattern:
   * the search query interpolated into a template string, which turns an
   * undefined query into the word "undefined".
   */
  function SearchText(searchQuery: Option<string>): string {
    match searchQuery
    case None => "undefined"
    case Some(s) => s
  }

  /** What the dynamic search keeps: a folded title match and an existing average of at least `minRating`. */
  ghost predicate DynamicMatch(movies: map<Id, Movie>, comments: map<Id, Comment>, id: Id, text: string, minRating: int) {
    && id in movies
    && Contains(Lower(movies[id].title), Lower(text))
    && AvgRating(comments, id).Some?
    && AvgRating(comments, id).value >= minRating
  }

  /** What the release-date search keeps: a release date within the bounds that are given. */
  predicate InDateRange(m: Movie, startDate: Option<Date>, endDate: Option<Date>) {
    && (startDate.Some? ==> m.releaseDate >= startDate.value)
    && (endDate.Some? ==> m.releaseDate <= endDate.value)
  }

  /** The query the dynamic search finishes with. */
  function DynamicQuery(text: string, minRating: int, d: Direction): Query {
    Query([TitleLikeFolded(text)], Some(minRating), Some(Order(Title, d)))
  }

  /** That query admits exactly the movies the dynamic search is meant to keep. */
  lemma DynamicQueryAdmits(movies: map<Id, Movie>, comments: map<Id, Comment>, text: string, minRating: int, d: Direction)
    ensures forall id :: id in movies ==>
      (Admits(DynamicQuery(text, minRating, d), movies, comments, id) <==> DynamicMatch(movies, comments, id, text, minRating))
  {
    var q := DynamicQuery(text, minRating, d);
    forall id | id in movies
      ensures Admits(q, movies, comments, id) <==> DynamicMatch(movies, comments, id, text, minRating)
    {
      assert q.wheres[0] == TitleLikeFolded(text);
    }
  }

  /** `ids` lists exactly the movies the dynamic search keeps, once each, by title in direction `d`. */
  ghost predicate ListsDynamicMatches(ids: seq<Id>, movies: map<Id, Movie>, comments: map<Id, Comment>,
                                      text: string, minRating: int, d: Direction)
  {
    && (forall i :: 0 <= i < |ids| ==> DynamicMatch(movies, comments, ids[i], text, minRating))
    && (forall id :: DynamicMatch(movies, comments, id, text, minRating) ==> id in ids)
    && (forall i, j :: 0 <= i < j < |ids| ==> ids[i] != ids[j])
    && (forall i, j :: 0 <= i < j < |ids| ==> TitlesInOrder(movies[ids[i]].title, movies[ids[j]].title, d))
  }

  /** Running it lists exactly the matching movies, once each, by title. */
  lemma DynamicQueryLists(movies: map<Id, Movie>, comments: map<Id, Comment>, text: string, minRating: int, d: Direction)
    ensures ListsDynamicMatches(Run(DynamicQuery(text, minRating, d), movies, comments), movies, comments, text, minRating, d)
  {
    var q := DynamicQuery(text, minRating, d);
    var ids := Run(q, movies, comments);
    DynamicQueryAdmits(movies, comments, text, minRating, d);
    forall i | 0 <= i < |ids| ensures DynamicMatch(movies, comments, ids[i], text, minRating) {
      assert ids[i] in ids;
    }
    forall id | DynamicMatch(movies, comments, id, text, minRating) ensures id in ids {
      assert Admits(q, movies, comments, id);
    }
    forall i, j | 0 <= i < j < |ids| ensures TitlesInOrder(movies[ids[i]].title, movies[ids[j]].title, d) {
      assert InOrder(movies[ids[i]], movies[ids[j]], q.order);
    }
  }

  /** Every listed rating is an actual average, never the 0 that stands for "no comments", and reaches `minRating`. */
  lemma DynamicQueryRatings(movies: map<Id, Movie>, comments: map<Id, Comment>, text: string, minRating: int, d: Direction)
    ensures
      var rows := SearchRows(Run(DynamicQuery(text, minRating, d), movies, comments), movies, comments);
      forall i :: 0 <= i < |rows| ==>
        rows[i].movieRating == AvgRating(comments, rows[i].movieId).value && rows[i].movieRating >= minRating
  {
    var ids := Run(DynamicQuery(text, minRating, d), movies, comments);
    DynamicQueryLists(movies, comments, text, minRating, d);
    var rows := SearchRows(ids, movies, comments);
    forall i | 0 <= i < |rows|
      ensures rows[i].movieRating == AvgRating(comments, rows[i].movieId).value && rows[i].movieRating >= minRating
    {
      assert rows[i].movieId == ids[i];
      assert DynamicMatch(movies, comments, ids[i], text, minRating);
    }
  }

  /** The conditions the release-date search composes from the bounds that are given. */
  function DateConditions(startDate: Option<Date>, endDate: Option<Date>): seq<Cond> {
    (if startDate.Some? then [ReleasedFrom(startDate.value)] else [])
    + (if endDate.Some? then [ReleasedUntil(endDate.value)] else [])
  }

  /** A query with those conditions admits exactly the movies released within the bounds. */
  lemma DateQueryAdmits(movies: map<Id, Movie>, comments: map<Id, Comment>, q: Query, startDate: Option<Date>, endDate: Option<Date>)
    requires q.having.None? && q.wheres == DateConditions(startDate, endDate)
    ensures forall id :: id in movies ==>
      (Admits(q, movies, comments, id) <==> InDateRange(movies[id], startDate, endDate))
  {
    forall id | id in movies
      ensures Admits(q, movies, comments, id) <==> InDateRange(movies[id], startDate, endDate)
    {
      var m := movies[id];
      if startDate.Some? && endDate.Some? {
        assert q.wheres == [ReleasedFrom(startDate.value), ReleasedUntil(endDate.value)];
        assert Holds(q.wheres[0], m) <==> m.releaseDate >= startDate.value;
        assert Holds(q.wheres[1], m) <==> m.releaseDate <= endDate.value;
      } else if startDate.Some? {
        assert q.wheres == [ReleasedFrom(startDate.value)];
        assert Holds(q.wheres[0], m) <==> m.releaseDate >= startDate.value;
      } else if endDate.Some? {
        assert q.wheres == [ReleasedUntil(endDate.value)];
        assert Holds(q.wheres[0], m) <==> m.releaseDate <= endDate.value;
      } else {
        assert q.wheres == [];
      }
    }
  }

  /** Running such a query, ordered by release date, lists exactly those movies, once each, by date. */
  lemma DateQueryLists(movies: map<Id, Movie>, comments: map<Id, Comment>, q: Query, startDate: Option<Date>, endDate: Option<Date>)
    requires q.having.None? && q.order.Some? && q.order.value.column == ReleaseDate
    requires q.wheres == DateConditions(startDate, endDate)
    ensures
      var ids := Run(q, movies, comments);
      && (forall id :: id in ids <==> id in movies && InDateRange(movies[id], startDate, endDate))
      && (forall i, j :: 0 <= i < j < |ids| ==> ids[i] != ids[j])
      && (forall i, j :: 0 <= i < j < |ids| ==>
            DatesInOrder(movies[ids[i]].releaseDate, movies[ids[j]].releaseDate, q.order.value.direction))
  {
    DateQueryAdmits(movies, comments, q, startDate, endDate);
    var ids := Run(q, movies, comments);
    forall i, j | 0 <= i < j < |ids|
      ensures DatesInOrder(movies[ids[i]].releaseDate, movies[ids[j]].releaseDate, q.order.value.direction)
    {
      assert InOrder(movies[ids[i]], movies[ids[j]], q.order);
    }
  }

  /** A movie saved under a fresh id reads back with the request's fields and no comments. */
  lemma SaveThenGet(movies: map<Id, Movie>, comments: map<Id, Comment>, id: Id, request: MovieRequest)
    requires id !in IdsInUse(movies, comments)
    ensures GetMovieById(movies[id := MovieFrom(request)], comments, id) == Some(MovieView(MovieFrom(request), map[]))
    ensures var m := GetMovieById(movies[id := MovieFrom(request)], comments, id).value.movie;
            m.title == request.title && m.description == request.description && m.releaseDate == request.releaseDate
  {
    assert AttachedComments(comments, id) == map[] by {
      forall c | c in comments ensures comments[c].movieId != id {
        assert comments[c].movieId in IdsInUse(movies, comments);
      }
    }
  }

  /**
   * A comment added to a movie raises that movie's comment count by one and
   * its sum of ratings by the new rating, and leaves every other movie's
   * comments and average as they were.
   */
  lemma AddCommentEffect(comments: map<Id, Comment>, id: Id, c: Comment)
    requires id !in comments
    ensures |CommentsOf(comments[id := c], c.movieId)| == |CommentsOf(comments, c.movieId)| + 1
    ensures SumRatings(comments[id := c], CommentsOf(comments[id := c], c.movieId))
         == SumRatings(comments, CommentsOf(comments, c.movieId)) + c.rating
    ensures forall m :: m != c.movieId ==>
      CommentsOf(comments[id := c], m) == CommentsOf(comments, m)
      && GetAvgRatingByMovieId(comments[id := c], m) == GetAvgRatingByMovieId(comments, m)
  {
    AddCommentGroups(comments, id, c, c.movieId);
    AddCommentSum(comments, id, c);
    forall m | m != c.movieId
      ensures CommentsOf(comments[id := c], m) == CommentsOf(comments, m)
      ensures GetAvgRatingByMovieId(comments[id := c], m) == GetAvgRatingByMovieId(comments, m)
    {
      AddCommentGroups(comments, id, c, m);
      AvgRatingLocal(comments[id := c], comments, m);
    }
  }

  /**
   * Updating a comment's content and rating moves it to no other movie: every
   * movie keeps its comments, and every movie but its own keeps its average.
   */
  lemma UpdateCommentEffect(comments: map<Id, Comment>, id: Id, request: CommentRequest)
    requires id in comments
    ensures var after := comments[id := comments[id].(content := request.content, rating := request.rate)];
      forall m ::
        && CommentsOf(after, m) == CommentsOf(comments, m)
        && (m != comments[id].movieId ==> GetAvgRatingByMovieId(after, m) == GetAvgRatingByMovieId(comments, m))
  {
    var after := comments[id := comments[id].(content := request.content, rating := request.rate)];
    forall m
      ensures CommentsOf(after, m) == CommentsOf(comments, m)
      ensures m != comments[id].movieId ==> GetAvgRatingByMovieId(after, m) == GetAvgRatingByMovieId(comments, m)
    {
      assert CommentsOf(after, m) == CommentsOf(comments, m);
      if m != comments[id].movieId {
        AvgRatingLocal(after, comments, m);
      }
    }
  }

  /** Deleting an existing comment lowers its movie's comment count by one and no other. */
  lemma DeleteCommentEffect(comments: map<Id, Comment>, id: Id, m: Id)
    requires id in comments
    ensures |CommentsOf(comments - {id}, m)|
         == |CommentsOf(comments, m)| - (if comments[id].movieId == m then 1 else 0)
  {
    if comments[id].movieId == m {
      assert CommentsOf(comments - {id}, m) == CommentsOf(comments, m) - {id};
    } else {
      assert CommentsOf(comments - {id}, m) == CommentsOf(comments, m);
    }
  }

  /**
   * With the search query left undefined the dynamic search still filters,
   * on the word "undefined": a movie titled "Inception" whose one comment is
   * rated 5 is not listed, even with no rating bound to meet.
   */
  lemma UndefinedSearchQueryFilters()
    ensures var movies := map["m1" := Movie("Inception", "", 0)];
            var comments := map["c1" := Comment("", 5, "m1")];
            && AvgRating(comments, "m1") == Some(500)
            && !DynamicMatch(movies, comments, "m1", SearchText(None), 0)
  {
    var movies := map["m1" := Movie("Inception", "", 0)];
    var comments := map["c1" := Comment("", 5, "m1")];
    assert CommentsOf(comments, "m1") == {"c1"};
    SumRatingsPick(comments, {"c1"}, "c1");
    assert {"c1"} - {"c1"} == {};
    assert AverageHundredths(5, 1) == 500;
    var title := Lower("Inception");
    var word := Lower(SearchText(None));
    assert |title| == 9 && |word| == 9 && title[0] == 'i' && word[0] == 'u';
    forall i | 0 <= i <= |title| ensures !(word <= title[i..]) {
      if i == 0 { assert word[0] != title[0]; }
    }
  }

  /**
   * The title filter as its guard evidently meant it: applied only when a
   * non-empty search query is given, so that an absent query keeps every
   * movie and a given one keeps the titles that contain it, case folded.
   */
  function IntendedTitleConditions(searchQuery: Option<string>): (ws: seq<Cond>)
    ensures forall m: Movie ::
      ((forall i :: 0 <= i < |ws| ==> Holds(ws[i], m))
       <==> (searchQuery.Some? ==> Contains(Lower(m.title), Lower(searchQuery.value))))
  {
    if searchQuery != None && searchQuery != Some("") then
      var ws := [TitleLikeFolded(searchQuery.value)];
      assert forall m: Movie ::
        (forall i :: 0 <= i < |ws| ==> Holds(ws[i], m)) <==> Contains(Lower(m.title), Lower(searchQuery.value)) by {
        forall m: Movie
          ensures (forall i :: 0 <= i < |ws| ==> Holds(ws[i], m)) <==> Contains(Lower(m.title), Lower(searchQuery.value))
        {
          assert Holds(ws[0], m) <==> Contains(Lower(m.title), Lower(searchQuery.value));
        }
      }
      ws
    else
      assert forall m: Movie :: searchQuery == Some("") ==> Contains(Lower(m.title), Lower(searchQuery.value)) by {
        forall m: Movie | searchQuery == Some("") ensures Contains(Lower(m.title), Lower(searchQuery.value)) {
          EmptyContainedEverywhere(Lower(m.title));
        }
      }
      []
  }

  /** Only the exact words are accepted as given; upper-casing first also admits "asc" and "desc". */
  lemma DirectionSpelling()
    ensures ParseDirection("asc").None? && ParseDirection(Upper("asc")) == Some(Asc)
    ensures ParseDirection("desc").None? && ParseDirection(Upper("desc")) == Some(Desc)
    ensures ParseDirection(Upper("up")).None?
  {
    assert Upper("asc") == "ASC";
    assert Upper("desc") == "DESC";
    assert Upper("up") == "UP";
  }

  class MovieService {
    var movies: map<Id, Movie>
    var comments: map<Id, Comment>

    constructor ()
      ensures movies == map[] && comments == map[]
    {
      movies, comments := map[], map[];
    }

    /** `saveMovie`: stores a new movie under a fresh id and returns the saved row. */
    method SaveMovie(request: MovieRequest) returns (id: Id, saved: Movie)
      modifies this
      ensures id !in old(IdsInUse(movies, comments))
      ensures saved == MovieFrom(request)
      ensures movies == old(movies)[id := saved] && comments == old(comments)
      ensures old(ReferencesResolve(movies, comments)) ==> ReferencesResolve(movies, comments)
    {
      ghost var unused := UnusedId(IdsInUse(movies, comments));
      id :| id !in IdsInUse(movies, comments);
      saved := MovieFrom(request);
      movies := movies[id := saved];
    }

    /**
     * `updateMovie`: overwrites title, description and release date without
     * looking the movie up first; a missing id affects no row.
     */
    method UpdateMovie(id: Id, request: MovieRequest) returns (affected: nat)
      modifies this
      ensures affected == if id in old(movies) then 1 else 0
      ensures movies == if id in old(movies) then old(movies)[id := MovieFrom(request)] else old(movies)
      ensures comments == old(comments)
      ensures old(ReferencesResolve(movies, comments)) ==> ReferencesResolve(movies, comments)
    {
      if id in movies {
        movies := movies[id := MovieFrom(request)];
        affected := 1;
      } else {
        affected := 0;
      }
    }

    /**
     * `deleteMovie`: removes the movie row without looking it up and without
     * touching its comments, which then reference a missing movie.
     */
    method DeleteMovie(id: Id)
      modifies this
      ensures movies == old(movies) - {id} && comments == old(comments)
      ensures old(ReferencesResolve(movies, comments)) ==>
        (ReferencesResolve(movies, comments) <==> CommentsOf(comments, id) == {})
    {
      movies := movies - {id};
      if CommentsOf(comments, id) != {} {
        var c :| c in CommentsOf(comments, id);
        assert comments[c].movieId !in movies;
      } else if old(ReferencesResolve(movies, comments)) {
        forall c | c in comments ensures comments[c].movieId in movies {
          assert c !in CommentsOf(comments, id);
        }
      }
    }

    /**
     * `addComment`: fails with "Movie not found" when the movie does not
     * exist; otherwise stores one new comment with the request's content and
     * rate, referencing that movie.
     */
    method AddComment(movieId: Id, request: CommentRequest) returns (r: Result<Id, Error>)
      modifies this
      ensures movies == old(movies)
      ensures r.Failure? <==> movieId !in old(movies)
      ensures r.Failure? ==> r.error == MovieNotFound && comments == old(comments)
      ensures r.Success? ==> r.value !in old(IdsInUse(movies, comments))
      ensures r.Success? ==> comments == old(comments)[r.value := Comment(request.content, request.rate, movieId)]
      ensures old(ReferencesResolve(movies, comments)) ==> ReferencesResolve(movies, comments)
    {
      if movieId !in movies {
        return Failure(MovieNotFound);
      }
      ghost var unused := UnusedId(IdsInUse(movies, comments));
      var id :| id !in IdsInUse(movies, comments);
      comments := comments[id := Comment(request.content, request.rate, movieId)];
      r := Success(id);
    }

    /**
     * `updateComment`: fails with "Comment not found" when the comment does
     * not exist; otherwise overwrites its content and rating, keeping the
     * movie it belongs to, and reports one affected row.
     */
    method UpdateComment(commentId: Id, request: CommentRequest) returns (r: Result<nat, Error>)
      modifies this
      ensures movies == old(movies)
      ensures r.Failure? <==> commentId !in old(comments)
      ensures r.Failure? ==> r.error == CommentNotFound && comments == old(comments)
      ensures r.Success? ==> r.value == 1
      ensures r.Success? ==> comments == old(comments)[commentId :=
        old(comments)[commentId].(content := request.content, rating := request.rate)]
      ensures old(ReferencesResolve(movies, comments)) ==> ReferencesResolve(movies, comments)
    {
      if commentId !in comments {
        return Failure(CommentNotFound);
      }
      var comment := comments[commentId];
      comment := comment.(content := request.content, rating := request.rate);
      comments := comments[commentId := comment];
      r := Success(1);
    }

    /** `deleteComment`: removes the comment row without looking it up. */
    method DeleteComment(commentId: Id)
      modifies this
      ensures comments == old(comments) - {commentId} && movies == old(movies)
      ensures old(ReferencesResolve(movies, comments)) ==> ReferencesResolve(movies, comments)
    {
      comments := comments - {commentId};
    }

    /**
     * `searchMoviesWithDynamicConditions`: the title filter is always set
     * (its guard holds for every query), the HAVING bound is always set, and
     * the order direction is upper-cased first. Running the finished query
     * lists, once each and by title in the requested direction, exactly the
     * movies whose lower-cased title contains the lower-cased search text and
     * that have at least one comment and an average of at least `minRating`.
     * Both the average and `minRating` are in hundredths of a rating point,
     * so the source's bound `4` is `400` here.
     */
    method SearchMoviesWithDynamicConditions(searchQuery: Option<string>, minRating: int, orderBy: string)
      returns (r: Result<Query, Error>)
      ensures r.Failure? <==> ParseDirection(Upper(orderBy)).None?
      ensures r.Failure? ==> r.error == InvalidOrderDirection
      ensures r.Success? ==> ListsDynamicMatches(Run(r.value, movies, comments), movies, comments,
                                                 SearchText(searchQuery), minRating, ParseDirection(Upper(orderBy)).value)
      ensures r.Success? ==>
        var rows := SearchRows(Run(r.value, movies, comments), movies, comments);
        forall i :: 0 <= i < |rows| ==>
          rows[i].movieRating == AvgRating(comments, rows[i].movieId).value && rows[i].movieRating >= minRating
    {
      var qb := new QueryBuilder();
      if searchQuery != None || searchQuery != Some("") {
        qb.Where(TitleLikeFolded(SearchText(searchQuery)));
      }
      qb.Having(minRating);
      var ok := qb.OrderBy(Title, Upper(orderBy));
      if !ok {
        return Failure(InvalidOrderDirection);
      }
      r := Success(qb.query);
      assert qb.query == DynamicQuery(SearchText(searchQuery), minRating, ParseDirection(Upper(orderBy)).value);
      DynamicQueryLists(movies, comments, SearchText(searchQuery), minRating, ParseDirection(Upper(orderBy)).value);
      DynamicQueryRatings(movies, comments, SearchText(searchQuery), minRating, ParseDirection(Upper(orderBy)).value);
    }

    /**
     * `getMoviesSortedByName`: every movie's id and title, once each, by
     * title. The direction is passed on as given, so only "ASC" and "DESC"
     * themselves are accepted.
     */
    method GetMoviesSortedByName(orderBy: string) returns (r: Result<Query, Error>)
      ensures r.Failure? <==> ParseDirection(orderBy).None?
      ensures r.Failure? ==> r.error == InvalidOrderDirection
      ensures r.Success? ==>
        var ids := Run(r.value, movies, comments);
        && (forall id :: id in ids <==> id in movies)
        && (forall i, j :: 0 <= i < j < |ids| ==> ids[i] != ids[j])
        && (forall i, j :: 0 <= i < j < |ids| ==>
              TitlesInOrder(movies[ids[i]].title, movies[ids[j]].title, ParseDirection(orderBy).value))
    {
      var qb := new QueryBuilder();
      var ok := qb.OrderBy(Title, orderBy);
      if !ok {
        return Failure(InvalidOrderDirection);
      }
      r := Success(qb.query);
    }

    /**
     * `searchMoviesByReleaseDate`: a lower bound when a start date is given,
     * an upper bound when an end date is given (each on its own), and the
     * upper-cased direction. Running the finished query lists, once each and
     * by release date, exactly the movies released within the given bounds.
     */
    method SearchMoviesByReleaseDate(startDate: Option<Date>, endDate: Option<Date>, orderBy: string)
      returns (r: Result<Query, Error>)
      ensures r.Failure? <==> ParseDirection(Upper(orderBy)).None?
      ensures r.Failure? ==> r.error == InvalidOrderDirection
      ensures r.Success? ==>
        var ids := Run(r.value, movies, comments);
        && (forall id :: id in ids <==> id in movies && InDateRange(movies[id], startDate, endDate))
        && (forall i, j :: 0 <= i < j < |ids| ==> ids[i] != ids[j])
        && (forall i, j :: 0 <= i < j < |ids| ==>
              DatesInOrder(movies[ids[i]].releaseDate, movies[ids[j]].releaseDate, ParseDirection(Upper(orderBy)).value))
    {
      var qb := new QueryBuilder();
      if startDate.Some? {
        qb.Where(ReleasedFrom(startDate.value));
      }
      if endDate.Some? {
        qb.AndWhere(ReleasedUntil(endDate.value));
      }
      var ok := qb.OrderBy(ReleaseDate, Upper(orderBy));
      if !ok {
        return Failure(InvalidOrderDirection);
      }
      r := Success(qb.query);
      DateQueryLists(movies, comments, qb.query, startDate, endDate);
    }
  }
}
