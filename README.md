# Movie service model

A Dafny model of the business layer of a small movie-review backend: the
`MovieService` class, which stores movies and their comments, checks that a
referenced row exists before some writes, and builds the reporting queries
(comment counts per movie, rounded average ratings, a five-band grade, a
dynamic title/rating search, a title listing and a release-date search).

The relational store is modelled as two finite maps, movie id to
`(title, description, releaseDate)` and comment id to
`(content, rating, movieId)`. The SQL the service issues is modelled by what
it returns over those maps:

- `wrappers.dfy`: `Option` and `Result`.
- `text.dfy`: the blank-title test (`trim()`), substring containment (what
  `LIKE '%x%'` matches), ASCII `LOWER`/`toUpperCase`, and character-code
  order on titles, with its order laws.
- `ratings.dfy`: `ROUND(AVG(rating), 2)` as an integer number of hundredths
  (half away from zero), and the grade `CASE` with thresholds 410, 300, 200
  and 100.
- `store.dfy`: the entities, the requests, the errors, and the per-movie
  comment set, rating sum and average (NULL when a movie has no comments).
- `reports.dfy`: the read operations as functions of the two maps.
- `query.dfy`: the query builder (`where`, `andWhere`, `having`, `orderBy`)
  as a class, and `Run`, what `getRawMany` yields for a finished query.
- `service.dfy`: the `MovieService` class with the six write operations and
  the three query-building operations, and lemmas relating operations.

The model follows the code in three places where a reader might expect
otherwise: the title lookup is a plain `LIKE` (case-sensitive containment),
the rating bound of the dynamic search compares the un-coalesced average (so
a movie without comments is never listed), and the title listing passes its
direction on without upper-casing it.

## Model

| member | source | states |
|---|---|---|
| Text.TrimEmptyIffBlank | src/movie/service/movie.service.ts:45 | `title.trim() === ''` holds exactly when every character of the title is whitespace |
| Ratings.RoundDiv | src/movie/service/movie.service.ts:99 | the rounded value is the integer nearest to the exact quotient, a half rounded away from zero |
| Ratings.AverageWithin | src/movie/service/movie.service.ts:121 | a rounded average of values between lo and hi stays between 100·lo and 100·hi hundredths |
| Ratings.GradeOf | src/movie/service/movie.service.ts:133-139 | the five bands leave no gap: "No Rating" exactly below 1.00 or above 5.00 |
| Ratings.GradeMonotone | src/movie/service/movie.service.ts:133-139 | between 1.00 and 5.00 a higher rating never gets a worse grade |
| Ratings.GradeBoundaries | src/movie/service/movie.service.ts:133-139 | the grade on each side of every threshold (5.00/5.01, 4.10/4.09, 3.00/2.99, 2.00/1.99, 1.00/0.99, 0) |
| Ratings.ValidAverageIsGraded | src/movie/service/movie.service.ts:133-139 | an average of ratings on the 1 to 5 scale always gets one of the four real grades |
| Store.AvgRating | src/movie/service/movie.service.ts:99 | `ROUND(AVG(rating), 2)` is NULL exactly when the movie has no comments |
| Store.CoalescedAvgRating | src/movie/service/movie.service.ts:100 | with NULL read as 0: 0 for a movie without comments, otherwise its actual average |
| Store.AvgRatingOnScale | src/movie/service/movie.service.ts:99 | when the movie's own ratings are on the 1 to 5 scale, its average lies between 1.00 and 5.00 |
| Store.AvgRatingLocal | src/movie/service/movie.service.ts:99 | a movie's average depends only on the comments that reference it |
| Store.AddCommentGroups | src/movie/service/movie.service.ts:104 | a new comment is counted under its own movie and no other |
| Store.AddCommentSum | src/movie/service/movie.service.ts:121 | a new comment adds its rating to its movie's rating sum |
| Reports.GetMovies | src/movie/service/movie.service.ts:28-32 | one entry per movie, each with exactly the comments that reference it |
| Reports.CommentAttachedOnce | src/movie/service/movie.service.ts:28-32 | a comment appears under the movie it references and under no other movie |
| Reports.GetMovieById | src/movie/service/movie.service.ts:33-38 | present exactly when the id exists, and then equal to that movie's entry in `getMovies` |
| Reports.GetCommentById | src/movie/service/movie.service.ts:75-79 | present exactly when the id exists, and then the stored comment |
| Reports.GetMoviesByTitle | src/movie/service/movie.service.ts:43-58 | fails exactly for an empty or blank title, always with "Failed to fetch movies by title"; otherwise exactly the stored movies whose title contains the text |
| Reports.GetAvgRatingByMovieId | src/movie/service/movie.service.ts:98-101 | 0 for a movie without comments; between 1.00 and 5.00 for a commented movie whose ratings are on the 1 to 5 scale |
| Reports.GetTotalCommentFromEachMovie | src/movie/service/movie.service.ts:103-106 | exactly one row per movie, uncommented movies included, counting the comments that reference it |
| Reports.GetMoviesWithRatingsAndGrades | src/movie/service/movie.service.ts:108-145 | exactly one row per movie, uncommented movies included, with the same rating `getAvgRatingByMovieId` gives |
| Reports.UncommentedMovieNotRated | src/movie/service/movie.service.ts:121 | a movie without comments is reported with rating 0 and grade "No Rating" |
| Reports.CommentedMovieGraded | src/movie/service/movie.service.ts:116-145 | a commented movie whose ratings are on the 1 to 5 scale gets a rating in 1.00 to 5.00 and a real grade |
| Reports.InceptionAverages | src/movie/service/movie.service.ts:99 | two comments rated 5 and 3 average 4.00; a movie nobody commented on has no comments |
| Reports.InceptionScenario | src/movie/service/movie.service.ts:116-145 | ratings 5 and 3 give 4.00 and "Good"; no comments give 0 and "No Rating" |
| Query.ParseDirection | src/movie/service/movie.service.ts:164 | only "ASC" and "DESC" name a direction |
| Query.QueryBuilder.constructor | src/movie/service/movie.service.ts:148-154 | a new builder has no condition, no bound and no order |
| Query.QueryBuilder.Where | src/movie/service/movie.service.ts:157 | `where` replaces the condition list with the one condition |
| Query.QueryBuilder.AndWhere | src/movie/service/movie.service.ts:187 | `andWhere` appends a condition and keeps the others |
| Query.QueryBuilder.Having | src/movie/service/movie.service.ts:161 | `having` sets the bound on the average rating |
| Query.QueryBuilder.OrderBy | src/movie/service/movie.service.ts:164 | sets the order when the direction is "ASC" or "DESC"; otherwise fails and changes nothing |
| Query.Ordered | src/movie/service/movie.service.ts:164 | lists each given movie once, sorted by the order's column in its direction |
| Query.Run | src/movie/service/movie.service.ts:166 | lists exactly the movies that pass every condition and the bound, once each, in the query's order |
| Service.DynamicQueryAdmits | src/movie/service/movie.service.ts:156-162 | the finished dynamic query admits exactly the movies with a folded title match and an existing average of at least `minRating` |
| Service.DynamicQueryLists | src/movie/service/movie.service.ts:147-167 | running it lists exactly those movies, once each, by title in the given direction |
| Service.DynamicQueryRatings | src/movie/service/movie.service.ts:152 | every listed rating is a real average (never the 0 standing for NULL) and meets `minRating` |
| Service.DateQueryAdmits | src/movie/service/movie.service.ts:181-188 | a start date alone, an end date alone, both or neither admit exactly the movies released within the given bounds |
| Service.DateQueryLists | src/movie/service/movie.service.ts:180-194 | a query of the given date bounds lists exactly the movies released within them, once each, by date |
| Service.SaveThenGet | src/movie/service/movie.service.ts:12-38 | a saved movie reads back with the request's title, description and release date, and no comments |
| Service.AddCommentEffect | src/movie/service/movie.service.ts:61-73 | adding a comment raises its movie's count by one and rating sum by its rating; other movies keep comments and averages |
| Service.UpdateCommentEffect | src/movie/service/movie.service.ts:81-91 | updating a comment keeps every movie's comments and every other movie's average |
| Service.DeleteCommentEffect | src/movie/service/movie.service.ts:93-95 | deleting a comment lowers its own movie's count by one and no other |
| Service.UndefinedSearchQueryFilters | src/movie/service/movie.service.ts:156-158 | an undefined search query filters on the word "undefined", excluding "Inception" |
| Service.IntendedTitleConditions | src/movie/service/movie.service.ts:156-158 | the guarded filter keeps every movie when no query is given, and the matching titles otherwise |
| Service.DirectionSpelling | src/movie/service/movie.service.ts:164-191 | "asc"/"desc" are accepted after upper-casing and refused when passed on as given |
| Service.MovieService.constructor | src/movie/service/movie.service.ts:11 | a new service starts from empty tables |
| Service.MovieService.SaveMovie | src/movie/service/movie.service.ts:12-18 | stores the request's fields under a fresh id; comments unchanged |
| Service.MovieService.UpdateMovie | src/movie/service/movie.service.ts:20-26 | no existence check: overwrites the fields of an existing movie, a missing id affects no row; comments unchanged |
| Service.MovieService.DeleteMovie | src/movie/service/movie.service.ts:39-41 | no existence check, no cascade: removes only the movie row; references still resolve exactly when it had no comments |
| Service.MovieService.AddComment | src/movie/service/movie.service.ts:61-73 | fails with "Movie not found" and changes nothing when the movie is missing; otherwise adds exactly one comment with the request's content and rate referencing that movie; movies unchanged |
| Service.MovieService.UpdateComment | src/movie/service/movie.service.ts:81-91 | fails with "Comment not found" and changes nothing when the comment is missing; otherwise changes only its content and rating, keeping its movie and every other row |
| Service.MovieService.DeleteComment | src/movie/service/movie.service.ts:93-95 | removes only that comment row; movies unchanged |
| Service.MovieService.SearchMoviesWithDynamicConditions | src/movie/service/movie.service.ts:147-167 | fails unless the upper-cased direction is ASC or DESC; otherwise lists exactly the movies whose lower-cased title contains the lower-cased search text and that have comments averaging at least `minRating`, once each, by title |
| Service.MovieService.GetMoviesSortedByName | src/movie/service/movie.service.ts:169-172 | fails unless the direction is exactly ASC or DESC; otherwise lists every movie once, by title |
| Service.MovieService.SearchMoviesByReleaseDate | src/movie/service/movie.service.ts:174-195 | fails unless the upper-cased direction is ASC or DESC; otherwise lists exactly the movies within the given bounds, once each, by release date |

## Findings

| source | as written | input that shows it | evidently intended | confidence | as-written member | corrected member |
|---|---|---|---|---|---|---|
| src/movie/service/movie.service.ts:156-158 | the guard joins three "is given" tests with a logical OR, so it always holds and the pattern is built even from an undefined query | `searchQuery` undefined: the pattern is `%undefined%` and a movie titled "Inception" is not listed | apply the title filter only when a non-empty query is given (a logical AND) | high, not executed | Service.UndefinedSearchQueryFilters | Service.IntendedTitleConditions |

`SearchMoviesWithDynamicConditions` keeps the behaviour as written, since that
is what the service does; `IntendedTitleConditions` is the guarded filter.
The same `||` guard on `minRating` (line 160) makes the HAVING clause
unconditional too.

## Left out

- Service.MovieService.SearchMoviesWithDynamicConditions: returns the finished query rather than its rows; the rows are `Run` of that query over the tables (the SQL engine is not modelled), and rows that tie on the title come in an order the model leaves open.
- Service.MovieService.GetMoviesSortedByName: returns the finished query rather than its rows, as above.
- Service.MovieService.SearchMoviesByReleaseDate: returns the finished query rather than its rows, as above.
- Service.MovieService.SearchMoviesWithDynamicConditions: takes `minRating` as always present; what the always-applied HAVING clause does with an undefined bound is up to the store. A bound finer than hundredths is not modelled.
- An undefined order direction is not modelled (TypeORM's `orderBy` would default it to ascending in the title listing; the other two searches would fail on `toUpperCase`); the direction is always a string.
- A `null` search query (interpolated as "null") is not modelled; `None` stands for undefined.
- Reports.GetMoviesByTitle: the title is always a string; the `!title` refusal of an undefined or `null` title is not modelled.
- `LIKE` wildcards: a `%` or `_` inside the search text is treated as an ordinary character.
- `LOWER` and `toUpperCase` are modelled on the ASCII letters only.
- Title order is character-code order; the store's collation is not modelled.
- Whether `LIKE` in the title lookup ignores case depends on the store's collation; the model uses case-sensitive containment.
- Ratings are integers and averages exact hundredths; floating point and the intermediate precision of `AVG` are not modelled. `ROUND` is assumed to round a half away from zero.
- Values the database driver returns as strings (counts, numeric averages) are modelled as numbers.
- Release dates are day numbers; parsing of date strings and invalid dates are not modelled. An empty start or end date string is falsy and modelled as an absent bound.
- Id generation: a new id is any id not used by a row or a reference; the UUID format is not modelled.
- Deleting a movie removes only its row; whether the store's foreign key then rejects the delete or cascades is not modelled.
- Failures of the store itself (connection errors, constraint violations) and their propagation are not modelled; the title lookup's catch-all turns them into the same generic error as a blank title.
- `async`/`await`, the non-atomic look-up-then-write of `addComment` and `updateComment` (each call is one sequential step), and the `console.error` logging.
- Request bodies with missing fields (which TypeORM's `update` would skip) are not modelled; requests carry every field.
- src/index.ts (HTTP bootstrap, middleware, the greeting route, database initialisation and listening) is not part of this model.
