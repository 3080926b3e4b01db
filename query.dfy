/**
 * The query builder the search operations drive, and what running the
 * finished query yields.
 *
 * A builder starts as "every movie, grouped with its comments". `Where`
 * replaces the filter list, `AndWhere` adds one more condition, `Having`
 * sets the condition on the group's rounded average rating, and `OrderBy`
 * sets the sort column and direction, refusing any direction other than
 * "ASC" or "DESC" as TypeORM's `orderBy` does.
 *
 * Running a query keeps the movies that satisfy every condition and lists
 * their ids in the requested order; rows that tie on the sort column come in
 * an order the model leaves open.
 */
module Query {
  import opened Wrappers
  import opened Text
  import opened Store

  datatype Direction = Asc | Desc

  /** The direction a text names; only the exact words "ASC" and "DESC" are accepted. */
  function ParseDirection(s: string): (r: Option<Direction>)
    ensures r == Some(Asc) <==> s == "ASC"
    ensures r == Some(Desc) <==> s == "DESC"
    ensures r.None? <==> s != "ASC" && s != "DESC"
  {
    if s == "ASC" then Some(Asc) else if s == "DESC" then Some(Desc) else None
  }

  datatype Column = Title | ReleaseDate

  datatype Order = Order(column: Column, direction: Direction)

  /** The WHERE conditions the service composes. */
  datatype Cond =
    | TitleLikeFolded(pattern: string)   // LOWER(movie.title) LIKE LOWER('%pattern%')
    | ReleasedFrom(start: Date)          // movie.releaseDate >= start
    | ReleasedUntil(end: Date)           // movie.releaseDate <= end

  predicate Holds(c: Cond, m: Movie) {
    match c
    case TitleLikeFolded(p) => Contains(Lower(m.title), Lower(p))
    case ReleasedFrom(d) => m.releaseDate >= d
    case ReleasedUntil(d) => m.releaseDate <= d
  }

  /** A finished query: its WHERE conditions, its HAVING bound (hundredths) and its ORDER BY. */
  datatype Query = Query(wheres: seq<Cond>, having: Option<int>, order: Option<Order>)

  /** The query builder, whose clauses the service sets one call at a time. */
  class QueryBuilder {
    var query: Query

    constructor ()
      ensures query == Query([], None, None)
    {
      query := Query([], None, None);
    }

    method Where(c: Cond)
      modifies this
      ensures query == old(query).(wheres := [c])
    {
      query := query.(wheres := [c]);
    }

    method AndWhere(c: Cond)
      modifies this
      ensures query == old(query).(wheres := old(query).wheres + [c])
    {
      query := query.(wheres := query.wheres + [c]);
    }

    method Having(minRating: int)
      modifies this
      ensures query == old(query).(having := Some(minRating))
    {
      query := query.(having := Some(minRating));
    }

    /** Sets the ORDER BY, or fails and leaves the query as it was when `direction` is not "ASC" or "DESC". */
    method OrderBy(column: Column, direction: string) returns (ok: bool)
      modifies this
      ensures ok <==> ParseDirection(direction).Some?
      ensures ok ==> query == old(query).(order := Some(Order(column, ParseDirection(direction).value)))
      ensures !ok ==> query == old(query)
    {
      var d := ParseDirection(direction);
      ok := d.Some?;
      if ok {
        query := query.(order := Some(Order(column, d.value)));
      }
    }
  }

  /** Movie `a` may come before movie `b` under the sort column and direction. */
  predicate KeyLe(a: Movie, b: Movie, column: Column) {
    match column
    case Title => LexLe(a.title, b.title)
    case ReleaseDate => a.releaseDate <= b.releaseDate
  }

  predicate InOrder(a: Movie, b: Movie, o: Option<Order>) {
    match o
    case None => true
    case Some(Order(column, Asc)) => KeyLe(a, b, column)
    case Some(Order(column, Desc)) => KeyLe(b, a, column)
  }

  lemma InOrderTotal(a: Movie, b: Movie, o: Option<Order>)
    ensures InOrder(a, b, o) || InOrder(b, a, o)
  {
    if o.Some? && o.value.column == Title { LexLeTotal(a.title, b.title); }
  }

  lemma InOrderTransitive(a: Movie, b: Movie, c: Movie, o: Option<Order>)
    requires InOrder(a, b, o) && InOrder(b, c, o)
    ensures InOrder(a, c, o)
  {
    if o.Some? && o.value.column == Title {
      if o.value.direction == Asc {
        LexLeTransitive(a.title, b.title, c.title);
      } else {
        LexLeTransitive(c.title, b.title, a.title);
      }
    }
  }

  /** `f` may come first among `ids`. */
  ghost predicate IsFirst(f: Id, ids: set<Id>, movies: map<Id, Movie>, o: Option<Order>)
    requires ids <= movies.Keys && f in movies
  {
    forall j :: j in ids ==> InOrder(movies[f], movies[j], o)
  }

  /** Every non-empty set of movies has a movie that may come first. */
  lemma {:induction false} FirstExists(ids: set<Id>, movies: map<Id, Movie>, o: Option<Order>)
    requires ids <= movies.Keys && ids != {}
    ensures exists f :: f in ids && IsFirst(f, ids, movies, o)
    decreases ids
  {
    var x :| x in ids;
    var rest := ids - {x};
    if rest == {} {
      assert ids == {x};
      InOrderTotal(movies[x], movies[x], o);
      assert IsFirst(x, ids, movies, o);
    } else {
      FirstExists(rest, movies, o);
      var f :| f in rest && IsFirst(f, rest, movies, o);
      InOrderTotal(movies[x], movies[f], o);
      if InOrder(movies[x], movies[f], o) {
        forall j | j in ids ensures InOrder(movies[x], movies[j], o) {
          if j == x {
            InOrderTotal(movies[x], movies[x], o);
          } else {
            InOrderTransitive(movies[x], movies[f], movies[j], o);
          }
        }
        assert IsFirst(x, ids, movies, o);
      } else {
        assert IsFirst(f, ids, movies, o);
      }
    }
  }

  /** The ids of `ids`, each once, listed in the order `o`. */
  ghost function Ordered(ids: set<Id>, movies: map<Id, Movie>, o: Option<Order>): (r: seq<Id>)
    requires ids <= movies.Keys
    ensures |r| == |ids|
    ensures forall x :: x in r <==> x in ids
    ensures forall i, j :: 0 <= i < j < |r| ==> r[i] != r[j]
    ensures forall i, j :: 0 <= i < j < |r| ==> InOrder(movies[r[i]], movies[r[j]], o)
    decreases ids
  {
    if ids == {} then []
    else
      FirstExists(ids, movies, o);
      var f :| f in ids && IsFirst(f, ids, movies, o);
      [f] + Ordered(ids - {f}, movies, o)
  }

  /** The movie passes the query's WHERE conditions and its HAVING bound. */
  ghost predicate Admits(q: Query, movies: map<Id, Movie>, comments: map<Id, Comment>, id: Id)
    requires id in movies
  {
    && (forall i :: 0 <= i < |q.wheres| ==> Holds(q.wheres[i], movies[id]))
    && (q.having.Some? ==> AvgRating(comments, id).Some? && AvgRating(comments, id).value >= q.having.value)
  }

  /** `getRawMany`: the ids of the admitted movies, one per movie, in the query's order. */
  ghost function Run(q: Query, movies: map<Id, Movie>, comments: map<Id, Comment>): (r: seq<Id>)
    ensures forall x :: x in r <==> x in movies && Admits(q, movies, comments, x)
    ensures forall i, j :: 0 <= i < j < |r| ==> r[i] != r[j]
    ensures forall i, j :: 0 <= i < j < |r| ==> InOrder(movies[r[i]], movies[r[j]], q.order)
  {
    Ordered((set id | id in movies && Admits(q, movies, comments, id)), movies, q.order)
  }
}
