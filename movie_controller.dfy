/**
 * The movie handlers: each is a short chain of checks with early returns,
 * answering with one outcome and changing the store only on its last step.
 *
 * An absent request field is modelled as the empty string (both are falsy);
 * an absent vote value as `None`.  The repository's `find` and the entity
 * validator are oracles passed in by the caller.
 */
module MovieController {
  import opened Options
  import opened Ratings
  import opened Entities
  import opened Store

  /** The answer of a handler, one constructor per status it can send. */
  datatype Outcome<T> =
    | Ok(body: T)
    | Created(body: T)
    | NoContent
    | BadRequest
    | NotFound
    | Unprocessable(message: string)

  /** One equality condition of the list query. */
  datatype Filter = ByDirector(director: string) | ByTitle(title: string) | ByGenre(genre: string)

  /** A movie without its votes: the fields the handlers select. */
  datatype MovieView = MovieView(id: Option<int>, title: string, description: string, director: string, genre: string)

  /** One element of the list answer. */
  datatype MovieSummary = MovieSummary(movie: MovieView, averageRating: Rating)

  /** A string request field is truthy when it is present and not empty. */
  predicate Truthy(field: string)
    ensures Truthy(field) <==> |field| > 0
  {
    field != ""
  }

  /** A numeric request field is truthy when it is present and not zero. */
  predicate TruthyNumber(field: Option<int>)
    ensures TruthyNumber(field) ==> field.Some?
    ensures field == Some(0) ==> !TruthyNumber(field)
    ensures field.Some? && field.value != 0 ==> TruthyNumber(field)
  {
    field.Some? && field.value != 0
  }

  /** The position of a filter kind in the query: director, then title, then genre. */
  function Rank(f: Filter): nat {
    match f
    case ByDirector(_) => 0
    case ByTitle(_) => 1
    case ByGenre(_) => 2
  }

  /** The query of the list handler: one condition per truthy parameter, in the fixed order. */
  function FilterList(director: string, title: string, genre: string): (query: seq<Filter>)
    ensures query == [] <==> !Truthy(director) && !Truthy(title) && !Truthy(genre)
    ensures ByDirector(director) in query <==> Truthy(director)
    ensures ByTitle(title) in query <==> Truthy(title)
    ensures ByGenre(genre) in query <==> Truthy(genre)
    ensures forall f :: f in query ==> f == ByDirector(director) || f == ByTitle(title) || f == ByGenre(genre)
    ensures forall i, j :: 0 <= i < j < |query| ==> Rank(query[i]) < Rank(query[j])
  {
    (if Truthy(director) then [ByDirector(director)] else [])
    + (if Truthy(title) then [ByTitle(title)] else [])
    + (if Truthy(genre) then [ByGenre(genre)] else [])
  }

  /** Builds the query by pushing one condition per truthy parameter. */
  method BuildFilter(director: string, title: string, genre: string) returns (query: seq<Filter>)
    ensures query == FilterList(director, title, genre)
  {
    query := [];
    if Truthy(director) {
      query := query + [ByDirector(director)];
    }
    if Truthy(title) {
      query := query + [ByTitle(title)];
    }
    if Truthy(genre) {
      query := query + [ByGenre(genre)];
    }
  }

  /** The movie with its `votes` field dropped. */
  function View(m: Movie): (view: MovieView)
    ensures view.id == m.id && view.title == m.title && view.description == m.description
    ensures view.director == m.director && view.genre == m.genre
  {
    MovieView(m.id, m.title, m.description, m.director, m.genre)
  }

  /** The list handler's rating: the sentinel fold over the votes, never divided by the count. */
  method AccumulateListRating(votes: seq<MovieVote>) returns (rating: Rating)
    ensures rating == ListRating(VoteValues(votes))
  {
    ghost var values := VoteValues(votes);
    var averageRating := Sentinel;
    var i := 0;
    while i < |votes|
      invariant 0 <= i <= |votes|
      invariant averageRating == RunningTotal(values[..i])
    {
      assert values[..i + 1][..i] == values[..i];
      averageRating := if averageRating == Sentinel then votes[i].value else averageRating + votes[i].value;
      i := i + 1;
    }
    assert values[..i] == values;
    rating := if averageRating == Sentinel then NoVotes else Value(averageRating as real);
  }

  /** A loaded movie's list entry: the movie without votes, with the list rating. */
  function Summarize(m: Movie): (summary: MovieSummary)
    ensures summary.movie == View(m)
    ensures summary.averageRating == NoVotes <==> RunningTotal(VoteValues(m.votes)) == Sentinel
    ensures m.votes == [] ==> summary.averageRating == NoVotes
  {
    MovieSummary(View(m), ListRating(VoteValues(m.votes)))
  }

  /** The projection of the list handler: one summary per movie, in the same order. */
  method SummarizeAll(movies: seq<Movie>) returns (result: seq<MovieSummary>)
    ensures |result| == |movies|
    ensures forall i :: 0 <= i < |movies| ==> result[i] == Summarize(movies[i])
  {
    result := [];
    var i := 0;
    while i < |movies|
      invariant 0 <= i <= |movies|
      invariant |result| == i
      invariant forall k :: 0 <= k < i ==> result[k] == Summarize(movies[k])
    {
      var rating := AccumulateListRating(movies[i].votes);
      result := result + [MovieSummary(View(movies[i]), rating)];
      i := i + 1;
    }
  }

  /** List: the query built from the parameters, then one summary per movie the repository returns for it. */
  method Get(director: string, title: string, genre: string, find: seq<Filter> -> seq<Movie>)
    returns (result: seq<MovieSummary>)
    ensures var movies := find(FilterList(director, title, genre));
      |result| == |movies| && forall i :: 0 <= i < |movies| ==> result[i] == Summarize(movies[i])
  {
    var query := BuildFilter(director, title, genre);
    result := SummarizeAll(find(query));
  }

  /** Get by id: not found, or the movie's selected fields; the store is only read. */
  method GetById(store: CatalogStore, id: int) returns (out: Outcome<MovieView>)
    ensures out == NotFound <==> store.FindOne(id) == None
    ensures store.FindOne(id).Some? ==> out == Ok(View(store.FindOne(id).value))
  {
    var movie := store.FindOne(id);
    if movie.None? {
      return NotFound;
    }
    out := Ok(View(movie.value));
  }

  /** The text before the validation errors in a 422 answer. */
  const ValidationPrefix: string := "Validation error - "

  /** The validation errors written one after the other, in order. */
  function Concat(errors: seq<string>): (message: string)
    ensures errors == [] ==> message == ""
    ensures forall i :: 0 <= i < |errors| ==> |errors[i]| <= |message|
  {
    if errors == [] then "" else Concat(errors[..|errors| - 1]) + errors[|errors| - 1]
  }

  /** Concatenation distributes over joining the error lists. */
  lemma {:induction false} ConcatAppend(a: seq<string>, b: seq<string>)
    ensures Concat(a + b) == Concat(a) + Concat(b)
  {
    if b != [] {
      var n := |b| - 1;
      assert (a + b)[..|a + b| - 1] == a + b[..n];
      ConcatAppend(a, b[..n]);
    } else {
      assert a + b == a;
    }
  }

  /** Each error appears whole in the message, right after the errors before it. */
  lemma ErrorInMessage(errors: seq<string>, i: nat)
    requires i < |errors|
    ensures var message := ValidationPrefix + Concat(errors);
      var start := |ValidationPrefix| + |Concat(errors[..i])|;
      start + |errors[i]| <= |message| && message[start..start + |errors[i]|] == errors[i]
  {
    assert errors == errors[..i + 1] + errors[i + 1..];
    ConcatAppend(errors[..i + 1], errors[i + 1..]);
    assert errors[..i + 1][..i] == errors[..i];
  }

  /** Builds the 422 message by appending each error in turn. */
  method ValidationMessage(errors: seq<string>) returns (message: string)
    ensures message == ValidationPrefix + Concat(errors)
  {
    message := ValidationPrefix;
    var i := 0;
    while i < |errors|
      invariant 0 <= i <= |errors|
      invariant message == ValidationPrefix + Concat(errors[..i])
    {
      assert errors[..i + 1][..i] == errors[..i];
      message := message + errors[i];
      i := i + 1;
    }
    assert errors[..i] == errors;
  }

  /**
   * Create: a missing title or description is a bad request; otherwise the
   * movie is built with no votes, and saved unless the validator reports errors.
   */
  method Create(store: CatalogStore, title: string, description: string, director: string, genre: string,
                validate: Movie -> seq<string>)
    returns (out: Outcome<Movie>)
    requires store.Valid()
    modifies store
    ensures store.Valid()
    ensures var movie := NewMovie(title, description, director, genre, []);
      if !(Truthy(title) && Truthy(description)) then
        out == BadRequest && unchanged(store)
      else if validate(movie) != [] then
        out == Unprocessable(ValidationPrefix + Concat(validate(movie))) && unchanged(store)
      else
        && out == Created(movie.(id := Some(old(store.nextMovieId))))
        && old(store.nextMovieId) !in old(store.movies)
        && store.movies == old(store.movies)[old(store.nextMovieId) := out.body]
        && store.nextMovieId == old(store.nextMovieId) + 1
        && store.deleted == old(store.deleted) && store.users == old(store.users)
        && store.nextVoteId == old(store.nextVoteId)
  {
    if !(Truthy(title) && Truthy(description)) {
      return BadRequest;
    }
    var movie := NewMovie(title, description, director, genre, []);
    var errors := validate(movie);
    if |errors| > 0 {
      var message := ValidationMessage(errors);
      return Unprocessable(message);
    }
    var created := store.SaveMovie(movie);
    out := Created(created);
  }

  /**
   * Vote, checked in this order: the movie must be found, the value truthy,
   * the user found and the vote free of validation errors; only then is
   * exactly one vote saved.
   */
  method Vote(store: CatalogStore, movieId: int, value: Option<int>, userId: int,
              validate: MovieVote -> seq<string>)
    returns (out: Outcome<MovieVote>)
    requires store.Valid()
    modifies store
    ensures store.Valid()
    ensures var found := old(store.FindOne(movieId));
      if found.None? then
        out == NotFound && unchanged(store)
      else if !TruthyNumber(value) then
        out == BadRequest && unchanged(store)
      else if userId !in old(store.users) then
        out == NotFound && unchanged(store)
      else
        var vote := NewMovieVote(User(userId), found.value, value.value);
        if validate(vote) != [] then
          out == Unprocessable(ValidationPrefix + Concat(validate(vote))) && unchanged(store)
        else
          && out == Created(vote.(id := Some(old(store.nextVoteId))))
          && store.movies == old(store.movies)[movieId :=
               old(store.movies)[movieId].(votes := old(store.movies)[movieId].votes + [out.body])]
          && store.nextVoteId == old(store.nextVoteId) + 1
          && store.deleted == old(store.deleted) && store.users == old(store.users)
          && store.nextMovieId == old(store.nextMovieId)
  {
    var movie := store.FindOne(movieId);
    if movie.None? {
      return NotFound;
    }
    if !TruthyNumber(value) {
      return BadRequest;
    }
    if userId !in store.users {
      return NotFound;
    }
    var user := User(userId);
    var movieVote := NewMovieVote(user, movie.value, value.value);
    var errors := validate(movieVote);
    if |errors| > 0 {
      var message := ValidationMessage(errors);
      return Unprocessable(message);
    }
    var created := store.SaveVote(movieVote);
    out := Created(created);
  }

  /** Delete: not found, or the movie is soft-deleted once and the answer has no content. */
  method Delete(store: CatalogStore, id: int) returns (out: Outcome<()>)
    requires store.Valid()
    modifies store
    ensures store.Valid()
    ensures old(store.FindOne(id)).None? ==> out == NotFound && unchanged(store)
    ensures old(store.FindOne(id)).Some? ==>
      && out == NoContent
      && store.deleted == old(store.deleted) + {id}
      && store.movies == old(store.movies) && store.users == old(store.users)
      && store.nextMovieId == old(store.nextMovieId) && store.nextVoteId == old(store.nextVoteId)
  {
    var movie := store.FindOne(id);
    if movie.None? {
      return NotFound;
    }
    store.SoftDelete(id);
    out := NoContent;
  }

  /**
   * Under a store that hides soft-deleted movies, a deleted movie can be
   * neither read nor voted on afterwards, and its votes stay stored.
   */
  method DeleteThenRead(store: CatalogStore, id: int, value: Option<int>, userId: int,
                        validate: MovieVote -> seq<string>)
    returns (read: Outcome<MovieView>, voted: Outcome<MovieVote>)
    requires store.Valid() && store.hidesDeleted && id in store.movies
    modifies store
    ensures read == NotFound && voted == NotFound
    ensures store.movies == old(store.movies)
  {
    var deleted := Delete(store, id);
    read := GetById(store, id);
    voted := Vote(store, id, value, userId, validate);
  }
}
