/**
 * The two persisted entities: a movie with its votes, and one user's vote on
 * one movie.  Both are plain records whose constructors assign the given
 * fields; the identifier is left unset until the store assigns one.
 */
module Entities {
  import opened Options
  import opened Ratings

  /** The voting user, reduced to its identifier (the user entity is not part of this model). */
  datatype User = User(id: int)

  /** A movie; `votes` is the one-to-many side of `MovieVote.movie`. */
  datatype Movie = Movie(
    id: Option<int>,
    title: string,
    description: string,
    director: string,
    genre: string,
    votes: seq<MovieVote>)

  /** A vote: its value, the user who cast it and the movie it is on. */
  datatype MovieVote = MovieVote(id: Option<int>, value: int, user: User, movie: Movie)

  /** The movie constructor: stores the five arguments unchanged and validates nothing. */
  function NewMovie(title: string, description: string, director: string, genre: string, votes: seq<MovieVote>): (m: Movie)
    ensures m.id == None
    ensures m.title == title && m.description == description
    ensures m.director == director && m.genre == genre && m.votes == votes
  {
    Movie(None, title, description, director, genre, votes)
  }

  /** The vote constructor: stores value, user and movie as given, with no bound on the value. */
  function NewMovieVote(user: User, movie: Movie, value: int): (v: MovieVote)
    ensures v.id == None
    ensures v.value == value && v.user == user && v.movie == movie
  {
    MovieVote(None, value, user, movie)
  }

  /** The values of a list of votes, in order. */
  function VoteValues(votes: seq<MovieVote>): (values: seq<int>)
    ensures |values| == |votes|
    ensures forall i :: 0 <= i < |votes| ==> values[i] == votes[i].value
  {
    seq(|votes|, i requires 0 <= i < |votes| => votes[i].value)
  }

  /**
   * The movie's own average: one pass over the votes counting them and
   * folding their values from the sentinel, then the total divided by the
   * count, or "no votes" when the total is the sentinel.
   */
  method CalculateAverageRating(movie: Movie) returns (rating: Rating)
    ensures rating == AverageRating(VoteValues(movie.votes))
  {
    ghost var values := VoteValues(movie.votes);
    var ratingSum := Sentinel;
    var counter := 0;
    var i := 0;
    while i < |movie.votes|
      invariant 0 <= i <= |movie.votes|
      invariant counter == i
      invariant ratingSum == RunningTotal(values[..i])
    {
      assert values[..i + 1][..i] == values[..i];
      counter := counter + 1;
      ratingSum := if ratingSum == Sentinel then movie.votes[i].value else ratingSum + movie.votes[i].value;
      i := i + 1;
    }
    assert values[..i] == values;
    rating := if ratingSum == Sentinel then NoVotes else Value(ratingSum as real / counter as real);
  }
}
