/**
 * The catalogue store the handlers talk to: movies by identifier, the set of
 * soft-deleted identifiers, the known users and the next identifiers to
 * assign.  Soft deletion keeps a movie and its votes in the store.
 *
 * Whether a soft-deleted movie is still found by a lookup is not decided by
 * the entity (it declares no deletion-date column); `hidesDeleted` states it
 * as an assumption about the store.
 */
module Store {
  import opened Options
  import opened Entities

  /** Every vote in `votes` refers to the movie stored under `id`. */
  ghost predicate VotesBelongTo(votes: seq<MovieVote>, id: int) {
    forall i :: 0 <= i < |votes| ==> votes[i].movie.id == Some(id)
  }

  class CatalogStore {
    var movies: map<int, Movie>
    var deleted: set<int>
    var users: set<int>
    var nextMovieId: int
    var nextVoteId: int
    const hidesDeleted: bool

    /** Stored movies carry their own key, keys are below the next identifier, votes sit under their movie. */
    ghost predicate Valid()
      reads this
    {
      && 0 < nextMovieId
      && 0 < nextVoteId
      && deleted <= movies.Keys
      && (forall id :: id in movies ==> 0 < id < nextMovieId && movies[id].id == Some(id))
      && (forall id :: id in movies ==> VotesBelongTo(movies[id].votes, id))
    }

    constructor (users: set<int>, hidesDeleted: bool)
      ensures Valid()
      ensures movies == map[] && deleted == {} && this.users == users
      ensures this.hidesDeleted == hidesDeleted
    {
      movies := map[];
      deleted := {};
      this.users := users;
      nextMovieId := 1;
      nextVoteId := 1;
      this.hidesDeleted := hidesDeleted;
    }

    /** A lookup by identifier, under the store's visibility rule for soft-deleted movies. */
    function FindOne(id: int): (found: Option<Movie>)
      reads this
      ensures found.Some? <==> id in movies && !(hidesDeleted && id in deleted)
      ensures found.Some? ==> found.value == movies[id]
    {
      if id in movies && !(hidesDeleted && id in deleted) then Some(movies[id]) else None
    }

    /** Inserts a new movie under a fresh identifier and returns it with that identifier set. */
    method SaveMovie(movie: Movie) returns (saved: Movie)
      requires Valid()
      requires movie.id == None && movie.votes == []
      modifies this
      ensures Valid()
      ensures saved == movie.(id := Some(old(nextMovieId)))
      ensures old(nextMovieId) !in old(movies)
      ensures movies == old(movies)[old(nextMovieId) := saved]
      ensures nextMovieId == old(nextMovieId) + 1
      ensures deleted == old(deleted) && users == old(users) && nextVoteId == old(nextVoteId)
    {
      saved := movie.(id := Some(nextMovieId));
      movies := movies[nextMovieId := saved];
      nextMovieId := nextMovieId + 1;
    }

    /** Inserts a new vote under a fresh identifier, as the last vote of the movie it refers to. */
    method SaveVote(vote: MovieVote) returns (saved: MovieVote)
      requires Valid()
      requires vote.id == None && vote.movie.id.Some? && vote.movie.id.value in movies
      modifies this
      ensures Valid()
      ensures saved == vote.(id := Some(old(nextVoteId)))
      ensures var mid := vote.movie.id.value;
        movies == old(movies)[mid := old(movies)[mid].(votes := old(movies)[mid].votes + [saved])]
      ensures nextVoteId == old(nextVoteId) + 1
      ensures deleted == old(deleted) && users == old(users) && nextMovieId == old(nextMovieId)
    {
      var mid := vote.movie.id.value;
      saved := vote.(id := Some(nextVoteId));
      movies := movies[mid := movies[mid].(votes := movies[mid].votes + [saved])];
      nextVoteId := nextVoteId + 1;
    }

    /** Marks a stored movie as deleted; the movie and its votes stay in the store. */
    method SoftDelete(id: int)
      requires Valid() && id in movies
      modifies this
      ensures Valid()
      ensures deleted == old(deleted) + {id}
      ensures movies == old(movies) && users == old(users)
      ensures nextMovieId == old(nextMovieId) && nextVoteId == old(nextVoteId)
    {
      deleted := deleted + {id};
    }
  }
}
