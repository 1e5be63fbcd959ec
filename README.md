# Movie catalogue: rating aggregation, use cases and roles

A Dafny model of the core of a small movie catalogue service written in
TypeScript: the `Movie` and `MovieVote` entities, the rating each read path
computes from a movie's votes, the five request handlers of the movie
controller (list, get by id, create, vote, delete) and the role check.

- `ratings.dfy` (module `Ratings`): the sentinel fold both read paths use.
  The running total starts at -1, and -1 means "nothing accumulated yet": a
  vote arriving while the total is -1 replaces it, and a final total of -1 is
  reported as "no votes". The entity divides the total by the vote count; the
  list handler reports the total undivided. `RunningTotal` is the
  specification of the fold; `Mean` is an independent reference (the plain
  arithmetic mean). The lemmas show where the two agree (non-negative votes)
  and where they do not (a total passing through -1), and how the two read
  paths relate.
- `entities.dfy` (module `Entities`): the two entities as records, their
  constructors, and `CalculateAverageRating`, the entity's loop, proved equal
  to the fold's specification.
- `store.dfy` (module `Store`): the abstract catalogue store the handlers use,
  a class holding the movies by identifier, the soft-deleted identifiers, the
  known users and the next identifiers to assign.
- `movie_controller.dfy` (module `MovieController`): the handlers as methods
  returning an `Outcome` (Ok, Created, NoContent, BadRequest, NotFound,
  Unprocessable with its message). Each handler's contract states which
  outcome every input produces and exactly what changes in the store in each
  branch: nothing, except on the last step of create, vote and delete.
- `roles.dfy` (module `Roles`): the role table and `Verify`.
- `options.dfy` (module `Options`): the `Option` datatype.

The model follows the code as written where a cleaner design would differ:
both read paths use the sentinel fold, and the list path does not divide by
the vote count; a vote value of 0 is rejected by the falsy check, like an
absent value; the list filters are handed to the repository as a list, whose
reading by the repository is not modelled.

## Model

| member | source | states |
|---|---|---|
| `Ratings.Step` | src/entities/Movie.ts:56 | one fold step: a total equal to -1 is replaced by the vote, any other total is increased by it |
| `Ratings.RunningTotal` | src/entities/Movie.ts:51-57 | the fold over the votes from -1 (also MovieController.ts:59-62); the empty list totals -1, a non-empty list of non-negative votes a non-negative total |
| `Ratings.AverageRating` | src/entities/Movie.ts:51-59 | an empty vote list is reported as "no votes" |
| `Ratings.ListRating` | src/controllers/MovieController.ts:59-64 | the list path also reports "no votes" for an empty vote list |
| `Ratings.RunningTotalAppend` | src/entities/Movie.ts:54-57 | a vote arriving while the total is -1 replaces the total; otherwise it is added |
| `Ratings.TotalSinceLastReset` | src/entities/Movie.ts:51-57 | sentinel collision: once the total hits -1 after k votes, the final total is only the sum of the votes from k on; earlier votes are lost |
| `Ratings.TotalWithoutReset` | src/entities/Movie.ts:51-57 | if no proper prefix totals -1, the fold equals the plain sum |
| `Ratings.NonNegativeTotalIsSum` | src/entities/Movie.ts:54-57 | with non-negative votes the total never collides with -1 and equals the (non-negative) sum |
| `Ratings.AverageOfNonNegativeIsMean` | src/entities/Movie.ts:54-59 | with non-negative votes the entity reports the arithmetic mean (sum over count, "no votes" only when empty) and the list path the sum |
| `Ratings.SingleMinusOneReadsAsNoVotes` | src/entities/Movie.ts:51-59 | a single vote of -1 is reported as "no votes" by both paths, though its mean is -1 |
| `Ratings.CollisionMakesOrderMatter` | src/entities/Movie.ts:54-59 | votes 3, -4, 5 average to 5/3 but 3, 5, -4 to 4/3, while both have mean 4/3: the result depends on vote order |
| `Ratings.ReadPathsAgreeOnNoVotes` | src/controllers/MovieController.ts:59-64 | both paths report "no votes" for exactly the same lists, those whose total is -1 |
| `Ratings.AverageIsListRatingOverCount` | src/controllers/MovieController.ts:59-64 | when the list path reports a number, the list is non-empty and the entity reports that number divided by the vote count |
| `Ratings.ReadPathsAgreeOnOneVote` | src/entities/Movie.ts:56-59 | on one vote the two paths agree, and a vote v other than -1 is reported as v |
| `Ratings.ReadPathsAgreeIff` | src/controllers/MovieController.ts:59-64 | the entity and list paths agree exactly when there is at most one vote, the total is -1, or the total is 0 |
| `Ratings.FourAndSix` | src/controllers/MovieController.ts:59-64 | votes 4 and 6: the entity reports 5, the list path 10 |
| `Entities.NewMovie` | src/entities/Movie.ts:12-48 | the constructor stores title, description, director, genre and votes unchanged, validates nothing, and leaves the id unset |
| `Entities.NewMovieVote` | src/entities/MovieVote.ts:12-38 | the constructor stores value, user and movie as given, with no bound on the value, and leaves the id unset |
| `Entities.VoteValues` | src/entities/Movie.ts:54-56 | the values read from the votes, one per vote and in order |
| `Entities.CalculateAverageRating` | src/entities/Movie.ts:50-60 | the loop counting votes and folding their values from -1 returns exactly the fold's specification: the total over the vote count, or "no votes"; it takes the movie as a value and changes none of its fields |
| `Store.CatalogStore.FindOne` | src/controllers/MovieController.ts:100-103 | a lookup by id (also lines 171 and 232) finds the stored movie, unless it is soft-deleted and the store hides such movies |
| `Store.CatalogStore.SaveMovie` | src/controllers/MovieController.ts:146 | saving a new movie assigns it a fresh id and stores it; nothing else changes |
| `Store.CatalogStore.SaveVote` | src/controllers/MovieController.ts:200 | saving a vote assigns it a fresh id and appends it to the votes of the one movie it refers to |
| `Store.CatalogStore.SoftDelete` | src/controllers/MovieController.ts:238 | soft deletion marks the id deleted and keeps the movie and its votes |
| `MovieController.Truthy` | src/controllers/MovieController.ts:42-49 | a string parameter is truthy exactly when it is non-empty (also the check at line 132) |
| `MovieController.TruthyNumber` | src/controllers/MovieController.ts:178 | a truthy vote value is present, 0 is falsy, and every other present value is truthy |
| `MovieController.FilterList` | src/controllers/MovieController.ts:40-50 | one condition per truthy parameter, only those, in the order director, title, genre; empty exactly when none is given |
| `MovieController.BuildFilter` | src/controllers/MovieController.ts:41-50 | the pushes build exactly that query |
| `MovieController.AccumulateListRating` | src/controllers/MovieController.ts:59-64 | the list handler's loop returns the undivided sentinel fold, or "no votes" |
| `MovieController.View` | src/controllers/MovieController.ts:65 | the movie without its votes: id, title, description, director and genre unchanged |
| `MovieController.Summarize` | src/controllers/MovieController.ts:58-66 | one list entry: the movie's view, with "no votes" exactly when its vote total is -1, and always for a movie without votes |
| `MovieController.SummarizeAll` | src/controllers/MovieController.ts:58-67 | one summary per loaded movie, in the same order, each the movie without votes paired with its list rating |
| `MovieController.Get` | src/controllers/MovieController.ts:36-69 | the list answer has one summary per movie the repository returns for the built query |
| `MovieController.GetById` | src/controllers/MovieController.ts:100-108 | not found exactly when the lookup finds nothing, otherwise the movie's selected fields; the store is only read |
| `MovieController.Concat` | src/controllers/MovieController.ts:141 | the errors appended in order; none gives the empty string, and every error fits within the result |
| `MovieController.ConcatAppend` | src/controllers/MovieController.ts:141 | concatenating errors distributes over joining error lists |
| `MovieController.ErrorInMessage` | src/controllers/MovieController.ts:140-142 | every error appears whole in the 422 message, after the prefix and the errors before it |
| `MovieController.ValidationMessage` | src/controllers/MovieController.ts:140-141 | the loop builds 'Validation error - ' followed by every error in order |
| `MovieController.Create` | src/controllers/MovieController.ts:131-147 | missing title or description: bad request, nothing built or saved; validation errors: 422 with the message, nothing saved; otherwise the movie with no votes is saved under a fresh id and returned as created |
| `MovieController.Vote` | src/controllers/MovieController.ts:169-201 | in order: movie not found, falsy value (0 included), user not found, validation errors each answer without changing the store; otherwise exactly one vote is appended to the movie and returned as created |
| `MovieController.Delete` | src/controllers/MovieController.ts:232-239 | not found without touching the store, or the id soft-deleted once and no content |
| `MovieController.DeleteThenRead` | src/controllers/MovieController.ts:232-238 | in a store that hides soft-deleted movies, after delete the movie can be neither read nor voted on, and its votes stay stored |
| `Roles.Verify` | src/helpers/roles.ts:1-7 | a role is accepted exactly when it is one of the values of the role table |
| `Roles.VerifyAcceptsBothRoles` | src/helpers/roles.ts:1-7 | 'user' and 'admin' are accepted |
| `Roles.VerifyRejectsOthers` | src/helpers/roles.ts:7 | every other string is rejected; the comparison is exact, so 'Admin', 'USER' and '' are rejected |

## Left out

- Authentication middleware (src/helpers/authorization.ts): the caller's identity is the `userId` parameter of `Vote`; only whether the user lookup succeeds is modelled.
- Repository behaviour is abstracted by `Store.CatalogStore`; how the repository reads a list of `where` conditions (alternatives or conjunction) is not modelled, so the list handler takes the repository's `find` as a function of the query.
- Whether soft-deleted movies are hidden from lookups is an assumption of the store (`hidesDeleted`), not verified behaviour: the movie entity declares no deletion-date column.
- The validator is an oracle returning the error messages as strings; the entities carry no validation rules.
- Column lengths and the genre enumeration (schema metadata no code path checks); the genre is a string.
- Floating-point division and number-to-string rendering: vote values are integers, the average is a real, and the result is `NoVotes` or `Value(r)` rather than a rendered string.
- An absent request field is modelled as the empty string, since both are falsy and every check treats them alike; the vote value is `None` when absent.
- The loaded movie's `votes` back-reference: a vote holds the movie value it was cast on rather than a shared object, and the store keeps each vote under the movie it refers to.
- Swagger metadata, logging, concrete HTTP status codes and the 500 branches, whose exceptions come only from the repository and validator calls.
- Path identifiers are modelled as integers; `Number(req.params.id)` can also yield NaN or a fraction, which reach the lookup in the source.
- The order of a movie's votes is an assumption of the store: `SaveVote` keeps votes in insertion order, while in the source the repository decides the order in which the relation loads them. The rating depends on that order when a total passes through -1 (`CollisionMakesOrderMatter`).
- Concurrency between request handlers: each handler runs alone against the store.
