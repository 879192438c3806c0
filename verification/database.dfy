/**
 * The relational store behind the API, reduced to what the resolvers use:
 * three tables keyed by autoincrement ids, a unique index on the user's
 * email, and the foreign keys a review holds to its author and its game.
 */
module Database {
  import opened Wrappers

  /** A user row; `password` holds the bcrypt hash, never the password itself. */
  datatype User = User(email: string, password: string)

  datatype Game = Game(title: string)

  /** A review row with its two foreign keys. */
  datatype Review = Review(content: string, userId: int, gameId: int)

  /**
   * The whole database. The `next…` counters are the autoincrement
   * sequences: the id the next inserted row of that table receives.
   */
  datatype Db = Db(
    users: map<int, User>,
    games: map<int, Game>,
    reviews: map<int, Review>,
    nextUserId: int,
    nextGameId: int,
    nextReviewId: int)

  /** A fresh database: no rows, every sequence starting at 1. */
  const Fresh := Db(map[], map[], map[], 1, 1, 1)

  /** Every id of `m` was handed out by a sequence now standing at `next`. */
  predicate IdsIssued<T>(m: map<int, T>, next: int) {
    forall id :: id in m ==> 1 <= id < next
  }

  /** The unique index on `User.email`. */
  predicate EmailsUnique(users: map<int, User>) {
    forall a, b :: a in users && b in users && users[a].email == users[b].email ==> a == b
  }

  /** Every review points at an existing user and an existing game. */
  predicate ReferencesExist(db: Db) {
    forall r :: r in db.reviews ==> db.reviews[r].userId in db.users && db.reviews[r].gameId in db.games
  }

  /** The constraints the store maintains for every state it ever holds. */
  predicate Valid(db: Db) {
    && 1 <= db.nextUserId && 1 <= db.nextGameId && 1 <= db.nextReviewId
    && IdsIssued(db.users, db.nextUserId)
    && IdsIssued(db.games, db.nextGameId)
    && IdsIssued(db.reviews, db.nextReviewId)
    && EmailsUnique(db.users)
    && ReferencesExist(db)
  }

  /** Scans the user ids `lo..hi-1` in order for a row with this email. */
  function ScanEmail(users: map<int, User>, email: string, lo: int, hi: int): (r: Option<int>)
    decreases hi - lo
    ensures r.Some? ==> lo <= r.value < hi && r.value in users && users[r.value].email == email
    ensures r.None? ==> forall id :: lo <= id < hi && id in users ==> users[id].email != email
  {
    if lo >= hi then None
    else if lo in users && users[lo].email == email then Some(lo)
    else ScanEmail(users, email, lo + 1, hi)
  }

  /** `user.findUnique({ where: { email } })`: the id of the user with this email, if any. */
  function FindUserByEmail(db: Db, email: string): (r: Option<int>)
    ensures r.Some? ==> r.value in db.users && db.users[r.value].email == email
    ensures Valid(db) && r.None? ==> forall id :: id in db.users ==> db.users[id].email != email
    ensures Valid(db) ==> forall id :: id in db.users && db.users[id].email == email ==> r == Some(id)
  {
    ScanEmail(db.users, email, 1, db.nextUserId)
  }

  /** The reviews of one game: what `review.deleteMany({ where: { gameId } })` removes. */
  function ReviewsOf(reviews: map<int, Review>, gameId: int): (r: map<int, Review>)
    ensures forall rid :: rid in r <==> rid in reviews && reviews[rid].gameId == gameId
    ensures forall rid :: rid in r ==> r[rid] == reviews[rid]
  {
    map rid | rid in reviews && reviews[rid].gameId == gameId :: reviews[rid]
  }

  /** `review.deleteMany({ where: { gameId } })`: every review of the game goes, the rest stay. */
  function DeleteReviewsOf(reviews: map<int, Review>, gameId: int): (r: map<int, Review>)
    ensures forall rid :: rid in r <==> rid in reviews && reviews[rid].gameId != gameId
    ensures forall rid :: rid in r ==> r[rid] == reviews[rid]
    ensures r.Keys == reviews.Keys - ReviewsOf(reviews, gameId).Keys
  {
    map rid | rid in reviews && reviews[rid].gameId != gameId :: reviews[rid]
  }
}
