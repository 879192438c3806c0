/**
 * The GraphQL resolvers as guarded transitions of the database. Each takes
 * the database, the request context and its arguments, and replies with
 * the database afterwards and either a value or the error it throws.
 */
module Resolvers {
  import opened Wrappers
  import opened Crypto
  import opened Database
  import opened RequestContext

  /** The errors the resolvers throw, plus the two the store raises. */
  datatype ApiError =
    | NotAuthenticated  // 'Not authenticated'
    | InvalidCredentials  // 'Invalid credentials'
    | Forbidden  // 'Forbidden'
    | GameNotFound  // 'Game not found'
    | EmailTaken  // unique-constraint violation on User.email
    | ReferenceMissing  // foreign-key violation on a review's userId or gameId
    | StoreFailure  // the store failed part-way through a transaction

  /** The database after a call, and what the call returned or threw. */
  datatype Reply<+T> = Reply(db: Db, result: Result<T, ApiError>)

  /** `{ user, token }` as returned by signup and login. */
  datatype AuthPayload = AuthPayload(userId: int, user: User, token: string)

  /** A review as listed by `games`, with its author included. */
  datatype ReviewView = ReviewView(review: Review, author: Option<User>)

  /** A game as listed by `games`, with its reviews included, keyed by review id. */
  datatype GameView = GameView(title: string, reviews: map<int, ReviewView>)

  datatype CreatedGame = CreatedGame(id: int, game: Game)

  /** The created review, with its game and user included. */
  datatype CreatedReview = CreatedReview(id: int, review: Review, game: Game, user: User)

  /**
   * The resolvers' guard `!ctx.userId`, by JavaScript truthiness: an absent
   * id and the number 0 are falsy, every other number is truthy.
   */
  predicate IsAnonymous(ctx: Ctx): (b: bool)
    ensures ctx.userId == None ==> b
    ensures ctx.userId == Some(0) ==> b
    ensures ctx.userId.Some? && ctx.userId.value > 0 ==> !b
    ensures ctx.userId.Some? && ctx.userId.value < 0 ==> !b
  {
    ctx.userId.None? || ctx.userId.value == 0
  }

  /** The falsy id 0 hides no real user: every user of a valid database passes the guard. */
  lemma GuardAdmitsEveryUser(db: Db, id: int)
    requires Valid(db)
    requires id in db.users
    ensures !IsAnonymous(Ctx(Some(id)))
  {
  }

  function Unauthenticated<T>(db: Db): Reply<T> {
    Reply(db, Failure(NotAuthenticated))
  }

  /** `Query.games`: every game, each with its reviews and their authors. */
  function Games(db: Db, ctx: Ctx): (r: Reply<map<int, GameView>>)
    ensures r.db == db
    ensures IsAnonymous(ctx) <==> r.result == Failure(NotAuthenticated)
    ensures !IsAnonymous(ctx) ==> r.result.Success?
    ensures r.result.Success? ==> r.result.value.Keys == db.games.Keys
    ensures r.result.Success? ==> forall g :: g in r.result.value ==>
              && r.result.value[g].title == db.games[g].title
              && r.result.value[g].reviews.Keys == ReviewsOf(db.reviews, g).Keys
    ensures r.result.Success? && Valid(db) ==> forall g, rid ::
              g in r.result.value && rid in r.result.value[g].reviews ==>
                && rid in db.reviews && db.reviews[rid].userId in db.users
                && r.result.value[g].reviews[rid] == ReviewView(db.reviews[rid], Some(db.users[db.reviews[rid].userId]))
  {
    if IsAnonymous(ctx) then Unauthenticated(db)
    else
      var views := map g | g in db.games ::
        GameView(db.games[g].title,
                 map rid | rid in ReviewsOf(db.reviews, g) ::
                   var rv := db.reviews[rid];
                   ReviewView(rv, if rv.userId in db.users then Some(db.users[rv.userId]) else None));
      Reply(db, Success(views))
  }

  /** `Query.me`: the caller's own user row, or null when it is gone. */
  function Me(db: Db, ctx: Ctx): (r: Reply<Option<User>>)
    ensures r.db == db
    ensures IsAnonymous(ctx) <==> r.result == Failure(NotAuthenticated)
    ensures !IsAnonymous(ctx) ==> r.result.Success?
    ensures r.result.Success? ==>
              (r.result.value.Some? <==> ctx.userId.value in db.users)
              && (r.result.value.Some? ==> r.result.value.value == db.users[ctx.userId.value])
  {
    if IsAnonymous(ctx) then Unauthenticated(db)
    else
      var id := ctx.userId.value;
      Reply(db, Success(if id in db.users then Some(db.users[id]) else None))
  }

  /**
   * `Mutation.signup`: stores the user with the hash of the password and
   * signs a token for the new id. A taken email is rejected by the store
   * and changes nothing. The context is not consulted.
   */
  function Signup(db: Db, c: Crypto, email: string, password: string): (r: Reply<AuthPayload>)
    ensures r.result.Failure? ==> r == Reply(db, Failure(EmailTaken))
    ensures r.result.Failure? ==> exists id :: id in db.users && db.users[id].email == email
    ensures Valid(db) && (exists id :: id in db.users && db.users[id].email == email) ==> r.result.Failure?
    ensures r.result.Success? ==>
              var p := r.result.value;
              && p.user == User(email, c.hash(password))
              && p.token == c.sign(p.userId)
              && r.db.users == db.users[p.userId := p.user]
              && (Valid(db) ==> p.userId !in db.users && p.userId >= 1)
              && r.db.games == db.games && r.db.reviews == db.reviews
  {
    if FindUserByEmail(db, email).Some? then
      Reply(db, Failure(EmailTaken))
    else
      var id := db.nextUserId;
      var user := User(email, c.hash(password));
      Reply(db.(users := db.users[id := user], nextUserId := id + 1),
            Success(AuthPayload(id, user, c.sign(id))))
  }

  /**
   * `Mutation.login`: succeeds when a user has the email and the password
   * matches its hash. Both failure causes throw the same error, and the
   * database is never changed. The context is not consulted.
   */
  function Login(db: Db, c: Crypto, email: string, password: string): (r: Reply<AuthPayload>)
    ensures r.db == db
    ensures r.result.Failure? ==> r.result.error == InvalidCredentials
    ensures r.result.Success? ==>
              var p := r.result.value;
              && p.userId in db.users && p.user == db.users[p.userId]
              && p.user.email == email && c.compare(password, p.user.password)
              && p.token == c.sign(p.userId)
    ensures Valid(db) ==>
              (r.result.Success? <==>
                 exists id :: id in db.users && db.users[id].email == email && c.compare(password, db.users[id].password))
  {
    match FindUserByEmail(db, email)
    case None => Reply(db, Failure(InvalidCredentials))
    case Some(id) =>
      var user := db.users[id];
      if !c.compare(password, user.password) then Reply(db, Failure(InvalidCredentials))
      else Reply(db, Success(AuthPayload(id, user, c.sign(id))))
  }

  /** `Mutation.createGame`: any authenticated caller may add a game. */
  function CreateGame(db: Db, ctx: Ctx, title: string): (r: Reply<CreatedGame>)
    ensures IsAnonymous(ctx) <==> r == Unauthenticated(db)
    ensures !IsAnonymous(ctx) ==> r.result.Success?
    ensures r.result.Success? ==>
              var g := r.result.value;
              && g.game == Game(title)
              && r.db.games == db.games[g.id := g.game]
              && (Valid(db) ==> g.id !in db.games && g.id >= 1)
              && r.db.users == db.users && r.db.reviews == db.reviews
  {
    if IsAnonymous(ctx) then Unauthenticated(db)
    else
      var id := db.nextGameId;
      Reply(db.(games := db.games[id := Game(title)], nextGameId := id + 1),
            Success(CreatedGame(id, Game(title))))
  }

  /**
   * `Mutation.createReview`: the review's author is the caller's id from the
   * context; the arguments carry no user id at all. A game or user that
   * does not exist violates a foreign key and changes nothing.
   */
  function CreateReview(db: Db, ctx: Ctx, content: string, gameId: int): (r: Reply<CreatedReview>)
    ensures IsAnonymous(ctx) ==> r == Unauthenticated(db)
    ensures r.result.Failure? ==> r.db == db
    ensures !IsAnonymous(ctx) ==>
              (r.result.Success? <==> gameId in db.games && ctx.userId.value in db.users)
    ensures !IsAnonymous(ctx) && r.result.Failure? ==> r.result.error == ReferenceMissing
    ensures r.result.Success? ==>
              var v := r.result.value;
              && v.review == Review(content, ctx.userId.value, gameId)
              && r.db.reviews == db.reviews[v.id := v.review]
              && (Valid(db) ==> v.id !in db.reviews && |r.db.reviews| == |db.reviews| + 1)
              && v.game == db.games[gameId] && v.user == db.users[ctx.userId.value]
              && r.db.users == db.users && r.db.games == db.games
  {
    if IsAnonymous(ctx) then Unauthenticated(db)
    else
      var uid := ctx.userId.value;
      if gameId !in db.games || uid !in db.users then Reply(db, Failure(ReferenceMissing))
      else
        var id := db.nextReviewId;
        var review := Review(content, uid, gameId);
        Reply(db.(reviews := db.reviews[id := review], nextReviewId := id + 1),
              Success(CreatedReview(id, review, db.games[gameId], db.users[uid])))
  }

  /**
   * `Mutation.deleteReview`: owner only. A review that does not exist has
   * no owner to match, so it is `Forbidden` as well.
   */
  function DeleteReview(db: Db, ctx: Ctx, id: int): (r: Reply<bool>)
    ensures IsAnonymous(ctx) ==> r == Unauthenticated(db)
    ensures !IsAnonymous(ctx) ==>
              (r.result.Success? <==> id in db.reviews && db.reviews[id].userId == ctx.userId.value)
    ensures !IsAnonymous(ctx) && r.result.Failure? ==> r == Reply(db, Failure(Forbidden))
    ensures r.result.Success? ==>
              && r.result.value
              && r.db.reviews.Keys == db.reviews.Keys - {id}
              && (forall k :: k in r.db.reviews ==> r.db.reviews[k] == db.reviews[k])
              && r.db.users == db.users && r.db.games == db.games
  {
    if IsAnonymous(ctx) then Unauthenticated(db)
    else if id !in db.reviews || db.reviews[id].userId != ctx.userId.value then Reply(db, Failure(Forbidden))
    else Reply(db.(reviews := db.reviews - {id}), Success(true))
  }

  /** Where the store may fail inside the `deleteGame` transaction. */
  datatype TxFault = NoFault | FailFindGame | FailDeleteReviews | FailDeleteGame

  /**
   * The body of the `deleteGame` transaction, step by step on the
   * transaction's view `tx`: find the game, delete its reviews, delete it.
   */
  function DeleteGameSteps(tx: Db, id: int, fault: TxFault): (r: Result<Db, ApiError>)
    ensures fault != NoFault ==> r.Failure?
    ensures fault == FailFindGame ==> r == Failure(StoreFailure)
    ensures r.Failure? && fault != FailFindGame && id !in tx.games ==> r.error == GameNotFound
    ensures r.Failure? && fault == NoFault ==> r == Failure(GameNotFound) && id !in tx.games
    ensures fault != NoFault && (fault == FailFindGame || id in tx.games) ==> r == Failure(StoreFailure)
    ensures r == Failure(GameNotFound) ==> id !in tx.games
    ensures r.Success? ==>
              && id in tx.games
              && r.value.games.Keys == tx.games.Keys - {id}
              && (forall g :: g in r.value.games ==> r.value.games[g] == tx.games[g])
              && r.value.reviews == DeleteReviewsOf(tx.reviews, id)
              && r.value.users == tx.users
  {
    if fault == FailFindGame then Failure(StoreFailure)
    else if id !in tx.games then Failure(GameNotFound)
    else
      var afterReviews := tx.(reviews := DeleteReviewsOf(tx.reviews, id));
      if fault == FailDeleteReviews then Failure(StoreFailure)
      else if fault == FailDeleteGame then Failure(StoreFailure)
      else
        assert fault.NoFault?;
        Success(afterReviews.(games := afterReviews.games - {id}))
  }

  /** `$transaction`: commits the body's final state, or rolls back to `db` when it throws. */
  function Transaction(db: Db, body: Result<Db, ApiError>): (r: Reply<bool>)
    ensures r.result.Success? ==> body.Success? && r.db == body.value
    ensures r.result.Failure? ==> body.Failure? && r == Reply(db, Failure(body.error))
  {
    match body
    case Success(committed) => Reply(committed, Success(true))
    case Failure(e) => Reply(db, Failure(e))
  }

  /**
   * `Mutation.deleteGame`: any authenticated caller (no ownership check)
   * removes the game and every review of it in one transaction. `fault`
   * stands for a store failure part-way through.
   */
  function DeleteGame(db: Db, ctx: Ctx, id: int, fault: TxFault): (r: Reply<bool>)
    ensures IsAnonymous(ctx) ==> r == Unauthenticated(db)
    ensures r.result.Failure? ==> r.db == db
    ensures !IsAnonymous(ctx) && fault != NoFault ==> r.result.Failure? && r.db == db
    ensures !IsAnonymous(ctx) && fault == FailFindGame ==> r.result.error == StoreFailure
    ensures !IsAnonymous(ctx) && fault != NoFault && id in db.games ==> r.result == Failure(StoreFailure)
    ensures r.result == Failure(GameNotFound) ==> id !in db.games
    ensures !IsAnonymous(ctx) && fault == NoFault ==>
              (r.result.Success? <==> id in db.games)
              && (r.result.Failure? ==> r.result.error == GameNotFound)
    ensures r.result.Success? ==>
              && r.result.value
              && id !in r.db.games
              && (forall rid :: rid in r.db.reviews ==> r.db.reviews[rid].gameId != id)
              && r.db.games.Keys == db.games.Keys - {id}
              && (forall g :: g in r.db.games ==> r.db.games[g] == db.games[g])
              && r.db.reviews.Keys == db.reviews.Keys - ReviewsOf(db.reviews, id).Keys
              && (forall rid :: rid in r.db.reviews ==> r.db.reviews[rid] == db.reviews[rid])
              && r.db.users == db.users
  {
    if IsAnonymous(ctx) then Unauthenticated(db)
    else Transaction(db, DeleteGameSteps(db, id, fault))
  }
}
