/**
 * The resolver map as one dispatcher, and the properties that relate
 * several resolvers, the authenticator and the crypto laws to each other.
 */
module Api {
  import opened Wrappers
  import opened Crypto
  import opened Database
  import opened RequestContext
  import opened Resolvers

  /** One GraphQL operation with its arguments. */
  datatype Operation =
    | GamesQuery
    | MeQuery
    | SignupMutation(email: string, password: string)
    | LoginMutation(email: string, password: string)
    | CreateGameMutation(title: string)
    | CreateReviewMutation(content: string, gameId: int)
    | DeleteReviewMutation(id: int)
    | DeleteGameMutation(id: int)

  /** What an operation returns. */
  datatype Value =
    | GamesValue(games: map<int, GameView>)
    | MeValue(me: Option<User>)
    | AuthValue(auth: AuthPayload)
    | GameValue(created: CreatedGame)
    | ReviewValue(review: CreatedReview)
    | BoolValue(ok: bool)

  /** The two operations the resolvers serve without looking at the context. */
  predicate IsPublic(op: Operation) {
    op.SignupMutation? || op.LoginMutation?
  }

  function Lift<T>(r: Reply<T>, wrap: T -> Value): (s: Reply<Value>)
    ensures s.db == r.db
    ensures s.result.Failure? <==> r.result.Failure?
    ensures s.result.Failure? ==> s.result.error == r.result.error
  {
    match r.result
    case Success(v) => Reply(r.db, Success(wrap(v)))
    case Failure(e) => Reply(r.db, Failure(e))
  }

  /** Dispatches an operation to its resolver. */
  function Execute(db: Db, c: Crypto, ctx: Ctx, op: Operation, fault: TxFault): (r: Reply<Value>)
    ensures IsPublic(op) ==> r.result != Failure(NotAuthenticated)
    ensures !IsPublic(op) && IsAnonymous(ctx) ==> r == Reply(db, Failure(NotAuthenticated))
  {
    match op
    case GamesQuery => Lift(Games(db, ctx), v => GamesValue(v))
    case MeQuery => Lift(Me(db, ctx), v => MeValue(v))
    case SignupMutation(e, p) => Lift(Signup(db, c, e, p), v => AuthValue(v))
    case LoginMutation(e, p) => Lift(Login(db, c, e, p), v => AuthValue(v))
    case CreateGameMutation(t) => Lift(CreateGame(db, ctx, t), v => GameValue(v))
    case CreateReviewMutation(t, g) => Lift(CreateReview(db, ctx, t, g), v => ReviewValue(v))
    case DeleteReviewMutation(id) => Lift(DeleteReview(db, ctx, id), v => BoolValue(v))
    case DeleteGameMutation(id) => Lift(DeleteGame(db, ctx, id, fault), v => BoolValue(v))
  }

  /**
   * Signup and login are the only operations an anonymous caller can get
   * past the guard, and they reply the same whatever the context says.
   */
  lemma OnlySignupAndLoginArePublic(db: Db, c: Crypto, ctx: Ctx, other: Ctx, op: Operation, fault: TxFault)
    requires IsAnonymous(ctx)
    ensures !IsPublic(op) <==> Execute(db, c, ctx, op, fault).result == Failure(NotAuthenticated)
    ensures IsPublic(op) ==> Execute(db, c, ctx, op, fault) == Execute(db, c, other, op, fault)
  {
  }

  /** A successful signup keeps the email index unique: the new email was free. */
  lemma SignupPreservesValid(db: Db, c: Crypto, email: string, password: string)
    requires Valid(db)
    ensures Valid(Signup(db, c, email, password).db)
  {
  }

  /** The cascade leaves no review pointing at the deleted game. */
  lemma DeleteGamePreservesValid(db: Db, ctx: Ctx, id: int, fault: TxFault)
    requires Valid(db)
    ensures Valid(DeleteGame(db, ctx, id, fault).db)
  {
  }

  /** Every operation keeps the store's constraints. */
  lemma ExecutePreservesValid(db: Db, c: Crypto, ctx: Ctx, op: Operation, fault: TxFault)
    requires Valid(db)
    ensures Valid(Execute(db, c, ctx, op, fault).db)
  {
    match op
    case SignupMutation(e, p) => SignupPreservesValid(db, c, e, p);
    case DeleteGameMutation(id) => DeleteGamePreservesValid(db, ctx, id, fault);
    case _ =>
  }
}
