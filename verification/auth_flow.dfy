/**
 * Properties that span the authenticator, several resolvers and the
 * crypto laws: what a freshly issued token is worth, and the ownership
 * and cascade rules over sequences of calls.
 */
module AuthFlow {
  import opened Wrappers
  import opened Crypto
  import opened Database
  import opened RequestContext
  import opened Resolvers

  /** A token signed for an existing user authenticates as that user, who passes the guard. */
  lemma IssuedTokenAuthenticates(db: Db, c: Crypto, id: int)
    requires Valid(db) && TokenSound(c)
    requires id in db.users
    ensures CreateContext(Some(BearerPrefix + c.sign(id)), c.verify, DbLookup(db)) == Ctx(Some(id))
    ensures !IsAnonymous(Ctx(Some(id)))
  {
  }

  /**
   * After a successful signup, logging in with the same email and password
   * succeeds without changing the database, for the same user, and both
   * tokens verify to that user's id.
   */
  lemma SignupThenLogin(db: Db, c: Crypto, email: string, password: string)
    requires Valid(db) && HashSound(c) && TokenSound(c)
    requires Signup(db, c, email, password).result.Success?
    ensures var s := Signup(db, c, email, password);
            var l := Login(s.db, c, email, password);
            && l.result.Success?
            && l.db == s.db
            && l.result.value.userId == s.result.value.userId
            && c.verify(l.result.value.token) == Some(s.result.value.userId)
            && c.verify(s.result.value.token) == Some(s.result.value.userId)
  {
  }

  /**
   * With a hash that is collision-free up to truncation, a password that
   * differs from the signup password in the part bcrypt reads is rejected.
   */
  lemma SignupThenWrongPassword(db: Db, c: Crypto, email: string, password: string, wrong: string)
    requires Valid(db) && HashBinding(c)
    requires Signup(db, c, email, password).result.Success?
    requires c.truncate(wrong) != c.truncate(password)
    ensures var s := Signup(db, c, email, password);
            Login(s.db, c, email, wrong) == Reply(s.db, Failure(InvalidCredentials))
  {
  }

  /**
   * A deleted review cannot be deleted again: the second attempt by the
   * same owner is `Forbidden`, not a not-found error.
   */
  lemma SecondDeleteForbidden(db: Db, ctx: Ctx, id: int)
    requires DeleteReview(db, ctx, id).result.Success?
    ensures var d := DeleteReview(db, ctx, id);
            DeleteReview(d.db, ctx, id) == Reply(d.db, Failure(Forbidden))
  {
  }

  /** `deleteGame` makes no ownership check: every authenticated caller gets the same reply. */
  lemma DeleteGameIgnoresCaller(db: Db, a: Ctx, b: Ctx, id: int, fault: TxFault)
    requires !IsAnonymous(a) && !IsAnonymous(b)
    ensures DeleteGame(db, a, id, fault) == DeleteGame(db, b, id, fault)
  {
  }

  /**
   * `deleteGame` is all or nothing: either the database is unchanged, or
   * the game and all N of its reviews are gone (N + 1 rows) and every
   * other row is as it was.
   */
  lemma DeleteGameAllOrNothing(db: Db, ctx: Ctx, id: int, fault: TxFault)
    ensures var r := DeleteGame(db, ctx, id, fault);
            var n := |ReviewsOf(db.reviews, id)|;
            || r.db == db
            || (&& id in db.games && id !in r.db.games
                && |r.db.games| == |db.games| - 1
                && |r.db.reviews| == |db.reviews| - n
                && (forall rid :: rid in db.reviews && db.reviews[rid].gameId != id ==>
                                    rid in r.db.reviews && r.db.reviews[rid] == db.reviews[rid])
                && (forall g :: g in db.games && g != id ==> g in r.db.games && r.db.games[g] == db.games[g]))
  {
  }

  /**
   * The ownership scenario on a fresh database: user 1 reviews a game,
   * user 2 cannot delete the review, user 1 can, and user 1's second
   * delete is refused as `Forbidden`.
   */
  lemma ReviewOwnershipScenario(c: Crypto)
    ensures var alice := Signup(Fresh, c, "a@x.com", "pw1234");
            var bob := Signup(alice.db, c, "b@x.com", "secret");
            var game := CreateGame(bob.db, Ctx(Some(1)), "GraphQL Galaxy");
            var review := CreateReview(game.db, Ctx(Some(1)), "Amazing game!", 1);
            var first := DeleteReview(review.db, Ctx(Some(1)), 1);
            && alice.result.Success? && alice.result.value.userId == 1
            && bob.result.Success? && bob.result.value.userId == 2
            && review.result.Success? && review.result.value.id == 1
            && DeleteReview(review.db, Ctx(Some(2)), 1) == Reply(review.db, Failure(Forbidden))
            && first == Reply(review.db.(reviews := map[]), Success(true))
            && DeleteReview(first.db, Ctx(Some(1)), 1) == Reply(first.db, Failure(Forbidden))
  {
  }

  /** Deleting a review right after creating it, as its author, restores every table. */
  lemma CreateThenDeleteReview(db: Db, ctx: Ctx, content: string, gameId: int)
    requires Valid(db)
    requires CreateReview(db, ctx, content, gameId).result.Success?
    ensures var cr := CreateReview(db, ctx, content, gameId);
            var d := DeleteReview(cr.db, ctx, cr.result.value.id);
            && d.result == Success(true)
            && d.db.reviews == db.reviews && d.db.games == db.games && d.db.users == db.users
  {
  }

  /** Deleting a game right after creating it restores every table: a new game has no reviews. */
  lemma CreateThenDeleteGame(db: Db, ctx: Ctx, title: string)
    requires Valid(db)
    requires !IsAnonymous(ctx)
    ensures var cg := CreateGame(db, ctx, title);
            var d := DeleteGame(cg.db, ctx, cg.result.value.id, NoFault);
            && d.result == Success(true)
            && d.db.reviews == db.reviews && d.db.games == db.games && d.db.users == db.users
  {
    var cg := CreateGame(db, ctx, title);
    var id := cg.result.value.id;
    var d := DeleteGame(cg.db, ctx, id, NoFault);
    assert id !in db.games;
    assert forall rid :: rid in db.reviews ==> db.reviews[rid].gameId != id;
    assert ReviewsOf(db.reviews, id).Keys == {};
    assert d.db.reviews.Keys == db.reviews.Keys;
    assert d.db.games.Keys == db.games.Keys;
  }
}
