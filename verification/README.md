# Authentication and authorization of the games/reviews GraphQL API

A Dafny model of the authentication and authorization layer of a small
GraphQL API for games and their reviews, and of the browser-side session
store of its client:

- **Request authenticators** (`RequestContext`, `LegacyContext`): turn the raw
  `Authorization` header into the request context `{ userId? }`. The current one
  checks the case-sensitive `Bearer ` prefix, the token's signature and that the
  token's subject is still a user; every failure, thrown or not, yields an
  anonymous context. The earlier one skips the existence check, and the model
  proves the difference: an orphaned token grants identity there and not here.
- **Resolvers** (`Resolvers`, `Api`): `games`, `me`, `signup`, `login`,
  `createGame`, `createReview`, `deleteReview` and `deleteGame` as pure
  transitions `(Db, Ctx, args) -> Reply(db', value | error)`. The guard
  `!ctx.userId` is modelled as "no id, or id 0". `deleteReview` is owner-only.
  `deleteGame` runs as a transaction that either commits the removal of the game
  and all its reviews or rolls back to the database it started from.
- **Database** (`Database`): users, games and reviews as maps keyed by
  autoincrement ids, with the unique email index and the review foreign keys as
  the invariant `Valid`, which every operation preserves.
- **Crypto** (`Crypto`): bcrypt and jsonwebtoken as an oracle record of total
  functions. The only facts used about them are the laws `HashSound`
  (a password matches its own hash), `HashBinding` (a password matches no hash of a password that differs from it
  in the part bcrypt reads, its first 72 bytes, given by the oracle's
  `truncate`) and
  `TokenSound` (a token signed for `id` verifies to `id`). No token carries an
  expiry.
- **Client session store** (`UserStore`, `UseAuth`): the in-memory triple
  `{ email, id, token }` and the persisted string map it mirrors, with `id`
  stored under `idUser`. Covered: the page-load reload, both forms of `setUser`,
  `reset`, `isAuthenticated`, the `useIsAuthenticated` hook and `logout`.

Behaviour of the code worth knowing:

- Deleting a review that no longer exists (or never did) yields `Forbidden`, not a
  not-found error. The owner check `review?.userId !== ctx.userId` also fails on a
  missing review (`SecondDeleteForbidden`, `ReviewOwnershipScenario`).
- Tokens are issued without an expiry. A token is therefore refused only when its
  signature or format is bad.
- `signup` does not check the email itself. The duplicate is refused by the
  store's unique index, which surfaces here as `EmailTaken` with no state change.

External effects are parameters: the verifier, the user lookup of the
authenticator (`Lookup`, which may report a store failure), and a `TxFault`
saying where the store fails inside the `deleteGame` transaction.

## Model

| member | source | states |
|---|---|---|
| `RequestContext.CreateContext` | graphql-jwt-api/src/context.ts:12-33 | No header, or one without the case-sensitive `Bearer ` prefix, gives an anonymous context. A granted `userId` is the subject the verifier returns for the header minus its prefix, and the store reports that user as found. Given the prefix, an identity is granted exactly when the token verifies and the subject is found. A verify failure, an orphaned subject or a failing lookup all give anonymous. |
| `RequestContext.BearerToken` | graphql-jwt-api/src/context.ts:14-15 | The token passed to verification is the header with its leading `Bearer ` removed: prefix plus token gives back the header. |
| `RequestContext.DbLookup` | graphql-jwt-api/src/context.ts:20 | The healthy store's lookup by id reports found exactly for existing user ids, and never fails. |
| `JsString.IndexOfFrom` | graphql-jwt-api/src/context.ts:15 | The search `replace` performs returns the first position at or after `from` where the pattern occurs, or none when it occurs nowhere there. |
| `JsString.ReplaceFirst` | graphql-jwt-api/src/context.ts:15 | `replace` with a string pattern leaves a string without the pattern unchanged. On a string that starts with the pattern it substitutes that leading occurrence. |
| `JsString.StripPrefix` | graphql-jwt-api/src/context.ts:14-15 | `Bearer ` + t passes the prefix test, and replacing the prefix by nothing yields exactly t. |
| `LegacyContext.CreateContextLegacy` | grapql-jwt-api/src/context.ts:12-25 | Without the prefix the context is anonymous. With it, `userId` is whatever the verifier returns for the stripped token, and a verify failure gives anonymous. Its only inputs are the header and the verifier. |
| `LegacyContext.CurrentRefinesLegacy` | grapql-jwt-api/src/context.ts:14-18 | Any identity the current authenticator grants is also granted, the same, by the earlier one. The two differ exactly when the earlier one grants a subject that the store does not report as found. |
| `LegacyContext.OrphanedTokenContrast` | graphql-jwt-api/src/context.ts:19-24 | A token verifying to a subject with no user row grants that subject under the earlier authenticator and is anonymous under the current one. |
| `Database.FindUserByEmail` | graphql-jwt-api/src/resolvers.ts:48 | A found id belongs to a user with that email. On a valid database: none is found exactly when no user has the email, and any user with it is the one found. |
| `Database.ReviewsOf` | graphql-jwt-api/src/resolvers.ts:89 | The reviews of a game are exactly the reviews whose `gameId` is that game, with their values unchanged. The `games` listing nests this set under each game (line 28), and `deleteMany` removes it (line 89). |
| `Database.DeleteReviewsOf` | graphql-jwt-api/src/resolvers.ts:89 | `deleteMany` by `gameId` keeps exactly the reviews of other games, unchanged. |
| `Resolvers.IsAnonymous` | graphql-jwt-api/src/resolvers.ts:27 | The guard `!ctx.userId` follows JavaScript truthiness. An absent id and the id 0 count as anonymous, and any other number, positive or negative, passes. |
| `Resolvers.GuardAdmitsEveryUser` | graphql-jwt-api/src/resolvers.ts:27 | Treating the id 0 as anonymous never locks out a real user: every user of a valid database passes the guard. |
| `Resolvers.Games` | graphql-jwt-api/src/resolvers.ts:26-29 | Anonymous callers get `NotAuthenticated`, and only they do. The database is unchanged. Every other call succeeds, and every game is listed with its title and exactly the reviews whose `gameId` is that game. On a valid database each review also carries its author's row. |
| `Resolvers.Me` | graphql-jwt-api/src/resolvers.ts:31-34 | Anonymous callers get `NotAuthenticated`, and only they do. The database is unchanged. Every other call succeeds, and the result is the caller's user row, or null exactly when that row is gone. |
| `Resolvers.Signup` | graphql-jwt-api/src/resolvers.ts:38-45 | A failure is `EmailTaken` with the database unchanged, and only happens when some user has the email. On a valid database a taken email always fails. A success adds one user, under a fresh id, with the hash of the password. Games and reviews are untouched, and the token is signed for the new id. |
| `Resolvers.Login` | graphql-jwt-api/src/resolvers.ts:47-54 | The database is never changed. Every failure is the same `InvalidCredentials`, whether no user has the email or the password does not match. A success returns the user with that email whose hash the password matches, plus a token signed for that id. On a valid database, success holds exactly when such a user exists. |
| `Resolvers.CreateGame` | graphql-jwt-api/src/resolvers.ts:56-59 | Anonymous callers, and only they, get `NotAuthenticated` with no change. Every other call succeeds and adds exactly one game with the given title under a fresh id. Users and reviews are unchanged. |
| `Resolvers.CreateReview` | graphql-jwt-api/src/resolvers.ts:61-74 | Anonymous callers get `NotAuthenticated`, and a failure changes nothing. An authenticated call succeeds exactly when the game and the caller's user exist, and otherwise fails with `ReferenceMissing`. Success adds exactly one review, under a fresh id, whose `userId` is the caller's id from the context. The review count grows by one, and users and games are unchanged. |
| `Resolvers.DeleteReview` | graphql-jwt-api/src/resolvers.ts:75-82 | Anonymous callers get `NotAuthenticated`. An authenticated call succeeds exactly when the review exists and the caller owns it. Otherwise it fails with `Forbidden` and the database is unchanged, including when the review does not exist. Success removes exactly that review, leaves every other row intact and returns true. |
| `Resolvers.Transaction` | graphql-jwt-api/src/resolvers.ts:86-91 | A transaction commits the body's final state on success. When the body throws, it rolls back to the starting database and rethrows the body's error. |
| `Resolvers.DeleteGameSteps` | graphql-jwt-api/src/resolvers.ts:87-90 | The transaction body throws whenever the store fails at any step, and a failed lookup throws `StoreFailure`. With no store fault it throws only `GameNotFound`, and only for a missing game. A store fault after the game was found throws `StoreFailure`, never `GameNotFound`, and `GameNotFound` always means the game is missing. On success the game exists, and the result drops exactly that game, replaces the reviews by those of other games, and keeps users. |
| `Resolvers.DeleteGame` | graphql-jwt-api/src/resolvers.ts:84-93 | Anonymous callers get `NotAuthenticated`, and every failure leaves the database unchanged. With no store fault, an authenticated call succeeds exactly when the game exists, and otherwise fails with `GameNotFound`. Success removes the game and exactly its reviews, leaves every other game, review and user as it was, and returns true. When the store fails at any step, an authenticated call fails and the database is unchanged. A failure at the lookup step, or at either delete of an existing game, is `StoreFailure`, and `GameNotFound` is answered only for a missing game. |
| `Api.Execute` | graphql-jwt-api/src/resolvers.ts:24-95 | Signup and login never fail with `NotAuthenticated`. Every other operation called anonymously returns `NotAuthenticated` with the database unchanged. |
| `Api.OnlySignupAndLoginArePublic` | graphql-jwt-api/src/resolvers.ts:24-95 | For an anonymous caller, an operation fails with `NotAuthenticated` exactly when it is neither signup nor login. Signup and login reply the same under any context. |
| `Api.ExecutePreservesValid` | graphql-jwt-api/src/resolvers.ts:37-93 | Every operation keeps the store's constraints: ids issued by their sequences, unique emails, and reviews referencing existing users and games. |
| `Api.SignupPreservesValid` | graphql-jwt-api/src/resolvers.ts:38-45 | Signup keeps the store's constraints. In particular the email index stays unique, because a success implies the email was free. |
| `Api.DeleteGamePreservesValid` | graphql-jwt-api/src/resolvers.ts:84-93 | `deleteGame` keeps the store's constraints. No remaining review points at the deleted game. |
| `AuthFlow.IssuedTokenAuthenticates` | graphql-jwt-api/src/context.ts:13-26 | A `Bearer` header carrying a token signed for an existing user yields that user's id, and the id passes the resolvers' guard. |
| `AuthFlow.SignupThenLogin` | graphql-jwt-api/src/resolvers.ts:38-54 | After a successful signup, login with the same email and password succeeds for the same user id without changing the database. Both tokens verify to that id. |
| `AuthFlow.SignupThenWrongPassword` | graphql-jwt-api/src/resolvers.ts:47-51 | If the hash is collision-free up to bcrypt's 72-byte truncation, login after signup is `InvalidCredentials` with no change for any password whose truncation differs from the signup password's. |
| `AuthFlow.SecondDeleteForbidden` | graphql-jwt-api/src/resolvers.ts:77-78 | Once a review is deleted, deleting it again, even by its owner, is `Forbidden` with no change. |
| `AuthFlow.DeleteGameIgnoresCaller` | graphql-jwt-api/src/resolvers.ts:84-91 | `deleteGame` makes no ownership check: any two authenticated callers get the same reply. |
| `AuthFlow.DeleteGameAllOrNothing` | graphql-jwt-api/src/resolvers.ts:86-91 | Whatever the caller or store fault, `deleteGame` leaves the database as it was or removes exactly N + 1 rows: the game and its N reviews. Every other game and review is kept unchanged. |
| `AuthFlow.ReviewOwnershipScenario` | graphql-jwt-api/src/resolvers.ts:61-81 | On a fresh database, user 1 reviews a game. User 2's delete is `Forbidden`. User 1's delete succeeds and leaves no reviews, and user 1's second delete is `Forbidden`. |
| `AuthFlow.CreateThenDeleteReview` | graphql-jwt-api/src/resolvers.ts:61-82 | On a valid database, when the author deletes a review they just created, the call returns true and every table is as it was before the creation. |
| `AuthFlow.CreateThenDeleteGame` | graphql-jwt-api/src/resolvers.ts:56-93 | On a valid database, deleting a game just created by an authenticated caller returns true. Every table is as before, because a new game has no reviews to cascade. |
| `Crypto.SignInjective` | graphql-jwt-api/src/resolvers.ts:43 | Under the token law, two subjects never receive the same token. |
| `UserStore.StorageKeyInjective` | graphql-fetch/src/store/userStore.ts:36-40 | Each field is persisted under one of the three session keys (`id` under `idUser`), and no two fields share a key. |
| `UserStore.LoadUser` | graphql-fetch/src/store/userStore.ts:21-26 | Each field is read from its persisted key (`token`, `email`, `idUser`), with `''` when the key is absent. |
| `UserStore.Init` | graphql-fetch/src/store/userStore.ts:28-29 | The store created at page load agrees with its persisted map. |
| `UserStore.SetField` | graphql-fetch/src/store/userStore.ts:32-40 | `setUser(k, v)` changes only field `k` in memory. It writes `v` under `idUser` when `k` is `id` and under `k` otherwise, leaving every other key. A reload then returns `v` for `k`. |
| `UserStore.Merge` | graphql-fetch/src/store/userStore.ts:44 | The spread of the partial overwrites exactly the fields it carries, each with the value of its last entry. The other fields keep their values. |
| `UserStore.WriteEntries` | graphql-fetch/src/store/userStore.ts:45-51 | The `forEach` writes each carried field's last value under its persisted key. It leaves the keys of uncarried fields and every non-session key as they were. |
| `UserStore.SetPartial` | graphql-fetch/src/store/userStore.ts:42-51 | `setUser(partial)` merges the partial into memory and persists exactly the carried fields: each carried field's key is written with its last value, even when that value is `''`. A reload reproduces every field written. An uncarried field's key is present exactly when it was before, with the same value, and every non-session key is unchanged. |
| `UserStore.Reset` | graphql-fetch/src/store/userStore.ts:58-63 | All three fields become `''`, and exactly the three session keys are removed from the persisted map, so a reload yields the empty session. |
| `UserStore.IsAuthenticated` | graphql-fetch/src/store/userStore.ts:64-67 | True exactly when the current token is non-empty. |
| `UserStore.UpdatesKeepSynced` | graphql-fetch/src/store/userStore.ts:21-63 | If memory agrees with the persisted map, it still does after either form of `setUser` and after `reset`. |
| `UserStore.ResetIdempotent` | graphql-fetch/src/store/userStore.ts:58-63 | Resetting twice is the same as resetting once. |
| `UseAuth.UseIsAuthenticated` | graphql-fetch/src/hooks/useAuth.ts:4-7 | The hook is true exactly when the selected token is non-empty. |
| `UseAuth.HookAgreesWithStore` | graphql-fetch/src/hooks/useAuth.ts:4-7 | The hook and the store's `isAuthenticated` agree on every session. |
| `UseAuth.Logout` | graphql-fetch/src/hooks/useAuth.ts:8-11 | After `logout` the persisted map is empty, not merely free of the session keys, and memory is the empty session. `isAuthenticated` is false, and a reload reproduces exactly this state. |
| `UseAuth.LogoutIdempotent` | graphql-fetch/src/hooks/useAuth.ts:8-11 | Logging out twice is the same as logging out once. |
| `UseAuth.LogoutClearsMoreThanReset` | graphql-fetch/src/hooks/useAuth.ts:9-10 | A persisted non-session key survives `reset` but not `logout`. After either one, a reload yields the empty session. |

## Left out

- bcrypt and jsonwebtoken internals: foreign crypto, reduced to an oracle and the three laws above. The salt, the signing secret and the issuance time are part of the oracle's choice.
- Token expiry: neither `jwt.sign` call sets one. An expired token would simply be one the verifier refuses, which the model already covers.
- The payload's `userId` field: the verifier answers with a numeric subject or none. A verified token whose payload lacks `userId` gives an anonymous context under both authenticators, and is folded into the answer none. A verified token whose `userId` is not a number is assumed not to exist. Only the server holds the signing secret, and it signs only numeric ids (graphql-jwt-api/src/resolvers.ts:43 and :52). Such a token would pass the earlier authenticator unchanged, while the current one's lookup would reject it and answer anonymous.
- Prisma itself: only the map operations the resolvers use are modelled, and `findMany` ordering is not. The unique email index and the foreign keys are the `Valid` invariant. A duplicate email on `create` is an assumption about the store, modelled as `EmailTaken`.
- Store failures outside `deleteGame` and the authenticator's lookup: any other failing store call only rejects the request. Atomicity is the point only for the transaction.
- `console.warn` logging, the `prisma` handle in the context, and the GraphQL field selection (for example, the password hash is never sent): I/O and schema wiring.
- `logout` also clears the query cache. That cache is not part of this model.
- `UserStore.SetPartial`: an entry whose value is explicitly `undefined` is not modelled. The TypeScript type `Partial<UserState>` admits it, and it would store the text "undefined".
- `localStorage` failures: the persisted map is modelled as a total map whose writes never fail. In the source the in-memory `set` runs before `localStorage.setItem` (graphql-fetch/src/store/userStore.ts:35-39 and 44-51), so a throwing `setItem` (quota exceeded, storage disabled) would leave memory ahead of storage, and in the partial form would stop the `forEach` after only some entries. `UserStore.UpdatesKeepSynced` holds only under this never-failing storage.
- The zustand `set`/`get` plumbing and React subscriptions: the store is a value, and each operation returns the next one.
- UI components, routes, network hooks and the GraphQL client: rendering and I/O.
- The schema text, seeding and server bootstrap: declarations and startup I/O. The schema's mutation list and return types do not match the resolvers, and the model follows the resolvers.
