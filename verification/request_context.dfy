/**
 * The current request authenticator: turns the raw `Authorization` header
 * into the request context the resolvers see. It checks the `Bearer `
 * prefix, then the token's signature, then that the token's subject is
 * still a user. Every failure, thrown or not, degrades to an anonymous
 * context; nothing escapes to the caller.
 */
module RequestContext {
  import opened Wrappers
  import opened JsString
  import opened Database

  /** The request context: the optional `userId` (the store handle is left out). */
  datatype Ctx = Ctx(userId: Option<int>)

  const Anonymous := Ctx(None)

  /** The scheme prefix both authenticators look for, case included. */
  const BearerPrefix := "Bearer "

  /** What `user.findUnique({ where: { id } })` can do: find a row, find none, or throw. */
  datatype Lookup = Found | NotFound | LookupFailed

  /** The lookup a healthy store answers for the database `db`. */
  function DbLookup(db: Db): (find: int -> Lookup)
    ensures forall id :: find(id) == Found <==> id in db.users
    ensures forall id :: find(id) != LookupFailed
  {
    id => if id in db.users then Found else NotFound
  }

  /** The token the header carries: the header after its `Bearer ` prefix. */
  function BearerToken(header: string): (token: string)
    requires StartsWith(header, BearerPrefix)
    ensures header == BearerPrefix + token
  {
    ReplaceFirst(header, BearerPrefix, "")
  }

  /**
   * `createContext`: `verify` is `jwt.verify` (None when it throws) and
   * `findUser` is the store's lookup by id.
   */
  function CreateContext(header: Option<string>, verify: string -> Option<int>, findUser: int -> Lookup): (ctx: Ctx)
    ensures header.None? || !StartsWith(header.value, BearerPrefix) ==> ctx == Anonymous
    ensures ctx.userId.Some? ==>
              && header.Some? && StartsWith(header.value, BearerPrefix)
              && verify(header.value[|BearerPrefix|..]) == ctx.userId
              && findUser(ctx.userId.value) == Found
    ensures header.Some? && StartsWith(header.value, BearerPrefix) ==>
              var subject := verify(header.value[|BearerPrefix|..]);
              ctx.userId.Some? <==> subject.Some? && findUser(subject.value) == Found
  {
    if header.Some? && StartsWith(header.value, BearerPrefix) then
      var token := BearerToken(header.value);
      match verify(token)
      case None => Anonymous
      case Some(subject) =>
        if findUser(subject) == Found then Ctx(Some(subject)) else Anonymous
    else
      Anonymous
  }
}
