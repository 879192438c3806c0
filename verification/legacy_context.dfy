/**
 * The earlier, synchronous request authenticator. It checks the prefix and
 * the signature but never asks the store whether the token's subject still
 * exists, so its only inputs are the header and the verifier.
 */
module LegacyContext {
  import opened Wrappers
  import opened JsString
  import opened RequestContext

  /** The earlier `createContext`; `verify` is `jwt.verify` (None when it throws). */
  function CreateContextLegacy(header: Option<string>, verify: string -> Option<int>): (ctx: Ctx)
    ensures header.None? || !StartsWith(header.value, BearerPrefix) ==> ctx == Anonymous
    ensures header.Some? && StartsWith(header.value, BearerPrefix) ==>
              ctx.userId == verify(header.value[|BearerPrefix|..])
  {
    if header.Some? && StartsWith(header.value, BearerPrefix) then
      var token := BearerToken(header.value);
      match verify(token)
      case None => Anonymous
      case Some(subject) => Ctx(Some(subject))
    else
      Anonymous
  }

  /**
   * The current authenticator grants an identity only where the earlier one
   * grants the same identity, and differs from it exactly when the store
   * does not report the subject as found.
   */
  lemma CurrentRefinesLegacy(header: Option<string>, verify: string -> Option<int>, findUser: int -> Lookup)
    ensures var now := CreateContext(header, verify, findUser);
            var earlier := CreateContextLegacy(header, verify);
            && (now.userId.Some? ==> now == earlier)
            && (now != earlier <==> earlier.userId.Some? && findUser(earlier.userId.value) != Found)
  {
  }

  /**
   * An orphaned token: one that verifies to a subject with no user row.
   * The earlier authenticator grants that subject's identity; the current
   * one answers anonymous.
   */
  lemma OrphanedTokenContrast(db: Database.Db, verify: string -> Option<int>, token: string, subject: int)
    requires verify(token) == Some(subject)
    requires subject !in db.users
    ensures CreateContextLegacy(Some(BearerPrefix + token), verify) == Ctx(Some(subject))
    ensures CreateContext(Some(BearerPrefix + token), verify, DbLookup(db)) == Anonymous
  {
  }
}
