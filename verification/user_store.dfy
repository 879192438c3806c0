/**
 * The client's session store: an in-memory triple `{ email, id, token }`
 * mirrored into the browser's persisted string map, from which it is
 * reloaded when the page starts. The in-memory `id` lives under the
 * persisted key `idUser`; the other two use their own names.
 */
module UserStore {
  import opened Wrappers

  datatype Field = Email | Id | Token

  /** The in-memory session. */
  datatype UserState = UserState(email: string, id: string, token: string)

  /** `localStorage`: a map from keys to string values. */
  type Storage = map<string, string>

  /** The store: the in-memory session and the persisted map it writes to. */
  datatype Store = Store(user: UserState, storage: Storage)

  const EmptyUser := UserState("", "", "")

  /** The persisted key a field is written under. */
  function StorageKey(f: Field): string {
    match f
    case Email => "email"
    case Id => "idUser"
    case Token => "token"
  }

  /** The three persisted keys the session uses. */
  const SessionKeys: set<string> := {"email", "idUser", "token"}

  /** Distinct fields are persisted under distinct keys, all of them session keys. */
  lemma StorageKeyInjective(f: Field, g: Field)
    ensures StorageKey(f) in SessionKeys
    ensures StorageKey(f) == StorageKey(g) ==> f == g
  {
  }

  function Get(u: UserState, f: Field): string {
    match f
    case Email => u.email
    case Id => u.id
    case Token => u.token
  }

  /** `{ ...state, [key]: value }`. */
  function Put(u: UserState, f: Field, v: string): (r: UserState)
    ensures Get(r, f) == v
    ensures forall g :: g != f ==> Get(r, g) == Get(u, g)
  {
    match f
    case Email => u.(email := v)
    case Id => u.(id := v)
    case Token => u.(token := v)
  }

  /** `localStorage.getItem(key) ?? ''`. */
  function ItemOrEmpty(storage: Storage, key: string): string {
    if key in storage then storage[key] else ""
  }

  /** `getInitialUserState`: each field from its persisted key, `''` when the key is absent. */
  function LoadUser(storage: Storage): (u: UserState)
    ensures forall f :: Get(u, f) == ItemOrEmpty(storage, StorageKey(f))
  {
    UserState(ItemOrEmpty(storage, "email"), ItemOrEmpty(storage, "idUser"), ItemOrEmpty(storage, "token"))
  }

  /** The store as created at page load. */
  function Init(storage: Storage): (st: Store)
    ensures Synced(st)
    ensures st.storage == storage
  {
    Store(LoadUser(storage), storage)
  }

  /** Reloading the page would reproduce the in-memory session exactly. */
  predicate Synced(st: Store) {
    LoadUser(st.storage) == st.user
  }

  /** `setUser(key, value)`: one field in memory, one persisted key. */
  function SetField(st: Store, f: Field, v: string): (r: Store)
    ensures Get(r.user, f) == v
    ensures forall g :: g != f ==> Get(r.user, g) == Get(st.user, g)
    ensures r.storage.Keys == st.storage.Keys + {StorageKey(f)}
    ensures r.storage[StorageKey(f)] == v
    ensures forall k :: k in st.storage && k != StorageKey(f) ==> r.storage[k] == st.storage[k]
    ensures Get(LoadUser(r.storage), f) == Get(r.user, f)
  {
    Store(Put(st.user, f, v), st.storage[StorageKey(f) := v])
  }

  /** `Object.entries(partial)`: the fields the partial object carries, in order. */
  type Entries = seq<(Field, string)>

  /** The value the last entry for `f` carries, if any entry does: the one a later spread or write leaves. */
  function LastValue(entries: Entries, f: Field): Option<string>
    decreases |entries|
  {
    if |entries| == 0 then None
    else match LastValue(entries[1..], f)
      case Some(v) => Some(v)
      case None => if entries[0].0 == f then Some(entries[0].1) else None
  }

  /** `{ ...state, ...partial }`, one entry at a time: every field the entries carry is overwritten. */
  function Merge(u: UserState, entries: Entries): (r: UserState)
    decreases |entries|
    ensures forall f :: Get(r, f) == LastValue(entries, f).GetOr(Get(u, f))
  {
    if |entries| == 0 then u
    else Merge(Put(u, entries[0].0, entries[0].1), entries[1..])
  }

  /** The `forEach` that calls `localStorage.setItem` for every entry. */
  function WriteEntries(storage: Storage, entries: Entries): (r: Storage)
    decreases |entries|
    ensures forall f :: LastValue(entries, f).Some? ==>
              StorageKey(f) in r && r[StorageKey(f)] == LastValue(entries, f).value
    ensures forall f :: LastValue(entries, f).None? ==>
              && (StorageKey(f) in r <==> StorageKey(f) in storage)
              && (StorageKey(f) in r ==> r[StorageKey(f)] == storage[StorageKey(f)])
    ensures forall k :: k !in SessionKeys ==> (k in r <==> k in storage) && (k in r ==> r[k] == storage[k])
  {
    if |entries| == 0 then storage
    else WriteEntries(storage[StorageKey(entries[0].0) := entries[0].1], entries[1..])
  }

  /**
   * `setUser(partial)`: merges the entries into memory and persists exactly
   * the fields they carry; reloading then reproduces every field written.
   */
  function SetPartial(st: Store, entries: Entries): (r: Store)
    ensures forall f :: Get(r.user, f) == LastValue(entries, f).GetOr(Get(st.user, f))
    ensures forall f :: LastValue(entries, f).Some? ==>
              StorageKey(f) in r.storage && r.storage[StorageKey(f)] == LastValue(entries, f).value
    ensures forall f :: LastValue(entries, f).Some? ==> Get(LoadUser(r.storage), f) == Get(r.user, f)
    ensures forall f :: LastValue(entries, f).None? ==>
              && (StorageKey(f) in r.storage <==> StorageKey(f) in st.storage)
              && (StorageKey(f) in r.storage ==> r.storage[StorageKey(f)] == st.storage[StorageKey(f)])
    ensures forall k :: k !in SessionKeys ==> (k in r.storage <==> k in st.storage) && (k in r.storage ==> r.storage[k] == st.storage[k])
  {
    Store(Merge(st.user, entries), WriteEntries(st.storage, entries))
  }

  /** `reset`: empties memory and removes the three session keys, and only those. */
  function Reset(st: Store): (r: Store)
    ensures r.user == EmptyUser
    ensures r.storage.Keys == st.storage.Keys - SessionKeys
    ensures forall k :: k in r.storage ==> r.storage[k] == st.storage[k]
    ensures LoadUser(r.storage) == EmptyUser
  {
    Store(EmptyUser, st.storage - SessionKeys)
  }

  /** `isAuthenticated()`: `Boolean(token && token.length > 0)`. */
  function IsAuthenticated(st: Store): (b: bool)
    ensures b <==> st.user.token != ""
  {
    |st.user.token| > 0
  }

  /** Every update keeps memory and the persisted map in step. */
  lemma UpdatesKeepSynced(st: Store, f: Field, v: string, entries: Entries)
    requires Synced(st)
    ensures Synced(SetField(st, f, v))
    ensures Synced(SetPartial(st, entries))
    ensures Synced(Reset(st))
  {
    var r := SetField(st, f, v);
    forall g ensures Get(LoadUser(r.storage), g) == Get(r.user, g) {
      if g != f {
        StorageKeyInjective(f, g);
      }
    }
    var p := SetPartial(st, entries);
    forall g ensures Get(LoadUser(p.storage), g) == Get(p.user, g) {
    }
    UserStateExt(LoadUser(r.storage), r.user);
    UserStateExt(LoadUser(p.storage), p.user);
  }

  /** A session is determined by its three fields. */
  lemma UserStateExt(u: UserState, w: UserState)
    requires forall g :: Get(u, g) == Get(w, g)
    ensures u == w
  {
    assert Get(u, Email) == Get(w, Email) && Get(u, Id) == Get(w, Id) && Get(u, Token) == Get(w, Token);
  }

  /** Resetting twice is resetting once. */
  lemma ResetIdempotent(st: Store)
    ensures Reset(Reset(st)) == Reset(st)
  {
  }
}
