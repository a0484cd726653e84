/** The token repository interface (`store`, `getAccessToken`,
    `getRefreshToken`, `isAccessTokenExpired`, `forget`) as a choice, made
    when the application is configured, between the database and the cache
    implementation. Its abstract state is the backend's state. */
module TokenRepository {
  import opened Tokens
  import DB = DatabaseRepository
  import C = CacheRepository

  /** The state behind the interface: the table or the cache, and the clock. */
  datatype RepoState = DbState(rows: DB.Table, now: int) | CacheState(entries: C.Cache, now: int)

  /** What each backend keeps true between calls. */
  ghost predicate Good(s: RepoState)
  {
    s.CacheState? ==> C.AllCoherent(s.entries)
  }

  function AccessTokenIn(s: RepoState, k: string): Option<string>
  {
    match s
    case DbState(rows, _) => DB.AccessTokenOf(rows, k)
    case CacheState(entries, now) => C.CachedAccessToken(entries, k, now)
  }

  function RefreshTokenIn(s: RepoState, k: string): Option<string>
  {
    match s
    case DbState(rows, _) => DB.RefreshTokenOf(rows, k)
    case CacheState(entries, now) => C.CachedRefreshToken(entries, k, now)
  }

  predicate ExpiredIn(s: RepoState, k: string)
  {
    match s
    case DbState(rows, now) => DB.ExpiredAt(rows, k, now)
    case CacheState(entries, now) => C.CacheExpired(entries, k, now)
  }

  function Stored(s: RepoState, k: string, t: TokenResponse): RepoState
  {
    match s
    case DbState(rows, now) => DbState(DB.Upsert(rows, k, t, now), now)
    case CacheState(entries, now) => CacheState(C.CacheStore(entries, k, t, now), now)
  }

  function Forgotten(s: RepoState, k: string): RepoState
  {
    match s
    case DbState(rows, now) => DbState(DB.Delete(rows, k), now)
    case CacheState(entries, now) => CacheState(C.CacheForget(entries, k), now)
  }

  /** The clock moves forward by `seconds`. */
  function Advanced(s: RepoState, seconds: nat): RepoState
  {
    s.(now := s.now + seconds)
  }

  /** A call that writes the repository, as a caller issues it. */
  datatype Write = StoreCall(key: string, tokens: TokenResponse) | ForgetCall(key: string)

  /** The state after the writes, in order. */
  function Replay(s: RepoState, writes: seq<Write>): RepoState
    decreases |writes|
  {
    if |writes| == 0 then s
    else
      var next := match writes[0]
        case StoreCall(k, t) => Stored(s, k, t)
        case ForgetCall(k) => Forgotten(s, k);
      Replay(next, writes[1..])
  }

  lemma ReplayOne(s: RepoState, w: Write)
    ensures Replay(s, [w]) == if w.StoreCall? then Stored(s, w.key, w.tokens) else Forgotten(s, w.key)
  {
  }

  lemma StoredPreservesGood(s: RepoState, k: string, t: TokenResponse)
    requires Good(s)
    ensures Good(Stored(s, k, t))
  {
    if s.CacheState? {
      C.StorePreservesCoherent(s.entries, k, t, s.now);
    }
  }

  lemma ForgottenPreservesGood(s: RepoState, k: string)
    requires Good(s)
    ensures Good(Forgotten(s, k))
  {
    if s.CacheState? {
      C.ForgetPreservesCoherent(s.entries, k);
    }
  }

  /** Round trip, for both backends: right after a store with a positive
      lifetime the access token is the stored one and not expired, and a
      non-empty refresh token is the stored one. */
  lemma StoreThenRead(s: RepoState, k: string, t: TokenResponse)
    requires t.expiresIn > 0
    ensures AccessTokenIn(Stored(s, k, t), k) == Some(t.accessToken)
    ensures !ExpiredIn(Stored(s, k, t), k)
    ensures !Empty(t.refreshToken) ==> RefreshTokenIn(Stored(s, k, t), k) == t.refreshToken
  {
    match s
    case DbState(rows, now) => DB.StoreThenRead(rows, k, t, now, now);
    case CacheState(entries, now) => C.StoreThenRead(entries, k, t, now, now);
  }

  /** The expiry predicate, for both backends: once `seconds` have passed
      after a store, the token is expired exactly when its lifetime is
      shorter than that. */
  lemma ExpiresAfterLifetime(s: RepoState, k: string, t: TokenResponse, seconds: nat)
    ensures ExpiredIn(Advanced(Stored(s, k, t), seconds), k) <==> t.expiresIn < seconds
  {
    match s
    case DbState(rows, now) => DB.StoreThenRead(rows, k, t, now, now + seconds);
    case CacheState(entries, now) => C.StoreThenRead(entries, k, t, now, now + seconds);
  }

  /** Forget is total, for both backends. */
  lemma ForgetIsTotal(s: RepoState, k: string)
    ensures AccessTokenIn(Forgotten(s, k), k) == None
    ensures RefreshTokenIn(Forgotten(s, k), k) == None
    ensures ExpiredIn(Forgotten(s, k), k)
    ensures Forgotten(Forgotten(s, k), k) == Forgotten(s, k)
  {
    match s
    case DbState(rows, now) => DB.ForgetThenRead(rows, k, now);
    case CacheState(entries, now) => C.ForgetThenRead(entries, k, now);
  }

  lemma StoreLeavesOthers(s: RepoState, k: string, other: string, t: TokenResponse)
    requires other != k
    ensures AccessTokenIn(Stored(s, k, t), other) == AccessTokenIn(s, other)
    ensures RefreshTokenIn(Stored(s, k, t), other) == RefreshTokenIn(s, other)
    ensures ExpiredIn(Stored(s, k, t), other) == ExpiredIn(s, other)
  {
    match s
    case DbState(rows, now) =>
      DB.OtherRowsUntouched(rows, k, other, t, now);
    case CacheState(entries, now) =>
      C.OtherUsersUntouched(entries, k, other, t, now);
      var e := C.CacheStore(entries, k, t, now);
      assert C.EntryOf(e, C.AccessKey(other)) == C.EntryOf(entries, C.AccessKey(other));
      assert C.EntryOf(e, C.RefreshKey(other)) == C.EntryOf(entries, C.RefreshKey(other));
      assert C.EntryOf(e, C.MarkerKey(other)) == C.EntryOf(entries, C.MarkerKey(other));
  }

  lemma ForgetLeavesOthers(s: RepoState, k: string, other: string)
    requires other != k
    ensures AccessTokenIn(Forgotten(s, k), other) == AccessTokenIn(s, other)
    ensures RefreshTokenIn(Forgotten(s, k), other) == RefreshTokenIn(s, other)
    ensures ExpiredIn(Forgotten(s, k), other) == ExpiredIn(s, other)
  {
    match s
    case DbState(rows, now) =>
      DB.OtherRowsUntouched(rows, k, other, TokenResponse("", 0, None, None, map[]), now);
    case CacheState(entries, now) =>
      C.KeysDistinct(k, other);
      C.KeysDistinct(other, k);
  }

  /** Keys are independent, for both backends: writing one user changes
      nothing any getter reports about another. */
  lemma OtherKeysUnaffected(s: RepoState, k: string, other: string, t: TokenResponse)
    requires other != k
    ensures AccessTokenIn(Stored(s, k, t), other) == AccessTokenIn(s, other)
    ensures RefreshTokenIn(Stored(s, k, t), other) == RefreshTokenIn(s, other)
    ensures ExpiredIn(Stored(s, k, t), other) == ExpiredIn(s, other)
    ensures AccessTokenIn(Forgotten(s, k), other) == AccessTokenIn(s, other)
    ensures RefreshTokenIn(Forgotten(s, k), other) == RefreshTokenIn(s, other)
    ensures ExpiredIn(Forgotten(s, k), other) == ExpiredIn(s, other)
  {
    StoreLeavesOthers(s, k, other, t);
    ForgetLeavesOthers(s, k, other);
  }

  /** A token reported as not expired has its access token, for the database
      always and for the cache except at the second its marker names. */
  lemma NotExpiredHasAccessToken(s: RepoState, k: string)
    requires Good(s)
    requires !ExpiredIn(s, k)
    ensures AccessTokenIn(s, k).None? ==>
              s.CacheState? && s.entries[C.MarkerKey(k)].value.time == s.now
  {
    match s
    case DbState(rows, now) => DB.NotExpiredHasAccessToken(rows, k, now);
    case CacheState(entries, now) =>
      assert C.Coherent(entries, k);
      C.NotExpiredHasAccessToken(entries, k, now);
  }

  /** The two backends treat a response without a refresh token differently:
      the database overwrites the stored refresh token with null, the cache
      keeps the one it had. */
  lemma BackendsDisagreeOnMissingRefreshToken(first: TokenResponse, second: TokenResponse)
    requires first.refreshToken == Some("R1")
    requires second.refreshToken.None?
    ensures RefreshTokenIn(Stored(Stored(DbState(map[], 0), "1", first), "1", second), "1") == None
    ensures RefreshTokenIn(Stored(Stored(CacheState(map[], 0), "1", first), "1", second), "1") == Some("R1")
  {
    var c1 := C.CacheStore(map[], "1", first, 0);
    C.StoreThenRead(map[], "1", first, 0, 0);
    C.StoreThenRead(c1, "1", second, 0, 0);
  }

  class TokenStore {
    const db: DB.DatabaseTokenRepository?
    const cache: C.CacheTokenRepository?
    ghost const Repr: set<object>
    /** Every write issued through this interface, oldest first. */
    ghost var writes: seq<Write>

    ghost predicate Valid()
      reads this, Repr
    {
      && this in Repr
      && (db == null <==> cache != null)
      && (db != null ==> Repr == {this, db})
      && (cache != null ==> Repr == {this, cache} && cache.Valid())
    }

    ghost function State(): (s: RepoState)
      requires Valid()
      reads this, Repr
      ensures Good(s)
      ensures db != null <==> s.DbState?
    {
      if db != null then DbState(db.rows, db.now) else CacheState(cache.entries, cache.now)
    }

    constructor OfDatabase(r: DB.DatabaseTokenRepository)
      ensures Valid() && db == r && cache == null && fresh(Repr - {r})
      ensures State() == DbState(r.rows, r.now) && writes == []
    {
      db, cache := r, null;
      Repr := {this, r};
      writes := [];
    }

    constructor OfCache(r: C.CacheTokenRepository)
      requires r.Valid()
      ensures Valid() && cache == r && db == null && fresh(Repr - {r})
      ensures State() == CacheState(r.entries, r.now) && writes == []
    {
      db, cache := null, r;
      Repr := {this, r};
      writes := [];
    }

    method Tick(seconds: nat)
      requires Valid()
      modifies Repr
      ensures Valid() && State() == Advanced(old(State()), seconds) && writes == old(writes)
    {
      if db != null {
        db.Tick(seconds);
      } else {
        cache.Tick(seconds);
      }
    }

    method Store(u: UserId, t: TokenResponse)
      requires Valid()
      modifies Repr
      ensures Valid() && State() == Stored(old(State()), Key(u), t)
      ensures writes == old(writes) + [StoreCall(Key(u), t)]
    {
      if db != null {
        db.Store(u, t);
      } else {
        cache.Store(u, t);
      }
      writes := writes + [StoreCall(Key(u), t)];
    }

    method Forget(u: UserId)
      requires Valid()
      modifies Repr
      ensures Valid() && State() == Forgotten(old(State()), Key(u))
      ensures writes == old(writes) + [ForgetCall(Key(u))]
    {
      if db != null {
        db.Forget(u);
      } else {
        cache.Forget(u);
      }
      writes := writes + [ForgetCall(Key(u))];
    }

    method GetAccessToken(u: UserId) returns (r: Option<string>)
      requires Valid()
      ensures r == AccessTokenIn(State(), Key(u))
    {
      if db != null {
        r := db.GetAccessToken(u);
      } else {
        r := cache.GetAccessToken(u);
      }
    }

    method GetRefreshToken(u: UserId) returns (r: Option<string>)
      requires Valid()
      ensures r == RefreshTokenIn(State(), Key(u))
    {
      if db != null {
        r := db.GetRefreshToken(u);
      } else {
        r := cache.GetRefreshToken(u);
      }
    }

    method IsAccessTokenExpired(u: UserId) returns (expired: bool)
      requires Valid()
      ensures expired == ExpiredIn(State(), Key(u))
    {
      if db != null {
        expired := db.IsAccessTokenExpired(u);
      } else {
        expired := cache.IsAccessTokenExpired(u);
      }
    }
  }
}
