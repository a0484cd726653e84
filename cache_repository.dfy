/** The cache-backed token repository: three cache entries per user, each
    with its own time-to-live, over a cache that is a map from key to value
    and deadline. Time is whole seconds; an entry is visible while the clock
    is before its deadline, which is how the cache reports an entry with a
    non-positive lifetime as absent straight away. */
module CacheRepository {
  import opened Tokens

  const AccessPrefix: string := "spotify_user_access_token_"
  const MarkerPrefix: string := "spotify_user_expires_at_"
  const RefreshPrefix: string := "spotify_user_refresh_token_"

  /** The expiry marker outlives the access token by this many seconds. */
  const Grace: int := 60

  /** Refresh tokens are kept for 60 days (`now()->addDays(60)`). */
  const RefreshTtl: int := 60 * 24 * 60 * 60

  function AccessKey(u: string): string { AccessPrefix + u }
  function MarkerKey(u: string): string { MarkerPrefix + u }
  function RefreshKey(u: string): string { RefreshPrefix + u }

  /** A cached value: a token string, or the expiry time held by the marker. */
  datatype CacheValue = Text(text: string) | Stamp(time: int)

  datatype Entry = Entry(value: CacheValue, deadline: int)

  type Cache = map<string, Entry>

  /** `Cache::get`: the value while the entry is live, otherwise null. */
  function Lookup(c: Cache, key: string, now: int): (r: Option<CacheValue>)
    ensures r.Some? <==> key in c && now < c[key].deadline
    ensures r.Some? ==> r.value == c[key].value
  {
    if key in c && now < c[key].deadline then Some(c[key].value) else None
  }

  /** `Cache::put(key, value, ttl)`. */
  function Put(c: Cache, key: string, v: CacheValue, ttl: int, now: int): (r: Cache)
    ensures r.Keys == c.Keys + {key}
    ensures r[key] == Entry(v, now + ttl)
    ensures forall k :: k in c && k != key ==> r[k] == c[k]
  {
    c[key := Entry(v, now + ttl)]
  }

  /** `store`: the access token for `expires_in` seconds, the marker holding
      `now + expires_in` for 60 seconds longer, and the refresh token for 60
      days but only when the response carries a non-empty one. */
  function CacheStore(c: Cache, u: string, t: TokenResponse, now: int): Cache
  {
    var withAccess := Put(c, AccessKey(u), Text(t.accessToken), t.expiresIn, now);
    var withMarker := Put(withAccess, MarkerKey(u), Stamp(now + t.expiresIn), t.expiresIn + Grace, now);
    if !Empty(t.refreshToken) then Put(withMarker, RefreshKey(u), Text(t.refreshToken.value), RefreshTtl, now)
    else withMarker
  }

  /** `forget`: the three keys of the user are removed. */
  function CacheForget(c: Cache, u: string): Cache
  {
    c - {AccessKey(u), RefreshKey(u), MarkerKey(u)}
  }

  function CachedText(c: Cache, key: string, now: int): Option<string>
  {
    match Lookup(c, key, now)
    case Some(Text(s)) => Some(s)
    case _ => None  // this repository never puts a stamp under a token key
  }

  function CachedAccessToken(c: Cache, u: string, now: int): Option<string>
  {
    CachedText(c, AccessKey(u), now)
  }

  function CachedRefreshToken(c: Cache, u: string, now: int): Option<string>
  {
    CachedText(c, RefreshKey(u), now)
  }

  /** `isAccessTokenExpired`: true without a live marker, otherwise true iff
      the marker's time is in the past. */
  predicate CacheExpired(c: Cache, u: string, now: int)
  {
    match Lookup(c, MarkerKey(u), now)
    case Some(Stamp(x)) => x < now
    case _ => true  // no marker; this repository never puts text under a marker key
  }

  /** What `store` and `forget` keep true of one user's entries: the access
      token and the marker come and go together, the marker holds the access
      token's deadline and lives `Grace` seconds longer, and a cached refresh
      token is never empty. */
  ghost predicate Coherent(c: Cache, u: string)
  {
    && (AccessKey(u) in c <==> MarkerKey(u) in c)
    && (MarkerKey(u) in c ==>
          && c[MarkerKey(u)].value.Stamp?
          && c[MarkerKey(u)].deadline == c[MarkerKey(u)].value.time + Grace
          && c[AccessKey(u)].value.Text?
          && c[AccessKey(u)].deadline == c[MarkerKey(u)].value.time)
    && (RefreshKey(u) in c ==> c[RefreshKey(u)].value.Text? && !Empty(Some(c[RefreshKey(u)].value.text)))
  }

  ghost predicate AllCoherent(c: Cache)
  {
    forall u :: Coherent(c, u)
  }

  /** Keys are namespaced: keys of different kinds never collide (they
      differ at their fourteenth character), and keys of one kind are
      distinct for distinct users. */
  lemma KeysDistinct(u: string, v: string)
    ensures AccessKey(u) != MarkerKey(v)
    ensures AccessKey(u) != RefreshKey(v)
    ensures MarkerKey(u) != RefreshKey(v)
    ensures u != v ==> AccessKey(u) != AccessKey(v) && MarkerKey(u) != MarkerKey(v) && RefreshKey(u) != RefreshKey(v)
  {
    assert AccessKey(u)[13] == 'a' && MarkerKey(v)[13] == 'e' && RefreshKey(v)[13] == 'r';
    assert MarkerKey(u)[13] == 'e';
    if u != v {
      assert AccessKey(u)[|AccessPrefix|..] == u && AccessKey(v)[|AccessPrefix|..] == v;
      assert MarkerKey(u)[|MarkerPrefix|..] == u && MarkerKey(v)[|MarkerPrefix|..] == v;
      assert RefreshKey(u)[|RefreshPrefix|..] == u && RefreshKey(v)[|RefreshPrefix|..] == v;
    }
  }

  /** Storing or forgetting one user leaves every other user's entries, and
      so everything the getters report about that user, as they were. */
  lemma OtherUsersUntouched(c: Cache, u: string, v: string, t: TokenResponse, at: int)
    requires u != v
    ensures forall key :: key in {AccessKey(v), MarkerKey(v), RefreshKey(v)} ==>
              EntryOf(CacheStore(c, u, t, at), key) == EntryOf(c, key)
              && EntryOf(CacheForget(c, u), key) == EntryOf(c, key)
  {
    KeysDistinct(u, v);
    KeysDistinct(v, u);
  }

  function EntryOf(c: Cache, key: string): Option<Entry>
  {
    if key in c then Some(c[key]) else None
  }

  /** What the getters report at any time after a store at `at`: the access
      token while its lifetime lasts, expiry exactly once `at + expires_in`
      has passed, and the new refresh token, or the one cached before when the
      response has none. */
  lemma StoreThenRead(c: Cache, u: string, t: TokenResponse, at: int, now: int)
    ensures CachedAccessToken(CacheStore(c, u, t, at), u, now)
         == if now < at + t.expiresIn then Some(t.accessToken) else None
    ensures CacheExpired(CacheStore(c, u, t, at), u, now) <==> at + t.expiresIn < now
    ensures !Empty(t.refreshToken) ==>
              (CachedRefreshToken(CacheStore(c, u, t, at), u, now)
               == if now < at + RefreshTtl then t.refreshToken else None)
    ensures Empty(t.refreshToken) ==>
              (CachedRefreshToken(CacheStore(c, u, t, at), u, now) == CachedRefreshToken(c, u, now))
  {
    KeysDistinct(u, u);
  }

  /** After `forget` both getters report null and the token is expired, and
      forgetting twice is the same as forgetting once. */
  lemma ForgetThenRead(c: Cache, u: string, now: int)
    ensures CachedAccessToken(CacheForget(c, u), u, now) == None
    ensures CachedRefreshToken(CacheForget(c, u), u, now) == None
    ensures CacheExpired(CacheForget(c, u), u, now)
    ensures CacheForget(CacheForget(c, u), u) == CacheForget(c, u)
  {
  }

  lemma StorePreservesCoherent(c: Cache, u: string, t: TokenResponse, now: int)
    requires AllCoherent(c)
    ensures AllCoherent(CacheStore(c, u, t, now))
  {
    var s := CacheStore(c, u, t, now);
    forall v
      ensures Coherent(s, v)
    {
      KeysDistinct(u, v);
      KeysDistinct(v, u);
      assert Coherent(c, v);
    }
  }

  lemma ForgetPreservesCoherent(c: Cache, u: string)
    requires AllCoherent(c)
    ensures AllCoherent(CacheForget(c, u))
  {
    var s := CacheForget(c, u);
    forall v
      ensures Coherent(s, v)
    {
      KeysDistinct(u, v);
      KeysDistinct(v, u);
      assert Coherent(c, v);
    }
  }

  /** The grace window. In a coherent cache a token that is not reported
      expired still has its access-token entry, except at the single second
      that equals the marker's time: there `isPast` is still false while the
      entry's deadline has been reached. */
  lemma NotExpiredHasAccessToken(c: Cache, u: string, now: int)
    requires Coherent(c, u)
    requires !CacheExpired(c, u, now)
    ensures MarkerKey(u) in c && now <= c[MarkerKey(u)].value.time
    ensures CachedAccessToken(c, u, now).Some? <==> now != c[MarkerKey(u)].value.time
  {
  }

  /** During the 60 seconds after the access-token entry has gone, the marker
      is still live and reports the token as expired. */
  lemma GraceWindowReportsExpired(c: Cache, u: string, now: int)
    requires Coherent(c, u)
    requires MarkerKey(u) in c
    requires c[MarkerKey(u)].value.time < now < c[MarkerKey(u)].value.time + Grace
    ensures Lookup(c, MarkerKey(u), now).Some?
    ensures CachedAccessToken(c, u, now) == None
    ensures CacheExpired(c, u, now)
  {
  }

  /** The boundary second exists: a token stored at 0 for 3600 seconds is not
      reported expired at 3600, yet its access token is already gone. */
  lemma BoundarySecond(t: TokenResponse)
    requires t.expiresIn == 3600
    ensures !CacheExpired(CacheStore(map[], "1", t, 0), "1", 3600)
    ensures CachedAccessToken(CacheStore(map[], "1", t, 0), "1", 3600) == None
  {
    StoreThenRead(map[], "1", t, 0, 3600);
  }

  class CacheTokenRepository {
    var entries: Cache
    var now: int

    ghost predicate Valid()
      reads this
    {
      AllCoherent(entries)
    }

    /** A newly started cache is empty: nothing survives a restart. */
    constructor (clock: int)
      ensures Valid() && entries == map[] && now == clock
    {
      entries := map[];
      now := clock;
    }

    /** The clock moves forward. */
    method Tick(seconds: nat)
      modifies this`now
      ensures now == old(now) + seconds
    {
      now := now + seconds;
    }

    method Store(u: UserId, t: TokenResponse)
      requires Valid()
      modifies this`entries
      ensures Valid()
      ensures entries == CacheStore(old(entries), Key(u), t, now)
    {
      var k := Key(u);
      var ttl := t.expiresIn;
      StorePreservesCoherent(entries, k, t, now);
      entries := entries[AccessKey(k) := Entry(Text(t.accessToken), now + ttl)];
      entries := entries[MarkerKey(k) := Entry(Stamp(now + t.expiresIn), now + ttl + Grace)];
      if !Empty(t.refreshToken) {
        entries := entries[RefreshKey(k) := Entry(Text(t.refreshToken.value), now + RefreshTtl)];
      }
    }

    method GetAccessToken(u: UserId) returns (r: Option<string>)
      ensures r == CachedAccessToken(entries, Key(u), now)
    {
      var key := AccessKey(Key(u));
      r := None;
      if key in entries && now < entries[key].deadline && entries[key].value.Text? {
        r := Some(entries[key].value.text);
      }
    }

    method GetRefreshToken(u: UserId) returns (r: Option<string>)
      ensures r == CachedRefreshToken(entries, Key(u), now)
    {
      var key := RefreshKey(Key(u));
      r := None;
      if key in entries && now < entries[key].deadline && entries[key].value.Text? {
        r := Some(entries[key].value.text);
      }
    }

    method IsAccessTokenExpired(u: UserId) returns (expired: bool)
      ensures expired == CacheExpired(entries, Key(u), now)
    {
      var key := MarkerKey(Key(u));
      if key !in entries || entries[key].deadline <= now || !entries[key].value.Stamp? {
        return true;
      }
      expired := entries[key].value.time < now;
    }

    method Forget(u: UserId)
      requires Valid()
      modifies this`entries
      ensures Valid()
      ensures entries == CacheForget(old(entries), Key(u))
    {
      var k := Key(u);
      ForgetPreservesCoherent(entries, k);
      ghost var target := CacheForget(entries, k);
      entries := entries - {AccessKey(k)};
      entries := entries - {RefreshKey(k)};
      entries := entries - {MarkerKey(k)};
      assert entries.Keys == target.Keys;
      assert entries == target;
    }
  }
}
