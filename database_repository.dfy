/** The database-backed token repository: the `spotify_tokens` table as a
    map from the stringified `user_id` (a unique column) to its row, and
    the clock that `Carbon::now()` reads, in whole seconds. */
module DatabaseRepository {
  import opened Tokens

  /** One row of `spotify_tokens`; the nullable columns are options. */
  datatype Row = Row(
    accessToken: string,
    refreshToken: Option<string>,
    expiresAt: Option<int>,
    scopes: Option<string>,
    createdAt: int,
    updatedAt: int)

  type Table = map<string, Row>

  /** The row `store` leaves for a key: the columns it writes are updated in
      an existing row (`created_at` is kept), or a new row is inserted. */
  function StoredRow(existing: Option<Row>, t: TokenResponse, now: int): (r: Row)
    ensures r.accessToken == t.accessToken
    ensures r.refreshToken == t.refreshToken
    ensures r.expiresAt == Some(now + t.expiresIn)
    ensures r.scopes == t.scope
    ensures r.updatedAt == now
    ensures r.createdAt == if existing.Some? then existing.value.createdAt else now
  {
    match existing
    case Some(row) =>
      row.(accessToken := t.accessToken, refreshToken := t.refreshToken,
           expiresAt := Some(now + t.expiresIn), scopes := t.scope, updatedAt := now)
    case None =>
      Row(t.accessToken, t.refreshToken, Some(now + t.expiresIn), t.scope, now, now)
  }

  function RowOf(table: Table, k: string): Option<Row>
  {
    if k in table then Some(table[k]) else None
  }

  /** The table after `store(k, t)` at time `now`. */
  function Upsert(table: Table, k: string, t: TokenResponse, now: int): (r: Table)
    ensures r.Keys == table.Keys + {k}
    ensures forall k' :: k' in table && k' != k ==> r[k'] == table[k']
  {
    table[k := StoredRow(RowOf(table, k), t, now)]
  }

  /** The table after `forget(k)`: the row with that key is deleted. */
  function Delete(table: Table, k: string): (r: Table)
    ensures r.Keys == table.Keys - {k}
    ensures forall k' :: k' in r ==> r[k'] == table[k']
  {
    table - {k}
  }

  function AccessTokenOf(table: Table, k: string): Option<string>
  {
    if k in table then Some(table[k].accessToken) else None
  }

  function RefreshTokenOf(table: Table, k: string): Option<string>
  {
    if k in table then table[k].refreshToken else None
  }

  /** `isAccessTokenExpired`: no row, no expiry, or an expiry in the past
      (Carbon's `isPast` is a strict comparison with the current time). */
  predicate ExpiredAt(table: Table, k: string, now: int)
  {
    k !in table || table[k].expiresAt.None? || table[k].expiresAt.value < now
  }

  /** After a store the three getters see exactly what was stored, and the
      token is expired at a later time exactly when its lifetime has passed. */
  lemma StoreThenRead(table: Table, k: string, t: TokenResponse, now: int, later: int)
    ensures AccessTokenOf(Upsert(table, k, t, now), k) == Some(t.accessToken)
    ensures RefreshTokenOf(Upsert(table, k, t, now), k) == t.refreshToken
    ensures ExpiredAt(Upsert(table, k, t, now), k, later) <==> now + t.expiresIn < later
    ensures Upsert(table, k, t, now)[k].scopes == t.scope
  {
  }

  /** `store` inserts when no row exists and updates otherwise: the table
      grows by one row, or keeps its size and the row's `created_at`. */
  lemma InsertOrUpdate(table: Table, k: string, t: TokenResponse, now: int)
    ensures k !in table ==> |Upsert(table, k, t, now)| == |table| + 1
    ensures k !in table ==> Upsert(table, k, t, now)[k].createdAt == now
    ensures k in table ==> |Upsert(table, k, t, now)| == |table|
    ensures k in table ==> Upsert(table, k, t, now)[k].createdAt == table[k].createdAt
  {
    var r := Upsert(table, k, t, now);
    if k in table {
      assert r.Keys == table.Keys;
    } else {
      assert r.Keys == table.Keys + {k};
      assert |r.Keys| == |table.Keys| + 1;
    }
  }

  /** A second store overwrites every token column, an absent refresh token
      included; only `created_at` survives from the first. */
  lemma SecondStoreWins(table: Table, k: string, t1: TokenResponse, n1: int, t2: TokenResponse, n2: int)
    ensures var r := Upsert(Upsert(table, k, t1, n1), k, t2, n2)[k];
      && r.accessToken == t2.accessToken
      && r.refreshToken == t2.refreshToken
      && r.expiresAt == Some(n2 + t2.expiresIn)
      && r.scopes == t2.scope
      && r.updatedAt == n2
      && r.createdAt == (if k in table then table[k].createdAt else n1)
  {
  }

  /** After `forget` the getters return null and the token is expired;
      forgetting a user without a row changes nothing. */
  lemma ForgetThenRead(table: Table, k: string, now: int)
    ensures AccessTokenOf(Delete(table, k), k) == None
    ensures RefreshTokenOf(Delete(table, k), k) == None
    ensures ExpiredAt(Delete(table, k), k, now)
    ensures k !in table ==> Delete(table, k) == table
  {
  }

  /** Every operation addresses only the row with its own key. */
  lemma OtherRowsUntouched(table: Table, k: string, other: string, t: TokenResponse, now: int)
    requires other != k
    ensures RowOf(Upsert(table, k, t, now), other) == RowOf(table, other)
    ensures RowOf(Delete(table, k), other) == RowOf(table, other)
  {
  }

  /** A token that is not expired belongs to an existing row, so its access
      token is present. */
  lemma NotExpiredHasAccessToken(table: Table, k: string, now: int)
    requires !ExpiredAt(table, k, now)
    ensures AccessTokenOf(table, k).Some?
    ensures table[k].expiresAt.Some? && now <= table[k].expiresAt.value
  {
  }

  class DatabaseTokenRepository {
    var rows: Table
    var now: int

    /** A repository over an existing table, which may hold rows written by
        other code (for instance with a null `expires_at`). */
    constructor (table: Table, clock: int)
      ensures rows == table && now == clock
    {
      rows := table;
      now := clock;
    }

    /** The clock moves forward. */
    method Tick(seconds: nat)
      modifies this`now
      ensures now == old(now) + seconds
    {
      now := now + seconds;
    }

    /** Checks whether a row exists, then updates it or inserts a new one. */
    method Store(u: UserId, t: TokenResponse)
      modifies this`rows
      ensures rows == Upsert(old(rows), Key(u), t, now)
    {
      var k := Key(u);
      var found := k in rows;
      if found {
        rows := rows[k := rows[k].(accessToken := t.accessToken, refreshToken := t.refreshToken,
                                  expiresAt := Some(now + t.expiresIn), scopes := t.scope,
                                  updatedAt := now)];
      } else {
        rows := rows[k := Row(t.accessToken, t.refreshToken, Some(now + t.expiresIn), t.scope, now, now)];
      }
    }

    method GetAccessToken(u: UserId) returns (r: Option<string>)
      ensures r == AccessTokenOf(rows, Key(u))
    {
      var k := Key(u);
      r := if k in rows then Some(rows[k].accessToken) else None;
    }

    method GetRefreshToken(u: UserId) returns (r: Option<string>)
      ensures r == RefreshTokenOf(rows, Key(u))
    {
      var k := Key(u);
      r := if k in rows then rows[k].refreshToken else None;
    }

    method IsAccessTokenExpired(u: UserId) returns (expired: bool)
      ensures expired == ExpiredAt(rows, Key(u), now)
    {
      var k := Key(u);
      if k !in rows || rows[k].expiresAt.None? {
        return true;
      }
      expired := rows[k].expiresAt.value < now;
    }

    method Forget(u: UserId)
      modifies this`rows
      ensures rows == Delete(old(rows), Key(u))
    {
      rows := rows - {Key(u)};
    }
  }
}
