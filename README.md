# laravel-spotify: the authorization-code token lifecycle

This project is a Dafny model of the OAuth 2.0 authorization-code core of the
`laravel-spotify` package, with proofs about it.

- **`SpotifyAuthorizationCode`** is the flow manager. It does four things:
  - builds the authorize redirect;
  - exchanges a code for tokens at the token endpoint;
  - returns a user's stored access token, or refreshes it when it is expired;
  - forgets a user's tokens.
- **The token repository interface** has two implementations:
  - `DatabaseTokenRepository`, one row per stringified user id in `spotify_tokens`;
  - `CacheTokenRepository`, three cache entries per user, each with its own time-to-live.
- **The request-shaping layer of `Spotify`** covers `withToken`, the catalog
  read builders, `libraryContains` and the library and playlist write
  builders.

## Files and modules

| file | module | contents |
|---|---|---|
| `tokens.dfy` | `Tokens` | user ids and their PHP `(string)` form, the decoded token response, PHP's `empty()` |
| `strings.dfy` | `Strings` | `implode`, `explode` with a one-character delimiter, `trim` |
| `keyed.dfy` | `Keyed` | ordered key/value lists (PHP arrays with string keys) and first-match lookup |
| `database_repository.dfy` | `DatabaseRepository` | the table as a `map<string, Row>` plus a clock, and the class `DatabaseTokenRepository` |
| `cache_repository.dfy` | `CacheRepository` | the cache as a `map<string, Entry>` with deadlines plus a clock, and the class `CacheTokenRepository` |
| `token_repository.dfy` | `TokenRepository` | the interface, as the class `TokenStore` over one of the two backends |
| `authorization_code.dfy` | `AuthorizationCode` | the flow manager |
| `spotify.dfy` | `SpotifyApi` | request shaping |

### How the model is built

- **Backends.** Dafny traits are not used. `TokenStore` holds exactly one of the
  two repository objects. Its ghost `State()` is that backend's state as a
  `RepoState` value. Its ghost `writes` log records every `store` and `forget`
  issued through it.
- **Token endpoint.** The endpoint is an oracle: a function `TokenEndpoint`
  from the form request to a reply. The reply is either the decoded tokens or
  an HTTP error with its status and decoded body.
- **Flow manager.** Each method returns two things:
  - its result, with a thrown exception written as `Err`;
  - the list of token requests it sent.
- **Specification functions.** `Exchange`, `Refresh` and `AccessTokenForUser`
  state what a call returns, which requests it sends and which repository
  writes it issues. `Replay` gives the repository state after those writes.
  The lemmas about these functions carry the flow's properties. Each method's
  `ensures` ties the method to its function.
- **Time** is whole seconds.
  - Carbon's `isPast` is read as "strictly before the current second".
  - A cache entry is visible while the clock is before its deadline.

## Model

| member | source | states |
|---|---|---|
| `Tokens.IntString` | src/Repositories/DatabaseTokenRepository.php:17 | PHP `(string)` of an integer: non-empty, and it starts with `-` exactly when the integer is negative |
| `Tokens.Key` | src/Repositories/DatabaseTokenRepository.php:17 | the repository key of a user, `(string) $userId`: the decimal form of an integer id, a string id as it is; `IntKeyInjective` and `IntAndStringShareKey` state what it identifies |
| `Tokens.IntKeyInjective` | src/Repositories/DatabaseTokenRepository.php:17 | two integer user ids give the same `(string)` key only when they are equal, so each addresses its own row and its own cache keys |
| `Tokens.IntAndStringShareKey` | src/Repositories/DatabaseTokenRepository.php:17 | the integer 42 and the string "42" address the same record, and "042" a different one |
| `Tokens.NatDigits` | src/Repositories/DatabaseTokenRepository.php:17 | the decimal form of a natural number is non-empty and made only of digits |
| `Tokens.Empty` | src/SpotifyAuthorizationCode.php:138 | PHP `empty()` on the optional refresh token: absent, null, `""` and `"0"` are empty, any other string is not; `WithRefreshToken` and `CacheStore` branch on it |
| `Strings.Implode` | src/SpotifyAuthorizationCode.php:35 | `implode(sep, parts)`: the parts with `sep` between neighbours; `ImplodeExplode` and `ExplodeImplode` state that it inverts `Explode` |
| `Strings.Explode` | src/Spotify.php:123 | `explode` always yields at least one piece |
| `Strings.Trim` | src/Spotify.php:123 | `trim` returns the slice of its argument left after dropping the trimmable characters (space, tab, newline, carriage return, NUL, vertical tab) at both ends: the dropped characters are all trimmable, the result has none at either end, and an already-trimmed string is returned unchanged |
| `Strings.TrimIdempotent` | src/Spotify.php:123 | trimming twice is trimming once |
| `Strings.ImplodeExplode` | src/Spotify.php:123 | joining the pieces of `explode` with the delimiter gives back the string |
| `Strings.ExplodeImplode` | src/Spotify.php:106 | splitting a join of delimiter-free parts gives back the parts |
| `Strings.ExplodePiecesFree` | src/Spotify.php:123 | no piece of `explode` contains the delimiter |
| `Strings.TrimAll` | src/Spotify.php:123 | `array_map('trim', ...)` keeps the length and trims each element in place |
| `DatabaseRepository.StoredRow` | src/Repositories/DatabaseTokenRepository.php:20-39 | the stored row holds the access token, the refresh token or null, `now + expires_in`, the scope or null, and `updated_at = now`; `created_at` is kept on update and is `now` on insert |
| `DatabaseRepository.Upsert` | src/Repositories/DatabaseTokenRepository.php:11-41 | `store` adds exactly the user's key to the table and leaves every other row equal |
| `DatabaseRepository.Delete` | src/Repositories/DatabaseTokenRepository.php:74-79 | `forget` removes exactly the user's key and leaves every other row equal |
| `DatabaseRepository.AccessTokenOf` | src/Repositories/DatabaseTokenRepository.php:43-50 | `getAccessToken` on the table: the row's access token, null without a row; `StoreThenRead` and `ForgetThenRead` state what it reads back |
| `DatabaseRepository.RefreshTokenOf` | src/Repositories/DatabaseTokenRepository.php:52-59 | `getRefreshToken` on the table: the row's refresh token (which may be null), null without a row; `StoreThenRead` and `SecondStoreWins` state what it reads back |
| `DatabaseRepository.ExpiredAt` | src/Repositories/DatabaseTokenRepository.php:61-72 | `isAccessTokenExpired` on the table: no row, no expiry, or an expiry strictly before now; `StoreThenRead` and `NotExpiredHasAccessToken` state its meaning |
| `DatabaseRepository.StoreThenRead` | src/Repositories/DatabaseTokenRepository.php:11-72 | after `store`, the getters return the stored access token and the stored refresh token (or null); the token is expired at a later time iff `now + expires_in` is before it; the scope is kept |
| `DatabaseRepository.InsertOrUpdate` | src/Repositories/DatabaseTokenRepository.php:16-40 | an unknown user adds one row with `created_at = now`; a known user keeps the row count and its `created_at` |
| `DatabaseRepository.SecondStoreWins` | src/Repositories/DatabaseTokenRepository.php:21-29 | a second store overwrites every token column with its own values, an absent refresh token becoming null; only `created_at` comes from the first |
| `DatabaseRepository.ForgetThenRead` | src/Repositories/DatabaseTokenRepository.php:74-79 | after `forget` both getters return null and the token is expired; forgetting a user without a row changes nothing |
| `DatabaseRepository.OtherRowsUntouched` | src/Repositories/DatabaseTokenRepository.php:17-22 | `store` and `forget` leave every other user's row as it was |
| `DatabaseRepository.NotExpiredHasAccessToken` | src/Repositories/DatabaseTokenRepository.php:61-72 | a token not reported expired has a row, with an expiry no earlier than now |
| `DatabaseRepository.DatabaseTokenRepository.constructor` | src/Repositories/DatabaseTokenRepository.php:9 | the repository starts on a given table and clock |
| `DatabaseRepository.DatabaseTokenRepository.Tick` | src/Repositories/DatabaseTokenRepository.php:13 | the clock read by `Carbon::now()` moves forward by the given seconds, and the table is unchanged |
| `DatabaseRepository.DatabaseTokenRepository.Store` | src/Repositories/DatabaseTokenRepository.php:11-41 | the exists-then-update-or-insert leaves the table `Upsert` describes |
| `DatabaseRepository.DatabaseTokenRepository.GetAccessToken` | src/Repositories/DatabaseTokenRepository.php:43-50 | returns the row's access token, or null without a row |
| `DatabaseRepository.DatabaseTokenRepository.GetRefreshToken` | src/Repositories/DatabaseTokenRepository.php:52-59 | returns the row's refresh token, or null |
| `DatabaseRepository.DatabaseTokenRepository.IsAccessTokenExpired` | src/Repositories/DatabaseTokenRepository.php:61-72 | true without a row or without an expiry, otherwise true iff the expiry is in the past |
| `DatabaseRepository.DatabaseTokenRepository.Forget` | src/Repositories/DatabaseTokenRepository.php:74-79 | deletes the user's row and nothing else |
| `CacheRepository.AccessKey` | src/Repositories/CacheTokenRepository.php:23-57 | the key `spotify_user_access_token_{$userId}` used by the put, get and forget of the access token; `KeysDistinct` states it never collides with the other two kinds and is injective in the user |
| `CacheRepository.MarkerKey` | src/Repositories/CacheTokenRepository.php:24-57 | the key `spotify_user_expires_at_{$userId}` of the expiry marker; `KeysDistinct` states its properties |
| `CacheRepository.RefreshKey` | src/Repositories/CacheTokenRepository.php:28-57 | the key `spotify_user_refresh_token_{$userId}` of the refresh token; `KeysDistinct` states its properties |
| `CacheRepository.Lookup` | src/Repositories/CacheTokenRepository.php:32-40 | `Cache::get` returns the value iff the key is present and its deadline has not been reached |
| `CacheRepository.Put` | src/Repositories/CacheTokenRepository.php:23-28 | `Cache::put` sets exactly one key, with deadline `now + ttl`, and leaves the others equal |
| `CacheRepository.CacheStore` | src/Repositories/CacheTokenRepository.php:18-30 | `store`: the access token lives `expires_in` seconds, the expiry marker 60 s longer, and the refresh token 60 days but only when the response's is non-empty; `StoreThenRead` and `StorePreservesCoherent` state its effect |
| `CacheRepository.CacheForget` | src/Repositories/CacheTokenRepository.php:53-58 | `forget`: the three keys of the user are removed; `ForgetThenRead` and `ForgetPreservesCoherent` state its effect |
| `CacheRepository.CachedAccessToken` | src/Repositories/CacheTokenRepository.php:32-35 | `getAccessToken`: the live entry under the access-token key, or null; `StoreThenRead` states what it reads back |
| `CacheRepository.CachedRefreshToken` | src/Repositories/CacheTokenRepository.php:37-40 | `getRefreshToken`: the live entry under the refresh-token key, or null; `StoreThenRead` states what it reads back |
| `CacheRepository.CacheExpired` | src/Repositories/CacheTokenRepository.php:42-51 | `isAccessTokenExpired`: true without a live marker, otherwise true iff the marker's time is strictly before now; `StoreThenRead`, `GraceWindowReportsExpired` and `NotExpiredHasAccessToken` state its meaning |
| `CacheRepository.KeysDistinct` | src/Repositories/CacheTokenRepository.php:23-28 | the three key kinds never collide, and keys of one kind differ for different users |
| `CacheRepository.OtherUsersUntouched` | src/Repositories/CacheTokenRepository.php:53-58 | `store` and `forget` for one user leave each of another user's three entries as it was |
| `CacheRepository.StoreThenRead` | src/Repositories/CacheTokenRepository.php:18-51 | after `store` at `at`: the access token is visible until `at + expires_in`; the token is expired exactly once `at + expires_in` has passed; a non-empty refresh token is visible for 60 days; an empty or absent one leaves the previously cached refresh token in place |
| `CacheRepository.ForgetThenRead` | src/Repositories/CacheTokenRepository.php:53-58 | after `forget` both getters are null and the token is expired; forgetting twice is forgetting once |
| `CacheRepository.StorePreservesCoherent` | src/Repositories/CacheTokenRepository.php:18-30 | `store` keeps the per-user invariant: the access entry and the marker come and go together; the marker holds the access entry's deadline and lives 60 s longer; a cached refresh token is non-empty |
| `CacheRepository.ForgetPreservesCoherent` | src/Repositories/CacheTokenRepository.php:53-58 | `forget` keeps that invariant |
| `CacheRepository.NotExpiredHasAccessToken` | src/Repositories/CacheTokenRepository.php:42-51 | in a coherent cache, a token not reported expired has a live marker no earlier than now, and its access token is present iff now is not the marker's own second |
| `CacheRepository.GraceWindowReportsExpired` | src/Repositories/CacheTokenRepository.php:24 | in the 60 s after the access entry is gone, the marker is still live and reports the token expired |
| `CacheRepository.BoundarySecond` | src/Repositories/CacheTokenRepository.php:23-24 | a token stored at 0 for 3600 s is not expired at 3600, yet its access entry is already gone |
| `CacheRepository.CacheTokenRepository.constructor` | src/Repositories/CacheTokenRepository.php:16 | the repository starts with an empty cache that satisfies the invariant |
| `CacheRepository.CacheTokenRepository.Tick` | src/Repositories/CacheTokenRepository.php:20 | the clock moves forward and the entries and the invariant are unchanged |
| `CacheRepository.CacheTokenRepository.Store` | src/Repositories/CacheTokenRepository.php:18-30 | the three puts leave the cache `CacheStore` describes and keep the invariant |
| `CacheRepository.CacheTokenRepository.GetAccessToken` | src/Repositories/CacheTokenRepository.php:32-35 | returns the live access-token entry, or null |
| `CacheRepository.CacheTokenRepository.GetRefreshToken` | src/Repositories/CacheTokenRepository.php:37-40 | returns the live refresh-token entry, or null |
| `CacheRepository.CacheTokenRepository.IsAccessTokenExpired` | src/Repositories/CacheTokenRepository.php:42-51 | true without a live marker, otherwise true iff the marker time is in the past |
| `CacheRepository.CacheTokenRepository.Forget` | src/Repositories/CacheTokenRepository.php:53-58 | removes the user's three keys and keeps the invariant |
| `TokenRepository.AccessTokenIn` | src/Contracts/TokenRepositoryInterface.php:9 | `getAccessToken` on either backend's state; `StoreThenRead`, `ForgetIsTotal`, `OtherKeysUnaffected` and `NotExpiredHasAccessToken` state what it reports, and the flow lemmas are stated through it |
| `TokenRepository.RefreshTokenIn` | src/Contracts/TokenRepositoryInterface.php:11 | `getRefreshToken` on either backend's state; `StoreThenRead`, `ForgetIsTotal` and `BackendsDisagreeOnMissingRefreshToken` state what it reports |
| `TokenRepository.ExpiredIn` | src/Contracts/TokenRepositoryInterface.php:13 | `isAccessTokenExpired` on either backend's state; `StoreThenRead`, `ExpiresAfterLifetime` and `ForgetIsTotal` state what it reports |
| `TokenRepository.Stored` | src/Contracts/TokenRepositoryInterface.php:7 | `store` on the chosen backend's state: an upsert of the table or the three cache puts; `StoreThenRead` and `StoredPreservesGood` state its effect |
| `TokenRepository.Forgotten` | src/Contracts/TokenRepositoryInterface.php:15 | `forget` on the chosen backend's state; `ForgetIsTotal` and `ForgottenPreservesGood` state its effect |
| `TokenRepository.Advanced` | src/Repositories/DatabaseTokenRepository.php:13 | the passing of time that `Carbon::now()` observes: only the clock moves; `ExpiresAfterLifetime` states its effect on expiry |
| `TokenRepository.Replay` | src/Contracts/TokenRepositoryInterface.php:7-15 | the state after a caller's `store` and `forget` calls in order; `ReplayOne` states a single write, and each flow method's new state is `Replay` of its writes |
| `TokenRepository.ReplayOne` | src/Contracts/TokenRepositoryInterface.php:7-15 | replaying a single write is that `store` or `forget` |
| `TokenRepository.StoreThenRead` | src/Contracts/TokenRepositoryInterface.php:7-13 | with either backend, right after a store with a positive lifetime the access token is the stored one and not expired, and a non-empty refresh token is the stored one |
| `TokenRepository.ExpiresAfterLifetime` | src/Contracts/TokenRepositoryInterface.php:13 | with either backend, `seconds` after a store the token is expired iff its lifetime is shorter than `seconds` |
| `TokenRepository.ForgetIsTotal` | src/Contracts/TokenRepositoryInterface.php:15 | with either backend, after `forget` both getters are null and the token is expired; forgetting is idempotent |
| `TokenRepository.OtherKeysUnaffected` | src/Contracts/TokenRepositoryInterface.php:7-15 | with either backend, writing one user changes nothing any getter reports about another |
| `TokenRepository.NotExpiredHasAccessToken` | src/Contracts/TokenRepositoryInterface.php:9-13 | a token not reported expired has its access token, except with the cache at the marker's own second |
| `TokenRepository.StoredPreservesGood` | src/Contracts/TokenRepositoryInterface.php:7 | `store` keeps the backend's invariant |
| `TokenRepository.ForgottenPreservesGood` | src/Contracts/TokenRepositoryInterface.php:15 | `forget` keeps the backend's invariant |
| `TokenRepository.BackendsDisagreeOnMissingRefreshToken` | src/Repositories/CacheTokenRepository.php:26-29 | after a store with refresh token R1 and a second store without one, the database reports null and the cache still reports R1 |
| `TokenRepository.TokenStore.State` | src/Contracts/TokenRepositoryInterface.php:5-16 | the abstract state satisfies the backend's invariant and is a table state iff the database backend is chosen |
| `TokenRepository.TokenStore.OfDatabase` | src/Repositories/DatabaseTokenRepository.php:9 | the interface over a database repository, with its table and clock as state |
| `TokenRepository.TokenStore.OfCache` | src/Repositories/CacheTokenRepository.php:16 | the interface over a cache repository, with its entries and clock as state |
| `TokenRepository.TokenStore.Tick` | src/Repositories/DatabaseTokenRepository.php:13 | the clock advances in the abstract state, and nothing is logged |
| `TokenRepository.TokenStore.Store` | src/Contracts/TokenRepositoryInterface.php:7 | the state becomes `Stored(old, key, tokens)` and the write is logged |
| `TokenRepository.TokenStore.Forget` | src/Contracts/TokenRepositoryInterface.php:15 | the state becomes `Forgotten(old, key)` and the write is logged |
| `TokenRepository.TokenStore.GetAccessToken` | src/Contracts/TokenRepositoryInterface.php:9 | returns the access token the state reports |
| `TokenRepository.TokenStore.GetRefreshToken` | src/Contracts/TokenRepositoryInterface.php:11 | returns the refresh token the state reports |
| `TokenRepository.TokenStore.IsAccessTokenExpired` | src/Contracts/TokenRepositoryInterface.php:13 | returns whether the state reports the token expired |
| `AuthorizationCode.AuthorizationParams` | src/SpotifyAuthorizationCode.php:28-40 | the authorize parameters in the order they are added; `AuthorizationParamsShape` states the order of the fixed three, that `scope` comes before `state`, and when each appears |
| `AuthorizationCode.HttpBuildQuery` | src/SpotifyAuthorizationCode.php:42 | `http_build_query`: each parameter as `key=value` through the form encoding, joined with `&` |
| `AuthorizationCode.AuthorizationUrl` | src/SpotifyAuthorizationCode.php:42 | the URL starts with the authorize endpoint followed by `?` |
| `AuthorizationCode.AuthorizationParamsShape` | src/SpotifyAuthorizationCode.php:26-43 | the parameters start with `client_id`, `response_type=code`, `redirect_uri`; `scope` is present iff there are scopes, with the scopes joined by single spaces; `state` is present iff one is given, with its value; with both, `scope` comes fourth and `state` fifth |
| `AuthorizationCode.CodeRequest` | src/SpotifyAuthorizationCode.php:53-64 | the code-exchange POST: the token URL, Basic authentication with the client id and secret, and the form `grant_type=authorization_code`, `code`, `redirect_uri`; `ExchangeContract` states it is the one request sent |
| `AuthorizationCode.RefreshRequest` | src/SpotifyAuthorizationCode.php:116-126 | the refresh POST: the token URL, Basic authentication, and the form `grant_type=refresh_token`, `refresh_token`; `RefreshContract` states it is the one request sent |
| `AuthorizationCode.RequestFailure` | src/SpotifyAuthorizationCode.php:127-133 | the exception for a rejected request: the body's `error` field or "Unknown error", the HTTP status, and the decoded body |
| `AuthorizationCode.WithRefreshToken` | src/SpotifyAuthorizationCode.php:137-140 | an empty (absent, null, "" or "0") refresh token is replaced by the stored one; any other is kept; no other field changes |
| `AuthorizationCode.Exchange` | src/SpotifyAuthorizationCode.php:50-78 | `exchangeCodeForTokens` as its result, the requests it sends and the writes it issues; `ExchangeContract` states each path |
| `AuthorizationCode.Refresh` | src/SpotifyAuthorizationCode.php:107-145 | `refreshAccessToken` likewise; `NoRefreshTokenFailsLocally` and `RefreshContract` state each path |
| `AuthorizationCode.AccessTokenForUser` | src/SpotifyAuthorizationCode.php:85-100 | `getAccessTokenForUser` likewise; `FreshTokenFastPath`, `NoRefreshTokenFailsLocally` and `StaleTokenRefreshesOnce` state each path |
| `AuthorizationCode.ExchangeContract` | src/SpotifyAuthorizationCode.php:50-78 | exchange sends one `authorization_code` request; on success the response is stored unchanged once and returned; on an error reply it raises the `error` field (or "Unknown error") with the status, and nothing is written |
| `AuthorizationCode.FreshTokenFastPath` | src/SpotifyAuthorizationCode.php:87-89 | a token not expired is returned with no request and no write; only the cache's boundary second can make the return fail |
| `AuthorizationCode.NoRefreshTokenFailsLocally` | src/SpotifyAuthorizationCode.php:91-113 | without a refresh token, refresh (and the getter, when the token is expired) raise the 401 re-authenticate error before any request or write |
| `AuthorizationCode.RefreshContract` | src/SpotifyAuthorizationCode.php:107-145 | `refreshAccessToken` called directly, expired token or not, with a stored refresh token: exactly one `refresh_token` request carrying it; on success the response, with the old refresh token put in when its own is empty, is returned and that same record is stored once; on an error reply the `error` field (or "Unknown error") and the status are raised and nothing is written |
| `AuthorizationCode.StaleTokenRefreshesOnce` | src/SpotifyAuthorizationCode.php:91-99 | an expired token with a refresh token sends exactly one refresh request; on success the merged record is stored once and its access token returned; on an error reply that error is raised and nothing is written |
| `AuthorizationCode.RefreshCarriesRefreshTokenForward` | src/SpotifyAuthorizationCode.php:135-144 | when the response's refresh token is empty, the record returned and stored holds the previous one, and the repository still reports it, with either backend |
| `AuthorizationCode.RefreshMakesTokenFresh` | src/SpotifyAuthorizationCode.php:97-99 | after a successful refresh with a positive lifetime, the token is not expired and the repository returns the access token that was returned |
| `AuthorizationCode.ExchangeThenFastPath` | src/SpotifyAuthorizationCode.php:73-89 | after a successful exchange with a positive lifetime, the getter takes the fast path and returns the new access token |
| `AuthorizationCode.ForgottenUserMustReauthenticate` | src/SpotifyAuthorizationCode.php:150-153 | after `forgetTokens` the getter raises the 401 error without any request or write |
| `AuthorizationCode.Scenario` | src/SpotifyAuthorizationCode.php:50-145 | exchange gives T1/R1 for an hour; 3601 s later the token is expired, one refresh is sent with R1, T2 is returned, and R1 is still stored |
| `AuthorizationCode.SpotifyAuthorizationCode.constructor` | src/SpotifyAuthorizationCode.php:16-21 | holds the client id, secret, redirect URI and repository |
| `AuthorizationCode.SpotifyAuthorizationCode.GetAuthorizationUrl` | src/SpotifyAuthorizationCode.php:26-43 | the authorize endpoint, `?`, and the query of the ordered parameters |
| `AuthorizationCode.SpotifyAuthorizationCode.ExchangeCodeForTokens` | src/SpotifyAuthorizationCode.php:50-78 | result, requests sent, writes logged and new repository state are those of `Exchange` |
| `AuthorizationCode.SpotifyAuthorizationCode.RefreshAccessToken` | src/SpotifyAuthorizationCode.php:107-145 | result, requests, writes and new state are those of `Refresh` on the old state |
| `AuthorizationCode.SpotifyAuthorizationCode.GetAccessTokenForUser` | src/SpotifyAuthorizationCode.php:85-100 | result, requests, writes and new state are those of `AccessTokenForUser` on the old state |
| `AuthorizationCode.SpotifyAuthorizationCode.ForgetTokens` | src/SpotifyAuthorizationCode.php:150-153 | calls only the repository's `forget` |
| `SpotifyApi.NewSpotify` | src/Spotify.php:11-14 | a client starts with the configured defaults and no user token |
| `SpotifyApi.WithToken` | src/Spotify.php:19-25 | the copy has the token set and the same defaults; the receiver is a value and is left as it was |
| `SpotifyApi.NewRequest` | src/PendingRequest.php:17-28 | `new PendingRequest($endpoint, $acceptedParams, $accessToken)` with the defaults `method = 'GET'` and an empty body; `ReadsForwardToken` states that each read built with it is such a GET carrying the token |
| `SpotifyApi.Album` | src/Spotify.php:30-39 | `album`: `/albums/{id}` accepting `market`; the lemmas below state its defaults, token, method and body |
| `SpotifyApi.AlbumTracks` | src/Spotify.php:44-55 | `albumTracks`: `/albums/{id}/tracks/` accepting `limit`, `offset`, `market`; the lemmas below state its defaults, token, method and body |
| `SpotifyApi.Artist` | src/Spotify.php:60-65 | `artist`: `/artists/{id}` with no parameters; the lemmas below state its defaults, token, method and body |
| `SpotifyApi.ArtistAlbums` | src/Spotify.php:70-82 | `artistAlbums`: `/artists/{id}/albums/` accepting `include_groups`, `country`, `limit`, `offset`; the lemmas below state its defaults, token, method and body |
| `SpotifyApi.Episode` | src/Spotify.php:87-96 | `episode`: `/episodes/{id}` accepting `market`; the lemmas below state its defaults, token, method and body |
| `SpotifyApi.UrisParam` | src/Spotify.php:104-113 | the `uris` value of `libraryContains`: an array joined with `,`, a string as given; the lemmas below state its defaults, token, method and body |
| `SpotifyApi.LibraryContains` | src/Spotify.php:104-113 | `libraryContains`: `/me/library/contains` with `uris`; the lemmas below state its defaults, token, method and body |
| `SpotifyApi.SaveToLibrary` | src/Spotify.php:121-130 | `saveToLibrary`: a PUT to `/me/library` with the URI list as body; the lemmas below state its defaults, token, method and body |
| `SpotifyApi.RemoveFromLibrary` | src/Spotify.php:138-147 | `removeFromLibrary`: a DELETE to `/me/library` with the URI list as body; the lemmas below state its defaults, token, method and body |
| `SpotifyApi.PlaylistCoverImage` | src/Spotify.php:152-157 | `playlistCoverImage`: `/playlists/{id}/images/` with no parameters; the lemmas below state its defaults, token, method and body |
| `SpotifyApi.Playlist` | src/Spotify.php:162-172 | `playlist`: `/playlists/{id}` accepting `fields`, `market`; the lemmas below state its defaults, token, method and body |
| `SpotifyApi.PlaylistItems` | src/Spotify.php:177-189 | `playlistItems`: `/playlists/{id}/items/` accepting `fields`, `limit`, `offset`, `market`; the lemmas below state its defaults, token, method and body |
| `SpotifyApi.AddPlaylistItems` | src/Spotify.php:197-211 | `addPlaylistItems`: a POST to `/playlists/{id}/items` with the body `AddPlaylistItemsBody` describes; the lemmas below state its defaults, token, method and body |
| `SpotifyApi.UpdateBody` | src/Spotify.php:219-239 | the `updatePlaylistItems` body around its URI list; the lemmas below state its defaults, token, method and body |
| `SpotifyApi.UpdatePlaylistItems` | src/Spotify.php:219-239 | `updatePlaylistItems`: a PUT to `/playlists/{id}/items` with the body `UpdatePlaylistItemsBody` describes; the lemmas below state its defaults, token, method and body |
| `SpotifyApi.RemovePlaylistItems` | src/Spotify.php:247-256 | `removePlaylistItems`: a DELETE to `/playlists/{id}/items` with the body `RemovePlaylistItemsBody` describes; the lemmas below state its defaults, token, method and body |
| `SpotifyApi.SearchFor` | src/Spotify.php:284-298 | the shape the six typed searches share: `/search/` accepting `q`, `type`, `market`, `limit`, `offset`, `include_external`; the lemmas below state its defaults, token, method and body |
| `SpotifyApi.SearchAlbums` | src/Spotify.php:284-298 | `searchAlbums`: type `album`; the lemmas below state its defaults, token, method and body |
| `SpotifyApi.SearchArtists` | src/Spotify.php:304-318 | `searchArtists`: type `artist`; the lemmas below state its defaults, token, method and body |
| `SpotifyApi.SearchEpisodes` | src/Spotify.php:324-338 | `searchEpisodes`: type `episode`; the lemmas below state its defaults, token, method and body |
| `SpotifyApi.SearchPlaylists` | src/Spotify.php:344-358 | `searchPlaylists`: type `playlist`; the lemmas below state its defaults, token, method and body |
| `SpotifyApi.SearchShows` | src/Spotify.php:364-378 | `searchShows`: type `show`; the lemmas below state its defaults, token, method and body |
| `SpotifyApi.SearchTracks` | src/Spotify.php:384-398 | `searchTracks`: type `track`; the lemmas below state its defaults, token, method and body |
| `SpotifyApi.Show` | src/Spotify.php:403-412 | `show`: `/shows/{id}` accepting `market`; the lemmas below state its defaults, token, method and body |
| `SpotifyApi.ShowEpisodes` | src/Spotify.php:417-428 | `showEpisodes`: `/shows/{id}/episodes/` accepting `limit`, `offset`, `market`; the lemmas below state its defaults, token, method and body |
| `SpotifyApi.Track` | src/Spotify.php:433-442 | `track`: `/tracks/{id}` accepting `market`; the lemmas below state its defaults, token, method and body |
| `SpotifyApi.WithTokenReachesRequests` | src/Spotify.php:19-38 | a later `withToken` replaces an earlier one; builders on the copy carry its token; without `withToken` they carry null |
| `SpotifyApi.ReadsForwardToken` | src/Spotify.php:30-442 | every catalog read, every typed search and `libraryContains` (for any `$uris`, string or array) is a GET with an empty body that carries the client's token |
| `SpotifyApi.WritesForwardToken` | src/Spotify.php:121-256 | every write builder carries the client's token; methods are PUT/DELETE for the library and POST/PUT/DELETE for playlist items |
| `SpotifyApi.CatalogDefaults` | src/Spotify.php:30-189 | `market` of album, albumTracks, episode, playlist, playlistItems, show, showEpisodes and track is the configured default, `country` of artistAlbums is the configured country, and every other accepted parameter (`limit`, `offset`, `fields`, `include_groups`) starts null; artist, artistAlbums and playlistCoverImage take no `market` |
| `SpotifyApi.SearchDefaults` | src/Spotify.php:284-298 | a typed search carries the query, its type and the default market, and `limit`, `offset` and `include_external` start null |
| `SpotifyApi.SearchTypes` | src/Spotify.php:284-398 | each of the six typed searches asks for its own type |
| `SpotifyApi.EndpointNamesId` | src/Spotify.php:30-256 | the id can be read back from the album, playlist and playlist-items endpoints; the add, update and remove item writes share one endpoint whatever their URIs and optional arguments; so different ids give different endpoints |
| `SpotifyApi.UriArray` | src/Spotify.php:123 | an array is passed through; a string becomes its comma-split pieces, each trimmed, one per piece |
| `SpotifyApi.UriPiecesArePlain` | src/Spotify.php:123 | each piece from a string has no comma and no surrounding blank |
| `SpotifyApi.UriStringRoundTrip` | src/Spotify.php:104-123 | a non-empty list of plain URIs joined with commas, as `libraryContains` sends it, splits back into the same list |
| `SpotifyApi.CommaBlankRoundTrip` | tests/Unit/LibraryTest.php:36-47 | a list of plain URIs written as "a, b, ..." gives the same list as the array form |
| `SpotifyApi.LibraryContainsParam` | src/Spotify.php:104-113 | `libraryContains` joins an array with `,` into `uris` and passes a string through as is |
| `SpotifyApi.LibraryWritesBody` | src/Spotify.php:121-147 | save and remove both address `/me/library`, both with no query parameters, and both with body `uris` holding the URI list |
| `SpotifyApi.UriItems` | src/Spotify.php:253 | one `{uri: u}` object per URI, in order |
| `SpotifyApi.AddPlaylistItemsBody` | src/Spotify.php:197-211 | the body has `uris`, then `position` exactly when a position is given, with its value |
| `SpotifyApi.UpdatePlaylistItemsBody` | src/Spotify.php:219-239 | the body has `uris`, then `range_start`, `range_length` and `insert_before` in that order, each exactly when its argument is given, with that value |
| `SpotifyApi.RemovePlaylistItemsBody` | src/Spotify.php:247-256 | the body has only `items`, one `{uri: u}` per URI of the list, in its order |

## Left out

- HTTP transport is not modelled. This covers the `SpotifyClient` facade, Guzzle and `RequestException`. The endpoint is a parameter, and the headers `Content-Type` and `Accepts` are not represented.
- JSON decoding is not modelled. A successful reply is the decoded `TokenResponse`, and an error body is reduced to its `error` field (or to `None` when it is not JSON). The exception's raw payload is that reduced body.
- The model assumes each token response carries `access_token` and `expires_in`. PHP's behaviour on a response missing either key is not modelled.
- `base64_encode` of `client_id:client_secret` is kept as the pair it encodes.
- `http_build_query` percent-encoding is a parameter `encode`. The model fixes only the `key=value&...` structure.
- Carbon parsing and formatting are not modelled; time is integer seconds. The `isPast` boundary (`expiry < now`) is library-defined.
- CacheRepository.NotExpiredHasAccessToken: at the one second where `now` equals the marker's time, the cache reports the token as not expired while the access-token entry has reached its deadline. `getAccessTokenForUser` would then return null through its `string` return type, which is modelled as `Failure.ReturnTypeError`. The window comes from whole-second time. Carbon's `isPast()` compares against a `now()` that carries microseconds, and `toDateTimeString()` (src/Repositories/CacheTokenRepository.php:24) drops the sub-seconds, so the real marker reads as past from the first microsecond after that second begins. The real window is therefore at most an instant, not a whole second.
- Laravel's cache eviction and the database engine are modelled only by their observable contract: a map with deadlines, and a keyed table. A `put` with a non-positive time-to-live is an entry that is never visible.
- Concurrency is not modelled. This covers concurrent refreshes, the non-atomic exists-then-insert in the database `store`, and cache durability across restarts.
- The two backends treat a response without a refresh token differently. The database overwrites the stored refresh token with null; the cache keeps the old one. The model follows the code. The interface (src/Contracts/TokenRepositoryInterface.php:7) does not say which is intended: src/Repositories/DatabaseTokenRepository.php:25 writes null, and src/Repositories/CacheTokenRepository.php:26-29 skips the put (`BackendsDisagreeOnMissingRefreshToken`).
- `searchItems` and `PendingRequest`'s own fluent setters and sending are not modelled. `searchItems` depends on `Validator`, which is not part of this model. `PendingRequest` is modelled only by the fields the builders set: endpoint, accepted parameters, token, method and body.
- `SpotifyRequest`, the service provider, the configuration file and the facades are wiring and are not modelled. The migration is used only for its unique `user_id`, which is why the table is a map.
- The repository interface is not a Dafny trait. `TokenStore` chooses between the two backends at construction.
