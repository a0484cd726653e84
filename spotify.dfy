/** The Web API client's request shaping: a `Spotify` value holds the
    configured defaults and an optional user access token; each builder
    returns a `PendingRequest` describing the call (endpoint, accepted query
    parameters with their defaults, token, HTTP method, JSON body). Sending
    the request is not part of this module. */
module SpotifyApi {
  import opened Tokens
  import opened Strings
  import opened Keyed

  /** The `default_config` entries the builders read; each may be null. */
  datatype DefaultConfig = DefaultConfig(country: Option<string>, market: Option<string>)

  datatype Spotify = Spotify(defaultConfig: DefaultConfig, accessToken: Option<string>)

  datatype HttpMethod = GET | POST | PUT | DELETE

  /** One `{uri: u}` object of a playlist removal body. */
  datatype UriItem = UriItem(uri: string)

  /** The values a JSON body holds here: a URI list, an integer, or a list of
      URI objects. */
  datatype BodyValue = UriValues(uris: seq<string>) | IntValue(n: int) | Items(items: seq<UriItem>)

  datatype PendingRequest = PendingRequest(
    endpoint: string,
    acceptedParams: seq<(string, Option<string>)>,
    accessToken: Option<string>,
    verb: HttpMethod,
    body: seq<(string, BodyValue)>)

  /** `$uris` as callers pass it: an array of URIs or one comma-separated string. */
  datatype Uris = UriList(list: seq<string>) | UriString(text: string)

  /** A client as the container builds it: no user token yet. */
  function NewSpotify(cfg: DefaultConfig): (sp: Spotify)
    ensures sp.defaultConfig == cfg && sp.accessToken.None?
  {
    Spotify(cfg, None)
  }

  /** `withToken`: a copy that carries the token; the receiver is a value and
      keeps its own token. */
  function WithToken(sp: Spotify, token: string): (r: Spotify)
    ensures r.accessToken == Some(token)
    ensures r.defaultConfig == sp.defaultConfig
  {
    sp.(accessToken := Some(token))
  }

  /** `new PendingRequest(...)`: a GET with an empty body. */
  function NewRequest(endpoint: string, params: seq<(string, Option<string>)>, token: Option<string>): PendingRequest
  {
    PendingRequest(endpoint, params, token, GET, [])
  }

  function Album(sp: Spotify, id: string): PendingRequest
  {
    NewRequest("/albums/" + id, [("market", sp.defaultConfig.market)], sp.accessToken)
  }

  function AlbumTracks(sp: Spotify, id: string): PendingRequest
  {
    NewRequest("/albums/" + id + "/tracks/",
               [("limit", None), ("offset", None), ("market", sp.defaultConfig.market)], sp.accessToken)
  }

  function Artist(sp: Spotify, id: string): PendingRequest
  {
    NewRequest("/artists/" + id, [], sp.accessToken)
  }

  function ArtistAlbums(sp: Spotify, id: string): PendingRequest
  {
    NewRequest("/artists/" + id + "/albums/",
               [("include_groups", None), ("country", sp.defaultConfig.country), ("limit", None), ("offset", None)],
               sp.accessToken)
  }

  function Episode(sp: Spotify, id: string): PendingRequest
  {
    NewRequest("/episodes/" + id, [("market", sp.defaultConfig.market)], sp.accessToken)
  }

  function PlaylistCoverImage(sp: Spotify, id: string): PendingRequest
  {
    NewRequest("/playlists/" + id + "/images/", [], sp.accessToken)
  }

  function Playlist(sp: Spotify, id: string): PendingRequest
  {
    NewRequest("/playlists/" + id, [("fields", None), ("market", sp.defaultConfig.market)], sp.accessToken)
  }

  function PlaylistItems(sp: Spotify, id: string): PendingRequest
  {
    NewRequest("/playlists/" + id + "/items/",
               [("fields", None), ("limit", None), ("offset", None), ("market", sp.defaultConfig.market)],
               sp.accessToken)
  }

  /** The shared shape of the six typed searches. */
  function SearchFor(sp: Spotify, query: string, kind: string): PendingRequest
  {
    NewRequest("/search/",
               [("q", Some(query)), ("type", Some(kind)), ("market", sp.defaultConfig.market),
                ("limit", None), ("offset", None), ("include_external", None)],
               sp.accessToken)
  }

  function SearchAlbums(sp: Spotify, query: string): PendingRequest { SearchFor(sp, query, "album") }
  function SearchArtists(sp: Spotify, query: string): PendingRequest { SearchFor(sp, query, "artist") }
  function SearchEpisodes(sp: Spotify, query: string): PendingRequest { SearchFor(sp, query, "episode") }
  function SearchPlaylists(sp: Spotify, query: string): PendingRequest { SearchFor(sp, query, "playlist") }
  function SearchShows(sp: Spotify, query: string): PendingRequest { SearchFor(sp, query, "show") }
  function SearchTracks(sp: Spotify, query: string): PendingRequest { SearchFor(sp, query, "track") }

  function Show(sp: Spotify, id: string): PendingRequest
  {
    NewRequest("/shows/" + id, [("market", sp.defaultConfig.market)], sp.accessToken)
  }

  function ShowEpisodes(sp: Spotify, id: string): PendingRequest
  {
    NewRequest("/shows/" + id + "/episodes/",
               [("limit", None), ("offset", None), ("market", sp.defaultConfig.market)], sp.accessToken)
  }

  function Track(sp: Spotify, id: string): PendingRequest
  {
    NewRequest("/tracks/" + id, [("market", sp.defaultConfig.market)], sp.accessToken)
  }

  /** The URI list of a write body: an array as given, or the comma-split
      pieces of the string, each trimmed. */
  function UriArray(uris: Uris): (r: seq<string>)
    ensures uris.UriList? ==> r == uris.list
    ensures uris.UriString? ==> |r| == |Explode(',', uris.text)|
    ensures uris.UriString? ==> forall i :: 0 <= i < |r| ==> r[i] == Trim(Explode(',', uris.text)[i])
  {
    match uris
    case UriList(list) => list
    case UriString(text) => TrimAll(Explode(',', text))
  }

  /** The `uris` query value of `libraryContains`: an array joined with
      commas, or the string as given. */
  function UrisParam(uris: Uris): string
  {
    match uris
    case UriList(list) => Implode(",", list)
    case UriString(text) => text
  }

  function LibraryContains(sp: Spotify, uris: Uris): PendingRequest
  {
    NewRequest("/me/library/contains", [("uris", Some(UrisParam(uris)))], sp.accessToken)
  }

  function SaveToLibrary(sp: Spotify, uris: Uris): PendingRequest
  {
    NewRequest("/me/library", [], sp.accessToken).(verb := PUT, body := [("uris", UriValues(UriArray(uris)))])
  }

  function RemoveFromLibrary(sp: Spotify, uris: Uris): PendingRequest
  {
    NewRequest("/me/library", [], sp.accessToken).(verb := DELETE, body := [("uris", UriValues(UriArray(uris)))])
  }

  /** A body entry that is there only when its argument is not null. */
  function Optional(key: string, value: Option<int>): seq<(string, BodyValue)>
  {
    if value.Some? then [(key, IntValue(value.value))] else []
  }

  function AddPlaylistItems(sp: Spotify, id: string, uris: Uris, position: Option<int>): PendingRequest
  {
    var body := [("uris", UriValues(UriArray(uris)))] + Optional("position", position);
    NewRequest("/playlists/" + id + "/items", [], sp.accessToken).(verb := POST, body := body)
  }

  function UpdatePlaylistItems(sp: Spotify, id: string, uris: Uris, rangeStart: Option<int>,
                               rangeLength: Option<int>, insertBefore: Option<int>): PendingRequest
  {
    var body := UpdateBody(UriValues(UriArray(uris)), rangeStart, rangeLength, insertBefore);
    NewRequest("/playlists/" + id + "/items", [], sp.accessToken).(verb := PUT, body := body)
  }

  /** One `{uri: u}` object per URI, in order. */
  function UriItems(uris: seq<string>): (r: seq<UriItem>)
    ensures |r| == |uris|
    ensures forall i :: 0 <= i < |uris| ==> r[i] == UriItem(uris[i])
  {
    seq(|uris|, i requires 0 <= i < |uris| => UriItem(uris[i]))
  }

  function RemovePlaylistItems(sp: Spotify, id: string, uris: Uris): PendingRequest
  {
    NewRequest("/playlists/" + id + "/items", [], sp.accessToken)
      .(verb := DELETE, body := [("items", Items(UriItems(UriArray(uris))))])
  }

  /** A GET with an empty body that carries the token. */
  predicate PlainGet(r: PendingRequest, token: Option<string>)
  {
    r.accessToken == token && r.verb == GET && r.body == []
  }

  /** Every catalog read is a GET with an empty body that carries the
      client's token (null unless `withToken` set one). */
  lemma ReadsForwardToken(sp: Spotify, id: string, query: string, uris: Uris)
    ensures PlainGet(Album(sp, id), sp.accessToken) && PlainGet(AlbumTracks(sp, id), sp.accessToken)
    ensures PlainGet(Artist(sp, id), sp.accessToken) && PlainGet(ArtistAlbums(sp, id), sp.accessToken)
    ensures PlainGet(Episode(sp, id), sp.accessToken) && PlainGet(PlaylistCoverImage(sp, id), sp.accessToken)
    ensures PlainGet(Playlist(sp, id), sp.accessToken) && PlainGet(PlaylistItems(sp, id), sp.accessToken)
    ensures PlainGet(Show(sp, id), sp.accessToken) && PlainGet(ShowEpisodes(sp, id), sp.accessToken)
    ensures PlainGet(Track(sp, id), sp.accessToken)
    ensures PlainGet(SearchAlbums(sp, query), sp.accessToken) && PlainGet(SearchArtists(sp, query), sp.accessToken)
    ensures PlainGet(SearchEpisodes(sp, query), sp.accessToken) && PlainGet(SearchPlaylists(sp, query), sp.accessToken)
    ensures PlainGet(SearchShows(sp, query), sp.accessToken) && PlainGet(SearchTracks(sp, query), sp.accessToken)
    ensures PlainGet(LibraryContains(sp, uris), sp.accessToken)
  {
  }

  /** Every write carries the client's token and its own method. */
  lemma WritesForwardToken(sp: Spotify, id: string, uris: Uris, a: Option<int>, b: Option<int>, c: Option<int>)
    ensures SaveToLibrary(sp, uris).accessToken == sp.accessToken && SaveToLibrary(sp, uris).verb == PUT
    ensures RemoveFromLibrary(sp, uris).accessToken == sp.accessToken && RemoveFromLibrary(sp, uris).verb == DELETE
    ensures AddPlaylistItems(sp, id, uris, a).accessToken == sp.accessToken
    ensures AddPlaylistItems(sp, id, uris, a).verb == POST
    ensures UpdatePlaylistItems(sp, id, uris, a, b, c).accessToken == sp.accessToken
    ensures UpdatePlaylistItems(sp, id, uris, a, b, c).verb == PUT
    ensures RemovePlaylistItems(sp, id, uris).accessToken == sp.accessToken
    ensures RemovePlaylistItems(sp, id, uris).verb == DELETE
  {
  }

  /** A request built after `withToken(token)` carries that token, and a later
      `withToken` replaces an earlier one. */
  lemma WithTokenReachesRequests(sp: Spotify, first: string, token: string, id: string)
    ensures WithToken(WithToken(sp, first), token) == WithToken(sp, token)
    ensures Album(WithToken(sp, token), id).accessToken == Some(token)
    ensures AddPlaylistItems(WithToken(sp, token), id, UriList([]), None).accessToken == Some(token)
    ensures Album(NewSpotify(sp.defaultConfig), id).accessToken.None?
  {
  }

  /** The market (the country for an artist's albums) is the default from
      the configuration; every other optional parameter starts out null. */
  lemma CatalogDefaults(sp: Spotify, id: string)
    ensures Lookup(Album(sp, id).acceptedParams, "market") == Some(sp.defaultConfig.market)
    ensures var ps := AlbumTracks(sp, id).acceptedParams;
      && Lookup(ps, "limit") == Some(None) && Lookup(ps, "offset") == Some(None)
      && Lookup(ps, "market") == Some(sp.defaultConfig.market)
    ensures !HasKey(Artist(sp, id).acceptedParams, "market")
    ensures var ps := ArtistAlbums(sp, id).acceptedParams;
      && Lookup(ps, "include_groups") == Some(None) && Lookup(ps, "country") == Some(sp.defaultConfig.country)
      && Lookup(ps, "limit") == Some(None) && Lookup(ps, "offset") == Some(None)
      && !HasKey(ps, "market")
    ensures Lookup(Episode(sp, id).acceptedParams, "market") == Some(sp.defaultConfig.market)
    ensures !HasKey(PlaylistCoverImage(sp, id).acceptedParams, "market")
    ensures var ps := Playlist(sp, id).acceptedParams;
      Lookup(ps, "fields") == Some(None) && Lookup(ps, "market") == Some(sp.defaultConfig.market)
    ensures var ps := PlaylistItems(sp, id).acceptedParams;
      && Lookup(ps, "fields") == Some(None) && Lookup(ps, "limit") == Some(None)
      && Lookup(ps, "offset") == Some(None) && Lookup(ps, "market") == Some(sp.defaultConfig.market)
    ensures Lookup(Show(sp, id).acceptedParams, "market") == Some(sp.defaultConfig.market)
    ensures var ps := ShowEpisodes(sp, id).acceptedParams;
      && Lookup(ps, "limit") == Some(None) && Lookup(ps, "offset") == Some(None)
      && Lookup(ps, "market") == Some(sp.defaultConfig.market)
    ensures Lookup(Track(sp, id).acceptedParams, "market") == Some(sp.defaultConfig.market)
  {
    var tracks := AlbumTracks(sp, id).acceptedParams;
    LookupAt(tracks, 1);
    LookupAt(tracks, 2);
    var albums := ArtistAlbums(sp, id).acceptedParams;
    LookupAt(albums, 1);
    LookupAt(albums, 2);
    LookupAt(albums, 3);
    assert !HasKey(albums, "market") by {
      assert forall i :: 0 <= i < |albums| ==> albums[i].0 in {"include_groups", "country", "limit", "offset"};
    }
    LookupAt(Playlist(sp, id).acceptedParams, 1);
    var items := PlaylistItems(sp, id).acceptedParams;
    LookupAt(items, 1);
    LookupAt(items, 2);
    LookupAt(items, 3);
    var episodes := ShowEpisodes(sp, id).acceptedParams;
    LookupAt(episodes, 1);
    LookupAt(episodes, 2);
  }

  /** A typed search carries the query and its type, and the default market. */
  lemma SearchDefaults(sp: Spotify, query: string, kind: string)
    ensures Lookup(SearchFor(sp, query, kind).acceptedParams, "q") == Some(Some(query))
    ensures Lookup(SearchFor(sp, query, kind).acceptedParams, "type") == Some(Some(kind))
    ensures Lookup(SearchFor(sp, query, kind).acceptedParams, "market") == Some(sp.defaultConfig.market)
    ensures var ps := SearchFor(sp, query, kind).acceptedParams;
      && Lookup(ps, "limit") == Some(None) && Lookup(ps, "offset") == Some(None)
      && Lookup(ps, "include_external") == Some(None)
  {
    var ps := SearchFor(sp, query, kind).acceptedParams;
    LookupAt(ps, 1);
    LookupAt(ps, 2);
    LookupAt(ps, 3);
    LookupAt(ps, 4);
    LookupAt(ps, 5);
  }

  /** Each typed search asks for its own type. */
  lemma SearchTypes(sp: Spotify, query: string)
    ensures Lookup(SearchAlbums(sp, query).acceptedParams, "type") == Some(Some("album"))
    ensures Lookup(SearchArtists(sp, query).acceptedParams, "type") == Some(Some("artist"))
    ensures Lookup(SearchEpisodes(sp, query).acceptedParams, "type") == Some(Some("episode"))
    ensures Lookup(SearchPlaylists(sp, query).acceptedParams, "type") == Some(Some("playlist"))
    ensures Lookup(SearchShows(sp, query).acceptedParams, "type") == Some(Some("show"))
    ensures Lookup(SearchTracks(sp, query).acceptedParams, "type") == Some(Some("track"))
  {
    SearchDefaults(sp, query, "album");
    SearchDefaults(sp, query, "artist");
    SearchDefaults(sp, query, "episode");
    SearchDefaults(sp, query, "playlist");
    SearchDefaults(sp, query, "show");
    SearchDefaults(sp, query, "track");
  }

  /** The middle of a three-part concatenation. */
  lemma Middle(prefix: string, x: string, suffix: string)
    ensures var e := prefix + x + suffix; e[|prefix|..|e| - |suffix|] == x
  {
    var e := prefix + x + suffix;
    assert forall k :: 0 <= k < |x| ==> e[|prefix| + k] == x[k];
  }

  /** The id can be read back from a read endpoint and from the endpoint of
      each playlist-item write, whatever the URIs and optional arguments; so
      distinct ids give distinct endpoints. */
  lemma EndpointNamesId(sp: Spotify, id: string, other: string, uris: Uris,
                        a: Option<int>, b: Option<int>, c: Option<int>)
    ensures Album(sp, id).endpoint[|"/albums/"|..] == id
    ensures Playlist(sp, id).endpoint[|"/playlists/"|..] == id
    ensures var e := PlaylistItems(sp, id).endpoint; e[|"/playlists/"|..|e| - |"/items/"|] == id
    ensures var e := AddPlaylistItems(sp, id, uris, a).endpoint; e[|"/playlists/"|..|e| - |"/items"|] == id
    ensures UpdatePlaylistItems(sp, id, uris, a, b, c).endpoint == AddPlaylistItems(sp, id, uris, a).endpoint
    ensures RemovePlaylistItems(sp, id, uris).endpoint == AddPlaylistItems(sp, id, uris, a).endpoint
    ensures id != other ==> Album(sp, id).endpoint != Album(sp, other).endpoint
    ensures id != other ==> AddPlaylistItems(sp, id, uris, a).endpoint
                             != AddPlaylistItems(sp, other, uris, a).endpoint
  {
    Middle("/albums/", id, "");
    Middle("/albums/", other, "");
    assert "/albums/" + id + "" == "/albums/" + id;
    assert "/albums/" + other + "" == "/albums/" + other;
    Middle("/playlists/", id, "");
    assert "/playlists/" + id + "" == "/playlists/" + id;
    Middle("/playlists/", id, "/items/");
    Middle("/playlists/", id, "/items");
    Middle("/playlists/", other, "/items");
  }

  /** `libraryContains` joins an array with commas and passes a string as given. */
  lemma LibraryContainsParam(sp: Spotify, uris: Uris)
    ensures LibraryContains(sp, uris).endpoint == "/me/library/contains"
    ensures uris.UriString? ==> Lookup(LibraryContains(sp, uris).acceptedParams, "uris") == Some(Some(uris.text))
    ensures uris.UriList? ==> Lookup(LibraryContains(sp, uris).acceptedParams, "uris") == Some(Some(Implode(",", uris.list)))
  {
  }

  /** A URI without commas or surrounding blanks. */
  predicate PlainUri(u: string)
  {
    ',' !in u && Trimmed(u)
  }

  /** The pieces of a comma-separated string have no commas and no
      surrounding blanks. */
  lemma {:induction false} UriPiecesArePlain(text: string)
    ensures forall i :: 0 <= i < |UriArray(UriString(text))| ==> PlainUri(UriArray(UriString(text))[i])
  {
    var pieces := Explode(',', text);
    ExplodePiecesFree(',', text);
    forall i | 0 <= i < |pieces|
      ensures PlainUri(Trim(pieces[i]))
    {
      TrimKeepsOut(',', pieces[i]);
    }
  }

  /** Trimming does not add a character. */
  lemma TrimKeepsOut(c: char, s: string)
    requires c !in s
    ensures c !in Trim(s)
  {
    var a := TrimStart(s);
    assert a == s[|s| - |a|..];
    assert forall k :: 0 <= k < |a| ==> a[k] == s[|s| - |a| + k];
    var b := TrimEnd(a);
    assert b == a[..|b|];
  }

  /** The two spellings agree: a non-empty list of plain URIs joined with
      commas (as `libraryContains` sends it) splits back into the same list
      that the write builders use for the array. */
  lemma {:induction false} UriStringRoundTrip(list: seq<string>)
    requires |list| >= 1
    requires forall i :: 0 <= i < |list| ==> PlainUri(list[i])
    ensures UriArray(UriString(UrisParam(UriList(list)))) == UriArray(UriList(list))
  {
    ExplodeImplode(',', list);
    var r := UriArray(UriString(Implode([','], list)));
    assert "," == [','];
    assert |r| == |list|;
    forall i | 0 <= i < |list|
      ensures r[i] == list[i]
    {
    }
  }

  /** The pieces `explode(',', ...)` yields for a list joined with ", ":
      every piece but the first keeps the blank that followed its comma. */
  ghost function Spaced(list: seq<string>): (r: seq<string>)
    requires |list| >= 1
    ensures |r| == |list| && r[0] == list[0]
    ensures forall i :: 1 <= i < |list| ==> r[i] == " " + list[i]
  {
    [list[0]] + seq(|list| - 1, i requires 0 <= i < |list| - 1 => " " + list[i + 1])
  }

  /** Joining with ", " is joining the spaced pieces with ",". */
  lemma {:induction false} JoinWithBlank(list: seq<string>)
    requires |list| >= 1
    ensures Implode(", ", list) == Implode(",", Spaced(list))
    decreases |list|
  {
    if |list| > 1 {
      var rest := list[1..];
      JoinWithBlank(rest);
      var sp := Spaced(list);
      var spRest := Spaced(rest);
      assert sp[1..] == [" " + spRest[0]] + spRest[1..];
      ImplodeExtendHead(",", " ", spRest);
      assert ", " + Implode(", ", rest) == "," + (" " + Implode(",", spRest));
    }
  }

  /** A blank in front does not survive `trim`. */
  lemma TrimLeadingBlank(x: string)
    ensures Trim(" " + x) == Trim(x)
  {
    assert (" " + x)[1..] == x;
  }

  /** The comma-separated form with a blank after each comma, as callers
      write it, gives the same list as the array form. */
  lemma {:induction false} CommaBlankRoundTrip(list: seq<string>)
    requires |list| >= 1
    requires forall i :: 0 <= i < |list| ==> PlainUri(list[i])
    ensures UriArray(UriString(Implode(", ", list))) == list
  {
    JoinWithBlank(list);
    var pieces := Spaced(list);
    assert forall i :: 0 <= i < |pieces| ==> ',' !in pieces[i] by {
      forall i | 0 <= i < |pieces|
        ensures ',' !in pieces[i]
      {
        if i > 0 {
          assert pieces[i] == [' '] + list[i];
        }
      }
    }
    ExplodeImplode(',', pieces);
    assert "," == [','];
    var r := UriArray(UriString(Implode(", ", list)));
    forall i | 0 <= i < |list|
      ensures r[i] == list[i]
    {
      if i > 0 {
        TrimLeadingBlank(list[i]);
      }
    }
  }

  /** `addPlaylistItems`: the body has `uris`, then `position` exactly when a
      position is given. */
  lemma AddPlaylistItemsBody(sp: Spotify, id: string, uris: Uris, position: Option<int>)
    ensures var body := AddPlaylistItems(sp, id, uris, position).body;
      && KeysOf(body) == ["uris"] + (if position.Some? then ["position"] else [])
      && Lookup(body, "uris") == Some(UriValues(UriArray(uris)))
      && Lookup(body, "position") == (if position.Some? then Some(IntValue(position.value)) else None)
  {
    var u: seq<(string, BodyValue)> := [("uris", UriValues(UriArray(uris)))];
    var body := u + Optional("position", position);
    assert body == AddPlaylistItems(sp, id, uris, position).body;
    KeysOfAppend(u, Optional("position", position));
    LookupAppend(u, Optional("position", position), "position");
  }

  /** The body entries an optional argument contributes. */
  lemma OptionalEntry(key: string, value: Option<int>, other: string)
    requires other != key
    ensures Lookup(Optional(key, value), key) == if value.Some? then Some(IntValue(value.value)) else None
    ensures !HasKey(Optional(key, value), other)
  {
  }

  /** The keys of the `updatePlaylistItems` body, in order. */
  lemma UpdateBodyKeys(u: seq<(string, BodyValue)>, rangeStart: Option<int>,
                       rangeLength: Option<int>, insertBefore: Option<int>)
    ensures KeysOf(u + Optional("range_start", rangeStart) + Optional("range_length", rangeLength)
                   + Optional("insert_before", insertBefore))
         == KeysOf(u) + (if rangeStart.Some? then ["range_start"] else [])
                      + (if rangeLength.Some? then ["range_length"] else [])
                      + (if insertBefore.Some? then ["insert_before"] else [])
  {
    var s := Optional("range_start", rangeStart);
    var l := Optional("range_length", rangeLength);
    var b := Optional("insert_before", insertBefore);
    KeysOfAppend(u, s);
    KeysOfAppend(u + s, l);
    KeysOfAppend(u + s + l, b);
  }

  /** The `updatePlaylistItems` body around its URI list `v`. */
  function UpdateBody(v: BodyValue, rangeStart: Option<int>, rangeLength: Option<int>,
                      insertBefore: Option<int>): seq<(string, BodyValue)>
  {
    [("uris", v)] + Optional("range_start", rangeStart) + Optional("range_length", rangeLength)
      + Optional("insert_before", insertBefore)
  }

  lemma UpdateBodyRangeStart(v: BodyValue, rangeStart: Option<int>, rangeLength: Option<int>, insertBefore: Option<int>)
    ensures Lookup(UpdateBody(v, rangeStart, rangeLength, insertBefore), "range_start")
         == if rangeStart.Some? then Some(IntValue(rangeStart.value)) else None
  {
    var u: seq<(string, BodyValue)> := [("uris", v)];
    var s := Optional("range_start", rangeStart);
    var l := Optional("range_length", rangeLength);
    var b := Optional("insert_before", insertBefore);
    OptionalEntry("range_start", rangeStart, "uris");
    OptionalEntry("range_length", rangeLength, "range_start");
    OptionalEntry("insert_before", insertBefore, "range_start");
    NoKeyAppend(l, b, "range_start");
    assert UpdateBody(v, rangeStart, rangeLength, insertBefore) == u + (s + (l + b));
    LookupAppend(u, s + (l + b), "range_start");
    LookupFirst(s, l + b, "range_start");
  }

  lemma UpdateBodyRangeLength(v: BodyValue, rangeStart: Option<int>, rangeLength: Option<int>, insertBefore: Option<int>)
    ensures Lookup(UpdateBody(v, rangeStart, rangeLength, insertBefore), "range_length")
         == if rangeLength.Some? then Some(IntValue(rangeLength.value)) else None
  {
    var u: seq<(string, BodyValue)> := [("uris", v)];
    var s := Optional("range_start", rangeStart);
    var l := Optional("range_length", rangeLength);
    var b := Optional("insert_before", insertBefore);
    OptionalEntry("range_start", rangeStart, "range_length");
    OptionalEntry("insert_before", insertBefore, "range_length");
    NoKeyAppend(u, s, "range_length");
    assert UpdateBody(v, rangeStart, rangeLength, insertBefore) == (u + s) + (l + b);
    LookupAppend(u + s, l + b, "range_length");
    LookupFirst(l, b, "range_length");
  }

  lemma UpdateBodyInsertBefore(v: BodyValue, rangeStart: Option<int>, rangeLength: Option<int>, insertBefore: Option<int>)
    ensures Lookup(UpdateBody(v, rangeStart, rangeLength, insertBefore), "insert_before")
         == if insertBefore.Some? then Some(IntValue(insertBefore.value)) else None
  {
    var u: seq<(string, BodyValue)> := [("uris", v)];
    var s := Optional("range_start", rangeStart);
    var l := Optional("range_length", rangeLength);
    OptionalEntry("range_start", rangeStart, "insert_before");
    OptionalEntry("range_length", rangeLength, "insert_before");
    NoKeyAppend(u, s, "insert_before");
    NoKeyAppend(u + s, l, "insert_before");
    LookupAppend(u + s + l, Optional("insert_before", insertBefore), "insert_before");
  }

  lemma UpdateBodyOrder(v: BodyValue, rangeStart: Option<int>, rangeLength: Option<int>, insertBefore: Option<int>)
    ensures KeysOf(UpdateBody(v, rangeStart, rangeLength, insertBefore))
         == ["uris"] + (if rangeStart.Some? then ["range_start"] else [])
                     + (if rangeLength.Some? then ["range_length"] else [])
                     + (if insertBefore.Some? then ["insert_before"] else [])
    ensures Lookup(UpdateBody(v, rangeStart, rangeLength, insertBefore), "uris") == Some(v)
  {
    var u: seq<(string, BodyValue)> := [("uris", v)];
    assert KeysOf(u) == ["uris"];
    UpdateBodyKeys(u, rangeStart, rangeLength, insertBefore);
    assert UpdateBody(v, rangeStart, rangeLength, insertBefore)[0] == ("uris", v);
  }

  /** `updatePlaylistItems`: the body has `uris`, then `range_start`,
      `range_length` and `insert_before`, each exactly when its argument is
      given, with that value. */
  lemma UpdatePlaylistItemsBody(sp: Spotify, id: string, uris: Uris, rangeStart: Option<int>,
                                rangeLength: Option<int>, insertBefore: Option<int>)
    ensures var body := UpdatePlaylistItems(sp, id, uris, rangeStart, rangeLength, insertBefore).body;
      KeysOf(body) == ["uris"] + (if rangeStart.Some? then ["range_start"] else [])
                               + (if rangeLength.Some? then ["range_length"] else [])
                               + (if insertBefore.Some? then ["insert_before"] else [])
    ensures var body := UpdatePlaylistItems(sp, id, uris, rangeStart, rangeLength, insertBefore).body;
      Lookup(body, "uris") == Some(UriValues(UriArray(uris)))
    ensures var body := UpdatePlaylistItems(sp, id, uris, rangeStart, rangeLength, insertBefore).body;
      Lookup(body, "range_start") == (if rangeStart.Some? then Some(IntValue(rangeStart.value)) else None)
    ensures var body := UpdatePlaylistItems(sp, id, uris, rangeStart, rangeLength, insertBefore).body;
      Lookup(body, "range_length") == (if rangeLength.Some? then Some(IntValue(rangeLength.value)) else None)
    ensures var body := UpdatePlaylistItems(sp, id, uris, rangeStart, rangeLength, insertBefore).body;
      Lookup(body, "insert_before") == (if insertBefore.Some? then Some(IntValue(insertBefore.value)) else None)
  {
    var v := UriValues(UriArray(uris));
    UpdateBodyOrder(v, rangeStart, rangeLength, insertBefore);
    UpdateBodyRangeStart(v, rangeStart, rangeLength, insertBefore);
    UpdateBodyRangeLength(v, rangeStart, rangeLength, insertBefore);
    UpdateBodyInsertBefore(v, rangeStart, rangeLength, insertBefore);
  }

  /** `removePlaylistItems`: the body holds one `{uri: u}` object per URI, in
      the order of the URI list. */
  lemma RemovePlaylistItemsBody(sp: Spotify, id: string, uris: Uris)
    ensures var body := RemovePlaylistItems(sp, id, uris).body;
      && KeysOf(body) == ["items"]
      && |body[0].1.items| == |UriArray(uris)|
      && forall i :: 0 <= i < |UriArray(uris)| ==> body[0].1.items[i].uri == UriArray(uris)[i]
  {
  }

  /** The library writes address `/me/library` with the URI list as the body. */
  lemma LibraryWritesBody(sp: Spotify, uris: Uris)
    ensures SaveToLibrary(sp, uris).endpoint == "/me/library"
    ensures RemoveFromLibrary(sp, uris).endpoint == "/me/library"
    ensures SaveToLibrary(sp, uris).body == [("uris", UriValues(UriArray(uris)))]
    ensures RemoveFromLibrary(sp, uris).body == SaveToLibrary(sp, uris).body
    ensures SaveToLibrary(sp, uris).acceptedParams == [] && RemoveFromLibrary(sp, uris).acceptedParams == []
  {
  }
}
