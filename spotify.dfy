/** The catalog client of src/lib/spotify.ts: an access token cached in two
    module-level variables, a search that resets the cache and retries once
    on an error reply, the mapping of catalog tracks to search summaries, and
    a single track lookup without retry.

    The clock, the credentials, the token endpoint's replies and the search
    and track replies are parameters; the HTTP requests themselves are not
    modelled, only how many are made and with which token. */
module Spotify {
  import opened Wrappers
  import opened Text
  import opened Types

  const MissingCredentials: string := "Missing SPOTIFY_CLIENT_ID or SPOTIFY_CLIENT_SECRET"
  const AuthFailed: string := "Failed to authenticate with Spotify"
  const SearchFailed: string := "Spotify search failed"
  const TrackFailed: string := "Failed to fetch track from Spotify"

  /** How long before expiry a cached token stops being used, in milliseconds. */
  const ExpiryMargin: int := 60000

  /** A string value JavaScript treats as true: present and not empty. */
  predicate Present(v: Option<string>) {
    v.Some? && v.value != []
  }

  /** `SPOTIFY_CLIENT_ID` and `SPOTIFY_CLIENT_SECRET` from the environment. */
  datatype Credentials = Credentials(clientId: Option<string>, clientSecret: Option<string>)

  /** The token endpoint's JSON: `access_token` and `expires_in` (seconds). */
  datatype TokenReply = TokenReply(accessToken: Option<string>, expiresIn: int)

  /** A search reply: one with an `error` field, or `tracks.items`. */
  datatype SearchReply = SearchError | Items(tracks: seq<SpotifyTrack>)

  /** A track reply: one with an `error` field, or the track itself. */
  datatype TrackReply = TrackError | Track(track: SpotifyTrack)

  /** The cache: `cachedToken` and `tokenExpiresAt` (milliseconds). */
  datatype Cache = Cache(token: Option<string>, expiresAt: int)

  const EmptyCache: Cache := Cache(None, 0)

  /** The cached token may be returned at time `now`. */
  predicate Fresh(c: Cache, now: int) {
    Present(c.token) && now < c.expiresAt - ExpiryMargin
  }

  /** What one `getAccessToken()` call leaves behind: the new cache, the token
      or the thrown message, and the number of token exchanges made. */
  datatype TokenOutcome = TokenOutcome(cache: Cache, result: Result<string, string>, exchanges: nat)

  /** `getAccessToken()` at time `now`; `reply` is what the token endpoint
      would answer. */
  function TokenStep(c: Cache, now: int, creds: Credentials, reply: TokenReply): (o: TokenOutcome)
    ensures o.exchanges <= 1
    ensures (o.exchanges == 0 && o.result.Success?) <==> Fresh(c, now)
    ensures Fresh(c, now) ==> o.cache == c && o.result == Success(c.token.value)
    ensures !Fresh(c, now) && !(Present(creds.clientId) && Present(creds.clientSecret)) ==>
      o == TokenOutcome(c, Failure(MissingCredentials), 0)
    ensures o.result.Failure? ==> o.cache == c
    ensures o.result.Failure? && o.exchanges == 1 ==> o.result.error == AuthFailed
    ensures o.result.Success? ==> Present(o.cache.token) && o.result.value == o.cache.token.value
    ensures o.exchanges == 1 && o.result.Success? ==>
      o.cache == Cache(reply.accessToken, now + reply.expiresIn * 1000)
  {
    if Fresh(c, now) then TokenOutcome(c, Success(c.token.value), 0)
    else if !(Present(creds.clientId) && Present(creds.clientSecret)) then
      TokenOutcome(c, Failure(MissingCredentials), 0)
    else if !Present(reply.accessToken) then TokenOutcome(c, Failure(AuthFailed), 1)
    else TokenOutcome(Cache(reply.accessToken, now + reply.expiresIn * 1000),
                      Success(reply.accessToken.value), 1)
  }

  /** A token obtained by an exchange that lasts more than the margin is
      reused, without an exchange, by a call at the same time. */
  lemma TokenReused(c: Cache, now: int, creds: Credentials, reply: TokenReply, later: TokenReply)
    requires reply.expiresIn > 60
    requires TokenStep(c, now, creds, reply).result.Success?
    ensures var o := TokenStep(c, now, creds, reply);
            var o' := TokenStep(o.cache, now, creds, later);
            o'.exchanges == 0 && o'.result == o.result && o'.cache == o.cache
  {
    var o := TokenStep(c, now, creds, reply);
    if o.exchanges == 1 {
      assert reply.expiresIn * 1000 > 60000;
      assert Fresh(o.cache, now);
    }
  }

  /** A search summary of a catalog track. */
  function ToSummary(t: SpotifyTrack): (r: SearchResult)
    ensures r.spotifyId == t.id && r.title == t.name && r.album == t.album.name
    ensures r.albumArtUrl == FirstImageUrl(t) && r.artist == JoinedArtists(t)
    ensures |t.artists| == 1 ==> r.artist == t.artists[0].name
    ensures t.album.images == [] ==> r.albumArtUrl == ""
  {
    SearchResult(t.id, t.name, JoinedArtists(t), t.album.name, FirstImageUrl(t))
  }

  /** `tracks.items.map(...)`: one summary per track, in order. */
  function Summaries(items: seq<SpotifyTrack>): (r: seq<SearchResult>)
    ensures |r| == |items|
    ensures forall i :: 0 <= i < |items| ==> r[i] == ToSummary(items[i])
    ensures forall i :: 0 <= i < |items| ==> r[i].spotifyId == items[i].id && r[i].title == items[i].name
  {
    if items == [] then [] else [ToSummary(items[0])] + Summaries(items[1..])
  }

  /** What one `searchTracks(query)` call leaves behind: the new cache, the
      summaries or the thrown message, the tokens of the search requests made
      (in order) and the number of token exchanges. */
  datatype SearchOutcome = SearchOutcome(
    cache: Cache, result: Result<seq<SearchResult>, string>, searches: seq<string>, exchanges: nat)

  /** `searchTracks(query)` at time `now`. `first` and `second` are the token
      endpoint's replies to the first and the retry exchange, `reply` and
      `retry` the search endpoint's replies to the first and the retry request. */
  function SearchSpec(c: Cache, now: int, creds: Credentials, first: TokenReply, second: TokenReply,
                      reply: SearchReply, retry: SearchReply): (o: SearchOutcome)
    ensures |o.searches| <= 2 && o.exchanges <= 2
    ensures TokenStep(c, now, creds, first).result.Failure? ==>
      o.cache == c && o.searches == [] && o.result == Failure(TokenStep(c, now, creds, first).result.error)
    ensures reply.Items? && |o.searches| >= 1 ==>
      o.result == Success(Summaries(reply.tracks)) && |o.searches| == 1
    ensures |o.searches| == 2 ==>
      reply.SearchError? && o.exchanges >= 1 && Present(second.accessToken) && o.searches[1] == second.accessToken.value
    ensures (reply.SearchError? && TokenStep(c, now, creds, first).result.Success?
             && TokenStep(EmptyCache, now, creds, second).result.Success?) ==> |o.searches| == 2
    ensures |o.searches| == 2 ==>
      o.cache == Cache(second.accessToken, now + second.expiresIn * 1000)
      && o.result == (if retry.SearchError? then Failure(SearchFailed) else Success(Summaries(retry.tracks)))
    ensures o.result == Failure(SearchFailed) ==> |o.searches| == 2 && reply.SearchError? && retry.SearchError?
  {
    var t1 := TokenStep(c, now, creds, first);
    if t1.result.Failure? then SearchOutcome(t1.cache, Failure(t1.result.error), [], t1.exchanges)
    else
      match reply
      case Items(tracks) => SearchOutcome(t1.cache, Success(Summaries(tracks)), [t1.result.value], t1.exchanges)
      case SearchError =>
        var t2 := TokenStep(EmptyCache, now, creds, second);
        if t2.result.Failure? then
          SearchOutcome(t2.cache, Failure(t2.result.error), [t1.result.value], t1.exchanges + t2.exchanges)
        else
          var tokens := [t1.result.value, t2.result.value];
          match retry
          case Items(tracks) => SearchOutcome(t2.cache, Success(Summaries(tracks)), tokens, t1.exchanges + 1)
          case SearchError => SearchOutcome(t2.cache, Failure(SearchFailed), tokens, t1.exchanges + 1)
  }

  /** A first search error always leaves the cache without the token it
      was sent with: either reset or replaced by the retry's fresh token. */
  lemma SearchErrorDropsToken(c: Cache, now: int, creds: Credentials, first: TokenReply, second: TokenReply,
                              retry: SearchReply)
    requires TokenStep(c, now, creds, first).result.Success?
    ensures var o := SearchSpec(c, now, creds, first, second, SearchError, retry);
            |o.searches| >= 1
            && (o.cache == EmptyCache || o.cache == Cache(second.accessToken, now + second.expiresIn * 1000))
  {
  }

  /** What one `getTrack(spotifyId)` call leaves behind. */
  datatype TrackOutcome = TrackOutcome(cache: Cache, result: Result<SpotifyTrack, string>, requests: nat)

  /** `getTrack(spotifyId)` at time `now`: one token, one request, no retry. */
  function TrackSpec(c: Cache, now: int, creds: Credentials, exchange: TokenReply, reply: TrackReply): (o: TrackOutcome)
    ensures o.cache == TokenStep(c, now, creds, exchange).cache
    ensures o.requests <= 1
    ensures TokenStep(c, now, creds, exchange).result.Failure? ==>
      o.requests == 0 && o.result == Failure(TokenStep(c, now, creds, exchange).result.error)
    ensures TokenStep(c, now, creds, exchange).result.Success? ==>
      o.requests == 1
      && o.result == (if reply.TrackError? then Failure(TrackFailed) else Success(reply.track))
  {
    var t := TokenStep(c, now, creds, exchange);
    if t.result.Failure? then TrackOutcome(t.cache, Failure(t.result.error), 0)
    else
      match reply
      case TrackError => TrackOutcome(t.cache, Failure(TrackFailed), 1)
      case Track(track) => TrackOutcome(t.cache, Success(track), 1)
  }

  /** The module state: `cachedToken` and `tokenExpiresAt`. */
  class CatalogClient {
    var cachedToken: Option<string>
    var tokenExpiresAt: int

    constructor()
      ensures State() == EmptyCache
    {
      cachedToken := None;
      tokenExpiresAt := 0;
    }

    function State(): Cache
      reads this
    {
      Cache(cachedToken, tokenExpiresAt)
    }

    method GetAccessToken(now: int, creds: Credentials, reply: TokenReply)
      returns (r: Result<string, string>, exchanges: nat)
      modifies this
      ensures var o := TokenStep(old(State()), now, creds, reply);
              State() == o.cache && r == o.result && exchanges == o.exchanges
    {
      if Present(cachedToken) && now < tokenExpiresAt - ExpiryMargin {
        return Success(cachedToken.value), 0;
      }
      if !(Present(creds.clientId) && Present(creds.clientSecret)) {
        return Failure(MissingCredentials), 0;
      }
      if !Present(reply.accessToken) {
        return Failure(AuthFailed), 1;
      }
      cachedToken := reply.accessToken;
      tokenExpiresAt := now + reply.expiresIn * 1000;
      return Success(cachedToken.value), 1;
    }

    method SearchTracks(now: int, creds: Credentials, first: TokenReply, second: TokenReply,
                        reply: SearchReply, retry: SearchReply)
      returns (r: Result<seq<SearchResult>, string>, searches: seq<string>, exchanges: nat)
      modifies this
      ensures var o := SearchSpec(old(State()), now, creds, first, second, reply, retry);
              State() == o.cache && r == o.result && searches == o.searches && exchanges == o.exchanges
    {
      var token, n := GetAccessToken(now, creds, first);
      if token.Failure? {
        return Failure(token.error), [], n;
      }
      searches := [token.value];
      if reply.Items? {
        return Success(Summaries(reply.tracks)), searches, n;
      }
      cachedToken := None;
      tokenExpiresAt := 0;
      var newToken, m := GetAccessToken(now, creds, second);
      exchanges := n + m;
      if newToken.Failure? {
        return Failure(newToken.error), searches, exchanges;
      }
      searches := searches + [newToken.value];
      if retry.SearchError? {
        return Failure(SearchFailed), searches, exchanges;
      }
      r := Success(Summaries(retry.tracks));
    }

    method GetTrack(now: int, creds: Credentials, exchange: TokenReply, reply: TrackReply)
      returns (r: Result<SpotifyTrack, string>, requests: nat)
      modifies this
      ensures var o := TrackSpec(old(State()), now, creds, exchange, reply);
              State() == o.cache && r == o.result && requests == o.requests
    {
      var token, _ := GetAccessToken(now, creds, exchange);
      if token.Failure? {
        return Failure(token.error), 0;
      }
      requests := 1;
      if reply.TrackError? {
        return Failure(TrackFailed), requests;
      }
      r := Success(reply.track);
    }
  }
}
