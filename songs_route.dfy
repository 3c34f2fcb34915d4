/** `GET` and `POST /api/songs` (src/app/api/songs/route.ts) over an in-memory
    store: a table of song rows and a set of (song id, visitor hash) likes.

    The visitor's identity comes from the `x-forwarded-for` header and is
    hashed by `hash`, an arbitrary deterministic function. The catalog track
    lookup, the palette of an image and the store's reply to each insert are
    parameters, as is the clock (milliseconds). */
module SongsRoute {
  import opened Wrappers
  import opened Text
  import opened Sorting
  import opened Types
  import Color

  /** A stored song: the public fields plus the hash of the visitor who pinned it. */
  datatype SongRow = SongRow(
    id: SongId,
    spotifyId: string,
    title: string,
    artist: string,
    albumArtUrl: string,
    previewUrl: Option<string>,
    spotifyUrl: string,
    color: string,
    bgTint: string,
    reason: string,
    pinnedBy: string,
    likesCount: int,
    createdAt: int,
    ipHash: string)

  datatype Body =
    | Listing(songs: seq<Song>, totalCount: int)
    | CreatedSongs(songs: seq<Song>)
    | ErrorBody(error: string)
    | Unhandled   // an exception that escapes the handler

  datatype Response = Response(status: int, body: Body)

  const LoadFailed: string := "Failed to load songs"
  const QuotaUsed: string := "You've used your 2 pins for today. Come back tomorrow!"
  const InvalidRequest: string := "Invalid request"
  const InvalidSongId: string := "Invalid song ID"
  const InvalidReason: string := "Reason must be 1-80 characters"
  const SaveFailed: string := "Failed to save song"

  /** Pins allowed per visitor in any window. */
  const Quota: nat := 2
  /** The window, in milliseconds. */
  const Window: int := 86_400_000
  /** At most this many songs are listed. */
  const PageSize: nat := 100

  // ---------------------------------------------------------------------
  // Identity

  /** `x-forwarded-for` split at the first comma and trimmed, or "unknown"
      when the header is absent. */
  function Identity(header: Option<string>): (ip: string)
    ensures header.None? ==> ip == "unknown"
    ensures header.Some? ==> ip == Trim(FirstField(header.value))
    ensures header.Some? && AllSpace(FirstField(header.value)) ==> ip == ""
  {
    match header
    case None => "unknown"
    case Some(h) => Trim(FirstField(h))
  }

  /** Only the first address counts: whatever follows the first comma is ignored. */
  lemma IdentityIgnoresLaterHops(first: string, rest: string)
    requires ',' !in first
    ensures Identity(Some(first + "," + rest)) == Trim(first)
  {
    var h := first + "," + rest;
    assert h == first + [','] + rest;
    IndexOfFirst(first, ',', rest);
    assert FirstField(h) == h[..|first|] == first;
  }

  /** An empty header is an empty identity, not "unknown". */
  lemma EmptyHeaderIsEmptyIdentity()
    ensures Identity(Some("")) == "" && Identity(None) == "unknown"
  {
  }

  // ---------------------------------------------------------------------
  // GET

  /** The public view of a row, with its `liked` and `is_owner` flags. */
  function Publish(row: SongRow, liked: bool, isOwner: bool): Song {
    Song(row.id, row.spotifyId, row.title, row.artist, row.albumArtUrl, row.previewUrl,
         row.spotifyUrl, row.color, row.bgTint, row.reason, row.pinnedBy, Some(row.likesCount),
         row.createdAt, Some(liked), Some(isOwner))
  }

  function LikesKey(row: SongRow): int { row.likesCount }
  function CreatedKey(row: SongRow): int { row.createdAt }

  /** The order column: `likes_count` for "loved", `created_at` for any other
      value and for a missing one. */
  function OrderKey(sort: Option<string>): (key: SongRow -> int)
    ensures sort == Some("loved") ==> key == LikesKey
    ensures sort != Some("loved") ==> key == CreatedKey
  {
    if sort == Some("loved") then LikesKey else CreatedKey
  }

  /** The rows the listing query returns: ordered by the column, descending,
      at most `PageSize` of them, and from a larger table the top ones: no
      row left out ranks above the last row returned. */
  function Listed(table: seq<SongRow>, sort: Option<string>): (rows: seq<SongRow>)
    ensures |rows| == if |table| < PageSize then |table| else PageSize
    ensures SortedDesc(rows, OrderKey(sort))
    ensures multiset(rows) <= multiset(table)
    ensures |table| <= PageSize ==> multiset(rows) == multiset(table)
    ensures |table| > PageSize ==>
      forall row :: row in multiset(table) - multiset(rows) ==> OrderKey(sort)(row) <= OrderKey(sort)(rows[|rows| - 1])
  {
    TopOf(table, OrderKey(sort), PageSize);
    Take(SortDesc(table, OrderKey(sort)), PageSize)
  }

  /** `GET /api/songs`. `songsFail`, `likesFail` and `countFail` say that the
      listing, the likes and the count query report an error. */
  function ListSongs(table: seq<SongRow>, likes: set<(SongId, string)>, sort: Option<string>,
                     header: Option<string>, hash: string -> string,
                     songsFail: bool, likesFail: bool, countFail: bool): (r: Response)
    ensures songsFail ==> r == Response(500, ErrorBody(LoadFailed))
    ensures !songsFail ==> r.status == 200 && r.body.Listing?
    ensures !songsFail ==>
      var rows := Listed(table, sort);
      var viewer := hash(Identity(header));
      && |r.body.songs| == |rows|
      && r.body.totalCount == (if countFail then 0 else |table|)
      && forall i :: 0 <= i < |rows| ==>
           r.body.songs[i] == Publish(rows[i], !likesFail && (rows[i].id, viewer) in likes,
                                      rows[i].ipHash == viewer)
  {
    if songsFail then Response(500, ErrorBody(LoadFailed))
    else
      var rows := Listed(table, sort);
      var viewer := hash(Identity(header));
      var likedIds := if likesFail then {} else set l | l in likes && l.1 == viewer :: l.0;
      var songs := seq(|rows|, i requires 0 <= i < |rows| =>
        Publish(rows[i], rows[i].id in likedIds, rows[i].ipHash == viewer));
      Response(200, Listing(songs, if countFail then 0 else |table|))
  }

  /** The listing is ordered by likes for "loved" and by creation time
      otherwise, highest first. */
  lemma ListingOrder(table: seq<SongRow>, likes: set<(SongId, string)>, sort: Option<string>,
                     header: Option<string>, hash: string -> string, likesFail: bool, countFail: bool)
    ensures var songs := ListSongs(table, likes, sort, header, hash, false, likesFail, countFail).body.songs;
            forall i, j :: 0 <= i < j < |songs| ==>
              if sort == Some("loved") then songs[i].likesCount.Some? && songs[j].likesCount.Some? && songs[i].likesCount.value >= songs[j].likesCount.value
              else songs[i].createdAt >= songs[j].createdAt
  {
    var rows := Listed(table, sort);
    var songs := ListSongs(table, likes, sort, header, hash, false, likesFail, countFail).body.songs;
    forall i, j | 0 <= i < j < |songs|
      ensures if sort == Some("loved") then songs[i].likesCount.Some? && songs[j].likesCount.Some? && songs[i].likesCount.value >= songs[j].likesCount.value
              else songs[i].createdAt >= songs[j].createdAt
    {
      assert OrderKey(sort)(rows[i]) >= OrderKey(sort)(rows[j]);
    }
  }

  /** A visitor owns exactly the listed songs pinned under its own hash, and
      two visitors whose identities hash alike see the same flags. */
  lemma OwnershipByHash(table: seq<SongRow>, likes: set<(SongId, string)>, sort: Option<string>,
                        h1: Option<string>, h2: Option<string>, hash: string -> string)
    requires hash(Identity(h1)) == hash(Identity(h2))
    ensures ListSongs(table, likes, sort, h1, hash, false, false, false)
         == ListSongs(table, likes, sort, h2, hash, false, false, false)
  {
    var a := ListSongs(table, likes, sort, h1, hash, false, false, false);
    var b := ListSongs(table, likes, sort, h2, hash, false, false, false);
    assert a.body.songs == b.body.songs;
  }

  // ---------------------------------------------------------------------
  // POST

  /** The store's reply to an insert: the new row's id, or an error. */
  datatype InsertReply = Stored(id: SongId) | InsertFailed

  /** What every entry of one request shares: the trimmed name, the caller's
      hash, the time, the catalog lookup (`getTrack`: the track or the thrown
      message), the palette loader and the store's reply to the `k`-th insert
      of the request. */
  datatype PostContext = PostContext(
    name: string, ipHash: string, now: int,
    lookup: string -> Result<SpotifyTrack, string>,
    load: string -> Option<Color.Palette>,
    insert: nat -> InsertReply)

  /** `^[a-zA-Z0-9]{22}$` */
  predicate IsSpotifyId(s: string) {
    |s| == 22 && forall i :: 0 <= i < |s| ==> IsAsciiAlnum(s[i])
  }

  /** The 400 message for an entry, if it is invalid. */
  function EntryError(e: Entry): (err: Option<string>)
    ensures err.None? <==>
      e.spotifyId.Some? && IsSpotifyId(e.spotifyId.value)
      && e.reason.Some? && Trim(e.reason.value) != [] && JsLength(e.reason.value) <= 80
    ensures err.Some? ==> err.value == (if e.spotifyId.Some? && IsSpotifyId(e.spotifyId.value)
                                        then InvalidReason else InvalidSongId)
  {
    if e.spotifyId.None? || e.spotifyId.value == [] || !IsSpotifyId(e.spotifyId.value) then Some(InvalidSongId)
    else if e.reason.None? || e.reason.value == [] || |Trim(e.reason.value)| == 0 || JsLength(e.reason.value) > 80 then
      Some(InvalidReason)
    else None
  }

  /** `a || b` on strings. */
  function Or(a: Option<string>, b: string): (r: string)
    ensures a.Some? && a.value != [] ==> r == a.value
    ensures a.None? || a.value == [] ==> r == b
  {
    if a.Some? && a.value != [] then a.value else b
  }

  /** The public view of a created song. */
  function AsCreated(row: SongRow): Song {
    Publish(row, false, true)
  }

  /** A row stored by the request described by `ctx`: pinned under the
      caller's hash and trimmed name, at the request's time, with no likes. */
  predicate StoredFor(row: SongRow, ctx: PostContext) {
    row.ipHash == ctx.ipHash && row.createdAt == ctx.now && row.pinnedBy == ctx.name && row.likesCount == 0
  }

  /** The row stored for entry `e` as the `k`-th insert of the request, or the
      response that ends the request there. */
  function EntryOutcome(e: Entry, k: nat, ctx: PostContext): (o: Result<SongRow, Response>)
    ensures EntryError(e).Some? ==> o == Failure(Response(400, ErrorBody(EntryError(e).value)))
    ensures EntryError(e).None? && ctx.lookup(e.spotifyId.value).Failure? ==> o == Failure(Response(500, Unhandled))
    ensures EntryError(e).None? && ctx.lookup(e.spotifyId.value).Success? && ctx.insert(k).InsertFailed? ==>
      o == Failure(Response(500, ErrorBody(SaveFailed)))
    ensures o.Failure? ==> o.error.status == 400 || o.error.status == 500
    ensures o.Success? ==>
      && EntryError(e).None? && ctx.lookup(e.spotifyId.value).Success?
      && ctx.insert(k) == Stored(o.value.id)
      && StoredFor(o.value, ctx) && o.value.reason == e.reason.value
  {
    match EntryError(e)
    case Some(message) => Failure(Response(400, ErrorBody(message)))
    case None =>
      match ctx.lookup(e.spotifyId.value)
      case Failure(_) => Failure(Response(500, Unhandled))
      case Success(track) =>
        var artUrl := FirstImageUrl(track);
        var extracted := Color.ExtractColors(artUrl, ctx.load);
        match ctx.insert(k)
        case InsertFailed => Failure(Response(500, ErrorBody(SaveFailed)))
        case Stored(id) =>
          Success(SongRow(id, track.id, track.name, JoinedArtists(track), artUrl, track.previewUrl,
                          track.spotifyUrl, Or(e.color, extracted.color), Or(e.bgTint, extracted.bgTint),
                          e.reason.value, ctx.name, 0, ctx.now, ctx.ipHash))
  }

  /** A stored row copies the catalog track; its colours are the entry's
      when given and otherwise the ones extracted from the album art, which
      are well-formed colour strings. */
  lemma StoredRowFields(e: Entry, k: nat, ctx: PostContext)
    requires EntryOutcome(e, k, ctx).Success?
    ensures var row := EntryOutcome(e, k, ctx).value;
            var track := ctx.lookup(e.spotifyId.value).value;
            var colors := Color.ExtractColors(FirstImageUrl(track), ctx.load);
            && row.spotifyId == track.id && row.title == track.name
            && row.artist == JoinedArtists(track) && row.albumArtUrl == FirstImageUrl(track)
            && row.previewUrl == track.previewUrl && row.spotifyUrl == track.spotifyUrl
            && row.color == Or(e.color, colors.color) && row.bgTint == Or(e.bgTint, colors.bgTint)
            && (e.color.None? || e.color.value == [] ==> Color.IsLowerHexColor(row.color))
            && (e.bgTint.None? || e.bgTint.value == [] ==> Color.IsLowerHexColor(row.bgTint))
  {
  }

  function CreatedList(rows: seq<SongRow>): (songs: seq<Song>)
    ensures |songs| == |rows|
    ensures forall i :: 0 <= i < |rows| ==> songs[i] == AsCreated(rows[i])
  {
    seq(|rows|, i requires 0 <= i < |rows| => AsCreated(rows[i]))
  }

  /** What each entry of the request would do when it is reached. The loop
      stops at the first entry that does not store a row, so the entry at
      index `k` is always the request's `k`-th insert. */
  function Outcomes(entries: seq<Entry>, ctx: PostContext): (os: seq<Result<SongRow, Response>>)
    ensures |os| == |entries|
    ensures forall k :: 0 <= k < |entries| ==> os[k] == EntryOutcome(entries[k], k, ctx)
    ensures EndsWithoutCreated(os)
  {
    seq(|entries|, k requires 0 <= k < |entries| => EntryOutcome(entries[k], k, ctx))
  }

  /** No entry that fails answers as a success would. */
  predicate EndsWithoutCreated(outcomes: seq<Result<SongRow, Response>>) {
    forall k :: 0 <= k < |outcomes| && outcomes[k].Failure? ==> outcomes[k].error.status != 201
  }

  /** The insert loop from entry `i` on, with `table` the store so far and
      `created` the songs created so far: the rows of successive entries are
      appended until one entry fails, whose response ends the request with
      the rows before it kept. */
  function InsertFrom(table: seq<SongRow>, outcomes: seq<Result<SongRow, Response>>, i: nat, created: seq<Song>)
    : (r: (seq<SongRow>, Response))
    requires i <= |outcomes| && EndsWithoutCreated(outcomes)
    ensures table <= r.0 && |r.0| <= |table| + |outcomes| - i
    ensures forall k :: |table| <= k < |r.0| ==> outcomes[i + k - |table|] == Success(r.0[k])
    ensures r.1.status == 201 <==> |r.0| == |table| + |outcomes| - i
    ensures r.1.status != 201 ==> outcomes[i + |r.0| - |table|] == Failure(r.1)
    ensures r.1.status == 201 ==> r.1.body == CreatedSongs(created + CreatedList(r.0[|table|..]))
    decreases |outcomes| - i
  {
    if i == |outcomes| then
      assert table[|table|..] == [] && created + CreatedList([]) == created;
      (table, Response(201, CreatedSongs(created)))
    else
      match outcomes[i]
      case Failure(response) => (table, response)
      case Success(row) =>
        var r := InsertFrom(table + [row], outcomes, i + 1, created + [AsCreated(row)]);
        InsertStep(table, outcomes, i, created, row, r);
        r
  }

  /** What the loop from entry `i + 1` on, after storing `row`, says about
      the loop from entry `i` on. */
  lemma InsertStep(table: seq<SongRow>, outcomes: seq<Result<SongRow, Response>>, i: nat, created: seq<Song>,
                   row: SongRow, r: (seq<SongRow>, Response))
    requires i < |outcomes| && outcomes[i] == Success(row)
    requires table + [row] <= r.0 && |r.0| <= |table| + |outcomes| - i
    requires forall k :: |table| + 1 <= k < |r.0| ==> outcomes[i + k - |table|] == Success(r.0[k])
    requires r.1.status == 201 <==> |r.0| == |table| + |outcomes| - i
    requires r.1.status != 201 ==> outcomes[i + |r.0| - |table|] == Failure(r.1)
    requires r.1.status == 201 ==>
      r.1.body == CreatedSongs(created + [AsCreated(row)] + CreatedList(r.0[|table| + 1..]))
    ensures table <= r.0
    ensures forall k :: |table| <= k < |r.0| ==> outcomes[i + k - |table|] == Success(r.0[k])
    ensures r.1.status == 201 ==> r.1.body == CreatedSongs(created + CreatedList(r.0[|table|..]))
  {
    assert r.0[|table|] == row;
    assert r.0[..|table|] == table;
    var rest := r.0[|table| + 1..];
    assert r.0[|table|..] == [row] + rest;
    CreatedListCons(row, rest);
    assert created + [AsCreated(row)] + CreatedList(rest) == created + ([AsCreated(row)] + CreatedList(rest));
  }

  lemma CreatedListCons(row: SongRow, rest: seq<SongRow>)
    ensures CreatedList([row] + rest) == [AsCreated(row)] + CreatedList(rest)
  {
    var a, b := CreatedList([row] + rest), [AsCreated(row)] + CreatedList(rest);
    assert |a| == |b|;
    forall k | 0 <= k < |a|
      ensures a[k] == b[k]
    {
      if k > 0 {
        assert ([row] + rest)[k] == rest[k - 1];
      }
    }
  }

  lemma InsertStops(table: seq<SongRow>, outcomes: seq<Result<SongRow, Response>>, i: nat, created: seq<Song>,
                    response: Response)
    requires i < |outcomes| && EndsWithoutCreated(outcomes) && outcomes[i] == Failure(response)
    ensures InsertFrom(table, outcomes, i, created) == (table, response)
  {
  }

  lemma InsertContinues(table: seq<SongRow>, outcomes: seq<Result<SongRow, Response>>, i: nat, created: seq<Song>,
                        row: SongRow)
    requires i < |outcomes| && EndsWithoutCreated(outcomes) && outcomes[i] == Success(row)
    ensures InsertFrom(table, outcomes, i, created) == InsertFrom(table + [row], outcomes, i + 1, created + [AsCreated(row)])
  {
  }

  /** Rows pinned under hash `h` whose creation time is in the window ending at `now`. */
  function RecentCount(table: seq<SongRow>, h: string, now: int): (n: nat)
    ensures n <= |table|
  {
    if table == [] then 0
    else RecentCount(table[..|table| - 1], h, now)
         + (if table[|table| - 1].ipHash == h && table[|table| - 1].createdAt >= now - Window then 1 else 0)
  }

  lemma {:induction false} RecentCountAppend(table: seq<SongRow>, rows: seq<SongRow>, h: string, now: int)
    requires forall k :: 0 <= k < |rows| ==> rows[k].ipHash == h && rows[k].createdAt == now
    ensures RecentCount(table + rows, h, now) == RecentCount(table, h, now) + |rows|
    decreases |rows|
  {
    if rows == [] {
      assert table + rows == table;
    } else {
      var init := rows[..|rows| - 1];
      var all := table + rows;
      assert all[..|all| - 1] == table + init;
      assert all[|all| - 1] == rows[|rows| - 1];
      RecentCountAppend(table, init, h, now);
      assert RecentCount(all, h, now) == RecentCount(table + init, h, now) + 1;
    }
  }

  /** The 429 message when the batch would pass the quota. */
  function RemainingMessage(count: nat): string
    requires count < Quota
  {
    "You can only pin " + NatToString(Quota - count) + " more song(s) today."
  }

  /** The caller's hash. */
  function CallerHash(header: Option<string>, hash: string -> string): string {
    hash(Identity(header))
  }

  /** What the quota check counts: the caller's rows in the window, or 0 when
      the count query reports an error. */
  function QuotaCount(table: seq<SongRow>, h: string, now: int, countFail: bool): (n: nat)
    ensures countFail ==> n == 0
    ensures !countFail ==> n == RecentCount(table, h, now)
  {
    if countFail then 0 else RecentCount(table, h, now)
  }

  /** The trimmed `name`, or "" when it is not a string. */
  function TrimmedName(body: PostBody): (name: string)
    ensures body.name.None? ==> name == ""
    ensures body.name.Some? ==> name == Trim(body.name.value)
  {
    if body.name.Some? then Trim(body.name.value) else ""
  }

  /** The request-level checks: a name of 1 to 50 code units once trimmed and
      one or two entries. */
  predicate ValidRequest(body: PostBody) {
    && TrimmedName(body) != [] && JsLength(TrimmedName(body)) <= 50
    && body.songs.Some? && 1 <= |body.songs.value| <= Quota
  }

  /** The context the entries of an admitted request share. */
  function RequestContext(body: PostBody, header: Option<string>, now: int, hash: string -> string,
                          lookup: string -> Result<SpotifyTrack, string>,
                          load: string -> Option<Color.Palette>, insert: nat -> InsertReply): PostContext {
    PostContext(TrimmedName(body), CallerHash(header, hash), now, lookup, load, insert)
  }

  /** `POST /api/songs`: the new table and the response. `countFail` says that
      the quota count query reports an error. */
  function PostSpec(table: seq<SongRow>, header: Option<string>, body: PostBody, now: int,
                    hash: string -> string, lookup: string -> Result<SpotifyTrack, string>,
                    load: string -> Option<Color.Palette>, insert: nat -> InsertReply, countFail: bool)
    : (r: (seq<SongRow>, Response))
    ensures table <= r.0
    ensures var count := QuotaCount(table, CallerHash(header, hash), now, countFail);
      && (count >= Quota ==> r == (table, Response(429, ErrorBody(QuotaUsed))))
      && (count < Quota && !ValidRequest(body) ==> r == (table, Response(400, ErrorBody(InvalidRequest))))
      && (count < Quota && ValidRequest(body) && count + |body.songs.value| > Quota ==>
            r == (table, Response(429, ErrorBody(RemainingMessage(count)))))
      && (r.0 != table || r.1.status == 201 ==>
            ValidRequest(body) && count + |body.songs.value| <= Quota
            && |r.0| - |table| <= |body.songs.value|)
      && (r.1.status == 201 ==> |r.0| == |table| + |body.songs.value|)
  {
    var h := CallerHash(header, hash);
    var count := QuotaCount(table, h, now, countFail);
    if count >= Quota then (table, Response(429, ErrorBody(QuotaUsed)))
    else if !ValidRequest(body) then (table, Response(400, ErrorBody(InvalidRequest)))
    else if count + |body.songs.value| > Quota then (table, Response(429, ErrorBody(RemainingMessage(count))))
    else InsertFrom(table, Outcomes(body.songs.value, RequestContext(body, header, now, hash, lookup, load, insert)), 0, [])
  }

  /** Past the quota and request checks, the handler is its insert loop. */
  lemma PostSpecReachesLoop(table: seq<SongRow>, header: Option<string>, body: PostBody, now: int,
                            hash: string -> string, lookup: string -> Result<SpotifyTrack, string>,
                            load: string -> Option<Color.Palette>, insert: nat -> InsertReply, countFail: bool)
    requires ValidRequest(body)
    requires QuotaCount(table, CallerHash(header, hash), now, countFail) + |body.songs.value| <= Quota
    ensures PostSpec(table, header, body, now, hash, lookup, load, insert, countFail)
         == InsertFrom(table, Outcomes(body.songs.value, RequestContext(body, header, now, hash, lookup, load, insert)), 0, [])
  {
  }

  /** Every row a request stores is pinned under the caller's hash and
      trimmed name at the request's time, with no likes. */
  lemma PostRowsStored(table: seq<SongRow>, header: Option<string>, body: PostBody, now: int,
                       hash: string -> string, lookup: string -> Result<SpotifyTrack, string>,
                       load: string -> Option<Color.Palette>, insert: nat -> InsertReply, countFail: bool)
    ensures var r := PostSpec(table, header, body, now, hash, lookup, load, insert, countFail);
            forall k :: |table| <= k < |r.0| ==>
              StoredFor(r.0[k], RequestContext(body, header, now, hash, lookup, load, insert))
  {
    var r := PostSpec(table, header, body, now, hash, lookup, load, insert, countFail);
    var ctx := RequestContext(body, header, now, hash, lookup, load, insert);
    if r.0 != table {
      PostRowsFromEntries(table, header, body, now, hash, lookup, load, insert, countFail);
      forall k | |table| <= k < |r.0|
        ensures StoredFor(r.0[k], ctx)
      {
        assert EntryOutcome(body.songs.value[k - |table|], k - |table|, ctx) == Success(r.0[k]);
      }
    }
  }

  /** The `k`-th row a request stores is the row of its `k`-th entry; in
      particular its reason is the entry's reason as sent, untrimmed. */
  lemma PostRowsFromEntries(table: seq<SongRow>, header: Option<string>, body: PostBody, now: int,
                            hash: string -> string, lookup: string -> Result<SpotifyTrack, string>,
                            load: string -> Option<Color.Palette>, insert: nat -> InsertReply, countFail: bool)
    ensures var r := PostSpec(table, header, body, now, hash, lookup, load, insert, countFail);
            var ctx := RequestContext(body, header, now, hash, lookup, load, insert);
            forall k :: |table| <= k < |r.0| ==>
              && EntryOutcome(body.songs.value[k - |table|], k - |table|, ctx) == Success(r.0[k])
              && r.0[k].reason == body.songs.value[k - |table|].reason.value
  {
    var r := PostSpec(table, header, body, now, hash, lookup, load, insert, countFail);
    var ctx := RequestContext(body, header, now, hash, lookup, load, insert);
    if r.0 != table {
      var outcomes := Outcomes(body.songs.value, ctx);
      PostSpecReachesLoop(table, header, body, now, hash, lookup, load, insert, countFail);
      forall k | |table| <= k < |r.0|
        ensures EntryOutcome(body.songs.value[k - |table|], k - |table|, ctx) == Success(r.0[k])
      {
        assert outcomes[k - |table|] == Success(r.0[k]);
      }
    }
  }

  /** Every row a request stores counts against its caller's quota. */
  lemma PostRowsCounted(table: seq<SongRow>, header: Option<string>, body: PostBody, now: int,
                        hash: string -> string, lookup: string -> Result<SpotifyTrack, string>,
                        load: string -> Option<Color.Palette>, insert: nat -> InsertReply, countFail: bool)
    ensures var r := PostSpec(table, header, body, now, hash, lookup, load, insert, countFail);
            RecentCount(r.0, CallerHash(header, hash), now)
              == RecentCount(table, CallerHash(header, hash), now) + (|r.0| - |table|)
  {
    var r := PostSpec(table, header, body, now, hash, lookup, load, insert, countFail);
    var ctx := RequestContext(body, header, now, hash, lookup, load, insert);
    PostRowsStored(table, header, body, now, hash, lookup, load, insert, countFail);
    StoredCounted(table, r.0, ctx);
  }

  lemma StoredCounted(table: seq<SongRow>, after: seq<SongRow>, ctx: PostContext)
    requires table <= after
    requires forall k :: |table| <= k < |after| ==> StoredFor(after[k], ctx)
    ensures RecentCount(after, ctx.ipHash, ctx.now) == RecentCount(table, ctx.ipHash, ctx.now) + (|after| - |table|)
  {
    AppendedCounted(table, after, ctx.ipHash, ctx.now);
  }

  lemma AppendedCounted(table: seq<SongRow>, after: seq<SongRow>, h: string, now: int)
    requires table <= after
    requires forall k :: |table| <= k < |after| ==> after[k].ipHash == h && after[k].createdAt == now
    ensures RecentCount(after, h, now) == RecentCount(table, h, now) + (|after| - |table|)
  {
    var rows := after[|table|..];
    assert after == table + rows;
    forall k | 0 <= k < |rows|
      ensures rows[k].ipHash == h && rows[k].createdAt == now
    {
      assert rows[k] == after[|table| + k];
    }
    RecentCountAppend(table, rows, h, now);
  }

  /** Whatever the request, a visitor that was within the quota stays within
      it: every stored row counts against the caller and the batch was
      admitted only if it fitted. */
  lemma PostKeepsQuota(table: seq<SongRow>, header: Option<string>, body: PostBody, now: int,
                       hash: string -> string, lookup: string -> Result<SpotifyTrack, string>,
                       load: string -> Option<Color.Palette>, insert: nat -> InsertReply)
    requires RecentCount(table, CallerHash(header, hash), now) <= Quota
    ensures var r := PostSpec(table, header, body, now, hash, lookup, load, insert, false);
            RecentCount(r.0, CallerHash(header, hash), now) <= Quota
  {
    PostRowsCounted(table, header, body, now, hash, lookup, load, insert, false);
  }

  /** The quota fails open: when the count query reports an error it counts
      as 0, so a caller already at the quota who sends a full batch of
      storable entries gets a 201 and ends with twice the quota. */
  lemma FailedCountBypassesQuota(table: seq<SongRow>, header: Option<string>, body: PostBody, now: int,
                                 hash: string -> string, lookup: string -> Result<SpotifyTrack, string>,
                                 load: string -> Option<Color.Palette>, insert: nat -> InsertReply)
    requires RecentCount(table, CallerHash(header, hash), now) == Quota
    requires ValidRequest(body) && |body.songs.value| == Quota
    requires forall k :: 0 <= k < Quota ==>
      EntryOutcome(body.songs.value[k], k, RequestContext(body, header, now, hash, lookup, load, insert)).Success?
    ensures var r := PostSpec(table, header, body, now, hash, lookup, load, insert, true);
            r.1.status == 201 && RecentCount(r.0, CallerHash(header, hash), now) == 2 * Quota
  {
    var r := PostSpec(table, header, body, now, hash, lookup, load, insert, true);
    var ctx := RequestContext(body, header, now, hash, lookup, load, insert);
    var outcomes := Outcomes(body.songs.value, ctx);
    PostSpecReachesLoop(table, header, body, now, hash, lookup, load, insert, true);
    assert r == InsertFrom(table, outcomes, 0, []);
    PostRowsCounted(table, header, body, now, hash, lookup, load, insert, true);
  }


  /** The batch is not atomic: when the first entry is stored and the second
      is invalid, the reply is a 400 but the first row stays in the table. */
  lemma PartialBatchKept(table: seq<SongRow>, header: Option<string>, name: string, first: Entry, second: Entry,
                         now: int, hash: string -> string, lookup: string -> Result<SpotifyTrack, string>,
                         load: string -> Option<Color.Palette>, insert: nat -> InsertReply)
    requires RecentCount(table, hash(Identity(header)), now) == 0
    requires Trim(name) != [] && JsLength(Trim(name)) <= 50
    requires EntryOutcome(first, 0, PostContext(Trim(name), hash(Identity(header)), now, lookup, load, insert)).Success?
    requires EntryError(second).Some?
    ensures var r := PostSpec(table, header, PostBody(Some(name), Some([first, second])), now,
                              hash, lookup, load, insert, false);
            var row := EntryOutcome(first, 0, PostContext(Trim(name), hash(Identity(header)), now, lookup, load, insert)).value;
            r == (table + [row], Response(400, ErrorBody(EntryError(second).value)))
  {
    var ctx := PostContext(Trim(name), hash(Identity(header)), now, lookup, load, insert);
    var row := EntryOutcome(first, 0, ctx).value;
    var os := Outcomes([first, second], ctx);
    assert os[0] == Success(row);
    assert os[1] == Failure(Response(400, ErrorBody(EntryError(second).value)));
    var response := Response(400, ErrorBody(EntryError(second).value));
    assert InsertFrom(table + [row], os, 1, [AsCreated(row)]) == (table + [row], response);
    assert InsertFrom(table, os, 0, []) == (table + [row], response);
    PostSpecReachesLoop(table, header, PostBody(Some(name), Some([first, second])), now, hash, lookup, load, insert, false);
  }

  /** The store as the handler sees it. */
  class SongStore {
    var songs: seq<SongRow>
    var likes: set<(SongId, string)>

    constructor(songs0: seq<SongRow>, likes0: set<(SongId, string)>)
      ensures songs == songs0 && likes == likes0
    {
      songs := songs0;
      likes := likes0;
    }

    /** `GET /api/songs`; reads the store and changes nothing. */
    method Get(sort: Option<string>, header: Option<string>, hash: string -> string,
               songsFail: bool, likesFail: bool, countFail: bool) returns (r: Response)
      ensures r == ListSongs(songs, likes, sort, header, hash, songsFail, likesFail, countFail)
    {
      r := ListSongs(songs, likes, sort, header, hash, songsFail, likesFail, countFail);
    }

    /** `POST /api/songs`: the quota, the request checks, then one entry at a
        time, each checked, looked up and inserted before the next is read. */
    method Post(header: Option<string>, body: PostBody, now: int, hash: string -> string,
                lookup: string -> Result<SpotifyTrack, string>, load: string -> Option<Color.Palette>,
                insert: nat -> InsertReply, countFail: bool) returns (r: Response)
      modifies this
      ensures likes == old(likes)
      ensures (songs, r) == PostSpec(old(songs), header, body, now, hash, lookup, load, insert, countFail)
    {
      var ipHash := hash(Identity(header));
      var count := if countFail then 0 else RecentCount(songs, ipHash, now);
      assert ipHash == CallerHash(header, hash) && count == QuotaCount(songs, ipHash, now, countFail);
      if count >= Quota {
        return Response(429, ErrorBody(QuotaUsed));
      }
      var name := if body.name.Some? then Trim(body.name.value) else "";
      assert name == TrimmedName(body);
      if name == [] || JsLength(name) > 50 || body.songs.None? || |body.songs.value| == 0
         || |body.songs.value| > Quota {
        assert !ValidRequest(body);
        return Response(400, ErrorBody(InvalidRequest));
      }
      assert ValidRequest(body);
      var entries := body.songs.value;
      if count + |entries| > Quota {
        return Response(429, ErrorBody(RemainingMessage(count)));
      }
      PostSpecReachesLoop(songs, header, body, now, hash, lookup, load, insert, countFail);
      r := InsertEntries(entries, name, ipHash, now, lookup, load, insert);
    }

    /** The insert loop of `POST /api/songs`: each entry is checked, looked
        up and inserted before the next is read, and the first failure
        returns with the rows before it kept. */
    method InsertEntries(entries: seq<Entry>, name: string, ipHash: string, now: int,
                         lookup: string -> Result<SpotifyTrack, string>, load: string -> Option<Color.Palette>,
                         insert: nat -> InsertReply) returns (r: Response)
      modifies this
      ensures likes == old(likes)
      ensures (songs, r) == InsertFrom(old(songs), Outcomes(entries, PostContext(name, ipHash, now, lookup, load, insert)), 0, [])
    {
      var ctx := PostContext(name, ipHash, now, lookup, load, insert);
      ghost var outcomes := Outcomes(entries, ctx);
      ghost var goal := InsertFrom(songs, outcomes, 0, []);
      var created: seq<Song> := [];
      for i := 0 to |entries|
        invariant |created| == i && likes == old(likes)
        invariant InsertFrom(songs, outcomes, i, created) == goal
      {
        var outcome := PrepareEntry(entries[i], i, ctx);
        assert outcomes[i] == outcome;
        if outcome.Failure? {
          r := outcome.error;
          InsertStops(songs, outcomes, i, created, r);
          return;
        }
        var row := outcome.value;
        InsertContinues(songs, outcomes, i, created, row);
        songs := songs + [row];
        created := created + [AsCreated(row)];
      }
      r := Response(201, CreatedSongs(created));
    }

    /** One pass of the insert loop for the entry at index `k`: the id and
        reason checks, the track lookup, the colours and the insert, giving
        the row stored or the response that ends the request. */
    method PrepareEntry(entry: Entry, k: nat, ctx: PostContext) returns (o: Result<SongRow, Response>)
      ensures o == EntryOutcome(entry, k, ctx)
    {
      if entry.spotifyId.None? || entry.spotifyId.value == [] || !IsSpotifyId(entry.spotifyId.value) {
        return Failure(Response(400, ErrorBody(InvalidSongId)));
      }
      if entry.reason.None? || entry.reason.value == [] || |Trim(entry.reason.value)| == 0
         || JsLength(entry.reason.value) > 80 {
        return Failure(Response(400, ErrorBody(InvalidReason)));
      }
      var track := ctx.lookup(entry.spotifyId.value);
      if track.Failure? {
        return Failure(Response(500, Unhandled));
      }
      var artUrl := FirstImageUrl(track.value);
      var extracted := Color.ExtractColors(artUrl, ctx.load);
      var reply := ctx.insert(k);
      if reply.InsertFailed? {
        return Failure(Response(500, ErrorBody(SaveFailed)));
      }
      o := Success(SongRow(reply.id, track.value.id, track.value.name, JoinedArtists(track.value), artUrl,
                           track.value.previewUrl, track.value.spotifyUrl,
                           Or(entry.color, extracted.color), Or(entry.bgTint, extracted.bgTint),
                           entry.reason.value, ctx.name, 0, ctx.now, ctx.ipHash));
    }
  }
}
