/** The record shapes shared by the server and the client: a wall song, a
    catalog search summary, a catalog track, and the body of a song-creation
    request. JSON field names are given in comments where they differ. */
module Types {
  import opened Wrappers
  import Text

  type SongId = string

  /** A pinned song as clients see it. `liked` and `isOwner` are optional
      (`liked?`, `is_owner?`); an absent one reads as false. `createdAt` is a
      time in milliseconds (the store sends an ISO time stamp). `likesCount`
      is `None` when the client holds no number there: `undefined` copied
      from a reply without the field, or the NaN that arithmetic on it gives. */
  datatype Song = Song(
    id: SongId,
    spotifyId: string,        // spotify_id
    title: string,
    artist: string,
    albumArtUrl: string,      // album_art_url
    previewUrl: Option<string>, // preview_url, null when absent
    spotifyUrl: string,       // spotify_url
    color: string,
    bgTint: string,           // bg_tint
    reason: string,
    pinnedBy: string,         // pinned_by
    likesCount: Option<int>,  // likes_count
    createdAt: int,           // created_at
    liked: Option<bool>,
    isOwner: Option<bool>)    // is_owner

  /** How JavaScript reads an optional flag in a condition. */
  function Truth(b: Option<bool>): (r: bool)
    ensures r <==> b == Some(true)
  {
    match b
    case Some(v) => v
    case None => false
  }

  /** One catalog search hit (`SpotifySearchResult`). */
  datatype SearchResult = SearchResult(
    spotifyId: string, title: string, artist: string, album: string, albumArtUrl: string)

  datatype Artist = Artist(name: string)
  datatype Image = Image(url: string, width: int, height: int)
  datatype Album = Album(name: string, images: seq<Image>)

  /** A catalog track; `spotifyUrl` is `external_urls.spotify`. */
  datatype SpotifyTrack = SpotifyTrack(
    id: string,
    name: string,
    artists: seq<Artist>,
    album: Album,
    previewUrl: Option<string>,
    spotifyUrl: string)

  function ArtistNames(artists: seq<Artist>): (names: seq<string>)
    ensures |names| == |artists|
    ensures forall i :: 0 <= i < |artists| ==> names[i] == artists[i].name
  {
    seq(|artists|, i requires 0 <= i < |artists| => artists[i].name)
  }

  /** `track.artists.map((a) => a.name).join(", ")` */
  function JoinedArtists(t: SpotifyTrack): string {
    Text.Join(ArtistNames(t.artists), ", ")
  }

  /** `track.album.images[0]?.url ?? ""` */
  function FirstImageUrl(t: SpotifyTrack): (url: string)
    ensures t.album.images == [] ==> url == ""
    ensures t.album.images != [] ==> url == t.album.images[0].url
  {
    if t.album.images == [] then "" else t.album.images[0].url
  }

  /** One entry of a creation request; a missing field is `None`. */
  datatype Entry = Entry(
    spotifyId: Option<string>, reason: Option<string>,
    color: Option<string>, bgTint: Option<string>)

  /** The body of `POST /api/songs`; `name` is `None` when it is not a string,
      `songs` is `None` when it is missing. */
  datatype PostBody = PostBody(name: Option<string>, songs: Option<seq<Entry>>)

  /** What a form sees of its creation request: a 2xx reply with the created
      songs, another status with the body's optional `error`, or a thrown
      fetch or JSON parse. */
  datatype SubmitReply = Created(songs: seq<Song>) | Rejected(error: Option<string>) | Threw
}
