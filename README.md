# PinYourSong, modelled in Dafny

PinYourSong is a shared wall of songs. A visitor searches the music catalog,
picks one or two tracks, writes a short reason for each and pins them under a
name; each visitor may pin two songs per 24 hours. Everyone can like songs
and sort the wall by newest or most loved.

This project models the logic behind that wall:

- the song listing and creation handler (`GET` and `POST /api/songs`) over an
  in-memory store: the per-visitor quota, the request and entry checks, and
  the row-by-row insert loop, which does not undo earlier rows;
- the catalog client: the cached access token, the search that resets the
  cache and retries once, and the track lookup without retry;
- the search route's guard and error mapping;
- the palette helpers: lightening a hex colour, the album-art URL rewrite and
  the swatch choice with its fixed fallback;
- the client state of the wall, the add-song form, the choose page with its
  string-to-hue hash, the audio player hook and the song dialog's time
  format and guards.

Layout: one module per source file (`songs_route.dfy`, `spotify.dfy`,
`search_route.dfy`, `color.dfy`, `song_wall.dfy`, `add_song_form.dfy`,
`choose_page.dfy`, `audio_player.dfy`, `song_modal.dfy`). These rest on
`types.dfy` (the records), `text.dfy` (JavaScript string behaviour: `trim`,
UTF-16 `length`, `split`, `join`, number formatting and `padStart`),
`sorting.dfy` (a stable descending sort) and `wrappers.dfy`.

How the source's forms are kept:

- State that the source updates in place is a class:
  - the store behind the songs handler (`SongsRoute.SongStore`);
  - the module-level token cache (`Spotify.CatalogClient`);
  - the audio hook with its audio element (`AudioPlayer.AudioHook`).
- Each method of those classes is proved equal to a specification function.
  The properties are proved about that function.
- The insert loop and the string hash are loops with invariants.
- Component handlers that replace their state wholesale are functions on
  records.

Inputs the code receives from outside are parameters:

- the clock, in milliseconds;
- the visitor hash `hashIP`, as any deterministic function;
- the catalog's replies and the token endpoint's replies;
- the palette of an image;
- the store's reply to each insert, and whether a store query reports an error;
- the HTTP replies seen by the client.

## Model

| member | source | states |
|---|---|---|
| Types.Truth | src/types/index.ts:15-16 | an optional flag counts as true only when present and true |
| Types.ArtistNames | src/lib/spotify.ts:64 | one name per artist, in order |
| Types.FirstImageUrl | src/lib/spotify.ts:66 | the first album image's url, or "" when there is none |
| Text.Trim | src/app/api/songs/route.ts:9 | `trim` removes leading and trailing white space: the result is a slice of the input, its ends are not space, and everything cut is space |
| Text.TrimIdempotent | src/app/api/songs/route.ts:73 | trimming a trimmed string changes nothing |
| Text.TrimShortens | src/app/api/songs/route.ts:93 | trimming never lengthens a string in UTF-16 code units |
| Text.JsLength | src/app/api/songs/route.ts:74 | `length` counts UTF-16 code units: one per character below U+10000, two above |
| Text.Utf16Append | src/components/ChoosePage.tsx:35 | the code units of a concatenation are the concatenation of the code units |
| Text.FirstField | src/app/api/songs/route.ts:9 | `split(",")[0]`: the text before the first comma, or all of it |
| Text.IndexOfFirst | src/app/api/songs/route.ts:9 | the first comma is found after a comma-free prefix |
| Text.Join | src/lib/spotify.ts:64 | `join(", ")`: "" for no names, the name itself for one, and otherwise text starting with the first name |
| Text.JoinSnoc | src/lib/spotify.ts:64 | one more name adds the separator and that name at the end |
| Text.JoinLength | src/lib/spotify.ts:64 | the joined text is as long as the names plus one separator between each two |
| Text.DigitsRoundTrip | src/lib/color.ts:12 | `toString(base)` read back in that base gives the number |
| Text.DigitsInjective | src/components/ChoosePage.tsx:40 | different numbers have different decimal strings |
| Text.PadStart | src/components/SongModal.tsx:18 | `padStart(n, c)` adds fill characters on the left up to length n and keeps the text as its suffix |
| Text.PadTwoDigits | src/components/SongModal.tsx:18 | a number below 100 padded to two places is its tens digit then its units digit |
| Sorting.SortDesc | src/components/SongWall.tsx:106 | the sort is a permutation of its input |
| Sorting.SortDescSorted | src/components/SongWall.tsx:106 | the sorted list is non-increasing in the key |
| Sorting.SortDescStable | src/components/SongWall.tsx:106 | the sort is stable: the songs with one key value keep their relative order |
| Sorting.Take | src/app/api/songs/route.ts:18 | `limit(n)` keeps a prefix of at most n rows |
| Sorting.TopOf | src/app/api/songs/route.ts:14-18 | `order(key desc).limit(n)` is sorted, drawn from the rows, all of them when there are at most n, and otherwise the top n |
| Sorting.PrefixOfSorted | src/app/api/songs/route.ts:17-18 | the first n of any sorted permutation of the rows are sorted, drawn from the rows, and the top n |
| Sorting.TakeIsTop | src/app/api/songs/route.ts:17-18 | a prefix of a list sorted descending holds its top keys: nothing left out ranks above the last kept |
| SongsRoute.Identity | src/app/api/songs/route.ts:9 | the identity is the trimmed first comma field of `x-forwarded-for`; "unknown" only when the header is absent |
| SongsRoute.IdentityIgnoresLaterHops | src/app/api/songs/route.ts:49 | addresses after the first comma do not change the identity |
| SongsRoute.EmptyHeaderIsEmptyIdentity | src/app/api/songs/route.ts:9 | an empty header gives "", not "unknown" |
| SongsRoute.OrderKey | src/app/api/songs/route.ts:8-12 | `likes_count` orders the listing for "loved"; `created_at` orders it for any other or missing sort |
| SongsRoute.Listed | src/app/api/songs/route.ts:14-18 | the rows read are ordered descending by the column, are at most 100, and are drawn from the table: all of it when it has at most 100 rows, and otherwise the top 100, no row left out ranking above the last one read |
| SongsRoute.ListSongs | src/app/api/songs/route.ts:7-46 | a failed listing query is 500 "Failed to load songs". Otherwise: one song per row read, in order, with its `ip_hash` stripped; `liked` iff the viewer liked it and the likes query did not fail; `is_owner` iff its hash is the viewer's; `totalCount` is the table size, or 0 when counting fails |
| SongsRoute.ListingOrder | src/app/api/songs/route.ts:12-17 | the listed songs are ordered by likes for "loved" and by creation time otherwise, highest first |
| SongsRoute.OwnershipByHash | src/app/api/songs/route.ts:9-10 | two visitors whose identities hash alike get the same listing |
| SongsRoute.EntryError | src/app/api/songs/route.ts:89-98 | an entry is accepted iff its id matches `^[a-zA-Z0-9]{22}$` and its reason is non-blank after trimming, with at most 80 code units untrimmed; a bad id is reported before a bad reason |
| SongsRoute.Or | src/app/api/songs/route.ts:103-104 | `a \|\| b`: an absent or empty string gives way to the fallback |
| SongsRoute.EntryOutcome | src/app/api/songs/route.ts:88-130 | an invalid entry ends the request with 400 and its message; a failed lookup ends it with an unhandled 500; a failed insert ends it with 500 "Failed to save song". A stored row carries the caller's hash, the trimmed name, the time and the reason as sent |
| SongsRoute.StoredRowFields | src/app/api/songs/route.ts:100-120 | a stored row copies the track (title, joined artists, first image url, preview, link); its colours are the entry's when non-empty, otherwise the extracted ones, which are well-formed lowercase hex |
| SongsRoute.CreatedList | src/app/api/songs/route.ts:129-130 | created songs are the rows published with `liked` false and `is_owner` true, in order |
| SongsRoute.Outcomes | src/app/api/songs/route.ts:88 | the k-th entry is judged as the k-th insert, and no failure answers 201 |
| SongsRoute.InsertFrom | src/app/api/songs/route.ts:86-133 | the loop appends rows of successive entries until one fails. The table only grows; the reply is 201 iff every entry stored a row, and then lists the created songs in entry order; otherwise the reply is the failing entry's response and the earlier rows stay |
| SongsRoute.InsertStops | src/app/api/songs/route.ts:89-127 | a failing entry ends the loop with its response and the table as it is |
| SongsRoute.InsertContinues | src/app/api/songs/route.ts:106-130 | a stored entry appends its row and its created song, and the loop goes on |
| SongsRoute.RecentCount | src/app/api/songs/route.ts:53-58 | the count of the caller's rows created at or after now minus 24 hours is at most the table size |
| SongsRoute.RecentCountAppend | src/app/api/songs/route.ts:53-58 | rows appended under the caller's hash at the current time each add one to that count |
| SongsRoute.QuotaCount | src/app/api/songs/route.ts:54-60 | the quota check counts the caller's recent rows, or 0 when the count query fails |
| SongsRoute.TrimmedName | src/app/api/songs/route.ts:73 | the name trimmed, or "" when it is not a string |
| SongsRoute.PostSpec | src/app/api/songs/route.ts:48-134 | 429 before any body check when two recent rows exist; 400 "Invalid request" for a blank or over-50 name or for 0 or more than 2 entries; 429 naming the remaining count when the batch would pass the quota. Rows are added only when all three checks pass, at most one per entry. A 201 adds exactly one row per entry |
| SongsRoute.PostSpecReachesLoop | src/app/api/songs/route.ts:86-133 | past the quota and request checks, the handler is its insert loop |
| SongsRoute.PostRowsStored | src/app/api/songs/route.ts:115-119 | every row a request stores carries the caller's hash, the trimmed name and the request time |
| SongsRoute.PostRowsFromEntries | src/app/api/songs/route.ts:117 | the k-th stored row comes from the k-th entry and keeps its reason untrimmed |
| SongsRoute.PostRowsCounted | src/app/api/songs/route.ts:53-58 | every stored row counts against the caller's quota |
| SongsRoute.AppendedCounted | src/app/api/songs/route.ts:53-58 | rows appended under the caller's hash at the current time add their number to the count |
| SongsRoute.PostKeepsQuota | src/app/api/songs/route.ts:60-84 | when the count query succeeds, a caller with at most 2 recent rows still has at most 2 after any request |
| SongsRoute.FailedCountBypassesQuota | src/app/api/songs/route.ts:53-84 | when the count query fails, `count ?? 0` admits a full batch from a caller already at 2 recent rows: the reply is 201 and the caller has 4 |
| SongsRoute.PartialBatchKept | src/app/api/songs/route.ts:86-131 | when the first entry is stored and the second is invalid, the reply is 400 and the first row stays stored |
| SongsRoute.SongStore.constructor | src/app/api/songs/route.ts:14-16 | the store holds the given songs and likes |
| SongsRoute.SongStore.Get | src/app/api/songs/route.ts:7-46 | the listing reads the store and is the listing specification |
| SongsRoute.SongStore.Post | src/app/api/songs/route.ts:48-134 | the new song table and the reply are those of the POST specification; likes are unchanged |
| SongsRoute.SongStore.InsertEntries | src/app/api/songs/route.ts:86-133 | the loop leaves the table and the reply that the loop specification gives |
| SongsRoute.SongStore.PrepareEntry | src/app/api/songs/route.ts:89-127 | one pass of the insert loop gives exactly the entry's outcome: the 400 for a bad id or reason, the 500 for a failed lookup or insert, otherwise the stored row |
| Spotify.TokenStep | src/lib/spotify.ts:6-36 | the cached token is returned with no exchange iff it is present and now is before expiry minus 60 s. Missing credentials raise their message before any exchange. A reply without a token raises "Failed to authenticate with Spotify". Neither error touches the cache. A successful exchange stores the token with expiry now + `expires_in`·1000 and returns it |
| Spotify.TokenReused | src/lib/spotify.ts:7-9 | a token that lasts more than the margin is reused, without an exchange, by the next call at the same time |
| Spotify.ToSummary | src/lib/spotify.ts:61-67 | a summary carries the track's id as `spotifyId`, its name as `title`, the joined artist names (the one name for a single artist), the album name and the first image url or "" |
| Spotify.Summaries | src/lib/spotify.ts:70-76 | one summary per track, in order |
| Spotify.SearchSpec | src/lib/spotify.ts:38-77 | at most two searches. A token failure is raised with no search and no change to the cache. Items on the first reply give their summaries after one search. An error reply resets the cache and retries exactly once with a fresh token. A second error raises "Spotify search failed", and only then |
| Spotify.SearchErrorDropsToken | src/lib/spotify.ts:48-52 | after a first search error the cache is empty or holds the retry's new token |
| Spotify.TrackSpec | src/lib/spotify.ts:79-91 | one token, at most one request, no retry and no cache reset; an error reply raises "Failed to fetch track from Spotify" |
| Spotify.CatalogClient.constructor | src/lib/spotify.ts:3-4 | the cache starts empty, with expiry 0 |
| Spotify.CatalogClient.GetAccessToken | src/lib/spotify.ts:6-36 | the new cache, the result and the exchange count are those of the token step |
| Spotify.CatalogClient.SearchTracks | src/lib/spotify.ts:38-77 | the new cache, the result, the tokens searched with and the exchange count are those of the search specification |
| Spotify.CatalogClient.GetTrack | src/lib/spotify.ts:79-91 | the new cache, the result and the request count are those of the track specification |
| SearchRoute.HandleSearch | src/app/api/spotify/search/route.ts:4-21 | a missing query, or one shorter than 2 code units untrimmed, gives 200 with no results and no search. Otherwise it searches exactly once with the query unchanged. A success is 200 with the results; an Error is 500 with its message; any other throw is 500 "Search failed". Status 200 iff the body has results |
| SearchRoute.AstralCharSearched | src/app/api/spotify/search/route.ts:7 | one character above U+FFFF is two code units long, so it is searched |
| SearchRoute.BlankQuerySearched | src/app/api/spotify/search/route.ts:7 | a query of two spaces is searched, since the length is not trimmed |
| Color.FormatHex | src/lib/color.ts:12 | '#' then six lowercase hex digits, two per channel, which read back as the channels |
| Color.Hex2IsPaddedHex | src/lib/color.ts:12 | each channel is its base-16 string left-padded with '0' to two places |
| Color.Lighten | src/lib/color.ts:8-10 | `min(255, round(c + (255 − c)·amount))` is at least c; it is c for amount 0 and 255 for c = 255 |
| Color.LightenHex | src/lib/color.ts:3-13 | the output is lowercase `#rrggbb` whose channels are the lightened input channels |
| Color.FormatChannels | src/lib/color.ts:4-12 | parsing then formatting a lowercase colour gives it back |
| Color.LightenByZero | src/lib/color.ts:3-13 | amount 0 reproduces a lowercase colour exactly |
| Color.LightenWhite | src/lib/color.ts:3-13 | "#ffffff" maps to itself for any amount |
| Color.SegmentEnd | src/lib/color.ts:18 | a match of `/\d+x\d+/` at a position ends where the pattern says |
| Color.SegmentEndComplete | src/lib/color.ts:18 | every `/\d+x\d+/` match at a position is found there |
| Color.FirstSegment | src/lib/color.ts:18 | the segment found is the leftmost match |
| Color.UpscaleArtUrl | src/lib/color.ts:18 | with no `/<digits>x<digits>/` segment the URL is unchanged; otherwise only the leftmost one is replaced by "/300x300/" |
| Color.ChooseSwatch | src/lib/color.ts:20 | Vibrant if present, else Muted, else DarkVibrant |
| Color.FallbackIsLowerHex | src/lib/color.ts:31 | the fallback pair is well-formed lowercase hex |
| Color.PaletteColors | src/lib/color.ts:19-31 | a failed load or no swatch gives exactly `#8a7a6a` / `#a09080`; otherwise the swatch's colour and its lightening by 0.3; always well-formed lowercase hex |
| Color.ExtractColors | src/lib/color.ts:15-32 | the palette is loaded from the rewritten URL; the result never fails and is always well-formed lowercase hex |
| SongWall.Initial | src/components/SongWall.tsx:14-18 | the wall opens on the landing page, sorted by latest, with the server's songs and count |
| SongWall.Mount | src/components/SongWall.tsx:21-31 | songs are replaced only by a reply that has them, and the count only when it is present too; anything else changes nothing |
| SongWall.Shift | src/components/SongWall.tsx:41 | adding to a count keeps a number a number, moved by exactly that much, and a missing count (undefined or NaN) missing |
| SongWall.Flip | src/components/SongWall.tsx:38-42 | `liked` flips (absent counts as false); the count goes down by one if it was liked, else up by one, and stays missing if missing; nothing else changes |
| SongWall.FlipAll | src/components/SongWall.tsx:35-45 | only the entries with that id are flipped; length and order are kept |
| SongWall.FlipTwiceRestores | src/components/SongWall.tsx:61-71 | the revert after the optimistic step restores every entry's liked truth and count |
| SongWall.Reconcile | src/components/SongWall.tsx:52-58 | matching entries take the reply's `liked` and `likesCount`, as missing when the reply lacks them; the others are unchanged |
| SongWall.ToggleLikeAsWritten | src/components/SongWall.tsx:33-73 | only entries with that id change; length, page, sort and count are kept; on any parsed reply, whatever its status, the matching entries hold exactly the reply's `liked` and `likesCount` |
| SongWall.ReconcileOverridesOptimistic | src/components/SongWall.tsx:47-58 | whatever the status, and whether or not the reply has the fields, a parsed reply sets the matching entries to its values and the optimistic step leaves no trace |
| SongWall.RateLimitedLikeLosesCount | src/components/SongWall.tsx:47-58 | the 429 `{error}` reply leaves the song with no count and not liked, and the next flip keeps it without a count |
| SongWall.ToggleLike | src/components/SongWall.tsx:33-73 | corrected: an ok reply with a count sets the server's values; any other reply and a thrown request restore each entry's liked truth and count; a count that was a number stays a number |
| SongWall.ToggleLikeAgrees | src/components/SongWall.tsx:33-73 | the corrected and the written handler agree on a thrown request and on every ok reply with a count |
| SongWall.ThrownToggleRestores | src/components/SongWall.tsx:59-71 | a thrown request leaves each entry's liked truth and count as before the toggle |
| SongWall.HandleSubmit | src/components/SongWall.tsx:75-79 | the new songs come first, in order, then the old ones; the count grows by their number; the page is the wall |
| SongWall.RemoveId | src/components/SongWall.tsx:85 | exactly the songs without that id remain |
| SongWall.RemoveIdAppend | src/components/SongWall.tsx:85 | filtering keeps order: filtering a concatenation is the concatenation of the filtered parts |
| SongWall.RemoveAbsentId | src/components/SongWall.tsx:85 | removing an id no song has leaves the list unchanged |
| SongWall.HandleDelete | src/components/SongWall.tsx:81-91 | on an ok reply the songs with that id are removed and the count drops by exactly one; otherwise nothing changes |
| SongWall.HandleSortChangeAsWritten | src/components/SongWall.tsx:93-102 | the sort is recorded first; a thrown request keeps the list; any parsed reply sets the list to its `songs`, which an error reply lacks |
| SongWall.AsListReply | src/app/api/songs/route.ts:22 | the wall sees a listing's songs and count, or an error body with neither |
| SongWall.SortChangeOnFailedListing | src/components/SongWall.tsx:96-98 | when the listing query fails, switching the sort loses the wall's list |
| SongWall.HandleSortChange | src/components/SongWall.tsx:93-102 | the sort is recorded; a reply with songs replaces the list; any other outcome keeps it |
| SongWall.SortChangeAgrees | src/components/SongWall.tsx:93-102 | where the handler as written keeps a list, it agrees with the corrected one |
| SongWall.SortedSongs | src/components/SongWall.tsx:104-107 | "latest" shows the list as stored; "loved" shows a permutation of it |
| SongWall.LovedOrder | src/components/SongWall.tsx:104-107 | when every count is a number, "loved" shows the songs in non-increasing likes, with ties in stored order |
| AddSongForm.UpdateSong | src/components/AddSongForm.tsx:49-53 | only the named field of entry idx changes; the length and every other entry are kept |
| AddSongForm.Without | src/components/AddSongForm.tsx:208 | the entries at every other index, in order |
| AddSongForm.RemoveEntry | src/components/AddSongForm.tsx:206-208 | exactly entry idx is deleted and the rest keep their order |
| AddSongForm.AddEntry | src/components/AddSongForm.tsx:264-266 | a blank entry is appended after the existing ones |
| AddSongForm.StepKeepsCount | src/components/AddSongForm.tsx:206-266 | removal offered only above one entry and adding only below two keep the count in {1, 2} |
| AddSongForm.RunKeepsCount | src/components/AddSongForm.tsx:206-266 | any sequence of edits keeps the count in {1, 2} |
| AddSongForm.InitialCountOk | src/components/AddSongForm.tsx:18 | the form starts with one blank entry |
| AddSongForm.RequestEntry | src/components/AddSongForm.tsx:69-72 | an entry sends its id and trimmed reason, and no colours |
| AddSongForm.RequestBody | src/components/AddSongForm.tsx:67-73 | the body has the trimmed name and one request entry per form entry, in order |
| AddSongForm.HandleSubmit | src/components/AddSongForm.tsx:55-89 | nothing is sent unless the name is non-blank, every entry is chosen with a non-blank reason and no send is under way. A created reply hands its songs on. A rejection shows `error ?? "Something went wrong"` and a throw shows the network message; both clear the submitting flag |
| AddSongForm.SubmittableRequestValid | src/components/AddSongForm.tsx:55-73 | what a submittable form of one or two entries sends passes the server's request checks when the trimmed name fits 50 code units |
| AddSongForm.SubmittableEntryValid | src/components/AddSongForm.tsx:69-72 | a submittable entry with a well-formed id and a reason of at most 80 code units passes the server's entry checks |
| AddSongForm.BlankNameNotSent | src/components/AddSongForm.tsx:55-59 | a blank name sends nothing |
| ChoosePage.ToInt32 | src/components/ChoosePage.tsx:35 | the signed 32-bit value congruent to x modulo 2^32 |
| ChoosePage.Shl5 | src/components/ChoosePage.tsx:35 | `h << 5` is the signed 32-bit value congruent to 32·h |
| ChoosePage.HashCodeBound | src/components/ChoosePage.tsx:34-35 | each step keeps the hash within a bound linear in the number of code units |
| ChoosePage.HueOf | src/components/ChoosePage.tsx:32-37 | the hue is below 360, and 0 for "" |
| ChoosePage.HueOfOneChar | src/components/ChoosePage.tsx:35-36 | a one-unit string hashes to its code, so its hue is that code mod 360 |
| ChoosePage.StrToHue | src/components/ChoosePage.tsx:32-37 | the loop over the UTF-16 code units computes the specified hue |
| ChoosePage.HueToColors | src/components/ChoosePage.tsx:39-43 | "hsl(H, 25%, 62%)" and "hsl(H, 20%, 52%)" |
| ChoosePage.HueToColorsInjective | src/components/ChoosePage.tsx:39-43 | different hues give different base colours |
| ChoosePage.Title | src/components/ChoosePage.tsx:53 | the selected song's title, or "" |
| ChoosePage.ArtistOf | src/components/ChoosePage.tsx:54 | the selected song's artist, or "" |
| ChoosePage.ChosenColors | src/components/ChoosePage.tsx:56-59 | the selected option's colours, or the colours of the hue of title + artist |
| ChoosePage.InitialColors | src/components/ChoosePage.tsx:56-59 | with nothing chosen the colours are those of hue 0 |
| ChoosePage.RequestBody | src/components/ChoosePage.tsx:70-78 | the trimmed name and one entry with the song's id, the trimmed reason, colour `bgDark` and tint `bgBase` |
| ChoosePage.HandleSubmit | src/components/ChoosePage.tsx:55-94 | nothing is sent unless a song is chosen, name and reason are non-empty (untrimmed) and no send is under way. A created reply hands its songs on. A rejection or a throw shows its message and clears the submitting flag. Nothing else in the page changes |
| ChoosePage.BlankNameSent | src/components/ChoosePage.tsx:55 | a name of one space is sent, and the server's request checks refuse it |
| ChoosePage.BlankReasonSent | src/components/ChoosePage.tsx:55 | a blank reason is sent, and the server refuses the entry for its reason |
| ChoosePage.PreviewProgress | src/components/ChoosePage.tsx:125 | at most 4; 4 iff all four values are non-empty, 0 iff none is |
| ChoosePage.PreviewHues | src/components/ChoosePage.tsx:727-730 | the three hues lie in [0, 359]; the second is 35 and the third 180 around the circle from the first |
| ChoosePage.PreviewHuesInRange | src/components/ChoosePage.tsx:727-730 | the preview hues of any page lie in [0, 359] |
| AudioPlayer.UnmountedInv | src/hooks/useAudioPlayer.ts:15-21 | the initial state has no song, is not playing and has progress, duration and time 0 |
| AudioPlayer.AfterMount | src/hooks/useAudioPlayer.ts:23-25 | mounting creates a fresh audio element and keeps the state |
| AudioPlayer.AfterPlay | src/hooks/useAudioPlayer.ts:50-61 | with no element nothing changes. Otherwise the source is reloaded only when it differs, and the element plays. The song becomes current and playing; the other fields are kept |
| AudioPlayer.AfterPause | src/hooks/useAudioPlayer.ts:63-66 | playing stops and the current song is kept |
| AudioPlayer.AfterToggle | src/hooks/useAudioPlayer.ts:68-77 | pauses iff the song is current and playing; otherwise plays it |
| AudioPlayer.ToggleOtherSwitches | src/hooks/useAudioPlayer.ts:68-77 | toggling another song makes it current and playing |
| AudioPlayer.ToggleTwiceRestores | src/hooks/useAudioPlayer.ts:63-77 | two toggles of the current song restore `isPlaying` and keep the song |
| AudioPlayer.AfterEnded | src/hooks/useAudioPlayer.ts:36-38 | playing stops, progress and time go to 0, and the song is kept |
| AudioPlayer.AfterTimeUpdate | src/hooks/useAudioPlayer.ts:27-34 | the state takes the element's time, its duration or 0, and the percentage played |
| AudioPlayer.Clamp | src/hooks/useAudioPlayer.ts:82 | a seek position is held within the track |
| AudioPlayer.SeekTarget | src/hooks/useAudioPlayer.ts:82 | the seek position lies within the track |
| AudioPlayer.AfterSeek | src/hooks/useAudioPlayer.ts:79-83 | with no element or no duration nothing changes; otherwise only the element's time moves; the state is never touched |
| AudioPlayer.ApplyKeepsInv | src/hooks/useAudioPlayer.ts:23-83 | every event keeps the element's time and duration well formed |
| AudioPlayer.AudioHook.constructor | src/hooks/useAudioPlayer.ts:14-21 | the hook starts unmounted in the initial state |
| AudioPlayer.AudioHook.OnMount | src/hooks/useAudioPlayer.ts:23-25 | the fields become those after mounting |
| AudioPlayer.AudioHook.Play | src/hooks/useAudioPlayer.ts:50-61 | the fields become those after `play` |
| AudioPlayer.AudioHook.Pause | src/hooks/useAudioPlayer.ts:63-66 | the fields become those after `pause` |
| AudioPlayer.AudioHook.Toggle | src/hooks/useAudioPlayer.ts:68-77 | the fields become those after `toggle` |
| AudioPlayer.AudioHook.OnEnded | src/hooks/useAudioPlayer.ts:36-38 | the fields become those after the track ends |
| AudioPlayer.AudioHook.OnTimeUpdate | src/hooks/useAudioPlayer.ts:27-34 | the fields become those after a time update |
| AudioPlayer.AudioHook.Seek | src/hooks/useAudioPlayer.ts:79-83 | the fields become those after `seek` |
| SongModal.Minutes | src/components/SongModal.tsx:16 | `floor(s / 60)`: the whole minutes in s |
| SongModal.SecondsPart | src/components/SongModal.tsx:17 | `floor(s mod 60)` is below 60 |
| SongModal.FormatTime | src/components/SongModal.tsx:15-19 | the minutes, ':', and exactly two digits (the first at most 5) that read as the seconds part |
| SongModal.Clock | src/components/SongModal.tsx:18 | m minutes and k < 60 seconds give m's digits, ':', a tens digit up to 5 and a units digit that read back as k |
| SongModal.SecondsDigits | src/components/SongModal.tsx:18 | padding seconds below 60 to two places with '0' gives two digits, the first at most 5, that read back as the seconds |
| SongModal.FormatWholeSeconds | src/components/SongModal.tsx:15-19 | 60m + k seconds, k < 60, is written m ":" then k padded to two places |
| SongModal.HandlePlay | src/components/SongModal.tsx:26-30 | the player is toggled for this song only when it has a non-empty preview |
| SongModal.PlayButtonFlips | src/components/SongModal.tsx:23-30 | with a preview and a mounted player, the button's playing state flips and the song becomes current |
| SongModal.HandleSeek | src/components/SongModal.tsx:32-37 | a click seeks only while this song is current |
| SongModal.TimeLabels | src/components/SongModal.tsx:245-246 | "0:00" and "0:30" unless this song is current; the duration label needs a non-zero duration too |
| SongModal.ZeroWritten | src/components/SongModal.tsx:18 | 0 is written "0", and "00" once padded |
| SongModal.DefaultElapsedLabel | src/components/SongModal.tsx:245 | the elapsed default "0:00" is what the format gives at time 0 |

## Left out

- Network and HTTP: `fetch`, request and response objects, headers, JSON parsing and Basic-auth encoding are not modelled. Replies are values, and the HTTP status is a number in a response datatype.
- Data store client: the Supabase client and its query builder are not part of this model; the store is an in-memory table of rows and a set of (song id, visitor hash) likes.
- `hashIP` and `relativeTime` (src/lib/utils) are not part of this model; `hashIP` is any deterministic function passed in, and `relativeTime` is not modelled.
- The like-toggle and delete handlers on the server, and whatever maintains `likes_count`, are not part of this model. The wall sees only their replies: for a like, the status, `liked` and `likesCount`, each possibly missing, which covers the 429 `{error: "Slow down"}` reply of the like endpoint's rate limiter.
- Palette extraction by node-vibrant is a foreign library: the palette of a URL is a parameter (`None` for a failed load).
- Concurrency: requests run one at a time. Two concurrent POSTs that both pass the quota count, and races on the token cache, are not modelled.
- The clock: each request reads one time. The source reads `Date.now()` separately for the quota window, the expiry check and the new expiry.
- Row ids and `created_at` values come from the store. A stored row's time is the request time, and ties in the listing order keep table order, where SQL leaves them unspecified.
- Numbers are unbounded integers and exact reals: IEEE doubles, NaN and infinities are not modelled. The one exception is a song's like count on the wall, which can be missing (undefined or NaN).
- Spotify.TokenStep: an `expires_in` that is missing or not a number is not modelled; it is an integer number of seconds.
- ChoosePage.HueOf: the fold uses exact integers. The JavaScript double holding `h` is exact only while |h| stays below 2^53, which the bound in `ChoosePage.HashCodeBound` guarantees for strings shorter than about 2^21 code units; longer strings are not modelled.
- Color.LightenHex: it requires a well-formed `#rrggbb` input, as node-vibrant swatches are; `parseInt` on a malformed colour (NaN channels) is not modelled. The amount is a real at least 0.
- SongModal.FormatTime: it requires a non-negative time; negative or NaN times are not modelled. That "0:30" is the format of 30 seconds is not proved.
- AudioPlayer.AfterSeek and AudioPlayer.AfterTimeUpdate: progress, duration and seek positions are exact reals. The seek target is clamped to the track, as an audio element does with an out-of-range time. Whether the element actually plays is not modelled; only its source, time, duration and paused flag are.
- AudioPlayer.AfterPlay: `audio.src` holds the resolved absolute URL in a browser. The model compares it with the preview URL as given, which are equal for the absolute catalog preview URLs.
- AudioPlayer.AfterToggle: the source's `toggle` reads the state its callback closed over, which can lag behind a state update not yet rendered. The model reads the current state.
- The `pause()` of the element on unmount is not modelled.
- The search input's debounce (src/components/SpotifySearchInput.tsx) is timer-driven and is not modelled.
- `onAdd` and `onSubmit` are handed whatever the created reply holds. A 2xx reply without `songs` (which the server never sends) is not modelled.
- The server calls `extractColors` for an entry even when it supplies both colours; this is only a wasted lookup, and the stored colours are modelled exactly.
- Presentational components (landing page, wall page, player card, heart button, sort tabs, layout, audio context) and the server-rendered initial load in src/app/page.tsx are not modelled.
- Logging, including the credential-prefix logging in the search route, is not modelled.
- PostKeepsQuota: it holds only when the count query succeeds. When the query reports an error, `count ?? 0` admits the request as if the caller had no recent rows, as SongsRoute.FailedCountBypassesQuota shows. Failing open may be deliberate, so no corrected handler is given.
- LovedOrder: the order is promised only when every count is a number. A missing count makes the comparator return NaN, which the sort reads as equal to every song, so the comparator is inconsistent and ECMAScript leaves the order to the engine. SongWall.SortedSongs then promises only a permutation.
- SongsRoute.EntryOutcome: the catalog lookup is a function of the track id, so two entries with the same id get the same answer. The source fetches the track once per entry, and the two fetches could differ.
- AudioPlayer.AfterPlay: when the source is unchanged the element keeps its time. A real media element that has ended restarts from 0 on `play()`. This does not change the hook's state, which is what the model tracks.

## Findings

| source | as written | input that shows it | evidently intended | confidence | as-written member | corrected member |
|---|---|---|---|---|---|---|
| src/components/SongWall.tsx:47-58 | `toggleLike` copies `data.likesCount` into the song without checking `res.ok` | liking a song while the like endpoint rate-limits the caller: the 429 reply `{error: "Slow down"}` has no `likesCount`, so the count becomes undefined and later flips make it NaN | reconcile only with an ok reply and undo the optimistic flip otherwise, as on a thrown request (comment line 60) | not executed | SongWall.ToggleLikeAsWritten (shown by SongWall.RateLimitedLikeLosesCount) | SongWall.ToggleLike |
| src/components/SongWall.tsx:93-102 | `handleSortChange` sets the list to `data.songs` without checking `res.ok` | switching the sort while `GET /api/songs` answers 500 `{error: "Failed to load songs"}`: the list becomes undefined | keep the current list on any error, as the comment on line 100 says | not executed | SongWall.HandleSortChangeAsWritten (shown by SongWall.SortChangeOnFailedListing) | SongWall.HandleSortChange |
