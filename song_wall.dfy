/** The client state of the wall (src/components/SongWall.tsx): the page
    shown, the song list, the sort choice and the total count, and the
    handlers that replace them. Every network reply is a parameter; the
    like, delete and list requests themselves are not modelled. */
module SongWall {
  import opened Wrappers
  import opened Sorting
  import opened Types
  import SongsRoute

  datatype Page = Landing | Choose | Wall

  datatype SortBy = Latest | Loved

  datatype WallState = WallState(page: Page, songs: seq<Song>, sortBy: SortBy, totalCount: int)

  /** The state the server-rendered page starts with. */
  function Initial(initialSongs: seq<Song>, initialCount: int): (st: WallState)
    ensures st.page == Landing && st.sortBy == Latest
    ensures st.songs == initialSongs && st.totalCount == initialCount
  {
    WallState(Landing, initialSongs, Latest, initialCount)
  }

  /** A reply of the list endpoint: its optional `songs` and `totalCount`
      (`None` for a missing or null field), or a failed fetch or parse. */
  datatype ListReply = ListBody(songs: Option<seq<Song>>, totalCount: Option<int>) | ListThrew

  /** The first fetch after mounting: the list is replaced only when the reply
      has songs, and the count only when it also has a count. */
  function Mount(st: WallState, reply: ListReply): (r: WallState)
    ensures r.page == st.page && r.sortBy == st.sortBy
    ensures reply.ListBody? && reply.songs.Some? ==> r.songs == reply.songs.value
    ensures !(reply.ListBody? && reply.songs.Some?) ==> r == st
    ensures r.totalCount == (if reply.ListBody? && reply.songs.Some? && reply.totalCount.Some?
                             then reply.totalCount.value else st.totalCount)
  {
    match reply
    case ListThrew => st
    case ListBody(songs, count) =>
      if songs.None? then st
      else st.(songs := songs.value, totalCount := count.GetOr(st.totalCount))
  }

  // ---------------------------------------------------------------------
  // Likes

  /** `c + d` on a count the client holds: a missing count (`undefined` or
      NaN) gives NaN, which stays missing. */
  function Shift(c: Option<int>, d: int): (r: Option<int>)
    ensures r.Some? <==> c.Some?
    ensures r.Some? ==> r.value - c.value == d
  {
    if c.Some? then Some(c.value + d) else None
  }

  /** One song with its like flipped: `liked` negated (absent reads as
      false) and the count moved by one in the same direction. */
  function Flip(s: Song): (t: Song)
    ensures Truth(t.liked) == !Truth(s.liked)
    ensures t.likesCount == Shift(s.likesCount, if Truth(s.liked) then -1 else 1)
    ensures t.(liked := s.liked, likesCount := s.likesCount) == s
  {
    s.(liked := Some(!Truth(s.liked)), likesCount := Shift(s.likesCount, if Truth(s.liked) then -1 else 1))
  }

  /** The optimistic step, and also the revert: every song with the id flipped. */
  function FlipAll(songs: seq<Song>, id: SongId): (r: seq<Song>)
    ensures |r| == |songs|
    ensures forall i :: 0 <= i < |songs| ==> r[i] == if songs[i].id == id then Flip(songs[i]) else songs[i]
  {
    seq(|songs|, i requires 0 <= i < |songs| => if songs[i].id == id then Flip(songs[i]) else songs[i])
  }

  /** Flipping twice restores each song's like truth value and count and
      leaves all other fields as they were. */
  lemma FlipTwiceRestores(songs: seq<Song>, id: SongId)
    ensures var r := FlipAll(FlipAll(songs, id), id);
            |r| == |songs|
            && forall i :: 0 <= i < |songs| ==>
                 Truth(r[i].liked) == Truth(songs[i].liked) && r[i].likesCount == songs[i].likesCount
                 && r[i].(liked := songs[i].liked) == songs[i]
  {
    var once := FlipAll(songs, id);
    var r := FlipAll(once, id);
    forall i | 0 <= i < |songs|
      ensures Truth(r[i].liked) == Truth(songs[i].liked) && r[i].likesCount == songs[i].likesCount
              && r[i].(liked := songs[i].liked) == songs[i]
    {
      if songs[i].id == id {
        assert once[i] == Flip(songs[i]);
        assert r[i] == Flip(once[i]);
      }
    }
  }

  /** Copies the reply's `liked` and `likesCount` into every song with the id;
      a field the reply lacks is copied as missing. */
  function Reconcile(songs: seq<Song>, id: SongId, liked: Option<bool>, likesCount: Option<int>): (r: seq<Song>)
    ensures |r| == |songs|
    ensures forall i :: 0 <= i < |songs| ==>
      r[i] == if songs[i].id == id then songs[i].(liked := liked, likesCount := likesCount) else songs[i]
  {
    seq(|songs|, i requires 0 <= i < |songs| =>
      if songs[i].id == id then songs[i].(liked := liked, likesCount := likesCount) else songs[i])
  }

  /** A reply of the like endpoint: whether its status is ok, its `liked` and
      `likesCount` (`None` when missing: the rate-limited 429 reply is
      `{error: "Slow down"}` and has neither); or a failed fetch or parse. */
  datatype LikeReply = LikeBody(ok: bool, liked: Option<bool>, likesCount: Option<int>) | LikeThrew

  /** `toggleLike(id)` as written: the optimistic flip, then the reply's
      fields copied whatever its status, or the flip undone when the request
      throws. */
  function ToggleLikeAsWritten(st: WallState, id: SongId, reply: LikeReply): (r: WallState)
    ensures r.page == st.page && r.sortBy == st.sortBy && r.totalCount == st.totalCount
    ensures |r.songs| == |st.songs|
    ensures forall i :: 0 <= i < |st.songs| && st.songs[i].id != id ==> r.songs[i] == st.songs[i]
    ensures reply.LikeBody? ==>
      forall i :: 0 <= i < |st.songs| && st.songs[i].id == id ==>
        r.songs[i].liked == reply.liked && r.songs[i].likesCount == reply.likesCount
  {
    var optimistic := FlipAll(st.songs, id);
    match reply
    case LikeThrew => st.(songs := FlipAll(optimistic, id))
    case LikeBody(_, liked, count) => st.(songs := Reconcile(optimistic, id, liked, count))
  }

  /** A parsed reply is taken as it is, whatever its status: the optimistic
      step leaves no trace. */
  lemma ReconcileOverridesOptimistic(st: WallState, id: SongId, ok: bool, liked: Option<bool>, likesCount: Option<int>)
    ensures ToggleLikeAsWritten(st, id, LikeBody(ok, liked, likesCount)).songs
         == Reconcile(st.songs, id, liked, likesCount)
  {
    var optimistic := FlipAll(st.songs, id);
    var a := Reconcile(optimistic, id, liked, likesCount);
    var b := Reconcile(st.songs, id, liked, likesCount);
    forall i | 0 <= i < |st.songs|
      ensures a[i] == b[i]
    {
      if st.songs[i].id == id {
        assert optimistic[i] == Flip(st.songs[i]);
      }
    }
  }

  /** When the like endpoint answers 429 `{error: "Slow down"}`, the song
      loses its count: it is left `undefined`, shown as nothing, and the next
      flip turns it into NaN. */
  lemma RateLimitedLikeLosesCount(st: WallState, id: SongId, i: int)
    requires 0 <= i < |st.songs| && st.songs[i].id == id
    ensures var r := ToggleLikeAsWritten(st, id, LikeBody(false, None, None));
            r.songs[i].likesCount.None? && !Truth(r.songs[i].liked)
            && Flip(r.songs[i]).likesCount.None?
  {
  }

  /** `toggleLike(id)` as evidently intended ("reconcile with server state",
      "revert on error"): an ok reply with a count sets the server's values;
      any other reply, like a thrown request, undoes the optimistic flip. */
  function ToggleLike(st: WallState, id: SongId, reply: LikeReply): (r: WallState)
    ensures r.page == st.page && r.sortBy == st.sortBy && r.totalCount == st.totalCount
    ensures |r.songs| == |st.songs|
    ensures forall i :: 0 <= i < |st.songs| && st.songs[i].id != id ==> r.songs[i] == st.songs[i]
    ensures reply.LikeBody? && reply.ok && reply.likesCount.Some? ==>
      forall i :: 0 <= i < |st.songs| && st.songs[i].id == id ==>
        r.songs[i].liked == reply.liked && r.songs[i].likesCount == reply.likesCount
    ensures !(reply.LikeBody? && reply.ok && reply.likesCount.Some?) ==>
      forall i :: 0 <= i < |st.songs| ==>
        Truth(r.songs[i].liked) == Truth(st.songs[i].liked) && r.songs[i].likesCount == st.songs[i].likesCount
    ensures forall i :: 0 <= i < |st.songs| && st.songs[i].likesCount.Some? ==> r.songs[i].likesCount.Some?
  {
    var optimistic := FlipAll(st.songs, id);
    match reply
    case LikeBody(true, liked, Some(count)) => st.(songs := Reconcile(optimistic, id, liked, Some(count)))
    case _ =>
      FlipTwiceRestores(st.songs, id);
      st.(songs := FlipAll(optimistic, id))
  }

  /** The corrected handler agrees with the written one on a thrown request
      and on every ok reply that carries a count. */
  lemma ToggleLikeAgrees(st: WallState, id: SongId, reply: LikeReply)
    requires reply.LikeThrew? || (reply.ok && reply.likesCount.Some?)
    ensures ToggleLikeAsWritten(st, id, reply) == ToggleLike(st, id, reply)
  {
  }

  /** A failed request leaves every like truth value and count as before. */
  lemma ThrownToggleRestores(st: WallState, id: SongId)
    ensures var r := ToggleLikeAsWritten(st, id, LikeThrew);
            forall i :: 0 <= i < |st.songs| ==>
              Truth(r.songs[i].liked) == Truth(st.songs[i].liked)
              && r.songs[i].likesCount == st.songs[i].likesCount
  {
    FlipTwiceRestores(st.songs, id);
  }

  // ---------------------------------------------------------------------
  // Adding, deleting, sorting

  /** `handleSubmit(newSongs)`: the new songs first, in their order, the
      count raised by their number, and the wall shown. */
  function HandleSubmit(st: WallState, newSongs: seq<Song>): (r: WallState)
    ensures |r.songs| == |newSongs| + |st.songs|
    ensures r.songs[..|newSongs|] == newSongs && r.songs[|newSongs|..] == st.songs
    ensures r.totalCount == st.totalCount + |newSongs|
    ensures r.page == Wall && r.sortBy == st.sortBy
  {
    WallState(Wall, newSongs + st.songs, st.sortBy, st.totalCount + |newSongs|)
  }

  /** The songs whose id is not `id`, in their order. */
  function RemoveId(songs: seq<Song>, id: SongId): (r: seq<Song>)
    ensures |r| <= |songs|
    ensures forall s :: s in r <==> s in songs && s.id != id
  {
    if songs == [] then []
    else (if songs[0].id == id then [] else [songs[0]]) + RemoveId(songs[1..], id)
  }

  /** Removing from a concatenation removes from each part. */
  lemma {:induction false} RemoveIdAppend(a: seq<Song>, b: seq<Song>, id: SongId)
    ensures RemoveId(a + b, id) == RemoveId(a, id) + RemoveId(b, id)
  {
    if a != [] {
      assert (a + b)[0] == a[0] && (a + b)[1..] == a[1..] + b;
      RemoveIdAppend(a[1..], b, id);
      var head := if a[0].id == id then [] else [a[0]];
      assert RemoveId(a + b, id) == head + (RemoveId(a[1..], id) + RemoveId(b, id));
    } else {
      assert a + b == b;
    }
  }

  /** A list without the id is kept as it is. */
  lemma {:induction false} RemoveAbsentId(songs: seq<Song>, id: SongId)
    requires forall i :: 0 <= i < |songs| ==> songs[i].id != id
    ensures RemoveId(songs, id) == songs
  {
    if songs != [] {
      RemoveAbsentId(songs[1..], id);
    }
  }

  /** The outcome of the delete request. */
  datatype DeleteReply = DeleteOk | DeleteNotOk | DeleteThrew

  /** `handleDelete(id)`: on an ok reply every song with the id goes and the
      count drops by one, even when no song matched; otherwise nothing changes. */
  function HandleDelete(st: WallState, id: SongId, reply: DeleteReply): (r: WallState)
    ensures reply != DeleteOk ==> r == st
    ensures reply == DeleteOk ==>
      r.songs == RemoveId(st.songs, id) && r.totalCount == st.totalCount - 1
      && r.page == st.page && r.sortBy == st.sortBy
  {
    if reply == DeleteOk then st.(songs := RemoveId(st.songs, id), totalCount := st.totalCount - 1)
    else st
  }

  /** `handleSortChange(sort)` as written: the choice is recorded first and
      `setSongs(data.songs)` runs on any parsed reply, whatever its status.
      A body without `songs` (the listing's `{error}` reply) leaves the list
      undefined, which the wall cannot render; `None` stands for that state.
      A thrown request keeps the list. */
  function HandleSortChangeAsWritten(st: WallState, sort: SortBy, reply: ListReply): (r: Option<WallState>)
    ensures reply.ListThrew? ==> r == Some(st.(sortBy := sort))
    ensures reply.ListBody? && reply.songs.None? ==> r.None?
    ensures reply.ListBody? && reply.songs.Some? ==> r == Some(st.(sortBy := sort, songs := reply.songs.value))
  {
    match reply
    case ListThrew => Some(st.(sortBy := sort))
    case ListBody(songs, _) => if songs.Some? then Some(st.(sortBy := sort, songs := songs.value)) else None
  }

  /** What the wall reads from a listing response: the listing's fields, or
      neither field from any other body. `GET` answers only with a listing or
      an error body; the other bodies map alike for completeness. */
  function AsListReply(b: SongsRoute.Body): (reply: ListReply)
    ensures b.Listing? ==> reply == ListBody(Some(b.songs), Some(b.totalCount))
    ensures !b.Listing? ==> reply == ListBody(None, None)
  {
    if b.Listing? then ListBody(Some(b.songs), Some(b.totalCount)) else ListBody(None, None)
  }

  /** When the listing query fails, switching the sort loses the list: the
      500 reply has no `songs`. */
  lemma SortChangeOnFailedListing(st: WallState, sort: SortBy, table: seq<SongsRoute.SongRow>,
                                  likes: set<(SongId, string)>, header: Option<string>, hash: string -> string)
    ensures var response := SongsRoute.ListSongs(table, likes, Some(if sort == Loved then "loved" else "latest"),
                                                 header, hash, true, false, false);
            HandleSortChangeAsWritten(st, sort, AsListReply(response.body)).None?
  {
  }

  /** `handleSortChange(sort)` as evidently intended ("keep current list on
      error"): the choice is recorded first; a reply with songs replaces the
      list, any other reply and a thrown request keep it. */
  function HandleSortChange(st: WallState, sort: SortBy, reply: ListReply): (r: WallState)
    ensures r.sortBy == sort && r.page == st.page && r.totalCount == st.totalCount
    ensures reply.ListBody? && reply.songs.Some? ==> r.songs == reply.songs.value
    ensures !(reply.ListBody? && reply.songs.Some?) ==> r.songs == st.songs
  {
    match reply
    case ListBody(Some(songs), _) => st.(sortBy := sort, songs := songs)
    case _ => st.(sortBy := sort)
  }

  /** The corrected handler agrees with the written one wherever the written
      one keeps a list. */
  lemma SortChangeAgrees(st: WallState, sort: SortBy, reply: ListReply)
    requires HandleSortChangeAsWritten(st, sort, reply).Some?
    ensures HandleSortChangeAsWritten(st, sort, reply).value == HandleSortChange(st, sort, reply)
  {
  }

  /** The likes a song is ranked by. A missing count makes the comparator
      `b.likes_count - a.likes_count` NaN, which the sort reads as "equal" to
      every song; the comparator is then inconsistent and the order is left to
      the engine. The model ranks such a song as 0 likes. */
  function LikesOf(s: Song): int { s.likesCount.GetOr(0) }

  /** The list the wall shows: by likes, highest first, for "loved" (on a
      copy, stably), and as stored otherwise. */
  function SortedSongs(st: WallState): (shown: seq<Song>)
    ensures st.sortBy == Latest ==> shown == st.songs
    ensures |shown| == |st.songs| && multiset(shown) == multiset(st.songs)
  {
    if st.sortBy == Loved then SortDesc(st.songs, LikesOf) else st.songs
  }

  predicate CountsKnown(songs: seq<Song>) {
    forall i :: 0 <= i < |songs| ==> songs[i].likesCount.Some?
  }

  /** With "loved" and every count a number, the shown list has
      non-increasing likes, and songs with equal likes keep their stored order. */
  lemma LovedOrder(st: WallState, k: int)
    requires st.sortBy == Loved && CountsKnown(st.songs)
    ensures var shown := SortedSongs(st);
            && CountsKnown(shown)
            && (forall i, j :: 0 <= i < j < |shown| ==> shown[i].likesCount.value >= shown[j].likesCount.value)
            && WithKey(shown, LikesOf, k) == WithKey(st.songs, LikesOf, k)
  {
    var shown := SortedSongs(st);
    SortDescSorted(st.songs, LikesOf);
    SortDescStable(st.songs, LikesOf, k);
    forall i | 0 <= i < |shown|
      ensures shown[i].likesCount.Some?
    {
      assert shown[i] in multiset(st.songs);
      var j :| 0 <= j < |st.songs| && st.songs[j] == shown[i];
    }
  }
}
