/** `GET /api/spotify/search?q=...` (src/app/api/spotify/search/route.ts):
    a length guard on the raw query, one call into the catalog search, and
    the mapping of what that call throws to a 500 reply. */
module SearchRoute {
  import opened Wrappers
  import opened Text
  import opened Types

  /** What a failed `searchTracks` call throws: an `Error` with its message,
      or some other value. */
  datatype Thrown = Error(message: string) | NonError

  /** The JSON body: `{results}` or `{error}`. */
  datatype Body = Results(results: seq<SearchResult>) | ErrorBody(error: string)

  datatype Response = Response(status: int, body: Body)

  /** The fallback message for a thrown value that is not an `Error`. */
  const GenericFailure: string := "Search failed"

  /** The query is long enough to be searched: present, and at least two
      UTF-16 code units long before any trimming. */
  predicate Searchable(q: Option<string>) {
    q.Some? && JsLength(q.value) >= 2
  }

  /** The handler for query parameter `q` (`None` when absent). `search` is
      `searchTracks`: the summaries, or what it throws. Returns the response
      and the queries `search` was called with, in order. */
  function HandleSearch(q: Option<string>, search: string -> Result<seq<SearchResult>, Thrown>)
    : (r: (Response, seq<string>))
    ensures !Searchable(q) <==> r.1 == []
    ensures !Searchable(q) ==> r.0 == Response(200, Results([]))
    ensures Searchable(q) ==> r.1 == [q.value]
    ensures r.0.status == 200 <==> r.0.body.Results?
    ensures r.0.status == 200 || r.0.status == 500
    ensures Searchable(q) && search(q.value).Success? ==> r.0 == Response(200, Results(search(q.value).value))
    ensures Searchable(q) && search(q.value).Failure? ==>
      r.0 == Response(500, ErrorBody(match search(q.value).error
                                     case Error(m) => m
                                     case NonError => GenericFailure))
  {
    if q.None? || q.value == [] || JsLength(q.value) < 2 then (Response(200, Results([])), [])
    else
      var body := match search(q.value)
        case Success(results) => Response(200, Results(results))
        case Failure(Error(message)) => Response(500, ErrorBody(message))
        case Failure(NonError) => Response(500, ErrorBody(GenericFailure));
      (body, [q.value])
  }

  /** The guard counts UTF-16 code units: a single character outside the
      Basic Multilingual Plane is already long enough to be searched. */
  lemma AstralCharSearched(c: char, search: string -> Result<seq<SearchResult>, Thrown>)
    requires c as int >= 0x1_0000
    ensures HandleSearch(Some([c]), search).1 == [[c]]
  {
    assert Utf16([c]) == CodeUnits(c) + Utf16([]);
  }

  /** The guard does not trim: two spaces reach the catalog. */
  lemma BlankQuerySearched(search: string -> Result<seq<SearchResult>, Thrown>)
    ensures HandleSearch(Some("  "), search).1 == ["  "]
  {
    Utf16OfBmp("  ");
  }
}
