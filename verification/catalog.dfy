/** The catalog data the client receives from its proxy, and the requests it
    sends for it. */
module Catalog {

  /** An artist record as the proxy passes it through; the client only ever
      compares `id`s and displays the rest. */
  datatype Artist = Artist(
    id: string,
    name: string,
    imageUrls: seq<string>,
    popularity: int,
    followers: nat)

  /** The proxy the client talks to. */
  const ProxyBase: string := "http://localhost:3001"

  /** The genre of the grid shown on start-up and after "Inicio". */
  const DefaultGenre: string := "Pop"

  /** The two artist requests the client can send. */
  datatype ArtistQuery = ByGenre(genre: string) | ByName(name: string)

  const GenreRoute: string := "/api/artistsByGenre/"
  const NameRoute: string := "/api/artists/"

  /** The URL string passed to `fetch` for a request: the proxy, then the
      route of the request's kind, then the term inserted as typed, without
      encoding. The character right after the common prefix "/api/artists"
      tells the two routes apart. */
  function RequestUrl(q: ArtistQuery): (url: string)
    ensures |url| > |ProxyBase| + 12 && url[..|ProxyBase|] == ProxyBase
    ensures q.ByGenre? ==> |ProxyBase + GenreRoute| <= |url| && url[|ProxyBase|..|ProxyBase + GenreRoute|] == GenreRoute
    ensures q.ByName? ==> |ProxyBase + NameRoute| <= |url| && url[|ProxyBase|..|ProxyBase + NameRoute|] == NameRoute
    ensures url[|ProxyBase| + 12] == if q.ByGenre? then 'B' else '/'
    ensures q.ByGenre? ==> |ProxyBase + GenreRoute| <= |url| && url[|ProxyBase + GenreRoute|..] == q.genre
    ensures q.ByName? ==> |ProxyBase + NameRoute| <= |url| && url[|ProxyBase + NameRoute|..] == q.name
  {
    assert GenreRoute[12] == 'B' && NameRoute[12] == '/';
    match q
    case ByGenre(g) => ProxyBase + GenreRoute + g
    case ByName(n) => ProxyBase + NameRoute + n
  }

  /** Distinct requests never produce the same URL string. */
  lemma RequestUrlInjective(q1: ArtistQuery, q2: ArtistQuery)
    requires RequestUrl(q1) == RequestUrl(q2)
    ensures q1 == q2
  {
    var k := |ProxyBase| + 12;
    assert RequestUrl(q1)[k] == RequestUrl(q2)[k];
  }

  /** The request `handleSearch` sends for the value typed into the artist
      search box: the default genre grid when the box is empty, a name search
      otherwise. */
  function SearchQuery(value: string): (q: ArtistQuery)
    ensures q.ByGenre? <==> value == ""
    ensures q.ByGenre? ==> q == ByGenre(DefaultGenre)
    ensures q.ByName? ==> q.name == value
  {
    if value == "" then ByGenre(DefaultGenre) else ByName(value)
  }
}
