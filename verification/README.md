# Spotify artist browser: client view state

This project models the view state of the browser client of a small music
browser (`Client/front_spotify/src/App.js`). The page shows a grid of artists,
a detail page with videos for one artist, and a library of favourite artists.
A side panel lists genres that can be filtered by a search box.

The model has a pure part and an imperative part; three notes on
modelling choices follow them.

- **Pure part.** These are the expressions the component evaluates without
  changing anything: `isFavorite` (an array `some`), the `filter` behind
  `toggleFavorite` and `filteredGenres`, the `map` from video-search items
  to videos, and the render conditional that picks the panel.
  - They are Dafny functions built on `Lists.Any`, `Lists.Filter` and
    `Lists.Map`.
  - Each of those three is recursive. Its contract describes the result by
    index or by multiset, independently of the recursion.
  - Lemmas in `Favorites`, `Genres` and `Videos` state the properties of the
    view state.
- **Imperative part.** The component's `useState` variables are the fields
  of class `App.SpotifyApp`, and each event handler is one of its methods.
  - Each method states the whole new state as an update of the old
    snapshot: `State() == old(State()).(field := ...)`.
  - Each method keeps the invariant `Valid()`. No two favourites share an
    `id`. When there are videos to show, an artist is selected, so the
    detail page, which displays `selectedArtist.name`, always has an artist.
- **Network responses are parameters.** A handler that fetches takes the
  response as an `Option`. `None` stands for "the handler's `catch` branch
  ran". That covers a request that rejects. For the name search and the
  video search it also covers an error reply: the proxy's `{error}` body
  has no `artists`, and an error body from the video service has no
  `items`, so reading `data.artists.items` or calling `data.items.map`
  throws inside the `try`. The handler returns the request it sends, as an
  `ArtistQuery` whose URL is `Catalog.RequestUrl`, or as a `VideoSearch`.
- **Video-search failure.** When the video search's `catch` branch runs,
  the code stores `null` in `youtubeVideos`. The field is therefore an `Option<seq<Video>>`,
  and `CurrentView` requires it to be non-null, because the render
  conditional reads `youtubeVideos.length`.
- **Lower-casing.** `toLowerCase` is modelled on ASCII letters only
  (`Genres.LowerChar`).

## Model

| member | source | states |
|---|---|---|
| Lists.Any | Client/front_spotify/src/App.js:119 | `some` is true exactly when some index holds an element satisfying the predicate |
| Lists.Filter | Client/front_spotify/src/App.js:101 | `filter` returns an order-preserving sublist whose elements all satisfy the predicate, and it keeps every satisfying element as often as it occurs |
| Lists.Map | Client/front_spotify/src/App.js:55-59 | `map` keeps the length, and element i of the result is the function applied to element i |
| Favorites.IsFavorite | Client/front_spotify/src/App.js:118-120 | an artist is a favourite exactly when some entry has its id |
| Favorites.RemoveId | Client/front_spotify/src/App.js:101 | removing an id keeps the other entries in order with their multiplicities, and no remaining entry has that id |
| Favorites.Toggle | Client/front_spotify/src/App.js:99-105 | `toggleFavorite`'s new list: the artist appended when its id is absent; otherwise a strictly shorter ordered sublist with no entry of that id, every other entry kept as often as it occurs |
| Favorites.RemoveIdShrinks | Client/front_spotify/src/App.js:101 | filtering out an id that occurs makes the list strictly shorter |
| Favorites.RemoveIdKeepsUniqueIds | Client/front_spotify/src/App.js:101 | removing entries from a list with unique ids keeps the ids unique |
| Favorites.ToggleKeepsUniqueIds | Client/front_spotify/src/App.js:99-105 | toggling keeps "no two favourites share an id" |
| Favorites.ToggleAbsent | Client/front_spotify/src/App.js:102-104 | an artist whose id is absent is appended at the end, and the earlier entries are unchanged |
| Favorites.TogglePresent | Client/front_spotify/src/App.js:100-101 | an artist whose id is present has every entry with that id removed, and the rest keep their order; the list gets shorter |
| Favorites.ToggleFlips | Client/front_spotify/src/App.js:99-120 | after a toggle, `isFavorite` of the toggled id is negated, and for every other id it is unchanged |
| Favorites.ToggleKeepsOthers | Client/front_spotify/src/App.js:99-105 | the entries with other ids are exactly those before the toggle, in the same order |
| Favorites.ToggleTwiceFromAbsent | Client/front_spotify/src/App.js:99-105 | toggling an absent artist twice restores the list exactly |
| Favorites.ToggleTwiceFromPresent | Client/front_spotify/src/App.js:99-105 | toggling a present artist twice restores the set of favourite ids, with the artist moved to the end |
| Genres.LowerChar | Client/front_spotify/src/App.js:123 | `toLowerCase` on one character: an ASCII capital becomes the matching lower-case letter, other characters stay, and no capital remains |
| Genres.ToLower | Client/front_spotify/src/App.js:123 | `toLowerCase` keeps the length and lowers each character in place |
| Genres.ToLowerIdempotent | Client/front_spotify/src/App.js:123 | lowering twice is the same as lowering once |
| Genres.Includes | Client/front_spotify/src/App.js:123 | `includes` is true exactly when the needle occurs at some position of the string; the empty needle occurs everywhere |
| Genres.Matches | Client/front_spotify/src/App.js:123 | a genre matches exactly when the lowered term occurs at some position of the lowered genre |
| Genres.FilterGenres | Client/front_spotify/src/App.js:122-124 | `filteredGenres` is an order-preserving sublist of the genres, every element contains the lowered term, and every genre that contains it is kept as often as it occurs |
| Genres.EmptyTermKeepsAll | Client/front_spotify/src/App.js:122-124 | an empty genre search term shows every genre |
| Genres.CaseInsensitive | Client/front_spotify/src/App.js:122-124 | terms that differ only in letter case select the same genres |
| Genres.MissingCharExcludes | Client/front_spotify/src/App.js:123 | a needle that contains a character missing from the string does not occur in it |
| Genres.LowerAvoids | Client/front_spotify/src/App.js:123 | a lower-case letter that is absent from a string in both cases is absent from its lowered form |
| Genres.OnlyRockMatches | Client/front_spotify/src/App.js:18 | of the eight panel genres, only "Rock" contains "rock" |
| Genres.LowerRockSearch | Client/front_spotify/src/App.js:18-124 | typing "rock" in the genre box leaves exactly ["Rock"] |
| Genres.RockSearch | Client/front_spotify/src/App.js:18-124 | typing "ROCK" or "rock" in the genre box leaves exactly ["Rock"] |
| Videos.ToVideo | Client/front_spotify/src/App.js:55-59 | one item's video takes its id from `id.videoId` and its title and description from `snippet`; the other fields are dropped |
| Videos.ToVideos | Client/front_spotify/src/App.js:55-59 | the projection gives one video per item, in order, with that item's video id, title and description |
| Videos.ToVideosAppend | Client/front_spotify/src/App.js:55-59 | the projection of a concatenation is the concatenation of the projections |
| Views.SelectView | Client/front_spotify/src/App.js:179-224 | Grid exactly when there are no videos and the library is not viewed; Library exactly when it is, even with videos; Detail otherwise |
| Catalog.SearchQuery | Client/front_spotify/src/App.js:69-79 | the search box requests the default "Pop" grid exactly when the typed value is empty, and otherwise a name search for that value |
| Catalog.RequestUrl | Client/front_spotify/src/App.js:27-77 | the URL string is the proxy address, then "/api/artistsByGenre/" for a genre request or "/api/artists/" for a name search, then the term unchanged; the character after "/api/artists" ("B" or "/") tells the routes apart |
| Catalog.RequestUrlInjective | Client/front_spotify/src/App.js:37-77 | two artist requests with the same URL string are the same request (as strings, before any URL parsing) |
| App.SpotifyApp.Valid | Client/front_spotify/src/App.js:179-259 | the component's invariant: favourite ids are unique, and an artist is selected whenever there are videos, so whenever the render conditional picks the detail page, `selectedArtist` (read at line 259) is not null |
| App.SpotifyApp.CurrentView | Client/front_spotify/src/App.js:179-224 | the panel rendered from the current fields: Grid exactly when there are no videos and the library is off, Library exactly when the library is on, and under the invariant Detail only with a selected artist; undefined when the videos are null |
| App.SpotifyApp.IsFavorite | Client/front_spotify/src/App.js:118-120 | `isFavorite` on the current favourites: true exactly when some favourite has the artist's id |
| App.SpotifyApp.FilteredGenres | Client/front_spotify/src/App.js:122-124 | `filteredGenres` on the current state: an ordered sublist of `genres` holding exactly the genres that match the genre search term, each as often as it occurs in `genres` |
| App.SpotifyApp.constructor | Client/front_spotify/src/App.js:8-16 | the initial values of the state variables: menu closed, no artists, empty videos, no selection, empty terms and genres, no favourites, library off |
| App.SpotifyApp.Mount | Client/front_spotify/src/App.js:20-23 | mounting requests the Pop grid, shows it on success, and fills the genre panel with the eight genres |
| App.SpotifyApp.FetchArtists | Client/front_spotify/src/App.js:25-33 | requests the Pop grid; when a list arrives the artists are replaced, and when the request rejects (catch branch) nothing changes |
| App.SpotifyApp.FetchArtistsByGenre | Client/front_spotify/src/App.js:35-43 | requests the chosen genre; when a list arrives the artists are replaced, and when the request rejects (catch branch) nothing changes |
| App.SpotifyApp.FetchYoutubeVideo | Client/front_spotify/src/App.js:45-67 | searches by the artist's name for up to 3 results; on success the videos are the projected items, same length and order, and the artist is selected, which shows the detail page when there is a video and the library is not being viewed (from the library's "Ver" button the library stays on screen); when the request rejects (catch branch) the videos become null and nothing else changes |
| App.SpotifyApp.HandleSearch | Client/front_spotify/src/App.js:69-84 | records the typed value, sends the request `SearchQuery` chooses, replaces the artists when a list arrives, and changes nothing else when the request rejects (catch branch) |
| App.SpotifyApp.HandleGenreSearch | Client/front_spotify/src/App.js:86-88 | records the genre term and nothing else; the panel then shows `FilterGenres` of that term |
| App.SpotifyApp.HandleBackToArtists | Client/front_spotify/src/App.js:94-97 | clears the videos and the selected artist and nothing else; the grid shows unless the library is being viewed |
| App.SpotifyApp.ToggleFavorite | Client/front_spotify/src/App.js:99-105 | replaces the favourites by their toggle, keeps ids unique, negates `isFavorite` of the artist and leaves it unchanged for every other id |
| App.SpotifyApp.HandleViewLibrary | Client/front_spotify/src/App.js:107-109 | sets only `viewingLibrary`, which shows the library even with videos and a selected artist |
| App.SpotifyApp.HandleBackToHome | Client/front_spotify/src/App.js:111-116 | leaves the library, clears the selection and videos, reloads the Pop grid, and always shows the grid |
| App.SpotifyApp.ToggleMenu | Client/front_spotify/src/App.js:130 | flips only `menuOpen` |

## Left out

- Server side (`Server/app.js`). It is HTTP routing, the client-credentials
  token exchange and upstream calls: I/O and library calls only. Server/app.js
  is not part of this model.
- Requests, JSON parsing and async ordering. `fetch`, `response.json()`, the
  URL encoding of the artist name and the order in which concurrent
  responses resolve are left out. Each response is a method parameter, and
  its handler runs as one atomic step. A response that resolves after the
  user has moved on, and "last resolved wins", are not modelled.
- Response shapes and error replies on the genre route. Name search reads
  `data.artists.items` and genre search reads `data.artists`. Both are
  taken as an already extracted list of artists. The proxy reports its own
  failures as HTTP 500 with an `{error}` body, which `fetch` does not
  reject. For `fetchArtists`, `fetchArtistsByGenre` and the empty-value
  branch of `handleSearch`, reading `data.artists` then does not throw:
  the handler stores `undefined` in `artists`, and the grid's `artists.map`
  throws. That reply is not modelled; for these three handlers `None` is
  only a request that rejects.
- URL parsing. Catalog.RequestUrl is the URL string handed to `fetch`. The
  parsing `fetch` applies to it is not modelled: removing dot segments,
  cutting off a `#` fragment, splitting a `?` query. So a typed name such as
  `../artistsByGenre/Rock` reaches the genre route, and names that differ
  only after a `#` send the same request. Catalog.RequestUrlInjective is
  about the strings only.
- Rendering. The JSX markup, Bootstrap classes, iframes, image fallbacks,
  the truncation of descriptions to 100 characters for display and
  `toLocaleString` are left out. So is the library's "no favourites yet"
  message.
- `handleSearchSubmit`. It only prevents the form's default submission and
  changes no state.
- App.SpotifyApp.CurrentView: undefined after a failed video search, because
  rendering then throws. What React does after that throw, unmounting the
  tree, is not modelled.
- Genres.LowerChar: ASCII only. Non-ASCII letters are left unchanged, while
  the browser's `toLowerCase` would fold them too.
- Where each handler can be triggered. Every method can be called in every
  state of the model. The page offers them only in some views: "Inicio",
  "Biblioteca" and the genre panel only while `menuOpen` is set; the artist
  search box and the heart button only in the grid; "Ver", which starts
  the video search, in the grid and the library; "Volver" only on the
  detail page.
- React's state batching and closures. Each handler reads the current state.
  A handler that reads a stale snapshot within one batched event is not
  modelled.
